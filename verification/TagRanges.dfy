/** Which tags of a completed run are usable 12-bit VLAN ids, in terms of its configuration. */
module TagRanges {
  import opened Words
  import opened Results
  import opened Batches
  import opened Tags
  import opened Protocol
  import opened Safety
  import opened Launches
  import opened Progress
  import opened Draws
  import opened Isolation

  // ---------------------------------------------------------------- every draw has an owner

  ghost predicate OwnsDraw(o: Onu, i: nat) {
    (o.pending.Some? && o.pending.value.draw == i) || exists u :: 0 <= u < |o.subs| && o.subs[u].draw == i
  }

  predicate OwnsKey(o: Onu, k: Key) { k.pon == o.pon && k.onu == o.id && k.uni < |o.subs| }

  ghost predicate DrawOwned(s: State, i: nat) {
    exists x :: 0 <= x < |s.onus| && OwnsDraw(s.onus[x], i)
  }

  ghost predicate KeyOwned(s: State, k: Key) {
    exists x :: 0 <= x < |s.onus| && OwnsKey(s.onus[x], k)
  }

  ghost predicate AllOwned(s: State) {
    && (forall i: nat | i < |s.log| && s.log[i].CtagDraw? :: DrawOwned(s, i))
    && (forall k | k in FirstSeen(s.log) :: KeyOwned(s, k))
  }

  lemma OwnerStays(c: Config, s: State, e: Event, x: nat, i: nat)
    requires ValidConfig(c) && Enabled(c, s, e) && x < |s.onus| && OwnsDraw(s.onus[x], i)
    ensures x < |Apply(c, s, e).onus| && OwnsDraw(Apply(c, s, e).onus[x], i)
  {
    var o, o' := s.onus[x], Apply(c, s, e).onus[x];
    if u :| 0 <= u < |o.subs| && o.subs[u].draw == i {
      assert o'.subs[u].draw == i;
    } else if e == Spawn(x) {
      assert o'.subs[|o.subs|].draw == i;
    }
  }

  lemma StepKeepsDrawOwned(c: Config, s: State, e: Event, i: nat)
    requires ValidConfig(c) && Enabled(c, s, e) && AllOwned(s)
    requires i < |Apply(c, s, e).log| && Apply(c, s, e).log[i].CtagDraw?
    ensures DrawOwned(Apply(c, s, e), i)
  {
    if i < |s.log| {
      assert Apply(c, s, e).log[i] == s.log[i];
      var x :| 0 <= x < |s.onus| && OwnsDraw(s.onus[x], i);
      OwnerStays(c, s, e, x, i);
    } else {
      assert OwnsDraw(Apply(c, s, e).onus[e.x], i);
    }
  }

  lemma StepKeepsKeyOwned(c: Config, s: State, e: Event, k: Key)
    requires ValidConfig(c) && Enabled(c, s, e) && AllOwned(s) && k in FirstSeen(Apply(c, s, e).log)
    ensures KeyOwned(Apply(c, s, e), k)
  {
    var s' := Apply(c, s, e);
    if k in FirstSeen(s.log) {
      var x :| 0 <= x < |s.onus| && OwnsKey(s.onus[x], k);
      assert OwnsKey(s'.onus[x], k);
    } else {
      NewKey(c, s, e, k);
      assert OwnsKey(s'.onus[e.x], k);
    }
  }

  lemma NewKey(c: Config, s: State, e: Event, k: Key)
    requires ValidConfig(c) && Enabled(c, s, e) && k in FirstSeen(Apply(c, s, e).log) && k !in FirstSeen(s.log)
    ensures e.Spawn? && k == KeyOf(s.onus[e.x], |s.onus[e.x].subs|)
  {
    assert s.log + [] == s.log;
    if e.Spawn? && c.wf == Dt {
      FirstSeenLast(s.log, KeyOf(s.onus[e.x], |s.onus[e.x].subs|));
    } else if e.DrawCtag? {
      CountStep(s.log, CtagDraw(c.wf, KeyOf(s.onus[e.x], |s.onus[e.x].subs|)));
    }
  }

  lemma {:induction false} RunKeepsOwned(c: Config, states: seq<State>, events: seq<Event>, i: nat)
    requires ValidConfig(c) && IsRun(c, states, events) && i < |states|
    ensures AllOwned(states[i])
  {
    if i == 0 {
    } else {
      var s, e := states[i - 1], events[i - 1];
      RunKeepsOwned(c, states, events, i - 1);
      forall j: nat | j < |states[i].log| && states[i].log[j].CtagDraw?
        ensures DrawOwned(states[i], j)
      {
        StepKeepsDrawOwned(c, s, e, j);
      }
      forall k | k in FirstSeen(states[i].log)
        ensures KeyOwned(states[i], k)
      {
        StepKeepsKeyOwned(c, s, e, k);
      }
    }
  }

  // ---------------------------------------------------------------- the order of first requests is complete

  ghost predicate AllSeen(c: Config, s: State) {
    c.wf == Dt ==> |FirstSeen(s.log)| == Sum(s.onus, Started())
  }

  /** A subscriber being started has not asked for an S-tag before. */
  lemma SpawnIsFirst(c: Config, s: State, x: nat)
    requires ValidConfig(c) && TagInv(c, s) && AllOwned(s) && Enabled(c, s, Spawn(x))
    ensures KeyOf(s.onus[x], |s.onus[x].subs|) !in FirstSeen(s.log)
  {
    var k := KeyOf(s.onus[x], |s.onus[x].subs|);
    forall y | 0 <= y < |s.onus|
      ensures !OwnsKey(s.onus[y], k)
    {
      assert y != x ==> (s.onus[y].pon, s.onus[y].id) != (s.onus[x].pon, s.onus[x].id);
    }
    assert !KeyOwned(s, k);
  }

  lemma StepKeepsSeen(c: Config, s: State, e: Event)
    requires ValidConfig(c) && TagInv(c, s) && AllOwned(s) && AllSeen(c, s) && Enabled(c, s, e)
    ensures AllSeen(c, Apply(c, s, e))
  {
    var s' := Apply(c, s, e);
    if e.LaunchOnu? {
      SumAppend(s.onus, NewOnu(s, c.prog[s.pc].pon, e.id), Started());
    } else if !(e.IndexPanic? || e.IdError? || e.PassBarrier?) {
      var key := KeyOf(s.onus[e.x], |s.onus[e.x].subs|);
      SumUpdate(s.onus, e.x, s'.onus[e.x], Started());
      if e.Spawn? {
        SpawnIsFirst(c, s, e.x);
        FirstSeenLast(s.log, key);
      } else if e.DrawCtag? {
        CountStep(s.log, CtagDraw(c.wf, key));
      }
    }
  }

  lemma {:induction false} RunKeepsSeen(c: Config, states: seq<State>, events: seq<Event>, i: nat)
    requires ValidConfig(c) && IsRun(c, states, events) && i < |states|
    ensures AllSeen(c, states[i])
  {
    if i == 0 {
    } else {
      RunKeepsSeen(c, states, events, i - 1);
      RunKeepsTagInv(c, states, events, i - 1);
      RunKeepsOwned(c, states, events, i - 1);
      StepKeepsSeen(c, states[i - 1], events[i - 1]);
    }
  }

  // ---------------------------------------------------------------- a draw with a given number

  lemma {:induction false} NthDraw(log: seq<Draw>, wf: Workflow, pon: u32, n: nat) returns (i: nat)
    requires 1 <= n <= Count(log, wf, pon)
    ensures i < |log| && log[i].CtagDraw? && log[i].wf == wf && log[i].key.pon == pon
    ensures Count(log[..i + 1], wf, pon) == n
  {
    var m := |log| - 1;
    if n <= Count(log[..m], wf, pon) {
      i := NthDraw(log[..m], wf, pon, n);
      assert log[..m][..i + 1] == log[..i + 1];
    } else {
      i := m;
      assert log[..m + 1] == log;
    }
  }

  lemma PlaceInOrder(log: seq<Draw>, n: nat)
    requires n < |FirstSeen(log)|
    ensures IndexOf(FirstSeen(log), FirstSeen(log)[n]) == n
  {
    FirstSeenDistinct(log);
    var keys := FirstSeen(log);
    var m := IndexOf(keys, keys[n]);
    assert keys[m] == keys[n];
  }

  // ---------------------------------------------------------------- totals of a completed run

  lemma {:induction false} AllStarted(onus: seq<Onu>, q: nat, n: nat)
    requires forall o <- onus :: |o.subs| == n && o.pending.None?
    ensures Sum(onus, DrawnOn(q)) == Sum(onus, OnPort(q)) * n
    ensures Sum(onus, Started()) == |onus| * n
  {
    if onus == [] {
    } else {
      var m := |onus| - 1;
      AllStarted(onus[..m], q, n);
      assert |onus| * n == m * n + n;
      assert (Sum(onus[..m], OnPort(q)) + 1) * n == Sum(onus[..m], OnPort(q)) * n + n;
    }
  }

  /** A completed run without skipped launches has drawn for every planned subscriber. */
  lemma CompletedDraws(c: Config, states: seq<State>, events: seq<Event>, q: u32)
    requires ValidConfig(c) && IsRun(c, states, events) && Completed(c, states[|events|]) && NoSkip(events)
    ensures Count(states[|events|].log, c.wf, q) == PortSubs(c, q)
    ensures c.wf == Dt ==> |FirstSeen(states[|events|].log)| == TotalSubs(c)
    ensures forall o <- states[|events|].onus :: o.pending.None?
  {
    var s := states[|events|];
    RunKeepsInv(c, states, events, |events|);
    CompleteMeansClean(c, s);
    RunCountsDraws(c, states, events, |events|, q);
    RunKeepsSeen(c, states, events, |events|);
    CompletedCounts(c, states, events, q);
    SkipsCounted(events);
    AllStarted(s.onus, q, c.subsPerOnu);
  }

  // ---------------------------------------------------------------- usable C-tags

  ghost predicate CtagsUsable(s: State) {
    forall x, u | 0 <= x < |s.onus| && 0 <= u < |s.onus[x].subs| :: UsableVid(s.onus[x].subs[u].ctag)
  }

  /** In every state, C-tags are usable while no port has more planned subscribers than usable tags. */
  lemma CtagsUsableInRun(c: Config, states: seq<State>, events: seq<Event>, i: nat)
    requires ValidConfig(c) && IsRun(c, states, events) && i < |states|
    requires forall q: nat | q < c.pons :: PortSubs(c, q) <= UsableCtags(c.wf)
    ensures CtagsUsable(states[i])
  {
    var s := states[i];
    RunKeepsTagInv(c, states, events, i);
    forall x, u | 0 <= x < |s.onus| && 0 <= u < |s.onus[x].subs|
      ensures UsableVid(s.onus[x].subs[u].ctag)
    {
      assert SubTagged(c.wf, s.log, s.onus[x], u);
      DrawsBounded(c, states, events, i, s.onus[x].pon);
      CtagPlace(s.log, s.onus[x].subs[u].draw);
    }
  }

  /** A port with more subscribers than usable C-tags has a subscriber whose C-tag is unusable. */
  lemma CtagOverflow(c: Config, states: seq<State>, events: seq<Event>, q: u32) returns (x: nat, u: nat)
    requires ValidConfig(c) && IsRun(c, states, events) && Completed(c, states[|events|]) && NoSkip(events)
    requires PortSubs(c, q) > UsableCtags(c.wf)
    ensures HasSub(states[|events|], x, u) && !UsableVid(states[|events|].onus[x].subs[u].ctag)
  {
    var s := states[|events|];
    CompletedDraws(c, states, events, q);
    RunKeepsOwned(c, states, events, |events|);
    RunKeepsTagInv(c, states, events, |events|);
    var i := NthDraw(s.log, c.wf, q, UsableCtags(c.wf) + 1);
    assert DrawOwned(s, i);
    x :| 0 <= x < |s.onus| && OwnsDraw(s.onus[x], i);
    assert s.onus[x] in s.onus;
    u :| 0 <= u < |s.onus[x].subs| && s.onus[x].subs[u].draw == i;
    assert SubTagged(c.wf, s.log, s.onus[x], u);
    CtagPlace(s.log, i);
  }

  /** A completed run without skipped launches has only usable C-tags exactly when every port has few enough subscribers. */
  lemma CtagsUsableExactly(c: Config, states: seq<State>, events: seq<Event>)
    requires ValidConfig(c) && IsRun(c, states, events) && Completed(c, states[|events|]) && NoSkip(events)
    ensures CtagsUsable(states[|events|]) <==> forall q: nat | q < c.pons :: PortSubs(c, q) <= UsableCtags(c.wf)
  {
    if q: nat :| q < c.pons && PortSubs(c, q) > UsableCtags(c.wf) {
      var x, u := CtagOverflow(c, states, events, q);
    } else {
      CtagsUsableInRun(c, states, events, |events|);
    }
  }

  // ---------------------------------------------------------------- usable S-tags

  ghost predicate StagsUsable(s: State) {
    forall x, u | 0 <= x < |s.onus| && 0 <= u < |s.onus[x].subs| :: UsableVid(s.onus[x].subs[u].stag)
  }

  /** In ATT and TT the S-tag is the port's number plus two, hence usable exactly on ports up to 4092. */
  lemma PortStagUsable(c: Config, states: seq<State>, events: seq<Event>, i: nat, x: nat, u: nat)
    requires ValidConfig(c) && IsRun(c, states, events) && i < |states| && c.wf != Dt
    requires HasSub(states[i], x, u)
    ensures UsableVid(states[i].onus[x].subs[u].stag) <==> states[i].onus[x].pon <= 4092
  {
    RunKeepsTagInv(c, states, events, i);
    assert SubTagged(c.wf, states[i].log, states[i].onus[x], u);
  }

  /** In every state of a DT run, S-tags are usable while at most 4094 subscribers are planned on all ports together. */
  lemma DtStagsUsableInRun(c: Config, states: seq<State>, events: seq<Event>, i: nat)
    requires ValidConfig(c) && IsRun(c, states, events) && i < |states| && c.wf == Dt && TotalSubs(c) <= 4094
    ensures StagsUsable(states[i])
  {
    var s := states[i];
    RunKeepsTagInv(c, states, events, i);
    DrawsBounded(c, states, events, i, 0);
    forall x, u | 0 <= x < |s.onus| && 0 <= u < |s.onus[x].subs|
      ensures UsableVid(s.onus[x].subs[u].stag)
    {
      assert SubTagged(c.wf, s.log, s.onus[x], u);
    }
  }

  lemma DtStagOverflow(c: Config, states: seq<State>, events: seq<Event>) returns (x: nat, u: nat)
    requires ValidConfig(c) && IsRun(c, states, events) && Completed(c, states[|events|]) && NoSkip(events)
    requires c.wf == Dt && TotalSubs(c) > 4094
    ensures HasSub(states[|events|], x, u) && !UsableVid(states[|events|].onus[x].subs[u].stag)
  {
    var s := states[|events|];
    CompletedDraws(c, states, events, 0);
    RunKeepsOwned(c, states, events, |events|);
    RunKeepsTagInv(c, states, events, |events|);
    var k := FirstSeen(s.log)[4094];
    PlaceInOrder(s.log, 4094);
    assert KeyOwned(s, k);
    x :| 0 <= x < |s.onus| && OwnsKey(s.onus[x], k);
    u := k.uni;
    assert SubTagged(c.wf, s.log, s.onus[x], u);
    assert KeyOf(s.onus[x], u) == k;
  }

  /** A completed DT run without skipped launches has only usable S-tags exactly when it has at most 4094 subscribers. */
  lemma DtStagsUsableExactly(c: Config, states: seq<State>, events: seq<Event>)
    requires ValidConfig(c) && IsRun(c, states, events) && Completed(c, states[|events|]) && NoSkip(events)
    requires c.wf == Dt
    ensures StagsUsable(states[|events|]) <==> TotalSubs(c) <= 4094
  {
    if TotalSubs(c) > 4094 {
      var x, u := DtStagOverflow(c, states, events);
    } else {
      DtStagsUsableInRun(c, states, events, |events|);
    }
  }
}
