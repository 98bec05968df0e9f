/** The exact limits of a run: which port numbers, names and tags stay distinct and usable. */
module Limits {
  import opened Words
  import opened Results
  import opened Batches
  import opened Tags
  import opened Protocol
  import opened Safety
  import opened Launches
  import opened Progress
  import opened Draws
  import opened Isolation
  import opened TagRanges
  import opened Witnesses
  import Serials
  import UniPorts

  // ---------------------------------------------------------------- port numbers

  ghost predicate DistinctPorts(s: State) {
    forall x: nat, u: nat, y: nat, v: nat | HasSub(s, x, u) && HasSub(s, y, v) && (x, u) != (y, v) ::
      PortOf(s.onus[x], s.onus[x].subs[u]) != PortOf(s.onus[y], s.onus[y].subs[v])
  }

  /** In every state of every run. */
  ghost predicate AlwaysDistinctPorts(c: Config)
    requires ValidConfig(c)
  {
    forall states, events, i | IsRun(c, states, events) && 0 <= i < |states| :: DistinctPorts(states[i])
  }

  /** A run in which the first ONU starts seventeen subscribers. */
  lemma SeventeenStarted(c: Config, id: u32) returns (states: seq<State>, events: seq<Event>)
    requires ValidConfig(c) && c.prog != [] && c.prog[0].Slot? && c.prog[0].batch < c.pons && InPool(c.pool, id)
    requires c.subsPerOnu > 16
    ensures IsRun(c, states, events) && |states[|events|].onus| == 1
    ensures var o := states[|events|].onus[0]; o.pon == c.prog[0].pon && o.id == id && |o.subs| == 17
  {
    states, events := LaunchFirst(c, id);
    states, events := ExtendRun(c, states, events, Activate(0, Ok));
    states, events := SpawnTo(c, states, events, 0, 17);
  }

  lemma SeventeenClash(c: Config, states: seq<State>, events: seq<Event>)
    requires ValidConfig(c) && c.pons <= 0x10_0000 && IsRun(c, states, events) && |states[|events|].onus| == 1
    requires var o := states[|events|].onus[0]; o.id % 2 == 1 && o.id < 256 && |o.subs| == 17
    ensures !DistinctPorts(states[|events|])
  {
    var s := states[|events|];
    var o := s.onus[0];
    RunKeepsTagInv(c, states, events, |events|);
    assert SubTagged(c.wf, s.log, o, 0) && SubTagged(c.wf, s.log, o, 16);
    UniPorts.PortsClash(o.pon, o.id);
    assert HasSub(s, 0, 0) && HasSub(s, 0, 16);
    assert PortOf(s.onus[0], s.onus[0].subs[0]) == PortOf(s.onus[0], s.onus[0].subs[16]);
  }

  lemma {:induction false} RunKeepsPool(c: Config, states: seq<State>, events: seq<Event>, i: nat)
    requires ValidConfig(c) && IsRun(c, states, events) && i < |states|
    ensures forall o <- states[i].onus :: InPool(c.pool, o.id)
  {
    if i == 0 {
    } else {
      RunKeepsPool(c, states, events, i - 1);
      var s, e := states[i - 1], events[i - 1];
      if !(e.IdError? || e.PassBarrier? || e.IndexPanic? || e.LaunchOnu?) {
        assert states[i].onus == s.onus[e.x := states[i].onus[e.x]];
        assert s.onus[e.x] in s.onus;
      }
    }
  }

  lemma PortsDistinctAt(c: Config, states: seq<State>, events: seq<Event>, i: nat)
    requires ValidConfig(c) && c.pons <= 0x10_0000 && c.pool.last < 256 && c.subsPerOnu <= 16
    requires IsRun(c, states, events) && i < |states|
    ensures DistinctPorts(states[i])
  {
    var s := states[i];
    RunKeepsPool(c, states, events, i);
    forall x: nat, u: nat, y: nat, v: nat | HasSub(s, x, u) && HasSub(s, y, v) && (x, u) != (y, v)
      ensures PortOf(s.onus[x], s.onus[x].subs[u]) != PortOf(s.onus[y], s.onus[y].subs[v])
    {
      assert s.onus[x] in s.onus && s.onus[y] in s.onus;
      PortsDistinctInRun(c, states, events, i, x, u, y, v);
    }
  }

  /**
    * UNI port numbers: with up to 2^20 ports and a pool of at least two ONU ids, all below 256, the
    * subscribers of every run have distinct port numbers exactly when an ONU has at most 16.
    */
  lemma PortsDistinctExactly(c: Config)
    requires ValidConfig(c) && c.pons <= 0x10_0000 && c.pool.first < c.pool.last < 256
    requires c.prog != [] && c.prog[0].Slot? && c.prog[0].batch < c.pons
    ensures AlwaysDistinctPorts(c) <==> c.subsPerOnu <= 16
  {
    if c.subsPerOnu > 16 {
      var id := if c.pool.first % 2 == 1 then c.pool.first else c.pool.first + 1;
      var states, events := SeventeenStarted(c, id);
      SeventeenClash(c, states, events);
    } else {
      forall states: seq<State>, events, i | IsRun(c, states, events) && 0 <= i < |states|
        ensures DistinctPorts(states[i])
      {
        PortsDistinctAt(c, states, events, i);
      }
    }
  }

  // ---------------------------------------------------------------- names

  function NameOf(o: Onu, b: SubState): seq<Serials.byte> { Serials.SubscriberName(o.serial, b.uni) }

  ghost predicate DistinctNames(s: State) {
    forall x: nat, u: nat, y: nat, v: nat | HasSub(s, x, u) && HasSub(s, y, v) && (x, u) != (y, v) ::
      NameOf(s.onus[x], s.onus[x].subs[u]) != NameOf(s.onus[y], s.onus[y].subs[v])
  }

  /** Without skipped launches, the n-th ONU has the n-th serial number. */
  lemma {:induction false} SerialsInOrder(c: Config, states: seq<State>, events: seq<Event>, i: nat)
    requires ValidConfig(c) && IsRun(c, states, events) && i < |states| && NoSkip(events)
    ensures |states[i].onus| == states[i].serials
    ensures forall x | 0 <= x < |states[i].onus| :: states[i].onus[x].serial == x + 1
  {
    if i == 0 {
    } else {
      SerialsInOrder(c, states, events, i - 1);
      var e := events[i - 1];
      assert !e.IdError?;
    }
  }

  /** The serial numbers 9000 and 9001 print alike, so their ONUs' first subscribers share a name. */
  lemma NamesClash(c: Config, states: seq<State>, events: seq<Event>)
    requires ValidConfig(c) && IsRun(c, states, events) && Completed(c, states[|events|]) && NoSkip(events)
    requires c.subsPerOnu >= 1 && |states[|events|].onus| > 9000
    ensures !DistinctNames(states[|events|])
  {
    var s := states[|events|];
    SerialsInOrder(c, states, events, |events|);
    RunKeepsInv(c, states, events, |events|);
    CompleteMeansClean(c, s);
    RunKeepsTagInv(c, states, events, |events|);
    var o, p := s.onus[8999], s.onus[9000];
    assert SubTagged(c.wf, s.log, o, 0) && SubTagged(c.wf, s.log, p, 0);
    Serials.FirstAlike();
    Serials.NamesAlike(9000, 0, 9001, 0);
    assert HasSub(s, 8999, 0) && HasSub(s, 9000, 0);
    assert NameOf(s.onus[8999], s.onus[8999].subs[0]) == NameOf(s.onus[9000], s.onus[9000].subs[0]);
  }

  /** A completed run without skipped launches has distinct names exactly up to 9000 launches. */
  lemma NamesDistinctExactly(c: Config, states: seq<State>, events: seq<Event>)
    requires ValidConfig(c) && IsRun(c, states, events) && Completed(c, states[|events|]) && NoSkip(events)
    requires c.subsPerOnu >= 1
    ensures DistinctNames(states[|events|]) <==> Sum(c.prog, AnyPon()) <= 9000
  {
    var s := states[|events|];
    CompletedCounts(c, states, events, 0);
    SkipsCounted(events);
    if Sum(c.prog, AnyPon()) > 9000 {
      NamesClash(c, states, events);
    } else {
      forall x: nat, u: nat, y: nat, v: nat | HasSub(s, x, u) && HasSub(s, y, v) && (x, u) != (y, v)
        ensures NameOf(s.onus[x], s.onus[x].subs[u]) != NameOf(s.onus[y], s.onus[y].subs[v])
      {
        NamesDistinctInRun(c, states, events, |events|, x, u, y, v);
      }
    }
  }

  // ---------------------------------------------------------------- in terms of the configuration

  /** Subscribers planned on each port, and in all. */
  ghost function PortShare(c: Config, numOfOnu: u64): nat { PerPort(numOfOnu, c.pons) * c.subsPerOnu }
  ghost function AllShares(c: Config, numOfOnu: u64): nat { c.pons * PortShare(c, numOfOnu) }

  lemma Regroup(a: nat, b: nat, c: nat)
    ensures a * b * c == b * (a * c)
  {
    assert a * b * c == (b * a) * c;
  }

  lemma ConfiguredShares(numOfOnu: u64, c: Config)
    requires IsConfigured(c, numOfOnu)
    ensures forall q: nat | q < c.pons :: PortSubs(c, q) == PortShare(c, numOfOnu)
    ensures TotalSubs(c) == AllShares(c, numOfOnu)
  {
    Planned(numOfOnu, c.pons, 0);
    Regroup(PerPort(numOfOnu, c.pons), c.pons, c.subsPerOnu);
    forall q: nat | q < c.pons
      ensures PortSubs(c, q) == PortShare(c, numOfOnu)
    {
      Planned(numOfOnu, c.pons, q);
    }
  }

  /** For a configured run: port numbers. */
  lemma ConfiguredPorts(numOfOnu: u64, c: Config)
    requires IsConfigured(c, numOfOnu) && PlanOf(numOfOnu, c.pons).Launch?
    requires c.pons <= 0x10_0000 && c.pool.first < c.pool.last < 256
    ensures AlwaysDistinctPorts(c) <==> c.subsPerOnu <= 16
  {
    FirstSlots(numOfOnu, c);
    PortsDistinctExactly(c);
  }

  /** The main goroutine starts with as many attempts on port 0 as a batch has per port. */
  lemma FirstSlots(numOfOnu: u64, c: Config)
    requires IsConfigured(c, numOfOnu) && PlanOf(numOfOnu, c.pons).Launch?
    ensures var k := PlanOf(numOfOnu, c.pons).perBatch;
            && c.pons >= 1 && 1 <= k <= |c.prog|
            && forall i | 0 <= i < k :: c.prog[i] == Slot(0, 0)
  {
    var plan := PlanOf(numOfOnu, c.pons);
    PlanShape(numOfOnu, c.pons);
    HalveCases(ToU32(numOfOnu / c.pons));
    ProgramStart(plan.batches, c.pons, plan.perBatch);
    forall i | 0 <= i < plan.perBatch
      ensures Attempts(0, 0, plan.perBatch)[i] == Slot(0, 0)
    {
      AttemptAt(0, 0, plan.perBatch, i);
    }
  }

  /** Names. */
  lemma ConfiguredNames(numOfOnu: u64, c: Config, states: seq<State>, events: seq<Event>)
    requires IsConfigured(c, numOfOnu) && c.subsPerOnu >= 1
    requires IsRun(c, states, events) && Completed(c, states[|events|]) && NoSkip(events)
    ensures DistinctNames(states[|events|]) <==> PerPort(numOfOnu, c.pons) * c.pons <= 9000
  {
    Planned(numOfOnu, c.pons, 0);
    NamesDistinctExactly(c, states, events);
  }

  /** C-tags, and in DT S-tags, that are usable VLAN ids. */
  lemma ConfiguredTags(numOfOnu: u64, c: Config, states: seq<State>, events: seq<Event>)
    requires IsConfigured(c, numOfOnu) && c.pons >= 1
    requires IsRun(c, states, events) && Completed(c, states[|events|]) && NoSkip(events)
    ensures CtagsUsable(states[|events|]) <==> PortShare(c, numOfOnu) <= UsableCtags(c.wf)
    ensures c.wf == Dt ==> (StagsUsable(states[|events|]) <==> AllShares(c, numOfOnu) <= 4094)
  {
    ConfiguredShares(numOfOnu, c);
    assert PortSubs(c, 0) == PortShare(c, numOfOnu);
    CtagsUsableExactly(c, states, events);
    if c.wf == Dt {
      DtStagsUsableExactly(c, states, events);
    }
  }

  /** The configurations whose tag counters cannot wrap, for which all tag pairs of a run are distinct. */
  lemma ConfiguredCounters(numOfOnu: u64, c: Config)
    requires IsConfigured(c, numOfOnu) && c.pons >= 1
    ensures CountersFit(c) <==>
              && FirstCtag(c.wf) - 1 + PortShare(c, numOfOnu) < WORD32
              && (if c.wf == Dt then AllShares(c, numOfOnu) < WORD32 else c.pons <= WORD32 - 2)
  {
    ConfiguredShares(numOfOnu, c);
    assert PortSubs(c, 0) == PortShare(c, numOfOnu);
  }
}
