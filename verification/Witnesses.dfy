/** Building runs: how a state of interest is reached. */
module Witnesses {
  import opened Words
  import opened Results
  import opened Batches
  import opened Tags
  import opened Protocol

  /** No subscriber has been deployed yet. */
  ghost predicate NoneDeployed(events: seq<Event>) {
    forall e <- events :: !e.Deployed?
  }

  /** From `s` to `s'`, only ONU `x` has changed, and its subscribers have only been added to. */
  ghost predicate OnlyOnu(s: State, s': State, x: nat) {
    && x < |s.onus| && |s'.onus| == |s.onus| && s'.onus == s.onus[x := s'.onus[x]]
    && s'.pc == s.pc && s'.crashed == s.crashed && s'.onus[x].pon == s.onus[x].pon && s'.onus[x].id == s.onus[x].id
    && s'.onus[x].slot == s.onus[x].slot
  }

  /** The first slot launched, with a given id. */
  lemma LaunchFirst(c: Config, id: u32) returns (states: seq<State>, events: seq<Event>)
    requires ValidConfig(c) && c.prog != [] && c.prog[0].Slot? && c.prog[0].batch < c.pons && InPool(c.pool, id)
    ensures IsRun(c, states, events) && |events| == 1 && NoneDeployed(events)
    ensures states[1].pc == 1 && !states[1].crashed && |states[1].onus| == 1
    ensures var o := states[1].onus[0];
            o.pon == c.prog[0].pon && o.id == id && o.phase == Activating && o.pending == None && o.subs == []
  {
    assert Enabled(c, Init(), LaunchOnu(id));
    states, events := ExtendRun(c, [Init()], [], LaunchOnu(id));
  }

  /** A spawning ONU starts subscribers until it has `n`. */
  lemma {:induction false} SpawnTo(c: Config, states: seq<State>, events: seq<Event>, x: nat, n: nat)
    returns (states': seq<State>, events': seq<Event>)
    requires ValidConfig(c) && IsRun(c, states, events) && n <= c.subsPerOnu
    requires var s := states[|events|];
             !s.crashed && x < |s.onus| && s.onus[x].phase.Spawning? && s.onus[x].pending.None? && |s.onus[x].subs| <= n
    ensures NoneDeployed(events) ==> NoneDeployed(events')
    ensures IsRun(c, states', events') && events <= events' && OnlyOnu(states[|events|], states'[|events'|], x)
    ensures var o, o' := states[|events|].onus[x], states'[|events'|].onus[x];
            && o'.phase == Spawning && o'.pending == None && |o'.subs| == n && o.subs <= o'.subs
            && forall u | |o.subs| <= u < n :: o'.subs[u].phase == CreatingTp(0)
    decreases n - |states[|events|].onus[x].subs|
  {
    if |states[|events|].onus[x].subs| == n {
      states', events' := states, events;
    } else {
      var states1, events1 := ExtendRun(c, states, events, DrawCtag(x));
      var states2, events2 := ExtendRun(c, states1, events1, Spawn(x));
      states', events' := SpawnTo(c, states2, events2, x, n);
    }
  }

  /** A started subscriber creates its instances and is handed off. */
  lemma {:induction false} HandOffOne(c: Config, states: seq<State>, events: seq<Event>, x: nat, u: nat)
    returns (states': seq<State>, events': seq<Event>)
    requires ValidConfig(c) && IsRun(c, states, events)
    requires var s := states[|events|];
             !s.crashed && HasSub(s, x, u) && s.onus[x].subs[u].phase.CreatingTp? && s.onus[x].subs[u].phase.done <= c.tps
    ensures NoneDeployed(events) ==> NoneDeployed(events')
    ensures IsRun(c, states', events') && events <= events' && OnlyOnu(states[|events|], states'[|events'|], x)
    ensures var o, o' := states[|events|].onus[x], states'[|events'|].onus[x];
            && |o'.subs| == |o.subs| && o'.subs == o.subs[u := o.subs[u].(phase := Deploying)]
            && o' == o.(subs := o'.subs)
    decreases c.tps - states[|events|].onus[x].subs[u].phase.done
  {
    if states[|events|].onus[x].subs[u].phase.done == c.tps {
      states', events' := ExtendRun(c, states, events, HandOff(x, u));
    } else {
      var states1, events1 := ExtendRun(c, states, events, CreateTp(x, u, true));
      states', events' := HandOffOne(c, states1, events1, x, u);
    }
  }
}
