/** What every step of a provisioning run keeps. */
module Safety {
  import opened Words
  import opened Results
  import opened Batches
  import opened Tags
  import opened Protocol

  /** Started subscribers whose Done has not fired. */
  ghost function Running(): SubState -> nat {
    (b: SubState) => if b.phase.Finished? then 0 else 1
  }

  /** Launched ONUs whose Done has not fired. */
  ghost function Outstanding(): Onu -> nat {
    (o: Onu) => if o.phase.Provisioned? then 0 else 1
  }

  ghost predicate AllFinished(subs: seq<SubState>) {
    forall u | 0 <= u < |subs| :: subs[u].phase.Finished?
  }

  ghost predicate OnuOk(c: Config, o: Onu) {
    && o.subWg == Sum(o.subs, Running())
    && |o.subs| <= c.subsPerOnu
    && (o.pending.Some? ==> o.phase.Spawning? && |o.subs| < c.subsPerOnu)
    && (o.phase.Activating? || o.phase.ActivationFailed? ==> o.subs == [])
    && (o.phase.Provisioned? ==> |o.subs| == c.subsPerOnu && AllFinished(o.subs))
    && (forall u | 0 <= u < |o.subs| :: o.subs[u].phase.CreatingTp? ==> o.subs[u].phase.done <= c.tps)
  }

  /** Once the main goroutine is past a barrier, everything launched before it has been provisioned. */
  ghost predicate BarriersHold(c: Config, s: State) {
    forall q, x | 0 <= q < s.pc <= |c.prog| && 0 <= x < |s.onus| && c.prog[q].Barrier? && s.onus[x].slot < q ::
      s.onus[x].phase.Provisioned?
  }

  ghost predicate Inv(c: Config, s: State) {
    && s.pc <= |c.prog|
    && (forall x | 0 <= x < |s.onus| :: OnuOk(c, s.onus[x]) && s.onus[x].slot < s.pc && c.prog[s.onus[x].slot].Slot?)
    && s.onuWg == Sum(s.onus, Outstanding())
    && BarriersHold(c, s)
  }

  /** Replacing one ONU's record, with the wait group adjusted to match. */
  lemma ReplaceOnu(c: Config, s: State, x: nat, o: Onu, s': State)
    requires Inv(c, s) && x < |s.onus| && OnuOk(c, o)
    requires o.slot == s.onus[x].slot
    requires s.onus[x].phase.Provisioned? ==> o.phase.Provisioned?
    requires s'.onus == s.onus[x := o] && s'.pc == s.pc
    requires s'.onuWg == s.onuWg + Outstanding()(o) - Outstanding()(s.onus[x])
    ensures Inv(c, s')
  {
    SumUpdate(s.onus, x, o, Outstanding());
  }

  /** Moving one subscriber on, with its ONU's wait group adjusted to match. */
  lemma ReplacePhase(c: Config, o: Onu, u: nat, p: SubPhase, o': Onu)
    requires OnuOk(c, o) && u < |o.subs| && !o.subs[u].phase.Finished?
    requires p.CreatingTp? ==> p.done <= c.tps
    requires o' == WithPhase(o, u, p).(subWg := o.subWg - if p.Finished? then 1 else 0)
    ensures OnuOk(c, o')
  {
    SumUpdate(o.subs, u, o.subs[u].(phase := p), Running());
  }

  lemma LaunchKeepsInv(c: Config, s: State, id: u32)
    requires ValidConfig(c) && Inv(c, s) && Enabled(c, s, LaunchOnu(id))
    ensures Inv(c, Apply(c, s, LaunchOnu(id)))
  {
    SumAppend(s.onus, NewOnu(s, c.prog[s.pc].pon, id), Outstanding());
    assert Sum([], Running()) == 0;
  }

  lemma BarrierKeepsInv(c: Config, s: State)
    requires ValidConfig(c) && Inv(c, s) && Enabled(c, s, PassBarrier)
    ensures Inv(c, Apply(c, s, PassBarrier))
  {
    forall x | 0 <= x < |s.onus|
      ensures s.onus[x].phase.Provisioned?
    {
      SumTerm(s.onus, x, Outstanding());
    }
  }

  lemma MainStepKeepsInv(c: Config, s: State, e: Event)
    requires ValidConfig(c) && Inv(c, s) && Enabled(c, s, e)
    requires e.IndexPanic? || e.IdError? || e.LaunchOnu? || e.PassBarrier?
    ensures Inv(c, Apply(c, s, e))
  {
    if e.LaunchOnu? {
      LaunchKeepsInv(c, s, e.id);
    } else if e.PassBarrier? {
      BarrierKeepsInv(c, s);
    }
  }

  lemma SpawnKeepsOnu(c: Config, s: State, x: nat)
    requires ValidConfig(c) && Inv(c, s) && Enabled(c, s, Spawn(x))
    ensures OnuOk(c, Apply(c, s, Spawn(x)).onus[x])
  {
    var o := s.onus[x];
    SumAppend(o.subs, NewSub(c, s.log, o), Running());
  }

  lemma JoinKeepsOnu(c: Config, s: State, x: nat)
    requires ValidConfig(c) && Inv(c, s) && Enabled(c, s, JoinSubs(x))
    ensures OnuOk(c, Apply(c, s, JoinSubs(x)).onus[x])
  {
    var o := s.onus[x];
    forall u | 0 <= u < |o.subs|
      ensures o.subs[u].phase.Finished?
    {
      SumTerm(o.subs, u, Running());
    }
  }

  lemma OnuStepKeepsInv(c: Config, s: State, e: Event)
    requires ValidConfig(c) && Inv(c, s) && Enabled(c, s, e)
    requires e.Activate? || e.DrawCtag? || e.Spawn? || e.JoinSubs?
    ensures Inv(c, Apply(c, s, e))
  {
    var s' := Apply(c, s, e);
    match e {
      case Spawn(x) => SpawnKeepsOnu(c, s, x);
      case JoinSubs(x) => JoinKeepsOnu(c, s, x);
      case Activate(x, _) =>
      case DrawCtag(x) =>
    }
    ReplaceOnu(c, s, e.x, s'.onus[e.x], s');
  }

  lemma SubStepKeepsInv(c: Config, s: State, e: Event)
    requires ValidConfig(c) && Inv(c, s) && Enabled(c, s, e)
    requires e.CreateTp? || e.HandOff? || e.Deployed?
    ensures Inv(c, Apply(c, s, e))
  {
    var s' := Apply(c, s, e);
    var o, o' := s.onus[e.x], s'.onus[e.x];
    ReplacePhase(c, o, e.u, o'.subs[e.u].phase, o');
    ReplaceOnu(c, s, e.x, o', s');
  }

  lemma StepKeepsInv(c: Config, s: State, e: Event)
    requires ValidConfig(c) && Inv(c, s) && Enabled(c, s, e)
    ensures Inv(c, Apply(c, s, e))
  {
    if e.IndexPanic? || e.IdError? || e.LaunchOnu? || e.PassBarrier? {
      MainStepKeepsInv(c, s, e);
    } else if e.Activate? || e.DrawCtag? || e.Spawn? || e.JoinSubs? {
      OnuStepKeepsInv(c, s, e);
    } else {
      SubStepKeepsInv(c, s, e);
    }
  }

  lemma {:induction false} RunKeepsInv(c: Config, states: seq<State>, events: seq<Event>, i: nat)
    requires ValidConfig(c) && IsRun(c, states, events) && i < |states|
    ensures Inv(c, states[i])
  {
    if i == 0 {
    } else {
      RunKeepsInv(c, states, events, i - 1);
      StepKeepsInv(c, states[i - 1], events[i - 1]);
    }
  }

  /**
    * Nested barrier safety, over every interleaving: the wait groups count exactly the goroutines
    * they wait for, so neither ever goes negative; and behind every barrier the main goroutine has
    * passed, every launched ONU activated and each of its subscribers has its final reason.
    */
  lemma BarrierSafety(c: Config, states: seq<State>, events: seq<Event>, i: nat)
    requires ValidConfig(c) && IsRun(c, states, events) && i < |states|
    ensures states[i].onuWg == Sum(states[i].onus, Outstanding()) >= 0
    ensures forall x | 0 <= x < |states[i].onus| ::
              states[i].onus[x].subWg == Sum(states[i].onus[x].subs, Running()) >= 0
    ensures forall q, x | 0 <= q < states[i].pc && q < |c.prog| && c.prog[q].Barrier?
                       && 0 <= x < |states[i].onus| && states[i].onus[x].slot < q ::
              && states[i].onus[x].phase.Provisioned?
              && |states[i].onus[x].subs| == c.subsPerOnu
              && AllFinished(states[i].onus[x].subs)
  {
    RunKeepsInv(c, states, events, i);
  }
}
