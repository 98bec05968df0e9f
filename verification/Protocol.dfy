/**
  * A whole provisioning run as a transition system.
  *
  * The main goroutine executes a launch program; every launch starts an activation goroutine, an
  * activated ONU starts its subscribers, and each subscriber creates its technology-profile
  * instances and deploys its workflow.  Two levels of wait groups join them.  Any goroutine that
  * can take a step may take it next.
  */
module Protocol {
  import opened Words
  import opened Results
  import opened Batches
  import opened Tags

  /** The device's range of ONU ids, which every port draws from; empty if `last` is below `first`. */
  datatype Pool = Pool(first: u32, last: u32)

  predicate InPool(p: Pool, id: u32) { p.first <= id <= p.last }

  function PoolSize(p: Pool): nat { if p.first <= p.last then p.last - p.first + 1 else 0 }

  datatype Config = Config(prog: seq<Instr>, pons: u32, subsPerOnu: u32, tps: nat, wf: Workflow, pool: Pool)

  ghost predicate ValidConfig(c: Config) {
    && c.wf != Unknown
    && (forall x <- c.prog :: x.Slot? ==> x.pon < c.pons)
    && (c.prog != [] ==> c.prog[|c.prog| - 1].Barrier?)
  }

  datatype SubPhase =
    | CreatingTp(done: nat)       // Start's loop over the technology-profile ids
    | TpFailed                    // early return: Reason is set, Done is never called
    | Deploying                   // DeployWorkflow
    | Finished(reason: Reason)    // the deferred Done has fired

  /** `draw` is the place of the C-tag draw in the allocators' history. */
  datatype SubState = SubState(uni: u32, ctag: u32, stag: u32, draw: nat, phase: SubPhase)

  datatype OnuPhase =
    | Activating                  // activateONU
    | ActivationFailed            // Start is never called
    | Spawning                    // OnuDevice.Start: the loop and the wait after it
    | Provisioned                 // onuWg.Done() was called

  datatype Drawn = Drawn(ctag: u32, draw: nat)

  /** `slot` is the program position of the launch; `pending` a C-tag drawn for the next subscriber. */
  datatype Onu = Onu(slot: nat, serial: nat, pon: u32, id: u32, phase: OnuPhase,
                     subWg: int, pending: Option<Drawn>, subs: seq<SubState>)

  datatype State = State(pc: nat, crashed: bool, serials: nat, onuWg: int, onus: seq<Onu>, log: seq<Draw>)

  datatype Event =
    | IndexPanic                                      // the batch index selects no resource manager
    | IdError                                         // no ONU id: skip this launch
    | LaunchOnu(id: u32)
    | PassBarrier
    | Activate(x: nat, answer: Code)
    | DrawCtag(x: nat)
    | Spawn(x: nat)
    | JoinSubs(x: nat)
    | CreateTp(x: nat, u: nat, ok: bool)
    | HandOff(x: nat, u: nat)
    | Deployed(x: nat, u: nat, reason: Reason)

  function Init(): State { State(0, false, 0, 0, [], []) }

  predicate AtSlot(c: Config, s: State) { s.pc < |c.prog| && c.prog[s.pc].Slot? }

  predicate HasSub(s: State, x: nat, u: nat) { x < |s.onus| && u < |s.onus[x].subs| }

  /**
    * The ONU-id allocator is not part of this repository; it is assumed to give out ids of its pool
    * only and not to repeat an id on a port.
    */
  predicate Fresh(pool: Pool, onus: seq<Onu>, pon: nat, id: u32) {
    InPool(pool, id) && forall o <- onus :: !(o.pon == pon && o.id == id)
  }

  predicate Enabled(c: Config, s: State, e: Event) {
    !s.crashed &&
    match e
    case IndexPanic => AtSlot(c, s) && c.prog[s.pc].batch >= c.pons
    case IdError => AtSlot(c, s) && c.prog[s.pc].batch < c.pons
    case LaunchOnu(id) => AtSlot(c, s) && c.prog[s.pc].batch < c.pons && Fresh(c.pool, s.onus, c.prog[s.pc].pon, id)
    case PassBarrier => s.pc < |c.prog| && c.prog[s.pc].Barrier? && s.onuWg == 0
    case Activate(x, _) => x < |s.onus| && s.onus[x].phase.Activating?
    case DrawCtag(x) =>
      x < |s.onus| && s.onus[x].phase.Spawning? && s.onus[x].pending.None? && |s.onus[x].subs| < c.subsPerOnu
    case Spawn(x) => x < |s.onus| && s.onus[x].phase.Spawning? && s.onus[x].pending.Some? && |s.onus[x].subs| < c.subsPerOnu
    case JoinSubs(x) =>
      && x < |s.onus| && s.onus[x].phase.Spawning? && s.onus[x].pending.None?
      && |s.onus[x].subs| == c.subsPerOnu && s.onus[x].subWg == 0
    case CreateTp(x, u, _) =>
      HasSub(s, x, u) && s.onus[x].subs[u].phase.CreatingTp? && s.onus[x].subs[u].phase.done < c.tps
    case HandOff(x, u) => HasSub(s, x, u) && s.onus[x].subs[u].phase == CreatingTp(c.tps)
    case Deployed(x, u, _) => HasSub(s, x, u) && s.onus[x].subs[u].phase.Deploying?
  }

  function NewOnu(s: State, pon: u32, id: u32): Onu {
    Onu(s.pc, s.serials + 1, pon, id, Activating, 0, None, [])
  }

  /** The ONU is started only if the device reports no error; "already exists" is an error here. */
  function PhaseAfter(answer: Code): OnuPhase { if answer == Ok then Spawning else ActivationFailed }

  function KeyOf(o: Onu, uni: u32): Key { Key(o.pon, o.id, uni) }

  function NewSub(c: Config, log: seq<Draw>, o: Onu): SubState
    requires o.pending.Some? && |o.subs| < c.subsPerOnu
  {
    var uni: u32 := |o.subs|;
    SubState(uni, o.pending.value.ctag, StagResult(log, c.wf, KeyOf(o, uni)), o.pending.value.draw, CreatingTp(0))
  }

  function WithOnu(s: State, x: nat, o: Onu): State
    requires x < |s.onus|
  {
    s.(onus := s.onus[x := o])
  }

  function WithPhase(o: Onu, u: nat, p: SubPhase): Onu
    requires u < |o.subs|
  {
    o.(subs := o.subs[u := o.subs[u].(phase := p)])
  }

  function Apply(c: Config, s: State, e: Event): State
    requires ValidConfig(c) && Enabled(c, s, e)
  {
    match e
    case IndexPanic => s.(crashed := true)
    case IdError => s.(pc := s.pc + 1, serials := s.serials + 1)
    case LaunchOnu(id) =>
      var i := c.prog[s.pc];
      assert i in c.prog;
      State(s.pc + 1, false, s.serials + 1, s.onuWg + 1, s.onus + [NewOnu(s, i.pon, id)], s.log)
    case PassBarrier => s.(pc := s.pc + 1)
    case Activate(x, answer) => WithOnu(s, x, s.onus[x].(phase := PhaseAfter(answer)))
    case DrawCtag(x) =>
      var o := s.onus[x];
      var key := KeyOf(o, |o.subs|);
      WithOnu(s, x, o.(pending := Some(Drawn(CtagResult(s.log, c.wf, key), |s.log|))))
        .(log := s.log + CtagLog(c.wf, key))
    case Spawn(x) =>
      var o := s.onus[x];
      WithOnu(s, x, o.(pending := None, subWg := o.subWg + 1, subs := o.subs + [NewSub(c, s.log, o)]))
        .(log := s.log + StagLog(c.wf, KeyOf(o, |o.subs|)))
    case JoinSubs(x) => WithOnu(s, x, s.onus[x].(phase := Provisioned)).(onuWg := s.onuWg - 1)
    case CreateTp(x, u, ok) =>
      var o := s.onus[x];
      WithOnu(s, x, WithPhase(o, u, if ok then CreatingTp(o.subs[u].phase.done + 1) else TpFailed))
    case HandOff(x, u) => WithOnu(s, x, WithPhase(s.onus[x], u, Deploying))
    case Deployed(x, u, reason) =>
      var o := s.onus[x];
      WithOnu(s, x, WithPhase(o, u, Finished(reason)).(subWg := o.subWg - 1))
  }

  /** The states and events of one interleaving, from the start of the launch loop. */
  ghost predicate IsRun(c: Config, states: seq<State>, events: seq<Event>)
    requires ValidConfig(c)
  {
    && |states| == |events| + 1
    && states[0] == Init()
    && forall i | 0 <= i < |events| :: Enabled(c, states[i], events[i]) && states[i + 1] == Apply(c, states[i], events[i])
  }

  lemma ExtendRun(c: Config, states: seq<State>, events: seq<Event>, e: Event)
    returns (states': seq<State>, events': seq<Event>)
    requires ValidConfig(c) && IsRun(c, states, events) && Enabled(c, states[|events|], e)
    ensures IsRun(c, states', events') && states'[|events'|] == Apply(c, states[|events|], e)
    ensures states <= states' && events' == events + [e]
  {
    states', events' := states + [Apply(c, states[|events|], e)], events + [e];
  }

  predicate Completed(c: Config, s: State) { s.pc == |c.prog| && !s.crashed }
}
