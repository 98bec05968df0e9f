/** Every provisioning run ends, and how it ends is decided by its failures. */
module Progress {
  import opened Words
  import opened Results
  import opened Batches
  import opened Tags
  import opened Protocol
  import opened Safety
  import opened Launches
  import opened Instances

  // ---------------------------------------------------------------- runs are bounded

  /** Steps a subscriber can still take. */
  ghost function SubWork(c: Config): SubState -> nat {
    (b: SubState) =>
      match b.phase
      case CreatingTp(d) => if d <= c.tps then c.tps - d + 2 else 2
      case Deploying => 1
      case _ => 0
  }

  /** Steps to draw for, spawn and run `n` more subscribers. */
  ghost function SpawnWork(c: Config, n: nat): nat {
    if n == 0 then 0 else SpawnWork(c, n - 1) + c.tps + 4
  }

  /** Steps an ONU and its subscribers can still take. */
  ghost function OnuWork(c: Config): Onu -> nat {
    (o: Onu) =>
      Sum(o.subs, SubWork(c)) +
      match o.phase
      case Activating => SpawnWork(c, c.subsPerOnu) + 2
      case Spawning =>
        if |o.subs| < c.subsPerOnu then SpawnWork(c, c.subsPerOnu - |o.subs|) + (if o.pending.Some? then 0 else 1)
        else 1
      case _ => 0
  }

  /** Steps the main goroutine can still take, each launch paid for in advance. */
  ghost function MainWork(c: Config, n: nat): nat {
    if n == 0 then 0 else MainWork(c, n - 1) + SpawnWork(c, c.subsPerOnu) + 3
  }

  ghost function Work(c: Config, s: State): nat {
    (if s.crashed then 0 else 1)
    + MainWork(c, if s.pc <= |c.prog| then |c.prog| - s.pc else 0)
    + Sum(s.onus, OnuWork(c))
  }

  lemma PhaseWork(c: Config, o: Onu, u: nat, p: SubPhase, wg: int)
    requires u < |o.subs|
    requires SubWork(c)(o.subs[u].(phase := p)) < SubWork(c)(o.subs[u])
    ensures OnuWork(c)(WithPhase(o, u, p).(subWg := wg)) < OnuWork(c)(o)
  {
    SumUpdate(o.subs, u, o.subs[u].(phase := p), SubWork(c));
  }

  lemma SpawnLessWork(c: Config, s: State, x: nat)
    requires ValidConfig(c) && Enabled(c, s, Spawn(x))
    ensures OnuWork(c)(Apply(c, s, Spawn(x)).onus[x]) < OnuWork(c)(s.onus[x])
  {
    var o := s.onus[x];
    SumAppend(o.subs, NewSub(c, s.log, o), SubWork(c));
  }

  lemma SubStepLessWork(c: Config, s: State, e: Event)
    requires ValidConfig(c) && Enabled(c, s, e) && (e.CreateTp? || e.HandOff? || e.Deployed?)
    ensures e.x < |s.onus| && OnuWork(c)(Apply(c, s, e).onus[e.x]) < OnuWork(c)(s.onus[e.x])
  {
    var o, o' := s.onus[e.x], Apply(c, s, e).onus[e.x];
    PhaseWork(c, o, e.u, o'.subs[e.u].phase, o'.subWg);
  }

  lemma OnuStepLessWork(c: Config, s: State, e: Event)
    requires ValidConfig(c) && Inv(c, s) && Enabled(c, s, e)
    requires !(e.IndexPanic? || e.IdError? || e.LaunchOnu? || e.PassBarrier?)
    ensures e.x < |s.onus| && OnuWork(c)(Apply(c, s, e).onus[e.x]) < OnuWork(c)(s.onus[e.x])
  {
    if e.Spawn? {
      SpawnLessWork(c, s, e.x);
    } else if e.CreateTp? || e.HandOff? || e.Deployed? {
      SubStepLessWork(c, s, e);
    } else if e.Activate? {
      assert s.onus[e.x].subs == [];
    }
  }

  lemma LaunchLessWork(c: Config, s: State, e: Event)
    requires ValidConfig(c) && Enabled(c, s, e) && e.LaunchOnu?
    ensures Work(c, Apply(c, s, e)) < Work(c, s)
  {
    var o := NewOnu(s, c.prog[s.pc].pon, e.id);
    SumAppend(s.onus, o, OnuWork(c));
    assert OnuWork(c)(o) == SpawnWork(c, c.subsPerOnu) + 2 by { assert Sum(o.subs, SubWork(c)) == 0; }
  }

  lemma ReplaceLessWork(c: Config, s: State, x: nat, o: Onu, s': State)
    requires x < |s.onus| && OnuWork(c)(o) < OnuWork(c)(s.onus[x])
    requires s'.onus == s.onus[x := o] && s'.pc == s.pc && s'.crashed == s.crashed
    ensures Work(c, s') < Work(c, s)
  {
    SumUpdate(s.onus, x, o, OnuWork(c));
  }

  /** Every step of every goroutine uses up some work. */
  lemma StepLessWork(c: Config, s: State, e: Event)
    requires ValidConfig(c) && Inv(c, s) && Enabled(c, s, e)
    ensures Work(c, Apply(c, s, e)) < Work(c, s)
  {
    if e.LaunchOnu? {
      LaunchLessWork(c, s, e);
    } else if !(e.IndexPanic? || e.IdError? || e.PassBarrier?) {
      OnuStepLessWork(c, s, e);
      ReplaceLessWork(c, s, e.x, Apply(c, s, e).onus[e.x], Apply(c, s, e));
    }
  }

  /** No run is longer than the work the configuration starts with. */
  lemma {:induction false} RunsEnd(c: Config, states: seq<State>, events: seq<Event>, i: nat)
    requires ValidConfig(c) && IsRun(c, states, events) && i < |states|
    ensures i + Work(c, states[i]) <= Work(c, Init()) == 1 + MainWork(c, |c.prog|)
  {
    if i == 0 {
    } else {
      RunsEnd(c, states, events, i - 1);
      RunKeepsInv(c, states, events, i - 1);
      StepLessWork(c, states[i - 1], events[i - 1]);
    }
  }

  // ---------------------------------------------------------------- how runs end

  ghost predicate OnuFailed(o: Onu) {
    o.phase.ActivationFailed? || exists u :: 0 <= u < |o.subs| && o.subs[u].phase.TpFailed?
  }

  ghost predicate SomeFailure(s: State) {
    exists x :: 0 <= x < |s.onus| && OnuFailed(s.onus[x])
  }

  ghost predicate Stuck(c: Config, s: State) {
    forall e :: !Enabled(c, s, e)
  }

  /** An ONU that has neither failed nor finished can take a step. */
  lemma OnuProgress(c: Config, s: State, x: nat) returns (e: Event)
    requires Inv(c, s) && !s.crashed && x < |s.onus|
    requires !s.onus[x].phase.Provisioned? && !OnuFailed(s.onus[x])
    ensures Enabled(c, s, e) && !IsFailure(e) && !e.IndexPanic?
  {
    var o := s.onus[x];
    if o.phase.Activating? {
      e := Activate(x, Ok);
    } else if |o.subs| < c.subsPerOnu {
      e := if o.pending.Some? then Spawn(x) else DrawCtag(x);
    } else if o.subWg == 0 {
      e := JoinSubs(x);
    } else {
      var u := SomeTerm(o.subs, Running());
      e := match o.subs[u].phase
        case CreatingTp(d) => if d < c.tps then CreateTp(x, u, true) else HandOff(x, u)
        case _ => Deployed(x, u, ProvisionSuccess);
    }
  }

  lemma SomeTerm<T>(s: seq<T>, w: T -> nat) returns (i: nat)
    requires Sum(s, w) > 0
    ensures i < |s| && w(s[i]) > 0
  {
    if forall x <- s :: w(x) == 0 {
      SumZero(s, w);
      assert false;
    }
    i :| i < |s| && w(s[i]) > 0;
  }

  /** Without a failure or a crash, a run that is not complete can go on, and skips a launch only for want of an id. */
  lemma CanStep(c: Config, s: State) returns (e: Event)
    requires ValidConfig(c) && Inv(c, s) && !s.crashed && !SomeFailure(s) && !Completed(c, s)
    ensures Enabled(c, s, e) && !IsFailure(e) && (e.IndexPanic? ==> !IndexInRange(c.prog, c.pons))
    ensures e.IdError? ==> forall id: u32 :: !Fresh(c.pool, s.onus, c.prog[s.pc].pon, id)
  {
    if c.prog[s.pc].Slot? {
      if c.prog[s.pc].batch >= c.pons {
        e := IndexPanic;
      } else if id: u32 :| Fresh(c.pool, s.onus, c.prog[s.pc].pon, id) {
        e := LaunchOnu(id);
      } else {
        e := IdError;
      }
    } else if s.onuWg == 0 {
      e := PassBarrier;
    } else {
      var x := SomeTerm(s.onus, Outstanding());
      assert !OnuFailed(s.onus[x]);
      e := OnuProgress(c, s, x);
    }
  }

  /** Every launched ONU is provisioned, with all its subscribers started and each with its final reason. */
  ghost predicate AllProvisioned(c: Config, s: State) {
    forall x | 0 <= x < |s.onus| ::
      s.onus[x].phase.Provisioned? && |s.onus[x].subs| == c.subsPerOnu && AllFinished(s.onus[x].subs)
  }

  /** The last barrier closes the program, so completing leaves nothing failed behind. */
  lemma CompleteMeansClean(c: Config, s: State)
    requires ValidConfig(c) && Inv(c, s) && Completed(c, s)
    ensures !SomeFailure(s) && AllProvisioned(c, s)
  {
    forall x | 0 <= x < |s.onus|
      ensures s.onus[x].phase.Provisioned? && !OnuFailed(s.onus[x])
    {
      var q := |c.prog| - 1;
      assert c.prog[q].Barrier? && s.onus[x].slot < q;
    }
  }

  /** The two events after which a wait group can never reach zero again. */
  predicate IsFailure(e: Event) {
    (e.Activate? && e.answer != Ok) || (e.CreateTp? && !e.ok)
  }

  lemma FailureStays(c: Config, s: State, e: Event)
    requires ValidConfig(c) && Enabled(c, s, e)
    ensures SomeFailure(Apply(c, s, e)) <==> SomeFailure(s) || IsFailure(e)
  {
    var s' := Apply(c, s, e);
    if SomeFailure(s) {
      var x :| 0 <= x < |s.onus| && OnuFailed(s.onus[x]);
      OnuFailureStays(c, s, e, x);
    }
    if IsFailure(e) {
      assert e.CreateTp? ==> s'.onus[e.x].subs[e.u].phase.TpFailed?;
      assert OnuFailed(s'.onus[e.x]);
    }
    if SomeFailure(s') && !IsFailure(e) {
      var x :| 0 <= x < |s'.onus| && OnuFailed(s'.onus[x]);
      OnuFailureOld(c, s, e, x);
    }
  }

  lemma OnuFailureStays(c: Config, s: State, e: Event, x: nat)
    requires ValidConfig(c) && Enabled(c, s, e) && x < |s.onus| && OnuFailed(s.onus[x])
    ensures x < |Apply(c, s, e).onus| && OnuFailed(Apply(c, s, e).onus[x])
  {
    var o, o' := s.onus[x], Apply(c, s, e).onus[x];
    if !o.phase.ActivationFailed? {
      var u :| 0 <= u < |o.subs| && o.subs[u].phase.TpFailed?;
      assert o'.subs[u] == o.subs[u];
    }
  }

  lemma OnuFailureOld(c: Config, s: State, e: Event, x: nat)
    requires ValidConfig(c) && Enabled(c, s, e) && !IsFailure(e)
    requires x < |Apply(c, s, e).onus| && OnuFailed(Apply(c, s, e).onus[x])
    ensures x < |s.onus| && OnuFailed(s.onus[x])
  {
    var o' := Apply(c, s, e).onus[x];
    if !o'.phase.ActivationFailed? {
      var u :| 0 <= u < |o'.subs| && o'.subs[u].phase.TpFailed?;
      assert u < |s.onus[x].subs| && s.onus[x].subs[u] == o'.subs[u];
    }
  }

  ghost predicate NoFailureBefore(events: seq<Event>, n: nat)
    requires n <= |events|
  {
    forall i | 0 <= i < n :: !IsFailure(events[i]) && !events[i].IndexPanic?
  }

  lemma {:induction false} FailureHistory(c: Config, states: seq<State>, events: seq<Event>, i: nat)
    requires ValidConfig(c) && IsRun(c, states, events) && i < |states|
    ensures SomeFailure(states[i]) || states[i].crashed <==> !NoFailureBefore(events, i)
  {
    if i == 0 {
    } else {
      FailureHistory(c, states, events, i - 1);
      FailureStays(c, states[i - 1], events[i - 1]);
    }
  }

  /**
    * The outcome of a run.  Runs are finite, and one that cannot be extended has completed all
    * batches exactly when no activation returned an error, no technology-profile instance creation
    * failed and no resource-manager index was out of range.  Otherwise the main goroutine has
    * crashed or waits for ever.
    */
  lemma Outcome(c: Config, states: seq<State>, events: seq<Event>)
    requires ValidConfig(c) && IsRun(c, states, events) && Stuck(c, states[|events|])
    ensures Completed(c, states[|events|]) <==> NoFailureBefore(events, |events|)
  {
    var s := states[|events|];
    RunKeepsInv(c, states, events, |events|);
    FailureHistory(c, states, events, |events|);
    if Completed(c, s) {
      CompleteMeansClean(c, s);
    } else if !SomeFailure(s) && !s.crashed {
      var e := CanStep(c, s);
      assert false;
    }
  }

  /** One failed activation or instance creation, and no continuation of the run ever completes. */
  lemma FailureBlocks(c: Config, states: seq<State>, events: seq<Event>)
    requires ValidConfig(c) && IsRun(c, states, events)
    requires exists e <- events :: IsFailure(e)
    ensures !Completed(c, states[|events|])
  {
    var i :| 0 <= i < |events| && IsFailure(events[i]);
    RunKeepsInv(c, states, events, |events|);
    FailureHistory(c, states, events, |events|);
    if Completed(c, states[|events|]) {
      CompleteMeansClean(c, states[|events|]);
    }
  }

  /** An ONU whose activation or one of whose instance creations failed stays failed. */
  lemma {:induction false} FailedOnuStays(c: Config, states: seq<State>, events: seq<Event>, i: nat, j: nat)
    requires ValidConfig(c) && IsRun(c, states, events) && i < j < |states| && IsFailure(events[i])
    ensures events[i].x < |states[i].onus| && events[i].x < |states[j].onus|
    ensures OnuFailed(states[j].onus[events[i].x])
    ensures states[j].onus[events[i].x].slot == states[i].onus[events[i].x].slot
  {
    if j == i + 1 {
      var e := events[i];
      assert e.CreateTp? ==> states[j].onus[e.x].subs[e.u].phase.TpFailed?;
    } else {
      FailedOnuStays(c, states, events, i, j - 1);
      OnuFailureStays(c, states[j - 1], events[j - 1], events[i].x);
    }
  }

  /** A failure of an ONU blocks the barrier of its batch, and every later one, for ever. */
  lemma FailureBlocksBatch(c: Config, states: seq<State>, events: seq<Event>, i: nat, j: nat, q: nat)
    requires ValidConfig(c) && IsRun(c, states, events) && i < j < |states|
    requires IsFailure(events[i]) && events[i].x < |states[i].onus|
    requires states[i].onus[events[i].x].slot < q < |c.prog| && c.prog[q].Barrier?
    ensures states[j].pc <= q
  {
    FailedOnuStays(c, states, events, i, j);
    RunKeepsInv(c, states, events, j);
    var o := states[j].onus[events[i].x];
    assert !(o.phase.Provisioned? && AllFinished(o.subs));
  }

  /** "Already exists", logged as an activation in progress, is such a failure: no run that meets it completes. */
  lemma AlreadyExistsBlocks(c: Config, states: seq<State>, events: seq<Event>)
    requires ValidConfig(c) && IsRun(c, states, events)
    requires exists e <- events :: e.Activate? && e.answer == AlreadyExists
    ensures !Completed(c, states[|events|])
  {
    var e :| e in events && e.Activate? && e.answer == AlreadyExists;
    assert IsFailure(e);
    FailureBlocks(c, states, events);
  }

  /** The pool has an id for every launch attempt on a port. */
  ghost predicate IdsSuffice(c: Config) {
    forall q: nat | q < c.pons :: Sum(c.prog, OnPon(q)) <= PoolSize(c.pool)
  }

  lemma IdLeft(c: Config, states: seq<State>, events: seq<Event>)
    requires ValidConfig(c) && IsRun(c, states, events) && IdsSuffice(c) && AtSlot(c, states[|events|])
    ensures var s := states[|events|]; exists id: u32 :: Fresh(c.pool, s.onus, c.prog[s.pc].pon, id)
  {
    var s := states[|events|];
    var q := c.prog[s.pc].pon;
    assert c.prog[s.pc] in c.prog;
    LaunchesCount(c, states, events, |events|, q);
    NextSlot(c.prog, s.pc, OnPon(q));
    SumConcat(c.prog[..s.pc + 1], c.prog[s.pc + 1..], OnPon(q));
    assert c.prog == c.prog[..s.pc + 1] + c.prog[s.pc + 1..];
    PoolBound(c, states, events, |events|, q);
  }

  /**
    * Nothing but a failure stops a run.  While there has been none, the run can be continued, without
    * skipping another launch, until every launch attempt not skipped so far has its ONU and every
    * ONU and every subscriber is provisioned: there is no deadlock.
    */
  lemma {:induction false} CanComplete(c: Config, states: seq<State>, events: seq<Event>)
    returns (states': seq<State>, events': seq<Event>)
    requires ValidConfig(c) && IsRun(c, states, events) && IndexInRange(c.prog, c.pons) && IdsSuffice(c)
    requires NoFailureBefore(events, |events|)
    ensures IsRun(c, states', events') && states <= states' && events <= events'
    ensures NoFailureBefore(events', |events'|) && Sum(events', Skip()) == Sum(events, Skip())
    ensures var s' := states'[|events'|];
            && Completed(c, s') && AllProvisioned(c, s') && AllCreated(c, s', events')
            && |s'.onus| + Sum(events, Skip()) == Sum(c.prog, AnyPon())
    decreases Work(c, states[|events|])
  {
    var s := states[|events|];
    RunKeepsInv(c, states, events, |events|);
    FailureHistory(c, states, events, |events|);
    if Completed(c, s) {
      states', events' := states, events;
      CompleteMeansClean(c, s);
      CompletedCounts(c, states, events, 0);
    } else {
      var e := CanStep(c, s);
      if e.IdError? {
        IdLeft(c, states, events);
        assert false;
      }
      StepLessWork(c, s, e);
      SumAppend(events, e, Skip());
      states', events' := CanComplete(c, states + [Apply(c, s, e)], events + [e]);
    }
  }

  lemma {:induction false} PastSlots(c: Config, states: seq<State>, events: seq<Event>, i: nat, q: nat)
    requires ValidConfig(c) && IsRun(c, states, events) && i < |states|
    requires q < states[i].pc
    ensures q < |c.prog| && (c.prog[q].Slot? ==> c.prog[q].batch < c.pons)
  {
    if i > 0 && q >= states[i - 1].pc {
      assert q == states[i - 1].pc;
    } else if i > 0 {
      PastSlots(c, states, events, i - 1, q);
    }
  }

  /** A run completes only if every batch index of its program selects a resource manager. */
  lemma CompletesInRange(c: Config, states: seq<State>, events: seq<Event>)
    requires ValidConfig(c) && IsRun(c, states, events) && Completed(c, states[|events|])
    ensures IndexInRange(c.prog, c.pons)
  {
    forall x | x in c.prog && x.Slot?
      ensures x.batch < c.pons
    {
      var q :| 0 <= q < |c.prog| && c.prog[q] == x;
      PastSlots(c, states, events, |events|, q);
    }
  }

  /** With every batch index in range, no run crashes. */
  lemma {:induction false} NoCrash(c: Config, states: seq<State>, events: seq<Event>, i: nat)
    requires ValidConfig(c) && IsRun(c, states, events) && i < |states| && IndexInRange(c.prog, c.pons)
    ensures !states[i].crashed
  {
    if i == 0 {
    } else {
      NoCrash(c, states, events, i - 1);
      var s := states[i - 1];
      if events[i - 1].IndexPanic? {
        assert false;
      }
    }
  }

  // ---------------------------------------------------------------- the configured run

  /** The run a command-line configuration asks for on a device. */
  function Configured(numOfOnu: u64, pons: u32, subsPerOnu: u32, tps: nat, wf: Workflow, pool: Pool): (c: Config)
    ensures c.pons == pons && c.subsPerOnu == subsPerOnu && c.tps == tps && c.wf == wf && c.pool == pool
    ensures wf != Unknown ==> ValidConfig(c)
  {
    ProgramValid(PlanOf(numOfOnu, pons), pons);
    Config(ProgramOf(PlanOf(numOfOnu, pons), pons), pons, subsPerOnu, tps, wf, pool)
  }

  ghost predicate IsConfigured(c: Config, numOfOnu: u64): (b: bool)
    ensures b ==> ValidConfig(c)
  {
    c == Configured(numOfOnu, c.pons, c.subsPerOnu, c.tps, c.wf, c.pool) && c.wf != Unknown
  }

  lemma ProgramValid(plan: Plan, pons: u32)
    ensures var prog := ProgramOf(plan, pons);
            && (forall x <- prog :: x.Slot? ==> x.pon < pons)
            && (prog != [] ==> prog[|prog| - 1].Barrier?)
  {
    if plan.Launch? {
      ProgramBatches(plan.batches, pons, plan.perBatch);
    }
  }

  /** The configurations whose batch size and batch indices are all in range. */
  predicate WithinLimits(numOfOnu: u64, pons: u32) {
    IsPowerOfTwo(numOfOnu) && 1 <= pons <= numOfOnu && 1 <= ToU32(numOfOnu / pons) <= 4 * pons + 3
  }

  /**
    * For every configuration: the launch loop is reached and completes exactly when the ONU count
    * is a power of two, is at least the port count, asks every port (in 32 bits) for at least one
    * and at most 4 * pons + 3 ONUs, and no activation and no technology-profile instance creation
    * fails.
    */
  lemma ConfiguredOutcome(numOfOnu: u64, c: Config, states: seq<State>, events: seq<Event>)
    requires IsConfigured(c, numOfOnu)
    requires IsRun(c, states, events) && Stuck(c, states[|events|])
    ensures PlanOf(numOfOnu, c.pons).Launch? && Completed(c, states[|events|])
       <==> WithinLimits(numOfOnu, c.pons) && forall e <- events :: !IsFailure(e)
  {
    if IsPowerOfTwo(numOfOnu) && 1 <= c.pons <= numOfOnu {
      PlanShape(numOfOnu, c.pons);
      IndexCondition(numOfOnu, c.pons);
    }
    Outcome(c, states, events);
    if Completed(c, states[|events|]) {
      CompletesInRange(c, states, events);
    } else if IndexInRange(c.prog, c.pons) {
      var i :| 0 <= i < |events| && (IsFailure(events[i]) || events[i].IndexPanic?);
      NoCrash(c, states, events, i + 1);
    }
  }

  /**
    * What a completed run has launched: the planned number of ONUs less the launches skipped for
    * want of an id, all of them provisioned; without skips equally many on each port; and the
    * requested number exactly when nothing was skipped, the port count divides the ONU count and
    * the per-port count fits 32 bits.
    */
  lemma ConfiguredLaunches(numOfOnu: u64, c: Config, states: seq<State>, events: seq<Event>, q: nat)
    requires IsPowerOfTwo(numOfOnu) && 1 <= c.pons <= numOfOnu
    requires IsConfigured(c, numOfOnu)
    requires IsRun(c, states, events) && Completed(c, states[|events|])
    ensures var s := states[|events|];
            && |s.onus| + Sum(events, Skip()) == Sum(c.prog, AnyPon()) && AllProvisioned(c, s) && AllCreated(c, s, events)
            && (NoSkip(events) && q < c.pons ==> Sum(s.onus, OnPort(q)) * c.pons == |s.onus|)
            && (|s.onus| == numOfOnu <==> NoSkip(events) && numOfOnu % c.pons == 0 && numOfOnu / c.pons < WORD32)
  {
    var s := states[|events|];
    Coverage(numOfOnu, c.pons, q);
    CompletedCounts(c, states, events, q);
    RunKeepsInv(c, states, events, |events|);
    CompleteMeansClean(c, s);
    SkipsCounted(events);
    if NoSkip(events) && q < c.pons {
      assert Sum(s.onus, OnPort(q)) == Sum(c.prog, OnPon(q));
    }
  }

  lemma CompletedCounts(c: Config, states: seq<State>, events: seq<Event>, q: nat)
    requires ValidConfig(c) && IsRun(c, states, events) && Completed(c, states[|events|])
    ensures var s := states[|events|];
            && AllCreated(c, s, events)
            && |s.onus| + Sum(events, Skip()) == Sum(c.prog, AnyPon())
            && Sum(s.onus, OnPort(q)) <= Sum(c.prog, OnPon(q)) <= Sum(s.onus, OnPort(q)) + Sum(events, Skip())
  {
    LaunchesCount(c, states, events, |events|, q);
    assert c.prog[..|c.prog|] == c.prog && events[..|events|] == events;
    CompletedCreates(c, states, events);
  }

  /** In a completed run every subscriber has been given all its instances. */
  lemma CompletedCreates(c: Config, states: seq<State>, events: seq<Event>)
    requires ValidConfig(c) && IsRun(c, states, events) && Completed(c, states[|events|])
    ensures AllCreated(c, states[|events|], events)
  {
    var s := states[|events|];
    RunKeepsInv(c, states, events, |events|);
    CompleteMeansClean(c, s);
    assert events[..|events|] == events;
    forall x: nat, u: nat | HasSub(s, x, u)
      ensures Created(events, x, u) == c.tps && Refused(events, x, u) == 0
    {
      InstancesFirst(c, states, events, |events|, x, u);
    }
  }

  /** Some run completes without skipping a launch. */
  ghost predicate CanLaunchAll(c: Config)
    requires ValidConfig(c)
  {
    exists states, events :: IsRun(c, states, events) && Completed(c, states[|events|]) && NoSkip(events)
  }

  /**
    * Some run launches and provisions everything planned exactly when the configuration is within
    * the limits and the device's pool has an id for every attempt on a port.
    */
  lemma ConfiguredCompletes(numOfOnu: u64, c: Config)
    requires IsConfigured(c, numOfOnu) && PlanOf(numOfOnu, c.pons).Launch?
    ensures CanLaunchAll(c) <==> WithinLimits(numOfOnu, c.pons) && PerPort(numOfOnu, c.pons) <= PoolSize(c.pool)
  {
    PlanShape(numOfOnu, c.pons);
    IndexCondition(numOfOnu, c.pons);
    Planned(numOfOnu, c.pons, 0);
    if WithinLimits(numOfOnu, c.pons) && PerPort(numOfOnu, c.pons) <= PoolSize(c.pool) {
      var states, events := LaunchAll(numOfOnu, c);
    }
    if states, events :| IsRun(c, states, events) && Completed(c, states[|events|]) && NoSkip(events) {
      CompletesInRange(c, states, events);
      CompletedCounts(c, states, events, 0);
      SkipsCounted(events);
      PoolBound(c, states, events, |events|, 0);
    }
  }

  /** Such a run, with an ONU for every attempt. */
  lemma LaunchAll(numOfOnu: u64, c: Config) returns (states: seq<State>, events: seq<Event>)
    requires IsConfigured(c, numOfOnu)
    requires WithinLimits(numOfOnu, c.pons) && PerPort(numOfOnu, c.pons) <= PoolSize(c.pool)
    ensures IsRun(c, states, events) && Completed(c, states[|events|]) && NoSkip(events)
    ensures AllProvisioned(c, states[|events|]) && AllCreated(c, states[|events|], events)
    ensures |states[|events|].onus| == PerPort(numOfOnu, c.pons) * c.pons
  {
    IndexCondition(numOfOnu, c.pons);
    forall q: nat | q < c.pons
      ensures Sum(c.prog, OnPon(q)) <= PoolSize(c.pool)
    {
      Planned(numOfOnu, c.pons, q);
    }
    Planned(numOfOnu, c.pons, 0);
    states, events := CanComplete(c, [Init()], []);
    SkipsCounted(events);
  }
}
