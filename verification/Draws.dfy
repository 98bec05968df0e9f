/** Draw accounting: every tag draw of a run belongs to a subscriber that has been, or is being, started. */
module Draws {
  import opened Words
  import opened Results
  import opened Batches
  import opened Tags
  import opened Protocol
  import opened Launches

  /** C-tags drawn for the subscribers of an ONU, a pending one included. */
  function Drawn(o: Onu): nat { |o.subs| + if o.pending.Some? then 1 else 0 }

  ghost function DrawnOn(q: nat): Onu -> nat {
    (o: Onu) => if o.pon == q then Drawn(o) else 0
  }

  ghost function Started(): Onu -> nat {
    (o: Onu) => |o.subs|
  }

  ghost predicate DrawsCounted(c: Config, s: State, q: u32) {
    && Count(s.log, c.wf, q) == Sum(s.onus, DrawnOn(q))
    && |FirstSeen(s.log)| <= Sum(s.onus, Started())
    && forall o <- s.onus :: Drawn(o) <= c.subsPerOnu
  }

  lemma LogStep(log: seq<Draw>, d: Draw, wf: Workflow, q: u32)
    ensures Count(log + [d], wf, q)
         == Count(log, wf, q) + if d.CtagDraw? && d.wf == wf && d.key.pon == q then 1 else 0
    ensures |FirstSeen(log + [d])| <= |FirstSeen(log)| + if d.StagDraw? then 1 else 0
  {
    assert (log + [d])[..|log|] == log;
  }

  /** Replacing one ONU's record, with the history grown by what the record accounts for. */
  lemma ReplaceCounted(c: Config, s: State, x: nat, o: Onu, s': State, q: u32)
    requires DrawsCounted(c, s, q) && x < |s.onus| && s'.onus == s.onus[x := o]
    requires Drawn(o) <= c.subsPerOnu
    requires Count(s'.log, c.wf, q) + DrawnOn(q)(s.onus[x]) == Count(s.log, c.wf, q) + DrawnOn(q)(o)
    requires |FirstSeen(s'.log)| + |s.onus[x].subs| <= |FirstSeen(s.log)| + |o.subs|
    ensures DrawsCounted(c, s', q)
  {
    SumUpdate(s.onus, x, o, DrawnOn(q));
    SumUpdate(s.onus, x, o, Started());
  }

  lemma OnuStepCountsDraws(c: Config, s: State, e: Event, q: u32)
    requires ValidConfig(c) && DrawsCounted(c, s, q) && Enabled(c, s, e)
    requires !(e.IndexPanic? || e.IdError? || e.LaunchOnu? || e.PassBarrier?)
    ensures DrawsCounted(c, Apply(c, s, e), q)
  {
    var s' := Apply(c, s, e);
    var o := s.onus[e.x];
    assert o in s.onus;
    if e.DrawCtag? {
      LogStep(s.log, CtagDraw(c.wf, KeyOf(o, |o.subs|)), c.wf, q);
    } else if e.Spawn? && c.wf == Dt {
      LogStep(s.log, StagDraw(KeyOf(o, |o.subs|)), c.wf, q);
    } else {
      assert s'.log == s.log;
    }
    ReplaceCounted(c, s, e.x, s'.onus[e.x], s', q);
  }

  lemma StepCountsDraws(c: Config, s: State, e: Event, q: u32)
    requires ValidConfig(c) && DrawsCounted(c, s, q) && Enabled(c, s, e)
    ensures DrawsCounted(c, Apply(c, s, e), q)
  {
    if e.LaunchOnu? {
      var o := NewOnu(s, c.prog[s.pc].pon, e.id);
      SumAppend(s.onus, o, DrawnOn(q));
      SumAppend(s.onus, o, Started());
    } else if !(e.IndexPanic? || e.IdError? || e.PassBarrier?) {
      OnuStepCountsDraws(c, s, e, q);
    }
  }

  /** In every state, the C-tag draws on a port are those of its subscribers, and nobody else asked for a DT S-tag. */
  lemma {:induction false} RunCountsDraws(c: Config, states: seq<State>, events: seq<Event>, i: nat, q: u32)
    requires ValidConfig(c) && IsRun(c, states, events) && i < |states|
    ensures DrawsCounted(c, states[i], q)
  {
    if i == 0 {
    } else {
      RunCountsDraws(c, states, events, i - 1, q);
      StepCountsDraws(c, states[i - 1], events[i - 1], q);
    }
  }

  // ---------------------------------------------------------------- bounds from the configuration

  /** Subscribers planned on one port, and on all of them. */
  ghost function PortSubs(c: Config, q: nat): nat { Sum(c.prog, OnPon(q)) * c.subsPerOnu }
  ghost function TotalSubs(c: Config): nat { Sum(c.prog, AnyPon()) * c.subsPerOnu }

  lemma PrefixSum(prog: seq<Instr>, pc: nat, w: Instr -> nat)
    requires pc <= |prog|
    ensures Sum(prog[..pc], w) <= Sum(prog, w)
  {
    SumConcat(prog[..pc], prog[pc..], w);
    assert prog == prog[..pc] + prog[pc..];
  }

  ghost function One(): Onu -> nat { (o: Onu) => 1 }

  lemma {:induction false} SumOnes(onus: seq<Onu>)
    ensures Sum(onus, One()) == |onus|
  {
    if onus == [] {
    } else {
      SumOnes(onus[..|onus| - 1]);
    }
  }

  /** Draws on a port never exceed the subscribers planned there, nor DT S-tags all subscribers planned. */
  lemma DrawsBounded(c: Config, states: seq<State>, events: seq<Event>, i: nat, q: u32)
    requires ValidConfig(c) && IsRun(c, states, events) && i < |states|
    ensures Count(states[i].log, c.wf, q) <= PortSubs(c, q)
    ensures |FirstSeen(states[i].log)| <= TotalSubs(c)
  {
    var s := states[i];
    RunCountsDraws(c, states, events, i, q);
    LaunchesCount(c, states, events, i, q);
    PrefixSum(c.prog, s.pc, OnPon(q));
    PrefixSum(c.prog, s.pc, AnyPon());
    SumScaled(s.onus, DrawnOn(q), OnPort(q), c.subsPerOnu);
    SumScaled(s.onus, Started(), One(), c.subsPerOnu);
    SumOnes(s.onus);
    MulMonotone(Sum(s.onus, OnPort(q)), Sum(c.prog, OnPon(q)), c.subsPerOnu);
    MulMonotone(|s.onus|, Sum(c.prog, AnyPon()), c.subsPerOnu);
  }
}
