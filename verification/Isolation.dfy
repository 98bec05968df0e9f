/** No two subscribers of a run share an identity, a pair of VLAN tags, a port number or a name. */
module Isolation {
  import opened Words
  import opened Results
  import opened Batches
  import opened Tags
  import opened Protocol
  import opened Launches
  import opened Draws
  import Frames
  import Serials
  import UniPorts

  /** A recorded C-tag draw was made for this subscriber and returned this tag. */
  ghost predicate DrawOk(wf: Workflow, log: seq<Draw>, key: Key, ctag: u32, draw: nat) {
    draw < |log| && log[draw] == CtagDraw(wf, key) && ctag == CtagAt(log, draw)
  }

  ghost predicate SubTagged(wf: Workflow, log: seq<Draw>, o: Onu, u: nat)
    requires u < |o.subs|
  {
    var b := o.subs[u];
    && b.uni == u
    && DrawOk(wf, log, KeyOf(o, b.uni), b.ctag, b.draw)
    && (wf == Dt ==> KeyOf(o, b.uni) in FirstSeen(log))
    && b.stag == StagOf(log, wf, KeyOf(o, b.uni))
  }

  ghost predicate OnuTagged(c: Config, log: seq<Draw>, o: Onu) {
    && |o.subs| <= c.subsPerOnu
    && (forall u | 0 <= u < |o.subs| :: SubTagged(c.wf, log, o, u))
    && (o.pending.Some? && |o.subs| < c.subsPerOnu ==>
          DrawOk(c.wf, log, KeyOf(o, |o.subs|), o.pending.value.ctag, o.pending.value.draw))
  }

  ghost predicate DistinctOnus(onus: seq<Onu>) {
    forall x, y | 0 <= x < y < |onus| ::
      (onus[x].pon, onus[x].id) != (onus[y].pon, onus[y].id) && onus[x].serial < onus[y].serial
  }

  ghost predicate TagInv(c: Config, s: State) {
    && s.pc <= |c.prog| && |s.onus| <= s.serials <= s.pc
    && DistinctOnus(s.onus)
    && forall x | 0 <= x < |s.onus| ::
         OnuTagged(c, s.log, s.onus[x]) && 1 <= s.onus[x].serial <= s.serials && s.onus[x].pon < c.pons
  }

  lemma LogGrows(wf: Workflow, log: seq<Draw>, later: seq<Draw>, o: Onu, u: nat)
    requires log <= later && u < |o.subs| && SubTagged(wf, log, o, u)
    ensures SubTagged(wf, later, o, u)
  {
    var b := o.subs[u];
    assert later[..b.draw + 1] == log[..b.draw + 1];
    if wf == Dt {
      DtStagStable(log, later, KeyOf(o, b.uni));
    }
  }

  lemma OnuLogGrows(c: Config, log: seq<Draw>, later: seq<Draw>, o: Onu)
    requires log <= later && OnuTagged(c, log, o)
    ensures OnuTagged(c, later, o)
  {
    forall u | 0 <= u < |o.subs|
      ensures SubTagged(c.wf, later, o, u)
    {
      LogGrows(c.wf, log, later, o, u);
    }
    if o.pending.Some? && |o.subs| < c.subsPerOnu {
      assert later[..o.pending.value.draw + 1] == log[..o.pending.value.draw + 1];
    }
  }

  lemma DrawTagged(c: Config, s: State, x: nat)
    requires ValidConfig(c) && TagInv(c, s) && Enabled(c, s, DrawCtag(x))
    ensures OnuTagged(c, Apply(c, s, DrawCtag(x)).log, Apply(c, s, DrawCtag(x)).onus[x])
  {
    var o := s.onus[x];
    var key := KeyOf(o, |o.subs|);
    var log' := s.log + [CtagDraw(c.wf, key)];
    OnuLogGrows(c, s.log, log', o);
    assert log'[..|s.log| + 1] == log';
    forall u | 0 <= u < |o.subs|
      ensures SubTagged(c.wf, log', Apply(c, s, DrawCtag(x)).onus[x], u)
    {
      LogGrows(c.wf, s.log, log', o, u);
    }
  }

  lemma SpawnTagged(c: Config, s: State, x: nat)
    requires ValidConfig(c) && TagInv(c, s) && Enabled(c, s, Spawn(x))
    ensures OnuTagged(c, Apply(c, s, Spawn(x)).log, Apply(c, s, Spawn(x)).onus[x])
  {
    var o := s.onus[x];
    var s' := Apply(c, s, Spawn(x));
    var o' := s'.onus[x];
    OnuLogGrows(c, s.log, s'.log, o);
    if c.wf == Dt {
      FirstSeenLast(s.log, KeyOf(o, |o.subs|));
    }
    forall u | 0 <= u < |o'.subs|
      ensures SubTagged(c.wf, s'.log, o', u)
    {
      if u < |o.subs| {
        LogGrows(c.wf, s.log, s'.log, o, u);
      }
    }
  }

  lemma PhaseTagged(c: Config, log: seq<Draw>, o: Onu, o': Onu)
    requires OnuTagged(c, log, o) && |o'.subs| == |o.subs|
    requires o'.pon == o.pon && o'.id == o.id && (o'.pending == o.pending || o'.pending.None?)
    requires forall u | 0 <= u < |o.subs| :: o'.subs[u] == o.subs[u].(phase := o'.subs[u].phase)
    ensures OnuTagged(c, log, o')
  {
    forall u | 0 <= u < |o'.subs|
      ensures SubTagged(c.wf, log, o', u)
    {
      assert SubTagged(c.wf, log, o, u);
    }
  }

  lemma OnuStepTagged(c: Config, s: State, e: Event)
    requires ValidConfig(c) && TagInv(c, s) && Enabled(c, s, e)
    requires !(e.IndexPanic? || e.IdError? || e.LaunchOnu? || e.PassBarrier?)
    ensures e.x < |s.onus| && OnuTagged(c, Apply(c, s, e).log, Apply(c, s, e).onus[e.x])
  {
    if e.DrawCtag? {
      DrawTagged(c, s, e.x);
    } else if e.Spawn? {
      SpawnTagged(c, s, e.x);
    } else {
      PhaseTagged(c, s.log, s.onus[e.x], Apply(c, s, e).onus[e.x]);
    }
  }

  /** Replacing one ONU's record while the allocators' history grows. */
  lemma ReplaceTagged(c: Config, s: State, x: nat, o: Onu, s': State)
    requires TagInv(c, s) && x < |s.onus| && s.log <= s'.log && OnuTagged(c, s'.log, o)
    requires o.pon == s.onus[x].pon && o.id == s.onus[x].id && o.serial == s.onus[x].serial
    requires s'.onus == s.onus[x := o] && s'.pc == s.pc && s'.serials == s.serials
    ensures TagInv(c, s')
  {
    forall y | 0 <= y < |s'.onus|
      ensures OnuTagged(c, s'.log, s'.onus[y])
    {
      if y != x {
        OnuLogGrows(c, s.log, s'.log, s.onus[y]);
      }
    }
  }

  lemma OnuStepKeepsTagInv(c: Config, s: State, e: Event)
    requires ValidConfig(c) && TagInv(c, s) && Enabled(c, s, e)
    requires !(e.IndexPanic? || e.IdError? || e.LaunchOnu? || e.PassBarrier?)
    ensures TagInv(c, Apply(c, s, e))
  {
    OnuStepTagged(c, s, e);
    ReplaceTagged(c, s, e.x, Apply(c, s, e).onus[e.x], Apply(c, s, e));
  }

  lemma LaunchKeepsTagInv(c: Config, s: State, id: u32)
    requires ValidConfig(c) && TagInv(c, s) && Enabled(c, s, LaunchOnu(id))
    ensures TagInv(c, Apply(c, s, LaunchOnu(id)))
  {
    assert c.prog[s.pc] in c.prog;
    var o, s' := NewOnu(s, c.prog[s.pc].pon, id), Apply(c, s, LaunchOnu(id));
    assert s'.onus == s.onus + [o] && s'.log == s.log;
    LaunchDistinct(c, s, o);
    forall x | 0 <= x < |s'.onus|
      ensures OnuTagged(c, s'.log, s'.onus[x])
    {
      assert x < |s.onus| ==> s'.onus[x] == s.onus[x];
    }
  }

  lemma LaunchDistinct(c: Config, s: State, o: Onu)
    requires DistinctOnus(s.onus) && Fresh(c.pool, s.onus, o.pon, o.id)
    requires forall x | 0 <= x < |s.onus| :: s.onus[x].serial < o.serial
    ensures DistinctOnus(s.onus + [o])
  {
    forall x | 0 <= x < |s.onus|
      ensures (s.onus[x].pon, s.onus[x].id) != (o.pon, o.id)
    {
      assert s.onus[x] in s.onus;
    }
  }

  lemma StepKeepsTagInv(c: Config, s: State, e: Event)
    requires ValidConfig(c) && TagInv(c, s) && Enabled(c, s, e)
    ensures TagInv(c, Apply(c, s, e))
  {
    if e.LaunchOnu? {
      LaunchKeepsTagInv(c, s, e.id);
    } else if !(e.IndexPanic? || e.IdError? || e.PassBarrier?) {
      OnuStepKeepsTagInv(c, s, e);
    }
  }

  lemma {:induction false} RunKeepsTagInv(c: Config, states: seq<State>, events: seq<Event>, i: nat)
    requires ValidConfig(c) && IsRun(c, states, events) && i < |states|
    ensures TagInv(c, states[i])
  {
    if i == 0 {
    } else {
      RunKeepsTagInv(c, states, events, i - 1);
      StepKeepsTagInv(c, states[i - 1], events[i - 1]);
    }
  }

  // ---------------------------------------------------------------- what never clashes

  /** No tag counter can wrap: each C-tag counter stays on its port, and the DT memo counts everybody. */
  ghost predicate CountersFit(c: Config) {
    && (forall q: nat | q < c.pons :: FirstCtag(c.wf) - 1 + PortSubs(c, q) < WORD32)
    && (if c.wf == Dt then TotalSubs(c) < WORD32 else c.pons <= WORD32 - 2)
  }

  /** Launched ONUs have distinct identities, so the manager's device map never loses an entry. */
  lemma DeviceKeysDistinct(c: Config, states: seq<State>, events: seq<Event>, i: nat, x: nat, y: nat)
    requires ValidConfig(c) && IsRun(c, states, events) && i < |states|
    requires x < |states[i].onus| && y < |states[i].onus| && x != y
    ensures var o, p := states[i].onus[x], states[i].onus[y]; (o.id, o.pon) != (p.id, p.pon)
  {
    RunKeepsTagInv(c, states, events, i);
  }

  /**
    * Whole-run isolation: in every state of every interleaving, distinct subscribers hold distinct
    * pairs of tags, and no tag is zero, as long as the tag counters cannot wrap.
    */
  lemma TagPairsDistinct(c: Config, states: seq<State>, events: seq<Event>, i: nat, x: nat, u: nat, y: nat, v: nat)
    requires ValidConfig(c) && CountersFit(c)
    requires IsRun(c, states, events) && i < |states|
    requires HasSub(states[i], x, u) && HasSub(states[i], y, v) && (x, u) != (y, v)
    ensures var a, b := states[i].onus[x].subs[u], states[i].onus[y].subs[v];
            (a.stag != b.stag || a.ctag != b.ctag) && a.stag >= 1 && a.ctag >= 1
  {
    var s := states[i];
    RunKeepsTagInv(c, states, events, i);
    var o, p := s.onus[x], s.onus[y];
    DrawsBounded(c, states, events, i, o.pon);
    assert SubTagged(c.wf, s.log, o, u) && SubTagged(c.wf, s.log, p, v);
    PairsDiffer(s.log, c.wf, o.subs[u].draw, p.subs[v].draw);
    TagsNonZero(s.log, c.wf, o.subs[u].draw);
  }

  /** In ATT and DT runs, no frame matches the downstream internet flows of two subscribers. */
  lemma FramesIsolated(c: Config, states: seq<State>, events: seq<Event>, i: nat,
                       x: nat, u: nat, y: nat, v: nat, frame: Frames.Stack)
    requires ValidConfig(c) && c.wf != Tt && CountersFit(c)
    requires IsRun(c, states, events) && i < |states|
    requires HasSub(states[i], x, u) && HasSub(states[i], y, v) && (x, u) != (y, v)
    ensures var a, b := states[i].onus[x].subs[u], states[i].onus[y].subs[v];
            !(Frames.Matches(Frames.ClassifierOf(Frames.Hsia, Frames.Downstream, a.ctag, a.stag), frame)
              && Frames.Matches(Frames.ClassifierOf(Frames.Hsia, Frames.Downstream, b.ctag, b.stag), frame))
  {
    TagPairsDistinct(c, states, events, i, x, u, y, v);
    TagPairsDistinct(c, states, events, i, y, v, x, u);
    var a, b := states[i].onus[x].subs[u], states[i].onus[y].subs[v];
    Frames.DownstreamDisjoint(a.ctag, a.stag, b.ctag, b.stag, frame);
  }

  function PortOf(o: Onu, b: SubState): nat { UniPorts.MkUniPortNum(o.pon, o.id, b.uni) }

  /** UNI port numbers are distinct across the run while every field fits its width. */
  lemma PortsDistinctInRun(c: Config, states: seq<State>, events: seq<Event>, i: nat, x: nat, u: nat, y: nat, v: nat)
    requires ValidConfig(c) && c.pons <= 0x10_0000 && c.subsPerOnu <= 16
    requires IsRun(c, states, events) && i < |states|
    requires HasSub(states[i], x, u) && HasSub(states[i], y, v) && (x, u) != (y, v)
    requires states[i].onus[x].id < 256 && states[i].onus[y].id < 256
    ensures PortOf(states[i].onus[x], states[i].onus[x].subs[u]) != PortOf(states[i].onus[y], states[i].onus[y].subs[v])
  {
    RunKeepsTagInv(c, states, events, i);
    var o, p := states[i].onus[x], states[i].onus[y];
    assert SubTagged(c.wf, states[i].log, o, u) && SubTagged(c.wf, states[i].log, p, v);
    UniPorts.PortsDistinct(UniPorts.Fields(o.pon, o.id, u), UniPorts.Fields(p.pon, p.id, v));
  }

  /** Subscriber names are distinct across a run of at most 9000 launch attempts. */
  lemma NamesDistinctInRun(c: Config, states: seq<State>, events: seq<Event>, i: nat, x: nat, u: nat, y: nat, v: nat)
    requires ValidConfig(c) && IsRun(c, states, events) && i < |states| && Sum(c.prog, AnyPon()) <= 9000
    requires HasSub(states[i], x, u) && HasSub(states[i], y, v) && (x, u) != (y, v)
    ensures Serials.SubscriberName(states[i].onus[x].serial, states[i].onus[x].subs[u].uni)
         != Serials.SubscriberName(states[i].onus[y].serial, states[i].onus[y].subs[v].uni)
  {
    var s := states[i];
    RunKeepsTagInv(c, states, events, i);
    LaunchesCount(c, states, events, i, 0);
    SumConcat(c.prog[..s.pc], c.prog[s.pc..], AnyPon());
    assert c.prog == c.prog[..s.pc] + c.prog[s.pc..];
    var o, p := s.onus[x], s.onus[y];
    assert SubTagged(c.wf, s.log, o, u) && SubTagged(c.wf, s.log, p, v);
    Serials.NamesAlike(o.serial, o.subs[u].uni, p.serial, p.subs[v].uni);
    Serials.PrintedUniqueBound(9000);
  }
}
