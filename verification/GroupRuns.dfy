/**
  * A whole group-test run: the provisioning protocol, with the election of each subscriber taking
  * place while it is deployed.
  */
module GroupRuns {
  import opened Words
  import opened Results
  import opened Batches
  import opened Tags
  import opened Protocol
  import opened Safety
  import opened Launches
  import opened Progress
  import opened Isolation
  import opened Witnesses
  import opened Limits
  import E = Elections

  /** A subscriber, by its ONU and its place on it. */
  datatype Sub = Sub(x: nat, u: nat)

  /** `order` lists the subscribers as they were started; the election knows them by their place in it. */
  datatype Joint = Joint(run: State, order: seq<Sub>, el: E.State)

  datatype Move = Step(e: Event) | Access(a: E.Step)

  function JointInit(): Joint { Joint(Init(), [], E.Init([])) }

  function PonOfSub(s: State, b: Sub): u32 { if b.x < |s.onus| then s.onus[b.x].pon else 0 }

  function PonOf(j: Joint): (ponOf: seq<u32>)
    ensures |ponOf| == |j.order|
  {
    seq(|j.order|, i requires 0 <= i < |j.order| => PonOfSub(j.run, j.order[i]))
  }

  ghost predicate HasDecided(j: Joint, b: Sub) {
    exists i :: 0 <= i < |j.order| && i < |j.el.phases| && j.order[i] == b && j.el.phases[i].Decided?
  }

  /** A deployment accesses the counter while it runs, and ends only after its part in the election. */
  ghost predicate CanMove(c: Config, j: Joint, m: Move) {
    match m
    case Step(e) => Enabled(c, j.run, e) && (e.Deployed? ==> HasDecided(j, Sub(e.x, e.u)))
    case Access(a) =>
      && E.Enabled(PonOf(j), j.el, a)
      && var b := j.order[a.x];
         HasSub(j.run, b.x, b.u) && j.run.onus[b.x].subs[b.u].phase.Deploying?
  }

  ghost function Moved(c: Config, j: Joint, m: Move): Joint
    requires ValidConfig(c) && CanMove(c, j, m)
  {
    match m
    case Step(e) =>
      var run := Apply(c, j.run, e);
      if e.Spawn? then
        Joint(run, j.order + [Sub(e.x, |j.run.onus[e.x].subs|)], j.el.(phases := j.el.phases + [E.Waiting]))
      else j.(run := run)
    case Access(a) => j.(el := E.Apply(PonOf(j), j.el, a))
  }

  ghost predicate IsGroupRun(c: Config, js: seq<Joint>, ms: seq<Move>)
    requires ValidConfig(c)
  {
    && |js| == |ms| + 1 && js[0] == JointInit()
    && forall i | 0 <= i < |ms| :: CanMove(c, js[i], ms[i]) && js[i + 1] == Moved(c, js[i], ms[i])
  }

  lemma ExtendGroupRun(c: Config, js: seq<Joint>, ms: seq<Move>, m: Move)
    returns (js': seq<Joint>, ms': seq<Move>)
    requires ValidConfig(c) && IsGroupRun(c, js, ms) && CanMove(c, js[|ms|], m)
    ensures IsGroupRun(c, js', ms') && js'[|ms'|] == Moved(c, js[|ms|], m)
  {
    js', ms' := js + [Moved(c, js[|ms|], m)], ms + [m];
  }

  /** Every group run whose matched subscribers have all advanced the counter has elected in order. */
  ghost predicate AlwaysInOrder(c: Config)
    requires ValidConfig(c)
  {
    forall js: seq<Joint>, ms | IsGroupRun(c, js, ms) && E.Settled(js[|ms|].el) :: E.Ordered(PonOf(js[|ms|]), js[|ms|].el)
  }

  // ---------------------------------------------------------------- the two components

  /** A group run is a run of the protocol. */
  lemma {:induction false} Underlying(c: Config, js: seq<Joint>, ms: seq<Move>, i: nat)
    returns (states: seq<State>, events: seq<Event>)
    requires ValidConfig(c) && IsGroupRun(c, js, ms) && i < |js|
    ensures IsRun(c, states, events) && states[|events|] == js[i].run
  {
    if i == 0 {
      states, events := [Init()], [];
    } else {
      states, events := Underlying(c, js, ms, i - 1);
      if ms[i - 1].Step? {
        states, events := ExtendRun(c, states, events, ms[i - 1].e);
      }
    }
  }

  ghost predicate Listed(j: Joint) {
    && |j.el.phases| == |j.order|
    && (forall i | 0 <= i < |j.order| :: HasSub(j.run, j.order[i].x, j.order[i].u))
    && (forall i, k | 0 <= i < k < |j.order| :: j.order[i] != j.order[k])
  }

  lemma {:induction false} RunKeepsListed(c: Config, js: seq<Joint>, ms: seq<Move>, i: nat)
    requires ValidConfig(c) && IsGroupRun(c, js, ms) && i < |js|
    ensures Listed(js[i])
  {
    if i == 0 {
    } else {
      RunKeepsListed(c, js, ms, i - 1);
      MoveKeepsListed(c, js[i - 1], ms[i - 1]);
    }
  }

  lemma StepKeepsSubs(c: Config, s: State, e: Event, x: nat, u: nat)
    requires ValidConfig(c) && Enabled(c, s, e) && HasSub(s, x, u)
    ensures HasSub(Apply(c, s, e), x, u) && Apply(c, s, e).onus[x].pon == s.onus[x].pon
  {}

  lemma MoveKeepsListed(c: Config, j: Joint, m: Move)
    requires ValidConfig(c) && Listed(j) && CanMove(c, j, m)
    ensures Listed(Moved(c, j, m)) && PonOf(j) <= PonOf(Moved(c, j, m))
  {
    var j' := Moved(c, j, m);
    if m.Step? {
      forall i | 0 <= i < |j.order|
        ensures HasSub(j'.run, j.order[i].x, j.order[i].u) && PonOf(j)[i] == PonOf(j')[i]
      {
        StepKeepsSubs(c, j.run, m.e, j.order[i].x, j.order[i].u);
      }
    }
  }

  /** The election part, with the subscribers not started yet as waiting ones. */
  ghost function Padded(el: E.State, n: nat): E.State {
    if n < |el.phases| then el else el.(phases := el.phases + seq(n - |el.phases|, _ => E.Waiting))
  }

  /** A group run is a run of the election among all its subscribers. */
  lemma {:induction false} Projected(c: Config, js: seq<Joint>, ms: seq<Move>, i: nat, ponOf: seq<u32>)
    returns (states: seq<E.State>, steps: seq<E.Step>)
    requires ValidConfig(c) && IsGroupRun(c, js, ms) && i < |js| && PonOf(js[i]) <= ponOf
    ensures E.IsRun(ponOf, states, steps) && states[|steps|] == Padded(js[i].el, |ponOf|)
  {
    if i == 0 {
      states, steps := [E.Init(ponOf)], [];
      assert Padded(js[0].el, |ponOf|).phases == E.Init(ponOf).phases;
    } else {
      var j, m := js[i - 1], ms[i - 1];
      RunKeepsListed(c, js, ms, i - 1);
      MoveKeepsListed(c, j, m);
      states, steps := Projected(c, js, ms, i - 1, ponOf);
      if m.Access? {
        states, steps := E.ExtendRun(ponOf, states, steps, m.a);
        assert states[|steps|].phases == Padded(js[i].el, |ponOf|).phases;
      } else {
        assert Padded(j.el, |ponOf|).phases == Padded(js[i].el, |ponOf|).phases;
      }
    }
  }

  /** A subscriber that is done with its deployment has taken its part in the election. */
  ghost predicate FinishedDecided(j: Joint) {
    forall x: nat, u: nat | HasSub(j.run, x, u) && j.run.onus[x].subs[u].phase.Finished? :: HasDecided(j, Sub(x, u))
  }

  lemma DecidedStays(c: Config, j: Joint, m: Move, b: Sub)
    requires ValidConfig(c) && Listed(j) && CanMove(c, j, m) && HasDecided(j, b)
    ensures HasDecided(Moved(c, j, m), b)
  {
    var j' := Moved(c, j, m);
    var i :| 0 <= i < |j.order| && j.order[i] == b && j.el.phases[i].Decided?;
    assert j'.order[i] == b && j'.el.phases[i].Decided?;
  }

  /** Only the end of a deployment finishes a subscriber. */
  lemma FinishedBy(c: Config, s: State, e: Event, x: nat, u: nat)
    requires ValidConfig(c) && Enabled(c, s, e)
    requires HasSub(Apply(c, s, e), x, u) && Apply(c, s, e).onus[x].subs[u].phase.Finished?
    ensures (HasSub(s, x, u) && s.onus[x].subs[u].phase.Finished?) || (e.Deployed? && e.x == x && e.u == u)
  {}

  lemma MoveKeepsDecided(c: Config, j: Joint, m: Move)
    requires ValidConfig(c) && Listed(j) && FinishedDecided(j) && CanMove(c, j, m)
    ensures FinishedDecided(Moved(c, j, m))
  {
    var run := Moved(c, j, m).run;
    forall x: nat, u: nat | HasSub(run, x, u) && run.onus[x].subs[u].phase.Finished?
      ensures HasDecided(Moved(c, j, m), Sub(x, u))
    {
      if m.Step? {
        FinishedBy(c, j.run, m.e, x, u);
      }
      DecidedStays(c, j, m, Sub(x, u));
    }
  }

  lemma {:induction false} RunKeepsDecided(c: Config, js: seq<Joint>, ms: seq<Move>, i: nat)
    requires ValidConfig(c) && IsGroupRun(c, js, ms) && i < |js|
    ensures FinishedDecided(js[i])
  {
    if i == 0 {
    } else {
      RunKeepsDecided(c, js, ms, i - 1);
      RunKeepsListed(c, js, ms, i - 1);
      MoveKeepsDecided(c, js[i - 1], ms[i - 1]);
    }
  }

  /**
    * The counter is accessed only by a subscriber whose deployment is under way, hence only while its
    * batch is: no barrier after its ONU's launch has been passed.
    */
  lemma AccessInBatch(c: Config, js: seq<Joint>, ms: seq<Move>, i: nat, q: nat)
    requires ValidConfig(c) && IsGroupRun(c, js, ms) && i < |ms| && ms[i].Access?
    ensures ms[i].a.x < |js[i].order|
    ensures var b, s := js[i].order[ms[i].a.x], js[i].run;
            && HasSub(s, b.x, b.u) && s.onus[b.x].subs[b.u].phase.Deploying?
            && (s.onus[b.x].slot < q < |c.prog| && c.prog[q].Barrier? ==> s.pc <= q)
  {
    var states, events := Underlying(c, js, ms, i);
    RunKeepsInv(c, states, events, |events|);
    var b, s := js[i].order[ms[i].a.x], js[i].run;
    assert !AllFinished(s.onus[b.x].subs);
  }

  // ---------------------------------------------------------------- when the election is safe

  /** Two ONUs, at least, are on a port that has two. */
  lemma TwoOnPort(onus: seq<Onu>, x: nat, y: nat, q: nat)
    requires x < y < |onus| && onus[x].pon == q && onus[y].pon == q
    ensures Sum(onus, OnPort(q)) >= 2
    decreases |onus|
  {
    if y == |onus| - 1 {
      SumTerm(onus[..y], x, OnPort(q));
    } else {
      TwoOnPort(onus[..|onus| - 1], x, y, q);
    }
  }

  /** ONUs a port can get from one batch: no more than the batch size, nor than the pool has ids. */
  function PerBatch(c: Config, numOfOnu: u64): nat
    requires PlanOf(numOfOnu, c.pons).Launch?
  {
    var k, n := PlanOf(numOfOnu, c.pons).perBatch, PoolSize(c.pool);
    if k < n then k else n
  }

  /** With at most one subscriber for a port to get from a batch, a port never gets a second one. */
  lemma OneEach(numOfOnu: u64, c: Config, js: seq<Joint>, ms: seq<Move>)
    requires IsConfigured(c, numOfOnu) && PlanOf(numOfOnu, c.pons).Launch?
    requires PerBatch(c, numOfOnu) == 0 || c.subsPerOnu == 0 || (PerBatch(c, numOfOnu) == 1 && c.subsPerOnu == 1)
    requires IsGroupRun(c, js, ms)
    ensures var ponOf := PonOf(js[|ms|]); forall i, k | 0 <= i < k < |ponOf| :: ponOf[i] != ponOf[k]
  {
    var j := js[|ms|];
    RunKeepsListed(c, js, ms, |ms|);
    var states, events := Underlying(c, js, ms, |ms|);
    RunKeepsInv(c, states, events, |events|);
    forall i, k | 0 <= i < k < |j.order|
      ensures PonOf(j)[i] != PonOf(j)[k]
    {
      var x, y, q := j.order[i].x, j.order[k].x, PonOf(j)[i];
      assert HasSub(j.run, x, j.order[i].u) && HasSub(j.run, y, j.order[k].u);
      assert OnuOk(c, j.run.onus[x]) && c.subsPerOnu >= 1;
      RunKeepsTagInv(c, states, events, |events|);
      OnusOnPort(numOfOnu, c, states, events, q);
      SumTerm(j.run.onus, x, OnPort(q));
      assert c.subsPerOnu == 1;
      if PonOf(j)[k] == q && x < y {
        TwoOnPort(j.run.onus, x, y, q);
      } else if PonOf(j)[k] == q && y < x {
        TwoOnPort(j.run.onus, y, x, q);
      }
    }
  }

  lemma OnusOnPort(numOfOnu: u64, c: Config, states: seq<State>, events: seq<Event>, q: nat)
    requires IsConfigured(c, numOfOnu) && PlanOf(numOfOnu, c.pons).Launch? && PerBatch(c, numOfOnu) <= 1
    requires IsRun(c, states, events) && q < c.pons
    ensures Sum(states[|events|].onus, OnPort(q)) <= PerBatch(c, numOfOnu)
  {
    var s := states[|events|];
    PoolBound(c, states, events, |events|, q);
    LaunchesCount(c, states, events, |events|, q);
    Draws.PrefixSum(c.prog, s.pc, OnPon(q));
    Planned(numOfOnu, c.pons, q);
    PlanShape(numOfOnu, c.pons);
    HalveCases(ToU32(numOfOnu / c.pons));
  }

  // ---------------------------------------------------------------- when it is not

  /** Until a subscriber is deployed, a protocol run is a group run in which nobody has acted. */
  lemma {:induction false} Lifted(c: Config, states: seq<State>, events: seq<Event>, i: nat)
    returns (js: seq<Joint>, ms: seq<Move>)
    requires ValidConfig(c) && IsRun(c, states, events) && NoneDeployed(events) && i < |states|
    ensures IsGroupRun(c, js, ms)
    ensures var j := js[|ms|];
            && j.run == states[i] && j.el == E.Init(PonOf(j))
            && forall x: nat, u: nat | HasSub(j.run, x, u) :: Sub(x, u) in j.order
  {
    if i == 0 {
      js, ms := [JointInit()], [];
    } else {
      js, ms := Lifted(c, states, events, i - 1);
      var j, e := js[|ms|], events[i - 1];
      assert !e.Deployed?;
      js, ms := ExtendGroupRun(c, js, ms, Step(e));
      var j' := js[|ms|];
      assert j'.el.phases == E.Init(PonOf(j')).phases;
      forall x: nat, u: nat | HasSub(j'.run, x, u)
        ensures Sub(x, u) in j'.order
      {
        if e == Spawn(x) && u == |j.run.onus[x].subs| {
          assert j'.order[|j.order|] == Sub(x, u);
        } else {
          assert HasSub(j.run, x, u);
        }
      }
    }
  }

  ghost predicate DeployingOn0(s: State, b: Sub) {
    HasSub(s, b.x, b.u) && s.onus[b.x].subs[b.u].phase.Deploying? && s.onus[b.x].pon == 0
  }

  /** The election in which two waiting subscribers both read the counter before either advances it. */
  lemma BothRead(ponOf: seq<u32>, x: nat, y: nat)
    requires x < |ponOf| && y < |ponOf| && x != y && ponOf[x] == ponOf[y] == 0
    ensures E.Enabled(ponOf, E.Init(ponOf), E.Load(x))
    ensures var s1 := E.Apply(ponOf, E.Init(ponOf), E.Load(x));
            E.Enabled(ponOf, s1, E.Load(y))
            && var s2 := E.Apply(ponOf, s1, E.Load(y));
               E.Enabled(ponOf, s2, E.Advance(x))
               && var s3 := E.Apply(ponOf, s2, E.Advance(x));
                  E.Enabled(ponOf, s3, E.Advance(y))
                  && var s4 := E.Apply(ponOf, s3, E.Advance(y));
                     E.Settled(s4) && s4.winners == [x, y]
  {}

  /** An access leaves the protocol and the list of subscribers as they are. */
  lemma DoAccess(c: Config, js: seq<Joint>, ms: seq<Move>, a: E.Step) returns (js': seq<Joint>, ms': seq<Move>)
    requires ValidConfig(c) && IsGroupRun(c, js, ms)
    requires var j := js[|ms|];
             E.Enabled(PonOf(j), j.el, a) && DeployingOn0(j.run, j.order[a.x])
    ensures IsGroupRun(c, js', ms')
    ensures var j, j' := js[|ms|], js'[|ms'|];
            j'.run == j.run && j'.order == j.order && PonOf(j') == PonOf(j) && j'.el == E.Apply(PonOf(j), j.el, a)
  {
    js', ms' := ExtendGroupRun(c, js, ms, Access(a));
  }

  /** Two subscribers of port 0 that are deployed at the same time can both be elected. */
  lemma BothElected(c: Config, states: seq<State>, events: seq<Event>, a: Sub, b: Sub)
    requires ValidConfig(c) && IsRun(c, states, events) && NoneDeployed(events) && a != b
    requires DeployingOn0(states[|events|], a) && DeployingOn0(states[|events|], b)
    ensures !AlwaysInOrder(c)
  {
    var js, ms := Lifted(c, states, events, |events|);
    var j := js[|ms|];
    assert a in j.order && b in j.order;
    var x :| 0 <= x < |j.order| && j.order[x] == a;
    var y :| 0 <= y < |j.order| && j.order[y] == b;
    var ponOf := PonOf(j);
    BothRead(ponOf, x, y);
    js, ms := DoAccess(c, js, ms, E.Load(x));
    js, ms := DoAccess(c, js, ms, E.Load(y));
    js, ms := DoAccess(c, js, ms, E.Advance(x));
    js, ms := DoAccess(c, js, ms, E.Advance(y));
    E.PortTwice(ponOf, js[|ms|].el, 0, 1);
  }

  /** One ONU with two subscribers. */
  lemma TwoOfOneOnu(numOfOnu: u64, c: Config)
    requires IsConfigured(c, numOfOnu) && PlanOf(numOfOnu, c.pons).Launch?
    requires PoolSize(c.pool) >= 1 && c.subsPerOnu >= 2
    ensures !AlwaysInOrder(c)
  {
    FirstSlots(numOfOnu, c);
    var states, events := LaunchFirst(c, c.pool.first);
    states, events := ExtendRun(c, states, events, Activate(0, Ok));
    states, events := SpawnTo(c, states, events, 0, 2);
    states, events := HandOffOne(c, states, events, 0, 0);
    states, events := HandOffOne(c, states, events, 0, 1);
    BothElected(c, states, events, Sub(0, 0), Sub(0, 1));
  }

  ghost predicate Active(o: Onu) { o.phase.Spawning? && o.pending.None? && o.subs == [] && o.pon == 0 }

  /** Two activated ONUs of a batch on port 0. */
  lemma TwoActive(numOfOnu: u64, c: Config) returns (states: seq<State>, events: seq<Event>)
    requires IsConfigured(c, numOfOnu) && PlanOf(numOfOnu, c.pons).Launch? && PerBatch(c, numOfOnu) >= 2
    ensures IsRun(c, states, events) && NoneDeployed(events)
    ensures var s := states[|events|]; !s.crashed && |s.onus| == 2 && Active(s.onus[0]) && Active(s.onus[1])
  {
    FirstSlots(numOfOnu, c);
    states, events := LaunchFirst(c, c.pool.first);
    assert c.prog[1] == Slot(0, 0);
    states, events := ExtendRun(c, states, events, LaunchOnu(c.pool.first + 1));
    states, events := ExtendRun(c, states, events, Activate(0, Ok));
    states, events := ExtendRun(c, states, events, Activate(1, Ok));
  }

  /** Two ONUs of a batch with one subscriber each. */
  lemma TwoOnus(numOfOnu: u64, c: Config)
    requires IsConfigured(c, numOfOnu) && PlanOf(numOfOnu, c.pons).Launch?
    requires PerBatch(c, numOfOnu) >= 2 && c.subsPerOnu == 1
    ensures !AlwaysInOrder(c)
  {
    var states, events := TwoActive(numOfOnu, c);
    states, events := SpawnTo(c, states, events, 0, 1);
    states, events := SpawnTo(c, states, events, 1, 1);
    states, events := HandOffOne(c, states, events, 0, 0);
    states, events := HandOffOne(c, states, events, 1, 0);
    BothElected(c, states, events, Sub(0, 0), Sub(1, 0));
  }

  /**
    * The election in a configured run, barriers included: every interleaving elects the ports in
    * order exactly when a batch brings a port at most one subscriber.
    */
  lemma ElectionInRun(numOfOnu: u64, c: Config)
    requires IsConfigured(c, numOfOnu) && PlanOf(numOfOnu, c.pons).Launch? && c.wf == Tt
    ensures AlwaysInOrder(c) <==> PerBatch(c, numOfOnu) * c.subsPerOnu <= 1
  {
    var n := PerBatch(c, numOfOnu);
    AtMostOne(n, c.subsPerOnu);
    if n * c.subsPerOnu <= 1 {
      forall js: seq<Joint>, ms | IsGroupRun(c, js, ms) && E.Settled(js[|ms|].el)
        ensures E.Ordered(PonOf(js[|ms|]), js[|ms|].el)
      {
        OrderedWhenOneEach(numOfOnu, c, js, ms);
      }
    } else if c.subsPerOnu >= 2 {
      TwoOfOneOnu(numOfOnu, c);
    } else {
      TwoOnus(numOfOnu, c);
    }
  }

  lemma AtMostOne(a: nat, b: nat)
    ensures a * b <= 1 <==> a == 0 || b == 0 || (a == 1 && b == 1)
  {
    if a >= 2 && b >= 1 {
      MulMonotone(2, a, b);
    } else if a == 1 {
      assert a * b == b;
    }
  }

  lemma OrderedWhenOneEach(numOfOnu: u64, c: Config, js: seq<Joint>, ms: seq<Move>)
    requires IsConfigured(c, numOfOnu) && PlanOf(numOfOnu, c.pons).Launch?
    requires PerBatch(c, numOfOnu) * c.subsPerOnu <= 1
    requires IsGroupRun(c, js, ms) && E.Settled(js[|ms|].el)
    ensures E.Ordered(PonOf(js[|ms|]), js[|ms|].el)
  {
    var j := js[|ms|];
    var ponOf := PonOf(j);
    AtMostOne(PerBatch(c, numOfOnu), c.subsPerOnu);
    OneEach(numOfOnu, c, js, ms);
    RunKeepsListed(c, js, ms, |ms|);
    var states, steps := Projected(c, js, ms, |ms|, ponOf);
    assert Padded(j.el, |ponOf|).phases == j.el.phases;
    PortsValid(c, js, ms);
    E.AlwaysOrderedWhen(ponOf);
  }

  lemma PortsValid(c: Config, js: seq<Joint>, ms: seq<Move>)
    requires ValidConfig(c) && IsGroupRun(c, js, ms)
    ensures E.ValidPorts(PonOf(js[|ms|]))
  {
    var j := js[|ms|];
    var states, events := Underlying(c, js, ms, |ms|);
    RunKeepsTagInv(c, states, events, |events|);
    RunKeepsListed(c, js, ms, |ms|);
    forall i | 0 <= i < |j.order|
      ensures PonOf(j)[i] < 0xFFFF_FFFF
    {
      assert HasSub(j.run, j.order[i].x, j.order[i].u);
    }
  }
}
