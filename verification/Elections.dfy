/** The election of the subscriber that installs a PON port's multicast scheduler and queue. */
module Elections {
  import opened Words

  /** `Matched`: the counter was read equal to the port number and has not been advanced yet. */
  datatype Phase = Waiting | Matched | Decided(elected: bool)

  /** `winners` lists the elected subscribers in the order in which they advanced the counter. */
  datatype State = State(lastPonIntf: u32, phases: seq<Phase>, winners: seq<nat>)

  /** `Load` reads the shared counter; `Advance` is the separate atomic addition after a match. */
  datatype Step = Load(x: nat) | Advance(x: nat)

  function Init(ponOf: seq<u32>): State { State(0, seq(|ponOf|, _ => Waiting), []) }

  predicate Enabled(ponOf: seq<u32>, s: State, e: Step) {
    && e.x < |ponOf| == |s.phases|
    && match e
       case Load(x) => s.phases[x] == Waiting
       case Advance(x) => s.phases[x] == Matched
  }

  function Apply(ponOf: seq<u32>, s: State, e: Step): State
    requires Enabled(ponOf, s, e)
  {
    match e
    case Load(x) =>
      s.(phases := s.phases[x := if ponOf[x] == s.lastPonIntf then Matched else Decided(false)])
    case Advance(x) =>
      State(Inc32(s.lastPonIntf), s.phases[x := Decided(true)], s.winners + [x])
  }

  ghost predicate IsRun(ponOf: seq<u32>, states: seq<State>, steps: seq<Step>) {
    && |states| == |steps| + 1 && states[0] == Init(ponOf)
    && forall i | 0 <= i < |steps| :: Enabled(ponOf, states[i], steps[i]) && states[i + 1] == Apply(ponOf, states[i], steps[i])
  }

  /** PON ports are numbered below a 32-bit port count. */
  ghost predicate ValidPorts(ponOf: seq<u32>) {
    forall p <- ponOf :: p < 0xFFFF_FFFF
  }

  /** The elected ports are 0, 1, 2, ... in that order, each once, up to the counter. */
  ghost predicate Ordered(ponOf: seq<u32>, s: State) {
    && s.lastPonIntf == |s.winners|
    && forall i | 0 <= i < |s.winners| :: s.winners[i] < |ponOf| && ponOf[s.winners[i]] == i
  }

  /** Two subscribers of one port are both between their matching read and their addition. */
  ghost predicate Clash(ponOf: seq<u32>, s: State, x: nat, y: nat) {
    && x < |ponOf| == |s.phases| && y < |ponOf| && x != y
    && s.phases[x] == s.phases[y] == Matched && ponOf[x] == ponOf[y]
  }

  ghost predicate Overlap(ponOf: seq<u32>, s: State) {
    exists x, y :: Clash(ponOf, s, x, y)
  }

  ghost predicate MatchedCurrent(ponOf: seq<u32>, s: State) {
    |s.phases| == |ponOf| && forall x | 0 <= x < |ponOf| && s.phases[x] == Matched :: ponOf[x] == s.lastPonIntf
  }

  /** While no two subscribers of a port overlap, elections stay in order. */
  lemma StepKeepsOrder(ponOf: seq<u32>, s: State, e: Step)
    requires ValidPorts(ponOf) && Enabled(ponOf, s, e)
    requires Ordered(ponOf, s) && MatchedCurrent(ponOf, s) && !Overlap(ponOf, s)
    ensures Ordered(ponOf, Apply(ponOf, s, e)) && MatchedCurrent(ponOf, Apply(ponOf, s, e))
  {
    if e.Advance? {
      assert ponOf[e.x] in ponOf;
      forall y | 0 <= y < |ponOf| && y != e.x
        ensures s.phases[y] != Matched
      {
        assert !Clash(ponOf, s, e.x, y);
      }
    }
  }

  lemma {:induction false} RunKeepsOrder(ponOf: seq<u32>, states: seq<State>, steps: seq<Step>, i: nat)
    requires ValidPorts(ponOf) && IsRun(ponOf, states, steps) && i < |states|
    requires forall j | 0 <= j < i :: !Overlap(ponOf, states[j])
    ensures Ordered(ponOf, states[i]) && MatchedCurrent(ponOf, states[i])
  {
    if i == 0 {
    } else {
      RunKeepsOrder(ponOf, states, steps, i - 1);
      StepKeepsOrder(ponOf, states[i - 1], steps[i - 1]);
    }
  }

  lemma {:induction false} WinnersAreElected(ponOf: seq<u32>, states: seq<State>, steps: seq<Step>, i: nat, x: nat)
    requires IsRun(ponOf, states, steps) && i < |states| && x < |ponOf|
    ensures |states[i].phases| == |ponOf|
    ensures x in states[i].winners <==> states[i].phases[x] == Decided(true)
  {
    if i == 0 {
    } else {
      WinnersAreElected(ponOf, states, steps, i - 1, x);
    }
  }

  /** A matched subscriber can only go on to be elected. */
  lemma {:induction false} MatchedIsElected(ponOf: seq<u32>, states: seq<State>, steps: seq<Step>, i: nat, j: nat, x: nat)
    requires IsRun(ponOf, states, steps) && i <= j < |states| && x < |ponOf| == |states[i].phases|
    requires states[i].phases[x] == Matched
    ensures |states[j].phases| == |ponOf| && states[j].phases[x] in {Matched, Decided(true)}
  {
    if i == j {
    } else {
      MatchedIsElected(ponOf, states, steps, i, j - 1, x);
    }
  }

  ghost predicate Settled(s: State) {
    forall x | 0 <= x < |s.phases| :: s.phases[x] != Matched
  }

  /**
    * The election with its read and its addition as separate steps.  In every interleaving whose
    * matched subscribers have all advanced the counter, the elected ports are 0, 1, 2, ... each
    * once and in order exactly when no two subscribers of one port ever overlapped.
    */
  lemma ElectionOrder(ponOf: seq<u32>, states: seq<State>, steps: seq<Step>)
    requires ValidPorts(ponOf) && IsRun(ponOf, states, steps) && Settled(states[|steps|])
    ensures Ordered(ponOf, states[|steps|]) <==> forall i | 0 <= i < |states| :: !Overlap(ponOf, states[i])
  {
    var n := |steps|;
    if i :| 0 <= i < |states| && Overlap(ponOf, states[i]) {
      var x, y :| Clash(ponOf, states[i], x, y);
      MatchedIsElected(ponOf, states, steps, i, n, x);
      MatchedIsElected(ponOf, states, steps, i, n, y);
      WinnersAreElected(ponOf, states, steps, n, x);
      WinnersAreElected(ponOf, states, steps, n, y);
      var w := states[n].winners;
      var a, b :| 0 <= a < |w| && 0 <= b < |w| && w[a] == x && w[b] == y;
      PortTwice(ponOf, states[n], a, b);
    } else {
      RunKeepsOrder(ponOf, states, steps, n);
    }
  }

  lemma PortTwice(ponOf: seq<u32>, s: State, a: nat, b: nat)
    requires a < |s.winners| && b < |s.winners| && s.winners[a] < |ponOf| && s.winners[b] < |ponOf|
    requires a != b && ponOf[s.winners[a]] == ponOf[s.winners[b]]
    ensures !Ordered(ponOf, s)
  {}

  /** Every match is followed at once by its addition, as if the two were one atomic step. */
  ghost predicate Atomic(steps: seq<Step>, states: seq<State>) {
    |states| == |steps| + 1 &&
    forall i | 0 <= i < |steps| && steps[i].Load? && steps[i].x < |states[i + 1].phases|
            && states[i + 1].phases[steps[i].x] == Matched ::
      i + 1 < |steps| ==> steps[i + 1] == Advance(steps[i].x)
  }

  lemma {:induction false} AtomicOneMatched(ponOf: seq<u32>, states: seq<State>, steps: seq<Step>, i: nat, x: nat)
    requires IsRun(ponOf, states, steps) && Atomic(steps, states) && i < |states|
    requires x < |ponOf| == |states[i].phases| && states[i].phases[x] == Matched
    ensures i > 0 && steps[i - 1] == Load(x)
  {
    assert i > 0;
    if steps[i - 1] == Load(x) {
    } else {
      AtomicOneMatched(ponOf, states, steps, i - 1, x);
      assert false;
    }
  }

  /** With check and addition as one step, elections are in order at every moment between elections. */
  lemma AtomicElection(ponOf: seq<u32>, states: seq<State>, steps: seq<Step>, i: nat)
    requires ValidPorts(ponOf) && IsRun(ponOf, states, steps) && Atomic(steps, states) && i < |states|
    ensures Ordered(ponOf, states[i])
  {
    forall j | 0 <= j < i
      ensures !Overlap(ponOf, states[j])
    {
      if Overlap(ponOf, states[j]) {
        var x, y :| Clash(ponOf, states[j], x, y);
        AtomicOneMatched(ponOf, states, steps, j, x);
        AtomicOneMatched(ponOf, states, steps, j, y);
      }
    }
    RunKeepsOrder(ponOf, states, steps, i);
  }

  // ---------------------------------------------------------------- which port lists are safe

  /** A port with two subscribers, while every port below it has at least one. */
  ghost predicate Contended(ponOf: seq<u32>, p: nat) {
    && (exists x, y :: 0 <= x < y < |ponOf| && ponOf[x] == p && ponOf[y] == p)
    && forall q: nat | q < p :: q in ponOf
  }

  lemma {:induction false} FirstOverlap(ponOf: seq<u32>, states: seq<State>, i: nat) returns (j: nat)
    requires i < |states| && Overlap(ponOf, states[i])
    ensures j <= i && Overlap(ponOf, states[j])
    ensures forall k | 0 <= k < j :: !Overlap(ponOf, states[k])
  {
    if k :| 0 <= k < i && Overlap(ponOf, states[k]) {
      j := FirstOverlap(ponOf, states, k);
    } else {
      j := i;
    }
  }

  /** The first overlap of a run is on a contended port: all ports below have been elected by then. */
  lemma OverlapContended(ponOf: seq<u32>, states: seq<State>, steps: seq<Step>, i: nat)
    requires ValidPorts(ponOf) && IsRun(ponOf, states, steps) && i < |states| && Overlap(ponOf, states[i])
    ensures exists p :: Contended(ponOf, p)
  {
    var j := FirstOverlap(ponOf, states, i);
    RunKeepsOrder(ponOf, states, steps, j);
    var s := states[j];
    var x: nat, y: nat :| Clash(ponOf, s, x, y);
    var p := ponOf[x];
    assert s.phases[x] == Matched && p == s.lastPonIntf == |s.winners|;
    forall q: nat | q < p
      ensures q in ponOf
    {
      assert ponOf[s.winners[q]] == q;
    }
    assert Contended(ponOf, p) by {
      assert if x < y then 0 <= x < y < |ponOf| && ponOf[y] == p else 0 <= y < x < |ponOf| && ponOf[y] == p;
    }
  }

  lemma ExtendRun(ponOf: seq<u32>, states: seq<State>, steps: seq<Step>, e: Step)
    returns (states': seq<State>, steps': seq<Step>)
    requires IsRun(ponOf, states, steps) && Enabled(ponOf, states[|steps|], e)
    ensures IsRun(ponOf, states', steps') && states'[|steps'|] == Apply(ponOf, states[|steps|], e)
  {
    states', steps' := states + [Apply(ponOf, states[|steps|], e)], steps + [e];
  }

  /** A run that elects the ports below `p` one after the other and leaves all other subscribers waiting. */
  lemma {:induction false} ElectBelow(ponOf: seq<u32>, p: nat) returns (states: seq<State>, steps: seq<Step>)
    requires ValidPorts(ponOf) && forall q: nat | q < p :: q in ponOf
    ensures IsRun(ponOf, states, steps)
    ensures var s := states[|steps|];
            && s.lastPonIntf == p && |s.phases| == |ponOf|
            && forall x | 0 <= x < |ponOf| && ponOf[x] >= p :: s.phases[x] == Waiting
    ensures Settled(states[|steps|])
  {
    if p == 0 {
      states, steps := [Init(ponOf)], [];
    } else {
      states, steps := ElectBelow(ponOf, p - 1);
      assert p - 1 in ponOf;
      var z :| 0 <= z < |ponOf| && ponOf[z] == p - 1;
      states, steps := ExtendRun(ponOf, states, steps, Load(z));
      states, steps := ExtendRun(ponOf, states, steps, Advance(z));
    }
  }

  /** On a contended port, two subscribers can be elected. */
  lemma ContendedFails(ponOf: seq<u32>, p: nat) returns (states: seq<State>, steps: seq<Step>)
    requires ValidPorts(ponOf) && Contended(ponOf, p)
    ensures IsRun(ponOf, states, steps) && Settled(states[|steps|]) && !Ordered(ponOf, states[|steps|])
  {
    var x, y :| 0 <= x < y < |ponOf| && ponOf[x] == p && ponOf[y] == p;
    states, steps := ElectBelow(ponOf, p);
    states, steps := ExtendRun(ponOf, states, steps, Load(x));
    states, steps := ExtendRun(ponOf, states, steps, Load(y));
    states, steps := ExtendRun(ponOf, states, steps, Advance(x));
    states, steps := ExtendRun(ponOf, states, steps, Advance(y));
    var s := states[|steps|];
    PortTwice(ponOf, s, |s.winners| - 2, |s.winners| - 1);
  }

  /** Every interleaving elects in order. */
  ghost predicate AlwaysOrdered(ponOf: seq<u32>) {
    forall states, steps | IsRun(ponOf, states, steps) && Settled(states[|steps|]) :: Ordered(ponOf, states[|steps|])
  }

  /**
    * For subscribers that may all act at any time, whether the election can go wrong is decided by
    * where they are: every interleaving elects the ports in order exactly when no port has two
    * subscribers while all ports below it have one.
    */
  lemma AlwaysOrderedWhen(ponOf: seq<u32>)
    requires ValidPorts(ponOf)
    ensures AlwaysOrdered(ponOf) <==> forall p :: !Contended(ponOf, p)
  {
    if p :| Contended(ponOf, p) {
      var states, steps := ContendedFails(ponOf, p);
    } else {
      forall states, steps | IsRun(ponOf, states, steps) && Settled(states[|steps|])
        ensures Ordered(ponOf, states[|steps|])
      {
        forall i | 0 <= i < |states|
          ensures !Overlap(ponOf, states[i])
        {
          if Overlap(ponOf, states[i]) {
            OverlapContended(ponOf, states, steps, i);
          }
        }
        ElectionOrder(ponOf, states, steps);
      }
    }
  }

  /** An overlap can leave a port without a scheduler: of two ports with two subscribers each, port 0 wins twice. */
  lemma SkippedPort() returns (states: seq<State>, steps: seq<Step>)
    ensures IsRun([0, 0, 1, 1], states, steps) && Settled(states[|steps|])
    ensures states[|steps|].phases == [Decided(true), Decided(true), Decided(false), Decided(false)]
  {
    var p: seq<u32> := [0, 0, 1, 1];
    states, steps := [Init(p)], [];
    states, steps := ExtendRun(p, states, steps, Load(0));
    states, steps := ExtendRun(p, states, steps, Load(1));
    assert states[|steps|] == State(0, [Matched, Matched, Waiting, Waiting], []);
    states, steps := ExtendRun(p, states, steps, Advance(0));
    states, steps := ExtendRun(p, states, steps, Advance(1));
    assert states[|steps|] == State(2, [Decided(true), Decided(true), Waiting, Waiting], [0, 1]);
    states, steps := ExtendRun(p, states, steps, Load(2));
    states, steps := ExtendRun(p, states, steps, Load(3));
  }

  // ---------------------------------------------------------------- the shared counter

  /** The counter all subscribers share, with the history of its accesses. */
  class Election {
    const ponOf: seq<u32>
    var lastPonIntf: u32
    ghost var states: seq<State>
    ghost var steps: seq<Step>

    ghost predicate Valid()
      reads this
    {
      && IsRun(ponOf, states, steps)
      && |Now().phases| == |ponOf| && lastPonIntf == Now().lastPonIntf
    }

    ghost function Now(): State
      reads this
      requires IsRun(ponOf, states, steps)
    {
      states[|steps|]
    }

    /** Subscriber `x` of a port has not read the counter yet. */
    ghost predicate Waits(x: nat, pon: u32)
      reads this
    {
      Valid() && x < |ponOf| && ponOf[x] == pon && Now().phases[x] == Waiting
    }

    ghost predicate Elected(x: nat)
      reads this
    {
      Valid() && x < |ponOf| && Now().phases[x] == Decided(true)
    }

    constructor (ponOf: seq<u32>)
      ensures Valid() && this.ponOf == ponOf && Now() == Init(ponOf)
    {
      this.ponOf, lastPonIntf, states, steps := ponOf, 0, [Init(ponOf)], [];
    }

    /** Between two accesses of subscriber `x`, other subscribers may access the counter. */
    method OthersRun(ghost x: nat)
      requires Valid() && x < |ponOf|
      modifies this
      ensures Valid() && old(steps) <= steps && Now().phases[x] == old(Now().phases[x])
    {}

    method LoadCounter(ghost x: nat) returns (value: u32)
      requires Valid() && x < |ponOf| && Now().phases[x] == Waiting
      modifies this
      ensures Valid() && steps == old(steps) + [Load(x)] && Now() == Apply(ponOf, old(Now()), Load(x))
      ensures value == old(lastPonIntf) == lastPonIntf
    {
      states, steps := states + [Apply(ponOf, Now(), Load(x))], steps + [Load(x)];
      value := lastPonIntf;
    }

    method AddOne(ghost x: nat)
      requires Valid() && x < |ponOf| && Now().phases[x] == Matched
      modifies this
      ensures Valid() && steps == old(steps) + [Advance(x)] && Now() == Apply(ponOf, old(Now()), Advance(x))
    {
      lastPonIntf := Inc32(lastPonIntf);
      states, steps := states + [Apply(ponOf, Now(), Advance(x))], steps + [Advance(x)];
    }

    /** The source's test and increment, with other subscribers free to act before and between them. */
    method Elect(ponIntf: u32, ghost x: nat) returns (elected: bool)
      requires Waits(x, ponIntf)
      modifies this
      ensures Valid() && old(steps) <= steps && Now().phases[x] == Decided(elected)
    {
      OthersRun(x);
      var value := LoadCounter(x);
      elected := false;
      if ponIntf == value {
        OthersRun(x);
        AddOne(x);
        elected := true;
      }
    }
  }
}
