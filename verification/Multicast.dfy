/** The group test of TT: what the election of a subscriber leads to. */
module Multicast {
  import opened Words
  import opened Results
  import opened Provisioning
  import opened Scripts
  import opened Tags
  import opened Elections

  /** The calls of a group test, in order. */
  function GroupCalls(who: Who, elected: bool): seq<Prim> {
    (if who.pon == 0 then [Fixed(SetMembers(who.onu)), AddMcast] else [])
    + (if elected then [Fixed(CreateMcastScheduler(who)), Fixed(CreateMcastQueue(who))] else [])
    + [Fixed(AddMember(who.onu, who.pon))]
  }

  lemma GroupScript(who: Who, elected: bool)
    ensures var script := McastScript(Tt, who, elected);
            && Singles(script) && Flat(script) == GroupCalls(who, elected)
            && forall item <- script :: item.lookup == NoLookup
  {
    SinglesFlat(McastScript(Tt, who, elected));
  }

  /**
    * The group test of one subscriber, for every device: calls are made in order, each only after
    * all before it were accepted, and the first rejected call is the last one made.
    */
  lemma GroupTest(env: Env, elected: bool)
    ensures var r := RunScript(env, McastScript(Tt, env.who, elected), []).0;
            && Follows(env, GroupCalls(env.who, elected), r, 0)
            && (forall i | 0 <= i < |r| - 1 :: Accepted(r[i]))
            && (AcceptedFrom(r, 0) ==> |r| == |GroupCalls(env.who, elected)|)
  {
    var script := McastScript(Tt, env.who, elected);
    GroupScript(env.who, elected);
    assert script == script + [];
    EarlierAccepted(env, script, []);
    RunFollows(env, script, []);
    RunSucceeds(env, script, []);
    SinglesFlat(script);
  }

  /** A call of a group test is made exactly when all calls before it were accepted. */
  lemma GroupCallMade(env: Env, elected: bool, at: nat)
    requires at < |GroupCalls(env.who, elected)|
    ensures var r := RunScript(env, McastScript(Tt, env.who, elected), []).0;
            at < |r| <==> at <= |r| && forall i | 0 <= i < at :: Accepted(r[i])
  {
    GroupTest(env, elected);
    var r := RunScript(env, McastScript(Tt, env.who, elected), []).0;
    if at == |r| && forall i | 0 <= i < at :: Accepted(r[i]) {
      assert AcceptedFrom(r, 0);
    }
  }

  ghost predicate Attempted(r: Trace, c: Call) { exists i :: 0 <= i < |r| && r[i].call == c }

  /**
    * The scheduler is attempted exactly by an elected subscriber, on port 0 only once the group
    * and its flow were accepted.
    */
  lemma SchedulerAttempt(env: Env, elected: bool)
    ensures var r := RunScript(env, McastScript(Tt, env.who, elected), []).0;
            Attempted(r, CreateMcastScheduler(env.who)) <==>
              elected && (env.who.pon == 0 ==> |r| >= 2 && Accepted(r[0]) && Accepted(r[1]))
  {
    var r := RunScript(env, McastScript(Tt, env.who, elected), []).0;
    var calls := GroupCalls(env.who, elected);
    var at := if env.who.pon == 0 then 2 else 0;
    GroupTest(env, elected);
    GroupCallMade(env, elected, at);
    if elected {
      assert calls[at] == Fixed(CreateMcastScheduler(env.who));
      assert at < |r| ==> r[at].call == PrimCall(env, calls[at], FlowsIn(r[..at]));
    }
    if i :| 0 <= i < |r| && r[i].call == CreateMcastScheduler(env.who) {
      assert r[i].call == PrimCall(env, calls[i], FlowsIn(r[..i]));
      assert elected && i == at;
    }
  }

  // ---------------------------------------------------------------- which ports get a scheduler

  /** The calls of subscriber `x`, once the election has gone as far as `s`. */
  ghost function TraceOf(s: State, envs: seq<Env>, x: nat): Trace
    requires x < |envs| == |s.phases|
  {
    RunScript(envs[x], McastScript(Tt, envs[x].who, s.phases[x] == Decided(true)), []).0
  }

  ghost predicate TriesScheduler(s: State, envs: seq<Env>, x: nat)
    requires x < |envs| == |s.phases|
  {
    Attempted(TraceOf(s, envs, x), CreateMcastScheduler(envs[x].who))
  }

  /** A scheduler is tried for a port by one of its subscribers. */
  ghost predicate PortTried(ponOf: seq<u32>, s: State, envs: seq<Env>, p: nat)
    requires |ponOf| == |envs| == |s.phases|
  {
    exists x :: 0 <= x < |ponOf| && ponOf[x] == p && TriesScheduler(s, envs, x)
  }

  ghost predicate GroupAccepted(r: Trace) { |r| >= 2 && Accepted(r[0]) && Accepted(r[1]) }

  /** Only the elected subscriber of a port tries its scheduler, and on port 0 only with group and flow accepted. */
  lemma TriedByWinner(ponOf: seq<u32>, states: seq<State>, steps: seq<Step>, envs: seq<Env>, x: nat)
    requires IsRun(ponOf, states, steps) && Ordered(ponOf, states[|steps|])
    requires |envs| == |ponOf| == |states[|steps|].phases| && x < |ponOf| && envs[x].who.pon == ponOf[x]
    ensures var s := states[|steps|];
            TriesScheduler(s, envs, x) <==>
              && ponOf[x] < s.lastPonIntf && s.winners[ponOf[x]] == x
              && (ponOf[x] == 0 ==> GroupAccepted(TraceOf(s, envs, x)))
  {
    var s := states[|steps|];
    WinnersAreElected(ponOf, states, steps, |steps|, x);
    SchedulerAttempt(envs[x], s.phases[x] == Decided(true));
    if x in s.winners {
      var i :| 0 <= i < |s.winners| && s.winners[i] == x;
      assert ponOf[x] == i;
    }
  }

  /**
    * Election and group test together.  Whenever the election has gone in order, the ports for which
    * a scheduler is tried are exactly 0 to lastPonIntf - 1, each by one subscriber; port 0 only if
    * the device accepted its subscriber's group and multicast flow.
    */
  lemma ScheduledPorts(ponOf: seq<u32>, states: seq<State>, steps: seq<Step>, envs: seq<Env>, p: nat)
    requires IsRun(ponOf, states, steps) && Ordered(ponOf, states[|steps|])
    requires |envs| == |ponOf| == |states[|steps|].phases|
    requires forall x | 0 <= x < |ponOf| :: envs[x].who.pon == ponOf[x]
    ensures var s := states[|steps|];
            && (PortTried(ponOf, s, envs, p) <==>
                  p < s.lastPonIntf && (p == 0 ==> GroupAccepted(TraceOf(s, envs, s.winners[0]))))
            && forall x, y | 0 <= x < |ponOf| && 0 <= y < |ponOf| && ponOf[x] == ponOf[y]
                          && TriesScheduler(s, envs, x) && TriesScheduler(s, envs, y) :: x == y
  {
    var s := states[|steps|];
    forall x | 0 <= x < |ponOf|
      ensures TriesScheduler(s, envs, x) <==>
                && ponOf[x] < s.lastPonIntf && s.winners[ponOf[x]] == x
                && (ponOf[x] == 0 ==> GroupAccepted(TraceOf(s, envs, x)))
    {
      TriedByWinner(ponOf, states, steps, envs, x);
    }
    if p < s.lastPonIntf && (p == 0 ==> GroupAccepted(TraceOf(s, envs, s.winners[0]))) {
      assert TriesScheduler(s, envs, s.winners[p]);
    }
  }
}
