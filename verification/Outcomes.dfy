/** The outcome of a deployment in terms of the device's answers, code by code. */
module Outcomes {
  import opened Words
  import opened Results
  import opened Frames
  import opened Pbits
  import opened Provisioning
  import opened Scripts
  import opened Multicast
  import opened Tags

  // ---------------------------------------------------------------- the device is asked

  /** Every event of a trace from `from` on records what the device answered to its call. */
  ghost predicate Answered(env: Env, r: Trace, from: nat) {
    forall i | from <= i < |r| :: r[i].code == env.answer(r[..i], r[i].call)
  }

  lemma {:induction false} SendAllAnswered(env: Env, ps: seq<Prim>, t: Trace)
    ensures t <= SendAll(env, ps, t) && Answered(env, SendAll(env, ps, t), |t|)
    decreases |ps|
  {
    if ps == [] {
    } else {
      var t1 := Send(env, PrimCall(env, ps[0], FlowsIn(t)), t);
      SendAllAnswered(env, ps[1..], t1);
      var r := SendAll(env, ps, t);
      assert r[..|t|] == t && r[|t|] == t1[|t|];
    }
  }

  lemma {:induction false} RunAnswered(env: Env, script: seq<Item>, t: Trace)
    ensures t <= RunScript(env, script, t).0 && Answered(env, RunScript(env, script, t).0, |t|)
    decreases |script|
  {
    if script == [] {
    } else {
      SendAllAnswered(env, script[0].prims, t);
      var (t1, e) := RunItem(env, script[0], t);
      if e.None? {
        RunAnswered(env, script[1..], t1);
        var r := RunScript(env, script, t).0;
        assert forall i | |t| <= i < |t1| :: r[..i] == t1[..i];
      }
    }
  }

  // ---------------------------------------------------------------- setup

  /**
    * The setup calls of a subscriber, for every device: downstream then upstream scheduler, downstream
    * then upstream queues; the answers are the device's.
    */
  lemma SetupCalls(env: Env, wf: Workflow, gems: seq<Gem>)
    ensures var r := RunScript(env, SubscriberScript(wf, env.who, gems), []).0;
            && (|r| > 0 ==> r[0].call == CreateSchedulers(env.who, Downstream))
            && (|r| > 1 ==> r[1].call == CreateSchedulers(env.who, Upstream))
            && (|r| > 2 ==> r[2].call == CreateQueues(env.who, Downstream))
            && (|r| > 3 ==> r[3].call == CreateQueues(env.who, Upstream))
            && (forall i | 4 <= i < |r| :: r[i].call.FlowAdd?)
            && Answered(env, r, 0)
  {
    Staged(env, wf, gems);
    RunAnswered(env, SubscriberScript(wf, env.who, gems), []);
  }

  ghost predicate SchedsOk(env: Env, r: Trace) {
    env.schedFound(Downstream) && env.schedFound(Upstream) && |r| >= 2 && r[0].code == Ok && r[1].code == Ok
  }

  ghost predicate QueuesOk(env: Env, r: Trace) {
    env.queuesFound(Downstream) && env.queuesFound(Upstream) && |r| >= 4 && r[2].code == Ok && r[3].code == Ok
  }

  /** Which reason goes with which lookups and answers: setup calls must be answered Ok; a flow that exists counts as added. */
  ghost predicate ReasonFits(env: Env, r: Trace, reason: Reason) {
    && (reason == SchedCreationFailed <==> !SchedsOk(env, r))
    && (reason == QueueCreationFailed <==> SchedsOk(env, r) && !QueuesOk(env, r))
    && (reason == FlowAddFailed <==>
          SchedsOk(env, r) && QueuesOk(env, r) && exists i :: 4 <= i < |r| && r[i].code == Failed)
    && (reason == ProvisionSuccess <==>
          SchedsOk(env, r) && QueuesOk(env, r) && forall i | 4 <= i < |r| :: r[i].code in {Ok, AlreadyExists})
  }

  /** The reason of a subscriber, for every workflow and device, by lookups and answer codes. */
  lemma ReasonByCodes(env: Env, wf: Workflow, gems: seq<Gem>)
    ensures var (r, e) := RunScript(env, SubscriberScript(wf, env.who, gems), []); ReasonFits(env, r, FinalReason(e))
  {
    var r := RunScript(env, SubscriberScript(wf, env.who, gems), []).0;
    ReasonStage(env, wf, gems);
    assert ReasonFits(env, r, StageReason(env, r)) by {
      SetupCalls(env, wf, gems);
      StageByCodes(env, r);
    }
  }

  lemma StageByCodes(env: Env, r: Trace)
    requires forall i | 0 <= i < |r| :: r[i].call.FlowAdd? <==> i >= 4
    ensures ReasonFits(env, r, StageReason(env, r))
  {
    forall i | 0 <= i < |r|
      ensures Accepted(r[i]) <==> r[i].code == Ok || (i >= 4 && r[i].code == AlreadyExists)
    {}
  }

  /** Where setup stops: at the first lookup that fails or the first call not answered Ok. */
  lemma SetupStops(env: Env, wf: Workflow, gems: seq<Gem>)
    ensures var r := RunScript(env, SubscriberScript(wf, env.who, gems), []).0;
            && (|r| == 0 <==> !env.schedFound(Downstream))
            && (|r| == 1 <==> env.schedFound(Downstream) && !(r[0].code == Ok && env.schedFound(Upstream)))
            && (|r| == 2 <==> SchedsSent(env, r) && !(r[1].code == Ok && env.queuesFound(Downstream)))
            && (|r| == 3 <==> SchedsSent(env, r) && r[1].code == Ok && env.queuesFound(Downstream)
                              && !(|r| > 2 && r[2].code == Ok && env.queuesFound(Upstream)))
  {
    var (r, e) := RunScript(env, SubscriberScript(wf, env.who, gems), []);
    SetupCalls(env, wf, gems);
    if e.Some? {
      var k := FailedItem(env, wf, gems);
      assert forall i | 0 <= i < |r| && i < 4 :: !r[i].call.FlowAdd?;
      assert k >= 1 ==> LookupAt(env, 0);
      assert k >= 2 ==> LookupAt(env, 1);
      assert k >= 3 ==> LookupAt(env, 2);
      assert k >= 4 ==> LookupAt(env, 3);
    } else {
      ReasonByCodes(env, wf, gems);
    }
  }

  ghost predicate SchedsSent(env: Env, r: Trace) {
    env.schedFound(Downstream) && env.schedFound(Upstream) && |r| >= 2 && r[0].code == Ok
  }

  /** In ATT and DT nothing is sent after a rejected call. */
  lemma RejectedIsLast(env: Env, wf: Workflow, gems: seq<Gem>)
    requires wf != Tt
    ensures var r := RunScript(env, SubscriberScript(wf, env.who, gems), []).0;
            forall i | 0 <= i < |r| - 1 :: r[i].code == Ok || (i >= 4 && r[i].code == AlreadyExists)
  {
    SetupCalls(env, wf, gems);
    forall i | 0 <= i < |RunScript(env, SubscriberScript(wf, env.who, gems), []).0| - 1
      ensures Accepted(RunScript(env, SubscriberScript(wf, env.who, gems), []).0[i])
    {
      AcceptedBefore(env, wf, gems, i);
    }
  }

  // ---------------------------------------------------------------- the group test

  /** In ATT and DT a group test does nothing and succeeds. */
  lemma NoGroupTest(env: Env, wf: Workflow, elected: bool)
    requires wf != Tt
    ensures RunScript(env, McastScript(wf, env.who, elected), []) == ([], None)
  {}

  /** The multicast flow of a group test. */
  ghost predicate GroupFlow(env: Env, f: Flow) {
    && f.accessIntf == ToI32(env.who.pon) && f.onuId == ToI32(env.who.onu) && f.uniId == ToI32(env.who.uni)
    && f.portNo == env.who.port && f.groupId == env.who.onu && f.flowId == env.id(0)
    && f.dir == Frames.Multicast && f.allocId == 0 && f.gemPortId == 4069 && f.priority == 0
    && f.symmetricFlowId == 0 && !f.replicate && f.pbitToGem == map[] && f.action == EMPTY_ACTION
    && f.classifier.oVid == 255 && f.classifier.iVid == 55 && f.classifier.oPbits == 255 && f.classifier.iPbits == 255
    && f.classifier.tagType == DoubleTag && f.classifier.dstMac == env.mac(0) && f.classifier.ethType == 0
  }

  /** Calls of a group test before the scheduler, and before the member. */
  function GroupPart(pon: u32): nat { if pon == 0 then 2 else 0 }
  function MemberPart(pon: u32, elected: bool): nat { GroupPart(pon) + if elected then 2 else 0 }

  /**
    * The calls of a group test, for every device: on port 0 the group and its flow, if elected the
    * scheduler and the queue, and last the member.
    */
  lemma GroupCallsMade(env: Env, elected: bool)
    ensures var r, g, m := RunScript(env, McastScript(Tt, env.who, elected), []).0,
                           GroupPart(env.who.pon), MemberPart(env.who.pon, elected);
            && |r| <= m + 1
            && (g == 2 && |r| > 0 ==> r[0].call == SetMembers(env.who.onu))
            && (g == 2 && |r| > 1 ==> r[1].call.FlowAdd? && r[1].call.service == McastFlow && GroupFlow(env, r[1].call.flow))
            && (elected && |r| > g ==> r[g].call == CreateMcastScheduler(env.who))
            && (elected && |r| > g + 1 ==> r[g + 1].call == CreateMcastQueue(env.who))
            && (|r| > m ==> r[m].call == AddMember(env.who.onu, env.who.pon))
            && Answered(env, r, 0)
  {
    var r := RunScript(env, McastScript(Tt, env.who, elected), []).0;
    var calls := GroupCalls(env.who, elected);
    GroupTest(env, elected);
    RunAnswered(env, McastScript(Tt, env.who, elected), []);
    assert forall i | 0 <= i < |r| :: r[i].call == PrimCall(env, calls[i], FlowsIn(r[..i]));
    if env.who.pon == 0 && |r| > 1 {
      FirstCallNoFlow(r);
    }
  }

  lemma FirstCallNoFlow(r: Trace)
    requires |r| > 1 && !r[0].call.FlowAdd?
    ensures FlowsIn(r[..1]) == 0
  {
    assert r[..1][..0] == [];
  }

  /** An answer that lets a group test go on: Ok, or for its flow that it already exists. */
  ghost predicate GoesOn(pon: u32, i: nat, code: Code) {
    code == Ok || (pon == 0 && i == 1 && code == AlreadyExists)
  }

  /**
    * The outcome of a group test by answer codes: it succeeds exactly when all its calls were made and
    * answered so that it goes on; otherwise the last call made is the one rejected, and the reason
    * is the scheduler's if that was the scheduler call, else the device's own.
    */
  lemma GroupOutcome(env: Env, elected: bool)
    ensures var (r, e) := RunScript(env, McastScript(Tt, env.who, elected), []);
            var n := |r|;
            && (forall i | 0 <= i < n - 1 :: GoesOn(env.who.pon, i, r[i].code))
            && (FinalReason(e) == ProvisionSuccess <==>
                  n == MemberPart(env.who.pon, elected) + 1 && GoesOn(env.who.pon, n - 1, r[n - 1].code))
            && (FinalReason(e) == SchedCreationFailed <==>
                  elected && n == GroupPart(env.who.pon) + 1 && r[n - 1].code != Ok)
            && (FinalReason(e) !in {ProvisionSuccess, SchedCreationFailed} ==> FinalReason(e) == DeviceError)
  {
    var script := McastScript(Tt, env.who, elected);
    var (r, e) := RunScript(env, script, []);
    GroupCallsMade(env, elected);
    GroupTest(env, elected);
    GroupScript(env.who, elected);
    RunSucceeds(env, script, []);
    forall i | 0 <= i < |r|
      ensures Accepted(r[i]) <==> GoesOn(env.who.pon, i, r[i].code)
    {
      KindOfCall(env, elected, i);
    }
    if e.Some? {
      FailedGroupItem(env, elected);
    }
  }

  lemma KindOfCall(env: Env, elected: bool, i: nat)
    requires i < |RunScript(env, McastScript(Tt, env.who, elected), []).0|
    ensures RunScript(env, McastScript(Tt, env.who, elected), []).0[i].call.FlowAdd? <==> env.who.pon == 0 && i == 1
  {
    GroupTest(env, elected);
    var r := RunScript(env, McastScript(Tt, env.who, elected), []).0;
    assert r[i].call == PrimCall(env, GroupCalls(env.who, elected)[i], FlowsIn(r[..i]));
  }

  lemma GroupReason(who: Who, elected: bool, k: nat)
    requires k < |McastScript(Tt, who, elected)|
    ensures |McastScript(Tt, who, elected)| == MemberPart(who.pon, elected) + 1
    ensures McastScript(Tt, who, elected)[k].reason
         == if elected && k == GroupPart(who.pon) then SchedCreationFailed else DeviceError
  {}

  /** A failing script of single calls without lookups ends with the call of the item that fails. */
  lemma FailedSingle(env: Env, script: seq<Item>) returns (k: nat)
    requires Singles(script) && (forall item <- script :: item.lookup == NoLookup)
    requires RunScript(env, script, []).1.Some?
    ensures var (r, e) := RunScript(env, script, []);
            k < |script| && |r| == k + 1 && !Accepted(r[k]) && e.value.reason == script[k].reason
  {
    k := FailedAt(env, script);
    SinglesFlat(script[..k]);
  }

  lemma FailedGroupItem(env: Env, elected: bool)
    requires RunScript(env, McastScript(Tt, env.who, elected), []).1.Some?
    ensures var (r, e) := RunScript(env, McastScript(Tt, env.who, elected), []);
            && 1 <= |r| <= MemberPart(env.who.pon, elected) + 1 && !Accepted(r[|r| - 1])
            && e.value.reason == if elected && |r| == GroupPart(env.who.pon) + 1 then SchedCreationFailed else DeviceError
  {
    GroupScript(env.who, elected);
    var k := FailedSingle(env, McastScript(Tt, env.who, elected));
    GroupReason(env.who, elected, k);
  }
}
