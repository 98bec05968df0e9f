/** The script of each workflow, and what running it guarantees for every device. */
module Scripts {
  import opened Words
  import opened Results
  import opened Frames
  import opened Pbits
  import opened Provisioning
  import opened Tags

  // ---------------------------------------------------------------- the scripts

  function SchedItem(who: Who, dir: Direction): Item {
    Item(SchedLookup(dir), [Fixed(CreateSchedulers(who, dir))], SchedCreationFailed)
  }

  function QueueItem(who: Who, dir: Direction): Item {
    Item(QueueLookup(dir), [Fixed(CreateQueues(who, dir))], QueueCreationFailed)
  }

  function SchedScript(who: Who): seq<Item> { [SchedItem(who, Downstream), SchedItem(who, Upstream)] }
  function QueueScript(who: Who): seq<Item> { [QueueItem(who, Downstream), QueueItem(who, Upstream)] }

  function FlowItem(ps: seq<Prim>): Item { Item(NoLookup, ps, FlowAddFailed) }

  /** A flow of ATT or DT: one for all GEM ports, replicated by priority. */
  function Replicated(service: FlowType, pbits: map<nat, u32>): Template {
    Template(false, service, Upstream, 0, NO_PCP, true, pbits, false)
  }

  /** The downstream flow that goes with an upstream one. */
  function Paired(t: Template): Template { t.(dir := Downstream, paired := true) }

  function HsiaScript(gems: seq<Gem>): seq<Item> {
    var us := Replicated(Hsia, PbitToGem(gems));
    [FlowItem([Add(us)]), FlowItem([Add(Paired(us))])]
  }

  /** A flow of TT: one GEM port, one priority. */
  function PerBit(tt: bool, service: FlowType, gem: u32, pcp: nat): Template {
    Template(tt, service, Upstream, gem, pcp, false, map[], false)
  }

  /** The flows TT adds for one set bit of one service. */
  function TtGroup(service: FlowType, gem: u32, pcp: nat): seq<Prim> {
    var us := PerBit(true, service, gem, pcp);
    var dhcp := Add(PerBit(false, DhcpIpv4, gem, pcp));
    var igmp := Add(PerBit(true, Igmp, gem, pcp));
    [Add(us), Add(Paired(us))]
    + (if service == Hsia then [] else [dhcp])
    + (if service == Vod then [igmp] else [])
  }

  function GroupSize(service: FlowType): nat {
    if service == Hsia then 2 else if service == Vod then 4 else 3
  }

  /** One group per priority of a GEM port. */
  function GemScript(service: FlowType, gem: u32, priorities: seq<nat>): seq<Item> {
    if priorities == [] then []
    else [FlowItem(TtGroup(service, gem, priorities[0]))] + GemScript(service, gem, priorities[1..])
  }

  /** GEM ports in list order, priorities most significant first. */
  function TtScript(service: FlowType, gems: seq<Gem>): seq<Item> {
    if gems == [] then []
    else GemScript(service, gems[0].id, Priorities(Bits(gems[0]))) + TtScript(service, gems[1..])
  }

  /** The flow stages of a workflow, in stage order. */
  function FlowScript(wf: Workflow, gems: seq<Gem>): seq<Item> {
    match wf
    case Att =>
      [FlowItem([Add(Replicated(Eapol, PbitToGem(gems)))]), FlowItem([Add(Replicated(DhcpIpv4, PbitToGem(gems)))])]
      + HsiaScript(gems)
    case Dt => HsiaScript(gems)
    case Tt => TtScript(Hsia, gems) + TtScript(Voip, gems) + TtScript(Vod, gems) + TtScript(Mgmt, gems)
    case Unknown => []
  }

  function SubscriberScript(wf: Workflow, who: Who, gems: seq<Gem>): seq<Item> {
    SchedScript(who) + QueueScript(who) + FlowScript(wf, gems)
  }

  /** The group-test script: only TT has one; port 0 sets up the group, the elected subscriber the scheduler and queue. */
  function McastScript(wf: Workflow, who: Who, elected: bool): seq<Item> {
    if wf != Tt then []
    else
      (if who.pon == 0 then
         [Item(NoLookup, [Fixed(SetMembers(who.onu))], DeviceError), Item(NoLookup, [AddMcast], DeviceError)]
       else [])
      + (if elected then
           [Item(NoLookup, [Fixed(CreateMcastScheduler(who))], SchedCreationFailed),
            Item(NoLookup, [Fixed(CreateMcastQueue(who))], DeviceError)]
         else [])
      + [Item(NoLookup, [Fixed(AddMember(who.onu, who.pon))], DeviceError)]
  }

  function FinalReason(e: Option<Error>): Reason {
    if e.Some? then e.value.reason else ProvisionSuccess
  }

  // ---------------------------------------------------------------- single-call items

  ghost predicate Singles(script: seq<Item>) {
    forall item <- script :: |item.prims| == 1
  }

  lemma {:induction false} SinglesFlat(script: seq<Item>)
    requires Singles(script)
    ensures |Flat(script)| == |script|
    ensures forall i | 0 <= i < |script| :: Flat(script)[i] == script[i].prims[0]
  {
    if script == [] {
    } else {
      assert script == [script[0]] + script[1..];
      SinglesFlat(script[1..]);
    }
  }

  lemma {:induction false} FlatPrefix(a: seq<Item>, k: nat)
    requires k <= |a|
    ensures Flat(a[..k]) <= Flat(a)
  {
    FlatConcat(a[..k], a[k..]);
    assert a == a[..k] + a[k..];
  }

  /** As long as items make one call each, a call is made only after all calls before it were accepted. */
  lemma EarlierAccepted(env: Env, singles: seq<Item>, rest: seq<Item>)
    requires Singles(singles)
    ensures var r := RunScript(env, singles + rest, []).0;
            && (forall i | 0 <= i < |singles| && i < |r| - 1 :: Accepted(r[i]))
            && (|r| > |singles| ==> RunScript(env, singles, []).1.None?)
  {
    var script := singles + rest;
    var (r, e) := RunScript(env, script, []);
    RunConcat(env, singles, rest, []);
    var (r1, e1) := RunScript(env, singles, []);
    RunFollows(env, script, []);
    RunFollows(env, singles, []);
    SinglesFlat(singles);
    RunSucceeds(env, singles, []);
    if e1.None? {
      RunFollows(env, rest, r1);
      assert forall i | 0 <= i < |r1| :: r[i] == r1[i];
    } else {
      SinglesFailure(env, singles);
    }
  }

  lemma SinglesFailure(env: Env, singles: seq<Item>)
    requires Singles(singles) && RunScript(env, singles, []).1.Some?
    ensures var r := RunScript(env, singles, []).0;
            |r| <= |singles| && forall i | 0 <= i < |r| - 1 :: Accepted(r[i])
  {
    var r := RunScript(env, singles, []).0;
    var k := RunFails(env, singles, []);
    var rk := RunScript(env, singles[..k], []).0;
    RunFollows(env, singles[..k], []);
    RunSucceeds(env, singles[..k], []);
    SinglesFlat(singles[..k]);
    ItemMeaning(env, singles[k], rk);
    assert |r| <= |rk| + 1;
    assert forall i | 0 <= i < |rk| :: r[i] == rk[i];
  }

  // ---------------------------------------------------------------- staging

  /** The four calls that come before any flow. */
  function SetupCall(who: Who, i: nat): Call
    requires i < 4
  {
    if i == 0 then CreateSchedulers(who, Downstream)
    else if i == 1 then CreateSchedulers(who, Upstream)
    else if i == 2 then CreateQueues(who, Downstream)
    else CreateQueues(who, Upstream)
  }

  ghost predicate OnlyAdds(ps: seq<Prim>) { forall i | 0 <= i < |ps| :: ps[i].Add? }

  /**
    * The order of a subscriber's device calls, for every workflow and every device: first the two
    * scheduler calls, then the two queue calls, then flows; and none of the four is followed by
    * anything unless it was accepted.
    */
  lemma Staged(env: Env, wf: Workflow, gems: seq<Gem>)
    ensures var r := RunScript(env, SubscriberScript(wf, env.who, gems), []).0;
            forall i | 0 <= i < |r| ::
              && (i < 4 ==> r[i].call == SetupCall(env.who, i) && (i < |r| - 1 ==> Accepted(r[i])))
              && (i >= 4 ==> r[i].call.FlowAdd?)
  {
    var setup := SchedScript(env.who) + QueueScript(env.who);
    EarlierAccepted(env, setup, FlowScript(wf, gems));
    assert SubscriberScript(wf, env.who, gems) == setup + FlowScript(wf, gems);
    var r := RunScript(env, SubscriberScript(wf, env.who, gems), []).0;
    forall i | 0 <= i < |r|
      ensures if i < 4 then r[i].call == SetupCall(env.who, i) else r[i].call.FlowAdd?
    {
      CallAt(env, wf, gems, i);
    }
  }

  /** The i-th call of a subscriber's run. */
  lemma CallAt(env: Env, wf: Workflow, gems: seq<Gem>, i: nat)
    requires i < |RunScript(env, SubscriberScript(wf, env.who, gems), []).0|
    ensures var r := RunScript(env, SubscriberScript(wf, env.who, gems), []).0;
            var ps := Flat(FlowScript(wf, gems));
            if i < 4 then r[i].call == SetupCall(env.who, i)
            else i - 4 < |ps| && ps[i - 4].Add?
                 && r[i].call == FlowAdd(ps[i - 4].t.service, MakeFlow(env, ps[i - 4].t, FlowsIn(r[..i])))
  {
    var script := SubscriberScript(wf, env.who, gems);
    RunFollows(env, script, []);
    FlatOf(wf, env.who, gems);
    FlowScriptAdds(wf, gems);
    var r := RunScript(env, script, []).0;
    var p := Flat(script)[i];
    assert r[i].call == PrimCall(env, p, FlowsIn(r[..i]));
    if i >= 4 {
      assert p == Flat(FlowScript(wf, gems))[i - 4];
    }
  }

  lemma FlatOf(wf: Workflow, who: Who, gems: seq<Gem>)
    ensures var fl := Flat(SubscriberScript(wf, who, gems));
            && |fl| == 4 + |Flat(FlowScript(wf, gems))|
            && (forall i | 0 <= i < 4 :: fl[i] == Fixed(SetupCall(who, i)))
            && fl[4..] == Flat(FlowScript(wf, gems))
  {
    var setup := SchedScript(who) + QueueScript(who);
    SinglesFlat(setup);
    FlatConcat(setup, FlowScript(wf, gems));
    assert SubscriberScript(wf, who, gems) == setup + FlowScript(wf, gems);
  }

  // ---------------------------------------------------------------- pairing

  /**
    * Every downstream flow directly follows its upstream twin, and only downstream flows are paired;
    * they are TT services or, in the other workflows, internet flows.
    */
  ghost predicate WellPaired(ps: seq<Prim>, tt: bool) {
    OnlyAdds(ps) && forall i | 0 <= i < |ps| :: PairedAt(ps, i, tt)
  }

  ghost predicate PairedAt(ps: seq<Prim>, i: nat, tt: bool)
    requires i < |ps| && OnlyAdds(ps)
  {
    && (ps[i].t.paired <==> ps[i].t.dir == Downstream)
    && (ps[i].t.paired ==>
         && i > 0 && ps[i - 1].t.dir == Upstream && ps[i].t == Paired(ps[i - 1].t)
         && ps[i].t.tt == tt && (if tt then TtService(ps[i].t.service) else ps[i].t.service == Hsia))
  }

  lemma PairedConcat(a: seq<Prim>, b: seq<Prim>, tt: bool)
    requires WellPaired(a, tt) && WellPaired(b, tt)
    ensures WellPaired(a + b, tt)
  {
    forall i | 0 <= i < |a + b|
      ensures PairedAt(a + b, i, tt)
    {
      assert if i < |a| then PairedAt(a, i, tt) else PairedAt(b, i - |a|, tt);
    }
  }

  lemma {:induction false} GemScriptPaired(service: FlowType, gem: u32, priorities: seq<nat>)
    requires TtService(service)
    ensures WellPaired(Flat(GemScript(service, gem, priorities)), true)
    ensures |Flat(GemScript(service, gem, priorities))| == GroupSize(service) * |priorities|
  {
    if priorities == [] {
    } else {
      GemScriptPaired(service, gem, priorities[1..]);
      var group := TtGroup(service, gem, priorities[0]);
      PairedConcat(group, Flat(GemScript(service, gem, priorities[1..])), true);
      DistributeLeft(GroupSize(service), 1, |priorities| - 1);
    }
  }

  /** Set bits over all GEM ports. */
  function TotalBits(gems: seq<Gem>): nat {
    if gems == [] then 0 else |Priorities(Bits(gems[0]))| + TotalBits(gems[1..])
  }

  lemma {:induction false} TtScriptPaired(service: FlowType, gems: seq<Gem>)
    requires TtService(service)
    ensures WellPaired(Flat(TtScript(service, gems)), true)
    ensures |Flat(TtScript(service, gems))| == GroupSize(service) * TotalBits(gems)
  {
    if gems == [] {
    } else {
      TtScriptPaired(service, gems[1..]);
      TtScriptStep(service, gems);
      DistributeLeft(GroupSize(service), |Priorities(Bits(gems[0]))|, TotalBits(gems[1..]));
    }
  }

  lemma TtScriptStep(service: FlowType, gems: seq<Gem>)
    requires TtService(service) && gems != [] && WellPaired(Flat(TtScript(service, gems[1..])), true)
    ensures WellPaired(Flat(TtScript(service, gems)), true)
    ensures |Flat(TtScript(service, gems))|
         == GroupSize(service) * |Priorities(Bits(gems[0]))| + |Flat(TtScript(service, gems[1..]))|
  {
    var first := GemScript(service, gems[0].id, Priorities(Bits(gems[0])));
    GemScriptPaired(service, gems[0].id, Priorities(Bits(gems[0])));
    FlatConcat(first, TtScript(service, gems[1..]));
    PairedConcat(Flat(first), Flat(TtScript(service, gems[1..])), true);
  }

  lemma DistributeLeft(k: nat, a: nat, b: nat)
    ensures k * (a + b) == k * a + k * b
  {}

  /** TT adds twelve flows for every set bit of every GEM port. */
  lemma TtFlowCount(gems: seq<Gem>)
    ensures WellPaired(Flat(FlowScript(Tt, gems)), true)
    ensures |Flat(FlowScript(Tt, gems))| == 12 * TotalBits(gems)
  {
    var h, v, d, m := TtScript(Hsia, gems), TtScript(Voip, gems), TtScript(Vod, gems), TtScript(Mgmt, gems);
    TtScriptCount(Hsia, gems, 2);
    TtScriptCount(Voip, gems, 3);
    TtScriptCount(Vod, gems, 4);
    TtScriptCount(Mgmt, gems, 3);
    JoinPaired(h, v);
    JoinPaired(h + v, d);
    JoinPaired(h + v + d, m);
    assert FlowScript(Tt, gems) == h + v + d + m;
  }

  lemma TtScriptCount(service: FlowType, gems: seq<Gem>, k: nat)
    requires TtService(service) && k == GroupSize(service)
    ensures WellPaired(Flat(TtScript(service, gems)), true) && |Flat(TtScript(service, gems))| == k * TotalBits(gems)
  {
    TtScriptPaired(service, gems);
  }

  lemma JoinPaired(a: seq<Item>, b: seq<Item>)
    requires WellPaired(Flat(a), true) && WellPaired(Flat(b), true)
    ensures WellPaired(Flat(a + b), true) && |Flat(a + b)| == |Flat(a)| + |Flat(b)|
  {
    FlatConcat(a, b);
    PairedConcat(Flat(a), Flat(b), true);
  }

  lemma SingleFlowsPaired(wf: Workflow, gems: seq<Gem>)
    requires wf == Att || wf == Dt
    ensures Singles(FlowScript(wf, gems)) && WellPaired(Flat(FlowScript(wf, gems)), false)
  {
    SinglesFlat(FlowScript(wf, gems));
  }

  lemma FlowScriptAdds(wf: Workflow, gems: seq<Gem>)
    ensures WellPaired(Flat(FlowScript(wf, gems)), wf == Tt)
  {
    if wf == Tt {
      TtFlowCount(gems);
    } else if wf != Unknown {
      SingleFlowsPaired(wf, gems);
    }
  }

  // ---------------------------------------------------------------- flow ids

  lemma {:induction false} FlowsFrom(r: Trace, i: nat)
    requires 4 <= i <= |r| && FlowsIn(r[..4]) == 0
    requires forall j | 4 <= j < |r| :: r[j].call.FlowAdd?
    ensures FlowsIn(r[..i]) == i - 4
  {
    if i == 4 {
    } else {
      FlowsFrom(r, i - 1);
      assert r[..i][..i - 1] == r[..i - 1];
    }
  }

  lemma FlowsCounted(env: Env, wf: Workflow, gems: seq<Gem>, r: Trace, i: nat)
    requires r == RunScript(env, SubscriberScript(wf, env.who, gems), []).0 && 4 <= i <= |r|
    ensures FlowsIn(r[..i]) == i - 4
  {
    Staged(env, wf, gems);
    SetupHasNoFlow(env.who, r);
    FlowsFrom(r, i);
  }

  lemma SetupHasNoFlow(who: Who, r: Trace)
    requires |r| >= 4 && forall i | 0 <= i < 4 :: r[i].call == SetupCall(who, i)
    ensures FlowsIn(r[..4]) == 0
  {
    assert FlowsIn(r[..1]) == 0 by { assert r[..1][..0] == []; }
    assert FlowsIn(r[..2]) == 0 by { assert r[..2][..1] == r[..1]; }
    assert FlowsIn(r[..3]) == 0 by { assert r[..3][..2] == r[..2]; }
    assert r[..4][..3] == r[..3];
  }

  /** The n-th flow a subscriber sends is the script's n-th flow, and carries its n-th id. */
  lemma NthFlow(env: Env, wf: Workflow, gems: seq<Gem>, n: nat)
    requires n + 4 < |RunScript(env, SubscriberScript(wf, env.who, gems), []).0|
    ensures var r := RunScript(env, SubscriberScript(wf, env.who, gems), []).0;
            var ps := Flat(FlowScript(wf, gems));
            n < |ps| && ps[n].Add? && r[n + 4].call == FlowAdd(ps[n].t.service, MakeFlow(env, ps[n].t, n))
  {
    var r := RunScript(env, SubscriberScript(wf, env.who, gems), []).0;
    assert FlowsIn(r[..n + 4]) == n by { FlowsCounted(env, wf, gems, r, n + 4); }
    CallAt(env, wf, gems, n + 4);
  }

  /** The first `n` ids and the one after them are in increasing order. */
  ghost predicate IncreasingTo(ids: nat -> u64, n: nat) {
    forall l: nat, m: nat | l < m <= n :: ids(l) < ids(m)
  }

  /**
    * Symmetric flow ids, for every device and every workflow.  A downstream flow is sent directly
    * after the upstream flow of the same service, GEM port and priority, and names that flow's id,
    * which is smaller; in ATT and DT the upstream flow has been accepted by then.  Other flows name
    * no symmetric flow.
    */
  lemma SymmetricIds(env: Env, wf: Workflow, gems: seq<Gem>, n: nat) returns (us: Template)
    requires n + 4 < |RunScript(env, SubscriberScript(wf, env.who, gems), []).0|
    ensures var r := RunScript(env, SubscriberScript(wf, env.who, gems), []).0;
            var f := r[n + 4].call;
            && f.FlowAdd? && f.flow.flowId == env.id(n)
            && (f.flow.dir != Downstream ==> f.flow.symmetricFlowId == 0)
            && (f.flow.dir == Downstream ==>
                 && n > 0 && us.dir == Upstream && us.tt == (wf == Tt)
                 && (if us.tt then TtService(us.service) else us.service == Hsia)
                 && r[n + 3].call == FlowAdd(f.service, MakeFlow(env, us, n - 1)) && us.service == f.service
                 && f.flow == MakeFlow(env, Paired(us), n)
                 && f.flow.symmetricFlowId == r[n + 3].call.flow.flowId == env.id(n - 1)
                 && (IncreasingTo(env.id, n) ==> f.flow.symmetricFlowId < f.flow.flowId)
                 && (wf != Tt ==> Accepted(r[n + 3])))
  {
    NthFlow(env, wf, gems, n);
    FlowScriptAdds(wf, gems);
    var ps := Flat(FlowScript(wf, gems));
    us := ps[n].t;
    assert PairedAt(ps, n, wf == Tt);
    if ps[n].t.dir == Downstream {
      NthFlow(env, wf, gems, n - 1);
      us := ps[n - 1].t;
      if wf != Tt {
        AcceptedBefore(env, wf, gems, n + 3);
      }
    }
  }

  /** The flow at place n of a run and the one just before it. */
  ghost predicate IsPair(r: Trace, n: nat) {
    && n > 0 && n + 4 < |r| && r[n + 3].call.FlowAdd? && r[n + 4].call.FlowAdd?
    && r[n + 4].call.flow.dir == Downstream
  }

  /**
    * The flows as they are sent: a downstream flow and the upstream flow it names undo each other on
    * the VLAN ids of every frame, always in TT, and in ATT and DT exactly when the subscriber's
    * service tag is set.
    */
  lemma PairsInvert(env: Env, wf: Workflow, gems: seq<Gem>, n: nat)
    requires IsPair(RunScript(env, SubscriberScript(wf, env.who, gems), []).0, n)
    ensures var r := RunScript(env, SubscriberScript(wf, env.who, gems), []).0;
            var us, ds := r[n + 3].call.flow, r[n + 4].call.flow;
            Inverse(us.classifier, us.action, ds.classifier, ds.action) <==> wf == Tt || env.who.stag != 0
  {
    var us := SymmetricIds(env, wf, gems, n);
    TemplatesInvert(env, us, n);
  }

  lemma TemplatesInvert(env: Env, us: Template, n: nat)
    requires n > 0 && us.dir == Upstream && if us.tt then TtService(us.service) else us.service == Hsia
    ensures var u, d := MakeFlow(env, us, n - 1), MakeFlow(env, Paired(us), n);
            Inverse(u.classifier, u.action, d.classifier, d.action) <==> us.tt || env.who.stag != 0
  {
    var uc := if us.tt then TtClassifierOf(us.service, Upstream, env.mac(n))
              else ClassifierOf(us.service, Upstream, env.who.ctag, env.who.stag);
    var dc := if us.tt then TtClassifierOf(us.service, Downstream, env.mac(n))
              else ClassifierOf(us.service, Downstream, env.who.ctag, env.who.stag);
    var u, d := MakeFlow(env, us, n - 1), MakeFlow(env, Paired(us), n);
    InverseAnyPriority(uc, u.action, dc, d.action, us.pcp);
    if us.tt {
      TtInverse(us.service, env.mac(n));
    } else {
      HsiaInverse(env.who.ctag, env.who.stag);
    }
  }

  lemma AcceptedBefore(env: Env, wf: Workflow, gems: seq<Gem>, i: nat)
    requires wf != Tt && i + 1 < |RunScript(env, SubscriberScript(wf, env.who, gems), []).0|
    ensures Accepted(RunScript(env, SubscriberScript(wf, env.who, gems), []).0[i])
  {
    var script := SubscriberScript(wf, env.who, gems);
    assert Singles(script);
    assert script == script + [];
    EarlierAccepted(env, script, []);
    RunFollows(env, script, []);
    SinglesFlat(script);
  }

  // ---------------------------------------------------------------- outcomes

  /** Reason is success exactly when every lookup succeeded and every call made was accepted. */
  lemma ReasonSuccess(env: Env, wf: Workflow, gems: seq<Gem>)
    ensures var (r, e) := RunScript(env, SubscriberScript(wf, env.who, gems), []);
            FinalReason(e) == ProvisionSuccess <==>
              && env.schedFound(Downstream) && env.schedFound(Upstream)
              && env.queuesFound(Downstream) && env.queuesFound(Upstream)
              && AcceptedFrom(r, 0)
  {
    var script := SubscriberScript(wf, env.who, gems);
    RunSucceeds(env, script, []);
    LookupsOf(env, wf, gems);
    ReasonStage(env, wf, gems);
  }

  function SetupItem(who: Who, i: nat): Item
    requires i < 4
  {
    if i == 0 then SchedItem(who, Downstream)
    else if i == 1 then SchedItem(who, Upstream)
    else if i == 2 then QueueItem(who, Downstream)
    else QueueItem(who, Upstream)
  }

  lemma ScriptShape(wf: Workflow, who: Who, gems: seq<Gem>)
    ensures var script := SubscriberScript(wf, who, gems);
            && |script| == 4 + |FlowScript(wf, gems)| && script[4..] == FlowScript(wf, gems)
            && forall i | 0 <= i < 4 :: script[i] == SetupItem(who, i)
  {}

  lemma LookupsOf(env: Env, wf: Workflow, gems: seq<Gem>)
    ensures AllFound(env, SubscriberScript(wf, env.who, gems))
       <==> && env.schedFound(Downstream) && env.schedFound(Upstream)
            && env.queuesFound(Downstream) && env.queuesFound(Upstream)
  {
    var script := SubscriberScript(wf, env.who, gems);
    ScriptShape(wf, env.who, gems);
    FlowLookups(wf, gems);
    forall i | 4 <= i < |script|
      ensures Found(env, script[i].lookup)
    {
      assert script[i] == FlowScript(wf, gems)[i - 4];
    }
    assert AllFound(env, script) <==> forall i | 0 <= i < 4 :: Found(env, SetupItem(env.who, i).lookup);
    assert Found(env, SetupItem(env.who, 0).lookup) == env.schedFound(Downstream);
    assert Found(env, SetupItem(env.who, 1).lookup) == env.schedFound(Upstream);
    assert Found(env, SetupItem(env.who, 2).lookup) == env.queuesFound(Downstream);
    assert Found(env, SetupItem(env.who, 3).lookup) == env.queuesFound(Upstream);
  }

  /** A TT subscriber that succeeds has made its four setup calls and twelve flow calls per set bit. */
  lemma TtTotal(env: Env, gems: seq<Gem>)
    requires RunScript(env, SubscriberScript(Tt, env.who, gems), []).1.None?
    ensures |RunScript(env, SubscriberScript(Tt, env.who, gems), []).0| == 4 + 12 * TotalBits(gems)
  {
    RunFollows(env, SubscriberScript(Tt, env.who, gems), []);
    FlatOf(Tt, env.who, gems);
    TtFlowCount(gems);
  }

  ghost predicate FlowItems(script: seq<Item>) {
    forall item <- script :: item.lookup == NoLookup && item.reason == FlowAddFailed
  }

  lemma {:induction false} TtItems(service: FlowType, gems: seq<Gem>)
    ensures FlowItems(TtScript(service, gems))
  {
    if gems == [] {
    } else {
      GemItems(service, gems[0].id, Priorities(Bits(gems[0])));
      TtItems(service, gems[1..]);
    }
  }

  lemma {:induction false} GemItems(service: FlowType, gem: u32, priorities: seq<nat>)
    ensures FlowItems(GemScript(service, gem, priorities))
    ensures |GemScript(service, gem, priorities)| == |priorities|
    ensures forall i | 0 <= i < |priorities| ::
              GemScript(service, gem, priorities)[i] == FlowItem(TtGroup(service, gem, priorities[i]))
  {
    if priorities == [] {
    } else {
      GemItems(service, gem, priorities[1..]);
    }
  }

  lemma FlowLookups(wf: Workflow, gems: seq<Gem>)
    ensures FlowItems(FlowScript(wf, gems))
  {
    if wf == Tt {
      TtItems(Hsia, gems);
      TtItems(Voip, gems);
      TtItems(Vod, gems);
      TtItems(Mgmt, gems);
    }
  }

  /** Both schedulers were found and accepted. */
  ghost predicate SchedsDone(env: Env, r: Trace) {
    env.schedFound(Downstream) && env.schedFound(Upstream) && |r| >= 2 && Accepted(r[0]) && Accepted(r[1])
  }

  /** Both queue sets were found and accepted. */
  ghost predicate QueuesDone(env: Env, r: Trace) {
    env.queuesFound(Downstream) && env.queuesFound(Upstream) && |r| >= 4 && Accepted(r[2]) && Accepted(r[3])
  }

  /** What the lookups and the calls say about the first stage that failed. */
  ghost function StageReason(env: Env, r: Trace): Reason {
    if !SchedsDone(env, r) then SchedCreationFailed
    else if !QueuesDone(env, r) then QueueCreationFailed
    else if exists i :: 4 <= i < |r| && !Accepted(r[i]) then FlowAddFailed
    else ProvisionSuccess
  }

  /**
    * The reason recorded is that of the first failing stage, for every workflow and device:
    * schedulers, if one was not found or not accepted; else queues likewise; else flows, if one was
    * rejected; else success.  Nothing is called after the stage that failed.
    */
  lemma ReasonStage(env: Env, wf: Workflow, gems: seq<Gem>)
    ensures var (r, e) := RunScript(env, SubscriberScript(wf, env.who, gems), []);
            && FinalReason(e) == StageReason(env, r)
            && (FinalReason(e) == SchedCreationFailed ==> |r| <= 2)
            && (FinalReason(e) == QueueCreationFailed ==> |r| <= 4)
  {
    var script := SubscriberScript(wf, env.who, gems);
    var (r, e) := RunScript(env, script, []);
    if e.Some? {
      FailedStage(env, wf, gems);
    } else {
      RunSucceeds(env, script, []);
      RunFollows(env, script, []);
      FlatOf(wf, env.who, gems);
      LookupsOf(env, wf, gems);
    }
  }

  /** A failing run: the items before the failing one succeeded, and it fails on its lookup or on a call. */
  lemma FailedAt(env: Env, script: seq<Item>) returns (k: nat)
    requires RunScript(env, script, []).1.Some?
    ensures var (r, e) := RunScript(env, script, []);
            && k < |script| && AllFound(env, script[..k]) && e.value.reason == script[k].reason
            && var n := |Flat(script[..k])|;
               && n <= |r| && (forall i | 0 <= i < n :: Accepted(r[i]))
               && |r| == n + (if Found(env, script[k].lookup) then |script[k].prims| else 0)
               && (Found(env, script[k].lookup) ==> !AcceptedFrom(r, n))
  {
    k := RunFails(env, script, []);
    var rk := RunScript(env, script[..k], []).0;
    RunFollows(env, script[..k], []);
    RunSucceeds(env, script[..k], []);
    ItemMeaning(env, script[k], rk);
    var r := RunScript(env, script, []).0;
    assert forall i | 0 <= i < |rk| :: r[i] == rk[i] && Accepted(r[i]);
  }

  /** Where a deployment fails: at setup item `k`, or at a flow once all of setup has succeeded. */
  lemma FailedItem(env: Env, wf: Workflow, gems: seq<Gem>) returns (k: nat)
    requires RunScript(env, SubscriberScript(wf, env.who, gems), []).1.Some?
    ensures var (r, e) := RunScript(env, SubscriberScript(wf, env.who, gems), []);
            && (forall i | 0 <= i < k && i < 4 :: i < |r| && Accepted(r[i]) && LookupAt(env, i))
            && (k < 4 ==> if LookupAt(env, k) then |r| == k + 1 && !Accepted(r[k]) else |r| == k)
            && (k < 4 ==> e.value.reason == if k < 2 then SchedCreationFailed else QueueCreationFailed)
            && (k >= 4 ==> |r| > 4 && e.value.reason == FlowAddFailed && !AcceptedFrom(r, 4))
  {
    var script := SubscriberScript(wf, env.who, gems);
    k := FailedAt(env, script);
    ItemPlaces(wf, env.who, gems, k);
    SetupFound(env, wf, gems, k);
    if k < 4 {
      LookupIs(env, k);
      assert |script[k].prims| == 1;
    }
  }

  lemma FailedStage(env: Env, wf: Workflow, gems: seq<Gem>)
    requires RunScript(env, SubscriberScript(wf, env.who, gems), []).1.Some?
    ensures var (r, e) := RunScript(env, SubscriberScript(wf, env.who, gems), []);
            && FinalReason(e) == StageReason(env, r)
            && (FinalReason(e) == SchedCreationFailed ==> |r| <= 2)
            && (FinalReason(e) == QueueCreationFailed ==> |r| <= 4)
  {
    var k := FailedItem(env, wf, gems);
    var r := RunScript(env, SubscriberScript(wf, env.who, gems), []).0;
    assert k >= 1 ==> LookupAt(env, 0);
    assert k >= 2 ==> LookupAt(env, 1);
    assert k >= 3 ==> LookupAt(env, 2);
    assert k >= 4 ==> LookupAt(env, 3);
  }

  /** The lookup that comes before the i-th setup call. */
  predicate LookupAt(env: Env, i: nat) {
    if i == 0 then env.schedFound(Downstream) else if i == 1 then env.schedFound(Upstream)
    else if i == 2 then env.queuesFound(Downstream) else env.queuesFound(Upstream)
  }

  lemma LookupIs(env: Env, i: nat)
    requires i < 4
    ensures Found(env, SetupItem(env.who, i).lookup) == LookupAt(env, i)
  {}

  /** The setup lookups that lie before an item. */
  lemma SetupFound(env: Env, wf: Workflow, gems: seq<Gem>, k: nat)
    requires k < |SubscriberScript(wf, env.who, gems)|
    requires AllFound(env, SubscriberScript(wf, env.who, gems)[..k])
    ensures forall i | 0 <= i < k && i < 4 :: LookupAt(env, i)
  {
    var script := SubscriberScript(wf, env.who, gems);
    ScriptShape(wf, env.who, gems);
    forall i | 0 <= i < k && i < 4
      ensures LookupAt(env, i)
    {
      assert script[..k][i] == SetupItem(env.who, i);
      LookupIs(env, i);
    }
  }

  /** Where an item stands in a subscriber's script tells its kind and how many calls precede it. */
  lemma ItemPlaces(wf: Workflow, who: Who, gems: seq<Gem>, k: nat)
    requires k < |SubscriberScript(wf, who, gems)|
    ensures var script := SubscriberScript(wf, who, gems);
            && (k < 4 ==> |Flat(script[..k])| == k && script[k] == SetupItem(who, k))
            && (k >= 4 ==> |Flat(script[..k])| >= 4 && script[k].lookup == NoLookup && script[k].reason == FlowAddFailed)
  {
    var script := SubscriberScript(wf, who, gems);
    ScriptShape(wf, who, gems);
    if k < 4 {
      SinglesFlat(script[..k]);
    } else {
      FlowLookups(wf, gems);
      assert script[k] == FlowScript(wf, gems)[k - 4];
      FlatPrefix(script[..k], 4);
      assert script[..k][..4] == script[..4];
      SinglesFlat(script[..4]);
    }
  }

  /** Which bit of which GEM port a group of a TT service belongs to. */
  lemma {:induction false} TtGroupAt(service: FlowType, gems: seq<Gem>, k: nat) returns (g: nat, pcp: nat)
    requires k < |TtScript(service, gems)|
    ensures g < |gems| && HasBit(gems[g], pcp)
    ensures TtScript(service, gems)[k] == FlowItem(TtGroup(service, gems[g].id, pcp))
  {
    var ps := Priorities(Bits(gems[0]));
    GemItems(service, gems[0].id, ps);
    if k < |ps| {
      PrioritiesMeaning(Bits(gems[0]));
      g, pcp := 0, ps[k];
      assert pcp in ps;
    } else {
      g, pcp := TtGroupAt(service, gems[1..], k - |ps|);
      g := g + 1;
    }
  }

  /**
    * When a TT service fails, it fails at one set bit of one GEM port: everything before that bit
    * was accepted, every flow of the bit was attempted, nothing after it was, and the error is the
    * one of the bit's first rejected flow.
    */
  lemma TtFailure(env: Env, service: FlowType, gems: seq<Gem>, t: Trace)
    returns (g: nat, pcp: nat, before: Trace)
    requires RunScript(env, TtScript(service, gems), t).1.Some?
    ensures g < |gems| && HasBit(gems[g], pcp)
    ensures var (r, e) := RunScript(env, TtScript(service, gems), t);
            && t <= before && AcceptedFrom(before, |t|)
            && r == SendAll(env, TtGroup(service, gems[g].id, pcp), before)
            && |r| == |before| + GroupSize(service)
            && |before| <= e.value.origin < |r| && !Accepted(r[e.value.origin])
            && (forall j | |before| <= j < e.value.origin :: Accepted(r[j]))
            && e.value.reason == FlowAddFailed
  {
    var script := TtScript(service, gems);
    var k := RunFails(env, script, t);
    g, pcp := TtGroupAt(service, gems, k);
    before := RunScript(env, script[..k], t).0;
    RunFollows(env, script[..k], t);
    RunSucceeds(env, script[..k], t);
    ItemMeaning(env, script[k], before);
    SendAllFollows(env, TtGroup(service, gems[g].id, pcp), before);
  }
}
