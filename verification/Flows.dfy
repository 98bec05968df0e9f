/** The flows a subscriber's deployment sends, field by field. */
module Flows {
  import opened Words
  import opened Results
  import opened Frames
  import opened Pbits
  import opened Provisioning
  import opened Scripts
  import opened Tags

  // ---------------------------------------------------------------- set bits of all GEM ports

  /** Bit `pcp` of the GEM port at place `g` of the list. */
  datatype Place = Place(g: nat, pcp: nat)

  function PlacesOf(g: nat, priorities: seq<nat>): (r: seq<Place>)
    ensures |r| == |priorities| && forall i | 0 <= i < |r| :: r[i] == Place(g, priorities[i])
  {
    if priorities == [] then [] else [Place(g, priorities[0])] + PlacesOf(g, priorities[1..])
  }

  /** The set bits of the GEM ports from place `from` on. */
  function Places(gems: seq<Gem>, from: nat): seq<Place>
    requires from <= |gems|
    decreases |gems| - from
  {
    if from == |gems| then [] else PlacesOf(from, Priorities(Bits(gems[from]))) + Places(gems, from + 1)
  }

  predicate Before(a: Place, b: Place) { a.g < b.g || (a.g == b.g && a.pcp > b.pcp) }

  lemma {:induction false} PlaceCarried(gems: seq<Gem>, from: nat, a: Place)
    requires from <= |gems|
    ensures a in Places(gems, from) <==> from <= a.g < |gems| && Carries(gems[a.g].pbitMap, a.pcp)
    decreases |gems| - from
  {
    if from == |gems| {
    } else {
      var head, tail := PlacesOf(from, Priorities(Bits(gems[from]))), Places(gems, from + 1);
      PlaceCarried(gems, from + 1, a);
      assert a in head <==> a.g == from && Carries(gems[from].pbitMap, a.pcp) by { OneGem(gems[from], from, a); }
      assert Places(gems, from) == head + tail;
    }
  }

  lemma {:induction false} PlacesOrdered(gems: seq<Gem>, from: nat)
    requires from <= |gems|
    ensures forall a <- Places(gems, from) :: from <= a.g < |gems|
    ensures forall i, k | 0 <= i < k < |Places(gems, from)| :: Before(Places(gems, from)[i], Places(gems, from)[k])
    decreases |gems| - from
  {
    if from == |gems| {
    } else {
      PlacesOrdered(gems, from + 1);
      PrioritiesMeaning(Bits(gems[from]));
      var head, tail := PlacesOf(from, Priorities(Bits(gems[from]))), Places(gems, from + 1);
      assert forall k | 0 <= k < |tail| :: tail[k] in tail;
    }
  }

  /** They are exactly the carried priorities, GEM ports in list order and the most significant bit first. */
  lemma PlacesMeaning(gems: seq<Gem>)
    ensures forall a: Place :: a in Places(gems, 0) <==> a.g < |gems| && Carries(gems[a.g].pbitMap, a.pcp)
    ensures forall i, k | 0 <= i < k < |Places(gems, 0)| :: Before(Places(gems, 0)[i], Places(gems, 0)[k])
  {
    forall a: Place
      ensures a in Places(gems, 0) <==> a.g < |gems| && Carries(gems[a.g].pbitMap, a.pcp)
    {
      PlaceCarried(gems, 0, a);
    }
    PlacesOrdered(gems, 0);
  }

  lemma OneGem(gem: Gem, g: nat, a: Place)
    ensures a in PlacesOf(g, Priorities(Bits(gem))) <==> a.g == g && Carries(gem.pbitMap, a.pcp)
  {
    var ps := Priorities(Bits(gem));
    PrioritiesMeaning(Bits(gem));
    CarriesIsHasBit(gem, a.pcp);
    if a.g == g && a.pcp in ps {
      var i :| 0 <= i < |ps| && ps[i] == a.pcp;
      assert PlacesOf(g, ps)[i] == a;
    }
  }

  /** An item of a TT service's script is the group of a set bit. */
  ghost predicate GroupOf(item: Item, service: FlowType, gems: seq<Gem>, a: Place) {
    a.g < |gems| && item == FlowItem(TtGroup(service, gems[a.g].id, a.pcp))
  }

  lemma OneGemScript(service: FlowType, gems: seq<Gem>, g: nat)
    requires g < |gems|
    ensures var ps := Priorities(Bits(gems[g]));
            && |GemScript(service, gems[g].id, ps)| == |ps|
            && forall b | 0 <= b < |ps| :: GroupOf(GemScript(service, gems[g].id, ps)[b], service, gems, PlacesOf(g, ps)[b])
  {
    GemItems(service, gems[g].id, Priorities(Bits(gems[g])));
  }

  /** The script of a TT service has one group for each set bit. */
  lemma {:induction false} ScriptPlaces(service: FlowType, gems: seq<Gem>, from: nat)
    requires from <= |gems|
    ensures |TtScript(service, gems[from..])| == |Places(gems, from)|
    ensures forall b | 0 <= b < |Places(gems, from)| ::
              GroupOf(TtScript(service, gems[from..])[b], service, gems, Places(gems, from)[b])
    decreases |gems| - from
  {
    if from == |gems| {
    } else {
      var ps := Priorities(Bits(gems[from]));
      ScriptPlaces(service, gems, from + 1);
      OneGemScript(service, gems, from);
      assert gems[from..][1..] == gems[from + 1..];
      assert TtScript(service, gems[from..]) == GemScript(service, gems[from].id, ps) + TtScript(service, gems[from + 1..]);
      assert Places(gems, from) == PlacesOf(from, ps) + Places(gems, from + 1);
    }
  }

  // ---------------------------------------------------------------- places of flows

  lemma {:induction false} FlatUniform(script: seq<Item>, k: nat, b: nat, j: nat)
    requires forall item <- script :: |item.prims| == k
    requires b < |script| && j < k
    ensures k * b + j < |Flat(script)| && Flat(script)[k * b + j] == script[b].prims[j]
  {
    if b == 0 {
    } else {
      FlatUniform(script[1..], k, b - 1, j);
      assert k * b == k + k * (b - 1);
    }
  }

  function InService(service: FlowType, b: nat, j: nat): nat {
    j + if service == Hsia then 2 * b else if service == Vod then 4 * b else 3 * b
  }

  /** The j-th flow of the b-th group of a TT service, in the service's own list of flows. */
  lemma ServicePrim(service: FlowType, gems: seq<Gem>, b: nat, j: nat, i: nat)
    requires TtService(service) && b < |Places(gems, 0)| && j < GroupSize(service) && i == InService(service, b, j)
    ensures var fl, a := Flat(TtScript(service, gems)), Places(gems, 0)[b];
            a.g < |gems| && i < |fl| && fl[i] == TtGroup(service, gems[a.g].id, a.pcp)[j]
  {
    var script := TtScript(service, gems);
    GroupsUniform(service, gems);
    assert GroupOf(script[b], service, gems, Places(gems, 0)[b]);
    FlatUniform(script, GroupSize(service), b, j);
  }

  lemma GroupsUniform(service: FlowType, gems: seq<Gem>)
    requires TtService(service)
    ensures var script := TtScript(service, gems);
            && |script| == |Places(gems, 0)|
            && (forall b | 0 <= b < |script| :: GroupOf(script[b], service, gems, Places(gems, 0)[b]))
            && forall item <- script :: |item.prims| == GroupSize(service)
  {
    var script := TtScript(service, gems);
    ScriptPlaces(service, gems, 0);
    assert gems[0..] == gems;
    forall item <- script
      ensures |item.prims| == GroupSize(service)
    {
      var q :| 0 <= q < |script| && script[q] == item;
      assert GroupOf(script[q], service, gems, Places(gems, 0)[q]);
    }
  }

  /** Where a flow stands in a TT deployment: internet flows first, then voice, video and management. */
  predicate StandsAt(n: nat, bits: nat, service: FlowType, b: nat, j: nat) {
    b < bits &&
    match service
    case Hsia => j < 2 && n == 2 * b + j
    case Voip => j < 3 && n == 2 * bits + 3 * b + j
    case Vod => j < 4 && n == 5 * bits + 4 * b + j
    case Mgmt => j < 3 && n == 9 * bits + 3 * b + j
    case _ => false
  }

  /** The flows of the four services, one after the other. */
  lemma TtFlat(gems: seq<Gem>)
    ensures Flat(FlowScript(Tt, gems)) == Flat(TtScript(Hsia, gems)) + Flat(TtScript(Voip, gems))
                                          + Flat(TtScript(Vod, gems)) + Flat(TtScript(Mgmt, gems))
  {
    var h, v, d, m := TtScript(Hsia, gems), TtScript(Voip, gems), TtScript(Vod, gems), TtScript(Mgmt, gems);
    FlatConcat(h, v);
    FlatConcat(h + v, d);
    FlatConcat(h + v + d, m);
    assert FlowScript(Tt, gems) == h + v + d + m;
  }

  lemma ServiceLengths(gems: seq<Gem>)
    ensures var bits := |Places(gems, 0)|;
            && |Flat(TtScript(Hsia, gems))| == 2 * bits && |Flat(TtScript(Voip, gems))| == 3 * bits
            && |Flat(TtScript(Vod, gems))| == 4 * bits && |Flat(TtScript(Mgmt, gems))| == 3 * bits
  {
    BitsCounted(gems, 0);
    assert gems[0..] == gems;
    TtScriptCount(Hsia, gems, 2);
    TtScriptCount(Voip, gems, 3);
    TtScriptCount(Vod, gems, 4);
    TtScriptCount(Mgmt, gems, 3);
  }

  function StartOf(service: FlowType, bits: nat): nat {
    if service == Hsia then 0 else if service == Voip then 2 * bits else if service == Vod then 5 * bits else 9 * bits
  }

  /** In four lists one after the other, with lengths as the services have them. */
  lemma PartAt(h: seq<Prim>, v: seq<Prim>, d: seq<Prim>, m: seq<Prim>, bits: nat, service: FlowType, i: nat)
    requires |h| == 2 * bits && |v| == 3 * bits && |d| == 4 * bits && |m| == 3 * bits && TtService(service)
    ensures var part := if service == Hsia then h else if service == Voip then v else if service == Vod then d else m;
            var n := StartOf(service, bits) + i;
            i < |part| ==> n < |h + v + d + m| && (h + v + d + m)[n] == part[i]
  {}

  /** A place in one service's list is a place in the whole list. */
  lemma ShiftPrim(gems: seq<Gem>, service: FlowType, i: nat, n: nat)
    requires TtService(service) && i < |Flat(TtScript(service, gems))|
    requires n == StartOf(service, |Places(gems, 0)|) + i
    ensures var ps := Flat(FlowScript(Tt, gems)); n < |ps| && ps[n] == Flat(TtScript(service, gems))[i]
  {
    var h, v, d, m := Flat(TtScript(Hsia, gems)), Flat(TtScript(Voip, gems)),
                      Flat(TtScript(Vod, gems)), Flat(TtScript(Mgmt, gems));
    var bits, ps := |Places(gems, 0)|, Flat(FlowScript(Tt, gems));
    assert ps == h + v + d + m by { TtFlat(gems); }
    assert |h| == 2 * bits && |v| == 3 * bits && |d| == 4 * bits && |m| == 3 * bits by { ServiceLengths(gems); }
    PartAt(h, v, d, m, bits, service, i);
  }

  lemma StandsInService(n: nat, bits: nat, service: FlowType, b: nat, j: nat)
    requires StandsAt(n, bits, service, b, j)
    ensures TtService(service) && j < GroupSize(service)
    ensures n == StartOf(service, bits) + InService(service, b, j)
  {}

  lemma TtPrim(gems: seq<Gem>, n: nat, service: FlowType, b: nat, j: nat)
    requires StandsAt(n, |Places(gems, 0)|, service, b, j)
    ensures var ps, a := Flat(FlowScript(Tt, gems)), Places(gems, 0)[b];
            n < |ps| && a.g < |gems| && ps[n] == TtGroup(service, gems[a.g].id, a.pcp)[j]
  {
    var i := InService(service, b, j);
    StandsInService(n, |Places(gems, 0)|, service, b, j);
    ServicePrim(service, gems, b, j, i);
    ShiftPrim(gems, service, i, n);
  }

  // ---------------------------------------------------------------- flows as sent

  /** The fields every flow takes from its subscriber. */
  ghost predicate FromSubscriber(env: Env, f: Flow, n: nat) {
    && f.accessIntf == ToI32(env.who.pon) && f.onuId == ToI32(env.who.onu) && f.uniId == ToI32(env.who.uni)
    && f.portNo == env.who.port && f.allocId == ToI32(env.tp.allocId)
    && f.flowId == env.id(n) && f.priority == 1000 && f.groupId == 0
  }

  /** A classifier with its outer priority overridden, unless the priority is the mark for none. */
  ghost predicate Overridden(c: Classifier, base: Classifier, pcp: nat) {
    && c == base.(oPbits := c.oPbits)
    && c.oPbits == if pcp != 255 then pcp else base.oPbits
  }

  /** The classifier and action of a flow come from the formatter its kind uses. */
  ghost predicate Formatted(env: Env, f: Flow, service: FlowType, n: nat, pcp: nat) {
    if service == DhcpIpv4 then
      Overridden(f.classifier, ClassifierOf(DhcpIpv4, Upstream, env.who.ctag, env.who.stag), pcp)
      && f.action == ActionOf(DhcpIpv4, Upstream, env.who.stag)
    else
      Overridden(f.classifier, TtClassifierOf(service, f.dir, env.mac(n)), pcp)
      && f.action == TtActionOf(service, f.dir)
  }

  /**
    * The flows of a TT deployment, for every device.  Flow number n belongs to one set bit of one GEM
    * port: upstream and downstream flow of the service, then its DHCP and IGMP traps.  It carries that
    * GEM port and that priority, is not replicated, and takes its other fields from the subscriber.
    */
  lemma TtFlowAt(env: Env, gems: seq<Gem>, n: nat, service: FlowType, b: nat, j: nat)
    requires n + 4 < |RunScript(env, SubscriberScript(Tt, env.who, gems), []).0|
    requires StandsAt(n, |Places(gems, 0)|, service, b, j)
    ensures var c, a := RunScript(env, SubscriberScript(Tt, env.who, gems), []).0[n + 4].call, Places(gems, 0)[b];
            && a.g < |gems| && Carries(gems[a.g].pbitMap, a.pcp)
            && c.FlowAdd? && c.service == (if j == 2 then DhcpIpv4 else if j == 3 then Igmp else service)
            && c.flow.dir == (if j == 1 then Downstream else Upstream)
            && FromSubscriber(env, c.flow, n) && Formatted(env, c.flow, c.service, n, a.pcp)
            && c.flow.gemPortId == ToI32(gems[a.g].id) && !c.flow.replicate && c.flow.pbitToGem == map[]
  {
    NthFlow(env, Tt, gems, n);
    TtPrim(gems, n, service, b, j);
    PlacesMeaning(gems);
    assert Places(gems, 0)[b] in Places(gems, 0);
    var a := Places(gems, 0)[b];
    var t := TtGroup(service, gems[a.g].id, a.pcp)[j].t;
    assert t.gem == gems[a.g].id && t.pcp == a.pcp && !t.replicate && t.pbits == map[];
  }

  /** Every flow of a TT deployment stands somewhere. */
  lemma TtPlace(env: Env, gems: seq<Gem>, n: nat) returns (service: FlowType, b: nat, j: nat)
    requires n + 4 < |RunScript(env, SubscriberScript(Tt, env.who, gems), []).0|
    ensures StandsAt(n, |Places(gems, 0)|, service, b, j)
  {
    NthFlow(env, Tt, gems, n);
    TtFlowCount(gems);
    BitsCounted(gems, 0);
    assert gems[0..] == gems;
    var bits := |Places(gems, 0)|;
    if n < 2 * bits {
      service, b, j := Hsia, n / 2, n % 2;
    } else if n < 5 * bits {
      service, b, j := Voip, (n - 2 * bits) / 3, (n - 2 * bits) % 3;
    } else if n < 9 * bits {
      service, b, j := Vod, (n - 5 * bits) / 4, (n - 5 * bits) % 4;
    } else {
      service, b, j := Mgmt, (n - 9 * bits) / 3, (n - 9 * bits) % 3;
    }
  }

  lemma {:induction false} BitsCounted(gems: seq<Gem>, from: nat)
    requires from <= |gems|
    ensures TotalBits(gems[from..]) == |Places(gems, from)|
    decreases |gems| - from
  {
    if from == |gems| {
    } else {
      BitsCounted(gems, from + 1);
      assert gems[from..][1..] == gems[from + 1..];
    }
  }

  lemma SinglePrim(wf: Workflow, gems: seq<Gem>, n: nat)
    requires (wf == Att || wf == Dt) && n < |Flat(FlowScript(wf, gems))|
    ensures n < if wf == Att then 4 else 2
    ensures Flat(FlowScript(wf, gems))[n].Add?
    ensures var t := Flat(FlowScript(wf, gems))[n].t;
            && (wf == Att ==> t.service == (if n == 0 then Eapol else if n == 1 then DhcpIpv4 else Hsia)
                              && t.dir == if n == 3 then Downstream else Upstream)
            && (wf == Dt ==> t.service == Hsia && t.dir == if n == 1 then Downstream else Upstream)
            && !t.tt && t.gem == 0 && t.pcp == 255 && t.replicate && t.pbits == PbitToGem(gems)
  {
    SingleFlowsPaired(wf, gems);
    SinglesFlat(FlowScript(wf, gems));
  }

  /**
    * The flows of an ATT or DT deployment: each is replicated over the decoded map of priorities,
    * names no GEM port of its own, and takes its other fields from the subscriber.
    */
  lemma ReplicatedFlowAt(env: Env, wf: Workflow, gems: seq<Gem>, n: nat)
    requires wf == Att || wf == Dt
    requires n + 4 < |RunScript(env, SubscriberScript(wf, env.who, gems), []).0|
    ensures n < if wf == Att then 4 else 2
    ensures var c := RunScript(env, SubscriberScript(wf, env.who, gems), []).0[n + 4].call;
            && c.FlowAdd?
            && (wf == Att ==> c.service == (if n == 0 then Eapol else if n == 1 then DhcpIpv4 else Hsia)
                              && c.flow.dir == if n == 3 then Downstream else Upstream)
            && (wf == Dt ==> c.service == Hsia && c.flow.dir == if n == 1 then Downstream else Upstream)
            && FromSubscriber(env, c.flow, n)
            && c.flow.classifier == ClassifierOf(c.service, c.flow.dir, env.who.ctag, env.who.stag)
            && c.flow.action == ActionOf(c.service, c.flow.dir, env.who.stag)
            && c.flow.gemPortId == 0 && c.flow.replicate && c.flow.pbitToGem == PbitToGem(gems)
  {
    NthFlow(env, wf, gems, n);
    SinglePrim(wf, gems, n);
  }
}
