/** Flow classifiers and actions, and what they do to the VLAN tags of a frame. */
module Frames {
  import opened Words

  datatype FlowType = Eapol | DhcpIpv4 | DhcpIpv6 | Hsia | Voip | Vod | Mgmt | Igmp | McastFlow

  datatype Direction = Upstream | Downstream | Multicast

  datatype TagType = AnyTags | SingleTag | DoubleTag

  datatype Classifier = Classifier(ethType: nat, ipProto: nat, srcPort: nat, dstPort: nat,
                                   oVid: u32, iVid: u32, oPbits: nat, iPbits: nat,
                                   tagType: TagType, dstMac: seq<nat>)

  datatype Command = NoCommand | TrapToHost | AddOuterTag | RemoveOuterTag

  datatype Action = Action(cmd: Command, oVid: u32, iVid: u32, oPbits: nat, iPbits: nat)

  const EMPTY_CLASSIFIER := Classifier(0, 0, 0, 0, 0, 0, 0, 0, AnyTags, [])
  const EMPTY_ACTION := Action(NoCommand, 0, 0, 0, 0)

  // ---------------------------------------------------------------- the formatter of ATT and DT

  function ClassifierOf(flow: FlowType, dir: Direction, ctag: u32, stag: u32): Classifier {
    match (dir, flow)
    case (Upstream, Eapol) => EMPTY_CLASSIFIER.(ethType := 0x888e, oVid := ctag, tagType := SingleTag)
    case (Upstream, DhcpIpv4) =>
      EMPTY_CLASSIFIER.(ethType := 0x800, ipProto := 17, srcPort := 68, dstPort := 67, tagType := SingleTag)
    case (Upstream, DhcpIpv6) =>
      EMPTY_CLASSIFIER.(ethType := 0x86dd, ipProto := 17, srcPort := 547, dstPort := 546, tagType := SingleTag)
    case (Upstream, Hsia) => EMPTY_CLASSIFIER.(oVid := ctag, tagType := SingleTag)
    case (Downstream, Hsia) => EMPTY_CLASSIFIER.(oVid := stag, iVid := ctag, tagType := DoubleTag)
    case _ => EMPTY_CLASSIFIER
  }

  function ActionOf(flow: FlowType, dir: Direction, stag: u32): Action {
    match (dir, flow)
    case (Upstream, Hsia) => EMPTY_ACTION.(cmd := AddOuterTag, oVid := stag)
    case (Upstream, Eapol) => EMPTY_ACTION.(cmd := TrapToHost)
    case (Upstream, DhcpIpv4) => EMPTY_ACTION.(cmd := TrapToHost)
    case (Upstream, DhcpIpv6) => EMPTY_ACTION.(cmd := TrapToHost)
    case (Downstream, Hsia) => EMPTY_ACTION.(cmd := RemoveOuterTag, oVid := stag)
    case _ => EMPTY_ACTION
  }

  /** Fills the two structures field by field. */
  method FormatClassifierAction(flow: FlowType, dir: Direction, ctag: u32, stag: u32)
    returns (c: Classifier, a: Action)
    ensures c == ClassifierOf(flow, dir, ctag, stag) && a == ActionOf(flow, dir, stag)
  {
    c, a := EMPTY_CLASSIFIER, EMPTY_ACTION;
    if dir == Upstream {
      if flow == Eapol {
        c := c.(ethType := 0x888e);
        c := c.(oVid := ctag);
        c := c.(tagType := SingleTag);
        a := a.(cmd := TrapToHost);
      } else if flow == DhcpIpv4 {
        c := c.(ethType := 0x800, ipProto := 17);
        c := c.(srcPort := 68, dstPort := 67);
        c := c.(tagType := SingleTag);
        a := a.(cmd := TrapToHost);
      } else if flow == DhcpIpv6 {
        c := c.(ethType := 0x86dd, ipProto := 17);
        c := c.(srcPort := 547, dstPort := 546);
        c := c.(tagType := SingleTag);
        a := a.(cmd := TrapToHost);
      } else if flow == Hsia {
        c := c.(oVid := ctag);
        c := c.(tagType := SingleTag);
        a := a.(cmd := AddOuterTag);
        a := a.(oVid := stag);
      }
    } else if dir == Downstream {
      if flow == Hsia {
        c := c.(oVid := stag);
        c := c.(iVid := ctag);
        c := c.(tagType := DoubleTag);
        a := a.(cmd := RemoveOuterTag);
        a := a.(oVid := stag);
      }
    }
  }

  // ---------------------------------------------------------------- the formatter of TT

  /** The fixed inner and outer VLAN ids and the priority of a TT service. */
  datatype TtTags = TtTags(inner: u32, outer: u32, pbits: nat)

  function TtTagsOf(flow: FlowType): TtTags {
    match flow
    case Hsia => TtTags(33, 7, 0)
    case Voip => TtTags(63, 10, 7)
    case Vod => TtTags(55, 555, 5)
    case Mgmt => TtTags(75, 575, 7)
    case _ => TtTags(0, 0, 0)
  }

  predicate TtService(flow: FlowType) { flow in {Hsia, Voip, Vod, Mgmt} }

  function TtClassifierOf(flow: FlowType, dir: Direction, mac: seq<nat>): Classifier {
    var t := TtTagsOf(flow);
    match dir
    case Upstream =>
      if flow == Igmp then EMPTY_CLASSIFIER.(ethType := 0x800, ipProto := 2, tagType := SingleTag)
      else if TtService(flow) then EMPTY_CLASSIFIER.(iPbits := 255, oPbits := t.pbits, oVid := t.inner, tagType := SingleTag)
      else EMPTY_CLASSIFIER
    case Downstream =>
      if TtService(flow) then
        EMPTY_CLASSIFIER.(iPbits := 255, oPbits := 255, iVid := t.inner, oVid := t.outer,
                          dstMac := if flow == Hsia then [] else mac, tagType := DoubleTag)
      else EMPTY_CLASSIFIER
    case Multicast => EMPTY_CLASSIFIER
  }

  function TtActionOf(flow: FlowType, dir: Direction): Action {
    var t := TtTagsOf(flow);
    match dir
    case Upstream =>
      if flow == Igmp then EMPTY_ACTION.(cmd := TrapToHost)
      else if TtService(flow) then Action(AddOuterTag, t.outer, t.inner, t.pbits, 0)
      else EMPTY_ACTION
    case Downstream =>
      if TtService(flow) then Action(RemoveOuterTag, 0, t.inner, 0, t.pbits) else EMPTY_ACTION
    case Multicast => EMPTY_ACTION
  }

  /** Fills the two structures field by field; `mac` is the random address drawn for the call. */
  method FormatTtClassifierAction(flow: FlowType, dir: Direction, mac: seq<nat>)
    returns (c: Classifier, a: Action)
    ensures c == TtClassifierOf(flow, dir, mac) && a == TtActionOf(flow, dir)
  {
    c, a := EMPTY_CLASSIFIER, EMPTY_ACTION;
    if dir == Upstream {
      if flow == Igmp {
        c := c.(ethType := 0x800, ipProto := 2);
        c := c.(srcPort := 0, dstPort := 0);
        c := c.(tagType := SingleTag);
        a := a.(cmd := TrapToHost);
      } else if flow == Hsia {
        a := a.(cmd := AddOuterTag);
        a := a.(iVid := 33, oVid := 7);
        c := c.(iPbits := 255, oVid := 33);
        c := c.(tagType := SingleTag);
      } else if flow == Voip {
        a := a.(cmd := AddOuterTag);
        a := a.(oPbits := 7, iVid := 63, oVid := 10);
        c := c.(iPbits := 255, oPbits := 7, oVid := 63);
        c := c.(tagType := SingleTag);
      } else if flow == Vod {
        a := a.(cmd := AddOuterTag);
        a := a.(oPbits := 5, iVid := 55, oVid := 555);
        c := c.(iPbits := 255, oPbits := 5, oVid := 55);
        c := c.(tagType := SingleTag);
      } else if flow == Mgmt {
        a := a.(cmd := AddOuterTag);
        a := a.(oPbits := 7, iVid := 75, oVid := 575);
        c := c.(iPbits := 255, oPbits := 7, oVid := 75);
        c := c.(tagType := SingleTag);
      }
    } else if dir == Downstream {
      if flow == Hsia {
        a := a.(cmd := RemoveOuterTag);
        a := a.(iVid := 33);
        c := c.(iPbits := 255, oPbits := 255, iVid := 33, oVid := 7);
        c := c.(tagType := DoubleTag);
      } else if flow == Voip {
        a := a.(cmd := RemoveOuterTag);
        a := a.(iPbits := 7, iVid := 63);
        c := c.(iPbits := 255, oPbits := 255, iVid := 63, oVid := 10);
        c := c.(dstMac := mac, tagType := DoubleTag);
      } else if flow == Vod {
        a := a.(cmd := RemoveOuterTag);
        a := a.(iPbits := 5, iVid := 55);
        c := c.(iPbits := 255, oPbits := 255, iVid := 55, oVid := 555);
        c := c.(dstMac := mac, tagType := DoubleTag);
      } else if flow == Mgmt {
        a := a.(cmd := RemoveOuterTag);
        a := a.(iPbits := 7, iVid := 75);
        c := c.(iPbits := 255, oPbits := 255, iVid := 75, oVid := 575);
        c := c.(dstMac := mac, tagType := DoubleTag);
      }
    }
  }

  // ---------------------------------------------------------------- VLAN tag stacks

  /** The VLAN ids of a frame, outermost first.  An id of zero in a classifier or action is unset. */
  type Stack = seq<u32>

  predicate Matches(c: Classifier, s: Stack) {
    && (c.tagType == SingleTag ==> |s| == 1)
    && (c.tagType == DoubleTag ==> |s| == 2)
    && (c.oVid != 0 ==> |s| >= 1 && s[0] == c.oVid)
    && (c.iVid != 0 ==> |s| >= 2 && s[1] == c.iVid)
  }

  /** Rewrites the customer tag, if the action names one. */
  function SetInner(s: Stack, vid: u32): Stack {
    if vid != 0 && s != [] then s[0 := vid] else s
  }

  function Perform(a: Action, s: Stack): Stack {
    match a.cmd
    case AddOuterTag => [a.oVid] + SetInner(s, a.iVid)
    case RemoveOuterTag => if s == [] then s else SetInner(s[1..], a.iVid)
    case _ => s
  }

  /** An upstream and a downstream flow that undo each other on every frame either of them matches. */
  ghost predicate Inverse(uc: Classifier, ua: Action, dc: Classifier, da: Action) {
    && (forall s | Matches(uc, s) :: Matches(dc, Perform(ua, s)) && Perform(da, Perform(ua, s)) == s)
    && (forall s | Matches(dc, s) :: Matches(uc, Perform(da, s)) && Perform(ua, Perform(da, s)) == s)
  }

  /** A classifier's priority field can be overwritten without changing the VLAN ids it matches. */
  lemma PriorityIsFree(c: Classifier, pcp: nat, s: Stack)
    ensures Matches(c.(oPbits := pcp), s) == Matches(c, s)
  {}

  /** So flows undo each other whatever priority they are given. */
  lemma InverseAnyPriority(uc: Classifier, ua: Action, dc: Classifier, da: Action, pcp: nat)
    ensures Inverse(uc.(oPbits := pcp), ua, dc.(oPbits := pcp), da) <==> Inverse(uc, ua, dc, da)
  {
    forall s
      ensures Matches(uc.(oPbits := pcp), s) == Matches(uc, s) && Matches(dc.(oPbits := pcp), s) == Matches(dc, s)
    {
      PriorityIsFree(uc, pcp, s);
      PriorityIsFree(dc, pcp, s);
    }
  }

  /** The ATT and DT internet flows undo each other, for every subscriber with a service tag. */
  lemma HsiaInverse(ctag: u32, stag: u32)
    ensures Inverse(ClassifierOf(Hsia, Upstream, ctag, stag), ActionOf(Hsia, Upstream, stag),
                    ClassifierOf(Hsia, Downstream, ctag, stag), ActionOf(Hsia, Downstream, stag))
       <==> stag != 0
  {
    var uc, ua := ClassifierOf(Hsia, Upstream, ctag, stag), ActionOf(Hsia, Upstream, stag);
    var dc, da := ClassifierOf(Hsia, Downstream, ctag, stag), ActionOf(Hsia, Downstream, stag);
    if stag != 0 {
      forall s | Matches(dc, s)
        ensures Matches(uc, Perform(da, s)) && Perform(ua, Perform(da, s)) == s
      {
        assert Perform(da, s) == [s[1]];
      }
    } else {
      var s: Stack := [1, ctag];
      assert Matches(dc, s) && Perform(da, s) == [ctag];
      assert Perform(ua, Perform(da, s))[0] == 0;
    }
  }

  /** So do the flows of each of the four TT services. */
  lemma TtInverse(flow: FlowType, mac: seq<nat>)
    requires TtService(flow)
    ensures Inverse(TtClassifierOf(flow, Upstream, mac), TtActionOf(flow, Upstream),
                    TtClassifierOf(flow, Downstream, mac), TtActionOf(flow, Downstream))
  {
    var dc, da := TtClassifierOf(flow, Downstream, mac), TtActionOf(flow, Downstream);
    forall s | Matches(dc, s)
      ensures Perform(da, s) == [s[1]] && [s[0]] + Perform(da, s) == s
    {}
    forall s | Matches(TtClassifierOf(flow, Upstream, mac), s)
      ensures Perform(TtActionOf(flow, Upstream), s)[1..] == s
    {}
  }

  /** No frame belongs to two TT services, in either direction. */
  lemma TtServicesDisjoint(f: FlowType, g: FlowType, dir: Direction, macF: seq<nat>, macG: seq<nat>, s: Stack)
    requires TtService(f) && TtService(g) && f != g && dir != Multicast
    ensures !(Matches(TtClassifierOf(f, dir, macF), s) && Matches(TtClassifierOf(g, dir, macG), s))
  {}

  /** Downstream, a tagged frame is delivered to at most one of two subscribers with different tag pairs. */
  lemma DownstreamDisjoint(ctagA: u32, stagA: u32, ctagB: u32, stagB: u32, s: Stack)
    requires ctagA != ctagB || stagA != stagB
    requires ctagA != 0 && stagA != 0 && ctagB != 0 && stagB != 0
    ensures !(Matches(ClassifierOf(Hsia, Downstream, ctagA, stagA), s)
              && Matches(ClassifierOf(Hsia, Downstream, ctagB, stagB), s))
  {}

  /**
    * A TT service's downstream flow is not tied to a subscriber: the classifiers of any two of them
    * match the same frames, namely the one stack of the service's two VLAN ids.
    */
  lemma TtFramesShared(flow: FlowType, macA: seq<nat>, macB: seq<nat>, s: Stack)
    requires TtService(flow)
    ensures Matches(TtClassifierOf(flow, Downstream, macA), s) <==> Matches(TtClassifierOf(flow, Downstream, macB), s)
    ensures Matches(TtClassifierOf(flow, Downstream, macA), s) <==> s == [TtTagsOf(flow).outer, TtTagsOf(flow).inner]
    ensures flow == Hsia ==> TtClassifierOf(flow, Downstream, macA) == TtClassifierOf(flow, Downstream, macB)
  {
    if Matches(TtClassifierOf(flow, Downstream, macA), s) {
      assert s == [s[0], s[1]];
    }
  }

  // ---------------------------------------------------------------- what each flow does to frames

  /**
    * An upstream flow that takes the frames with the one tag `inner` and puts `outer` around it, and
    * a downstream flow that takes exactly the frames so tagged and removes the outer tag again.
    */
  ghost predicate Translates(uc: Classifier, ua: Action, dc: Classifier, da: Action, inner: u32, outer: u32) {
    && (forall s :: Matches(uc, s) <==> s == [inner]) && Perform(ua, [inner]) == [outer, inner]
    && (forall s :: Matches(dc, s) <==> s == [outer, inner]) && Perform(da, [outer, inner]) == [inner]
  }

  lemma TwoTags(c: Classifier, inner: u32, outer: u32)
    requires inner != 0 && outer != 0
    ensures c.tagType == SingleTag && c.oVid == inner && c.iVid == 0 ==> forall s :: Matches(c, s) <==> s == [inner]
    ensures c.tagType == DoubleTag && c.oVid == outer && c.iVid == inner ==>
              forall s :: Matches(c, s) <==> s == [outer, inner]
  {}

  /** In ATT and DT, the internet flows put the service tag around the customer tag and take it off again. */
  lemma HsiaFrames(ctag: u32, stag: u32)
    requires ctag != 0 && stag != 0
    ensures Translates(ClassifierOf(Hsia, Upstream, ctag, stag), ActionOf(Hsia, Upstream, stag),
                       ClassifierOf(Hsia, Downstream, ctag, stag), ActionOf(Hsia, Downstream, stag), ctag, stag)
  {
    TwoTags(ClassifierOf(Hsia, Upstream, ctag, stag), ctag, stag);
    TwoTags(ClassifierOf(Hsia, Downstream, ctag, stag), ctag, stag);
  }

  ghost predicate TtTranslates(flow: FlowType, mac: seq<nat>, inner: u32, outer: u32) {
    Translates(TtClassifierOf(flow, Upstream, mac), TtActionOf(flow, Upstream),
               TtClassifierOf(flow, Downstream, mac), TtActionOf(flow, Downstream), inner, outer)
  }

  lemma TtTwoTags(flow: FlowType, mac: seq<nat>, inner: u32, outer: u32)
    requires TtService(flow) && inner != 0 && outer != 0
    requires TtClassifierOf(flow, Upstream, mac).oVid == inner && TtClassifierOf(flow, Downstream, mac).oVid == outer
    ensures TtTranslates(flow, mac, inner, outer)
  {
    TwoTags(TtClassifierOf(flow, Upstream, mac), inner, outer);
    TwoTags(TtClassifierOf(flow, Downstream, mac), inner, outer);
  }

  /** The four TT services: internet 33 in 7, voice 63 in 10, video 55 in 555, management 75 in 575. */
  lemma TtFrames(mac: seq<nat>)
    ensures TtTranslates(Hsia, mac, 33, 7) && TtTranslates(Voip, mac, 63, 10)
    ensures TtTranslates(Vod, mac, 55, 555) && TtTranslates(Mgmt, mac, 75, 575)
  {
    TtTwoTags(Hsia, mac, 33, 7);
    TtTwoTags(Voip, mac, 63, 10);
    TtTwoTags(Vod, mac, 55, 555);
    TtTwoTags(Mgmt, mac, 75, 575);
  }

  /** The priority a TT service sets on its outer tag upstream and on its inner tag downstream. */
  ghost predicate TtPriorities(flow: FlowType, mac: seq<nat>, pbits: nat) {
    && TtClassifierOf(flow, Upstream, mac).oPbits == pbits && TtClassifierOf(flow, Upstream, mac).iPbits == 255
    && TtClassifierOf(flow, Downstream, mac).oPbits == 255 && TtClassifierOf(flow, Downstream, mac).iPbits == 255
    && TtActionOf(flow, Upstream).oPbits == pbits && TtActionOf(flow, Upstream).iPbits == 0
    && TtActionOf(flow, Downstream).iPbits == pbits && TtActionOf(flow, Downstream).oPbits == 0
  }

  /** Voice and management have priority 7, video 5, internet 0. */
  lemma TtPriorityValues(flow: FlowType, mac: seq<nat>)
    requires TtService(flow)
    ensures TtPriorities(flow, mac, if flow == Voip || flow == Mgmt then 7 else if flow == Vod then 5 else 0)
  {}

  /** Downstream, a TT service is also matched by a random address, but not the internet service. */
  lemma TtAddresses(flow: FlowType, mac: seq<nat>)
    requires TtService(flow)
    ensures TtClassifierOf(flow, Upstream, mac).dstMac == []
    ensures TtClassifierOf(flow, Downstream, mac).dstMac == if flow == Hsia then [] else mac
  {}

  // ---------------------------------------------------------------- trap flows

  /** The part of a packet that classifiers look at, priorities and addresses aside. */
  datatype Packet = Packet(ethType: nat, ipProto: nat, srcPort: nat, dstPort: nat, tags: Stack)

  predicate Admits(c: Classifier, p: Packet) {
    && Matches(c, p.tags)
    && (c.ethType != 0 ==> p.ethType == c.ethType)
    && (c.ipProto != 0 ==> p.ipProto == c.ipProto)
    && (c.srcPort != 0 ==> p.srcPort == c.srcPort)
    && (c.dstPort != 0 ==> p.dstPort == c.dstPort)
  }

  predicate TrapFlow(flow: FlowType) { flow in {Eapol, DhcpIpv4, DhcpIpv6, Igmp} }

  /** The classifier a trap flow gets from the formatter its workflow uses. */
  function TrapClassifier(flow: FlowType, ctag: u32): Classifier {
    if flow == Igmp then TtClassifierOf(Igmp, Upstream, []) else ClassifierOf(flow, Upstream, ctag, 0)
  }

  /** Exactly the upstream trap flows send packets to the host, and that leaves the packet's tags alone. */
  lemma TrapsOnly(flow: FlowType, dir: Direction, stag: u32, s: Stack)
    ensures ActionOf(flow, dir, stag).cmd == TrapToHost <==> dir == Upstream && TrapFlow(flow) && flow != Igmp
    ensures TtActionOf(flow, dir).cmd == TrapToHost <==> dir == Upstream && flow == Igmp
    ensures ActionOf(flow, dir, stag).cmd == TrapToHost ==> Perform(ActionOf(flow, dir, stag), s) == s
    ensures TtActionOf(flow, dir).cmd == TrapToHost ==> Perform(TtActionOf(flow, dir), s) == s
  {}

  /** The packets each trap flow takes: single-tagged EAP, DHCP requests over IPv4 and IPv6, and IGMP. */
  lemma TrapPackets(ctag: u32, stag: u32, mac: seq<nat>, p: Packet)
    ensures Admits(ClassifierOf(Eapol, Upstream, ctag, stag), p) <==>
              |p.tags| == 1 && (ctag == 0 || p.tags == [ctag]) && p.ethType == 0x888e
    ensures Admits(ClassifierOf(DhcpIpv4, Upstream, ctag, stag), p) <==>
              |p.tags| == 1 && p.ethType == 0x800 && p.ipProto == 17 && p.srcPort == 68 && p.dstPort == 67
    ensures Admits(ClassifierOf(DhcpIpv6, Upstream, ctag, stag), p) <==>
              |p.tags| == 1 && p.ethType == 0x86dd && p.ipProto == 17 && p.srcPort == 547 && p.dstPort == 546
    ensures Admits(TtClassifierOf(Igmp, Upstream, mac), p) <==>
              |p.tags| == 1 && p.ethType == 0x800 && p.ipProto == 2
  {
    if |p.tags| == 1 {
      assert p.tags == [p.tags[0]];
    }
  }

  /** No packet belongs to two kinds of trap flow, whoever the subscribers are. */
  lemma TrapsDisjoint(f: FlowType, g: FlowType, ctagF: u32, ctagG: u32, p: Packet)
    requires TrapFlow(f) && TrapFlow(g) && f != g
    ensures !(Admits(TrapClassifier(f, ctagF), p) && Admits(TrapClassifier(g, ctagG), p))
  {}

  /**
    * The EAP flow takes packets of one subscriber of a port only, and only packets its internet flow
    * admits too; the DHCP and IGMP flows take those of every subscriber.
    */
  lemma TrapReach(ctagA: u32, ctagB: u32, stag: u32, p: Packet)
    ensures Admits(TrapClassifier(Eapol, ctagA), p) ==> Admits(ClassifierOf(Hsia, Upstream, ctagA, stag), p)
    ensures ctagA != 0 && ctagB != 0 && ctagA != ctagB ==>
              !(Admits(TrapClassifier(Eapol, ctagA), p) && Admits(TrapClassifier(Eapol, ctagB), p))
    ensures forall f | TrapFlow(f) && f != Eapol ::
              Admits(TrapClassifier(f, ctagA), p) <==> Admits(TrapClassifier(f, ctagB), p)
  {}
}
