/** The workflow stages as they run against the device, each proved to run its part of the script. */
module Workflow {
  import opened Words
  import opened Results
  import opened Frames
  import opened Pbits
  import opened Provisioning
  import opened Scripts
  import opened Tags
  import opened FlowIds
  import Elections

  /** The device, as one subscriber's goroutine sees it. */
  class OltClient {
    const answer: (Trace, Call) -> Code
    var trace: Trace

    constructor (answer: (Trace, Call) -> Code)
      ensures this.answer == answer && trace == []
    {
      this.answer, trace := answer, [];
    }

    method Invoke(c: Call) returns (code: Code)
      modifies this
      ensures trace == old(trace) + [Event(c, code)]
      ensures code == answer(old(trace), c)
    {
      code := answer(trace, c);
      trace := trace + [Event(c, code)];
    }
  }

  class WaitGroup {
    var count: int

    method Done()
      modifies this
      ensures count == old(count) - 1
    {
      count := count - 1;
    }
  }

  // ---------------------------------------------------------------- unfolding the reference runs

  lemma FlowsInSend(env: Env, c: Call, t: Trace)
    ensures FlowsIn(Send(env, c, t)) == FlowsIn(t) + if c.FlowAdd? then 1 else 0
  {
    assert Send(env, c, t)[..|t|] == t;
  }

  /** An item that makes one call. */
  lemma OneCall(env: Env, item: Item, t: Trace)
    requires |item.prims| == 1
    ensures var t' := Send(env, PrimCall(env, item.prims[0], FlowsIn(t)), t);
            RunItem(env, item, t) ==
            if !Found(env, item.lookup) then (t, Some(Error(item.reason, |t|)))
            else if Accepted(t'[|t|]) then (t', None)
            else (t', Some(Error(item.reason, |t|)))
  {
    var t' := Send(env, PrimCall(env, item.prims[0], FlowsIn(t)), t);
    assert SendAll(env, item.prims, t) == SendAll(env, [], t');
    assert FirstRejected(t', |t| + 1).None?;
  }

  lemma {:induction false} SendAllSnoc(env: Env, ps: seq<Prim>, p: Prim, t: Trace)
    ensures var r := SendAll(env, ps, t);
            SendAll(env, ps + [p], t) == Send(env, PrimCall(env, p, FlowsIn(r)), r)
    decreases |ps|
  {
    if ps == [] {
      var t' := Send(env, PrimCall(env, p, FlowsIn(t)), t);
      assert SendAll(env, [p], t) == SendAll(env, [p][1..], t') == t';
      assert [] + [p] == [p];
    } else {
      assert (ps + [p])[1..] == ps[1..] + [p];
      SendAllSnoc(env, ps[1..], p, Send(env, PrimCall(env, ps[0], FlowsIn(t)), t));
    }
  }

  lemma RunHead(env: Env, item: Item, rest: seq<Item>, t: Trace)
    ensures RunScript(env, [item] + rest, t)
         == var (t', e) := RunItem(env, item, t); if e.Some? then (t', e) else RunScript(env, rest, t')
  {
    assert ([item] + rest)[1..] == rest;
  }

  /** The error a flow group ends with. */
  function GroupError(t: Trace, from: nat): Option<Error> {
    match FirstRejected(t, from)
    case None => None
    case Some(i) => Some(Error(FlowAddFailed, i))
  }

  lemma GroupRuns(env: Env, ps: seq<Prim>, t: Trace)
    ensures var r := SendAll(env, ps, t); RunItem(env, FlowItem(ps), t) == (r, GroupError(r, |t|))
  {}

  ghost predicate ErrorAt(t: Trace, i: nat, err: Option<Error>) {
    i < |t| && err == if Accepted(t[i]) then None else Some(Error(FlowAddFailed, i))
  }

  /** Upstream, downstream, DHCP, IGMP: the first of the flows' own errors is the group's error. */
  lemma BitError(t: Trace, n: nat, service: FlowType,
                 us: Option<Error>, ds: Option<Error>, dhcp: Option<Error>, igmp: Option<Error>)
    requires |t| == n + GroupSize(service) && TtService(service)
    requires ErrorAt(t, n, us) && ErrorAt(t, n + 1, ds)
    requires if service == Hsia then dhcp == None else ErrorAt(t, n + 2, dhcp)
    requires if service != Vod then igmp == None else ErrorAt(t, n + 3, igmp)
    ensures GroupError(t, n)
         == if us.Some? then us else if ds.Some? then ds else if dhcp.Some? then dhcp else igmp
  {
    RejectedMeaning(t, n);
    var first := if us.Some? then us else if ds.Some? then ds else if dhcp.Some? then dhcp else igmp;
    if first.Some? {
      assert !Accepted(t[first.value.origin]);
      assert forall j | n <= j < first.value.origin :: Accepted(t[j]);
    }
  }

  /** What the reference run does for one character of a bitmap. */
  lemma BitStep(env: Env, service: FlowType, gem: u32, bits: string, pos: nat, later: seq<Item>, t: Trace)
    requires pos < |bits|
    ensures RunScript(env, GemScript(service, gem, Priorities(bits[pos..])) + later, t) ==
            var rest := GemScript(service, gem, Priorities(bits[pos + 1..])) + later;
            if bits[pos] != '1' then RunScript(env, rest, t)
            else
              var (t', e) := RunItem(env, FlowItem(TtGroup(service, gem, |bits| - 1 - pos)), t);
              if e.Some? then (t', e) else RunScript(env, rest, t')
  {
    assert bits[pos..][1..] == bits[pos + 1..];
    if bits[pos] == '1' {
      var rest := GemScript(service, gem, Priorities(bits[pos + 1..])) + later;
      assert Priorities(bits[pos..])[0] == |bits| - 1 - pos;
      assert Priorities(bits[pos..])[1..] == Priorities(bits[pos + 1..]);
      GemScriptHead(service, gem, Priorities(bits[pos..]), later);
      RunHead(env, FlowItem(TtGroup(service, gem, |bits| - 1 - pos)), rest, t);
    } else {
      assert Priorities(bits[pos..]) == Priorities(bits[pos + 1..]);
    }
  }

  class Subscriber {
    const who: Who
    const wf: Workflow
    const tp: Tp
    const client: OltClient
    const rsrMgr: ResourceMgr
    const subWg: WaitGroup
    const schedFound: Direction -> bool
    const queuesFound: Direction -> bool
    const mac: nat -> seq<nat>

    var reason: Option<Reason>
    var tpInstance: map<int, nat>

    constructor (who: Who, wf: Workflow, tp: Tp, client: OltClient, rsrMgr: ResourceMgr, subWg: WaitGroup,
                 schedFound: Direction -> bool, queuesFound: Direction -> bool, mac: nat -> seq<nat>)
      ensures this.who == who && this.wf == wf && this.tp == tp
      ensures this.client == client && this.rsrMgr == rsrMgr && this.subWg == subWg
      ensures this.schedFound == schedFound && this.queuesFound == queuesFound && this.mac == mac
      ensures reason == None
    {
      this.who, this.wf, this.tp := who, wf, tp;
      this.client, this.rsrMgr, this.subWg := client, rsrMgr, subWg;
      this.schedFound, this.queuesFound, this.mac := schedFound, queuesFound, mac;
      reason, tpInstance := None, map[];
    }

    /** What the reference run needs to know about the subscriber's surroundings. */
    ghost function World(): Env {
      Env(who, tp, client.answer, schedFound, queuesFound, (n: nat) => NthId(rsrMgr.rivals, n), mac)
    }

    /** Between flows, the subscriber has drawn one id for each flow it has sent. */
    ghost predicate Valid()
      reads client, rsrMgr
    {
      rsrMgr.Valid() && rsrMgr.draws == FlowsIn(client.trace)
    }

    /** Between drawing an id and sending its flow. */
    ghost predicate HoldsId(flowId: u64)
      reads client, rsrMgr
    {
      rsrMgr.Valid() && rsrMgr.draws == FlowsIn(client.trace) + 1 && flowId == World().id(FlowsIn(client.trace))
    }

    // -------------------------------------------------------------- technology-profile instances

    static predicate FirstFailure(createTp: nat -> bool, n: nat) {
      !createTp(n) && forall i | 0 <= i < n :: createTp(i)
    }

    /** Exactly the given ids have an instance, the one created at the id's last place in the list. */
    static ghost predicate LatestStored(stored: map<int, nat>, tpIds: seq<int>) {
      && (forall id <- stored :: id in tpIds) && (forall j | 0 <= j < |tpIds| :: tpIds[j] in stored)
      && forall j | 0 <= j < |tpIds| && tpIds[j] !in tpIds[j + 1..] :: stored[tpIds[j]] == j
    }

    static lemma StoreNext(stored: map<int, nat>, tpIds: seq<int>, i: nat)
      requires i < |tpIds| && LatestStored(stored, tpIds[..i])
      ensures LatestStored(stored[tpIds[i] := i], tpIds[..i + 1])
    {
      var ids := tpIds[..i + 1];
      assert ids == tpIds[..i] + [tpIds[i]];
      forall j | 0 <= j < |ids| && ids[j] !in ids[j + 1..]
        ensures stored[tpIds[i] := i][ids[j]] == j
      {
        if j < i {
          assert ids[j + 1..] == tpIds[..i][j + 1..] + [tpIds[i]];
        }
      }
    }

    /**
      * Start's loop: instances are stored before the error is looked at, and the first error ends
      * the subscriber without a call of Done.
      */
    method Start(tpIds: seq<int>, createTp: nat -> bool) returns (handedOff: bool)
      modifies this
      ensures handedOff <==> forall i | 0 <= i < |tpIds| :: createTp(i)
      ensures handedOff ==> reason == old(reason) && LatestStored(tpInstance, tpIds)
      ensures !handedOff ==> reason == Some(TpInstanceCreationFailed)
      ensures !handedOff ==> exists n :: 0 <= n < |tpIds| && FirstFailure(createTp, n)
                                      && LatestStored(tpInstance, tpIds[..n + 1])
    {
      tpInstance := map[];
      var i := 0;
      while i < |tpIds|
        invariant 0 <= i <= |tpIds| && reason == old(reason)
        invariant forall j | 0 <= j < i :: createTp(j)
        invariant LatestStored(tpInstance, tpIds[..i])
      {
        StoreNext(tpInstance, tpIds, i);
        tpInstance := tpInstance[tpIds[i] := i];
        if !createTp(i) {
          reason := Some(TpInstanceCreationFailed);
          assert FirstFailure(createTp, i) && LatestStored(tpInstance, tpIds[..i + 1]);
          return false;
        }
        i := i + 1;
      }
      assert tpIds[..|tpIds|] == tpIds;
      handedOff := true;
    }

    // -------------------------------------------------------------- schedulers and queues

    method ProvisionScheds() returns (err: Option<Error>)
      requires Valid()
      modifies client
      ensures Valid()
      ensures (client.trace, err) == RunScript(World(), SchedScript(who), old(client.trace))
    {
      ghost var env, t := World(), client.trace;
      OneCall(env, SchedItem(who, Downstream), t);
      RunHead(env, SchedItem(who, Downstream), [SchedItem(who, Upstream)], t);
      if !schedFound(Downstream) {
        return Some(Error(SchedCreationFailed, |client.trace|));
      }
      FlowsInSend(env, CreateSchedulers(who, Downstream), t);
      var code := client.Invoke(CreateSchedulers(who, Downstream));
      if code != Ok {
        return Some(Error(SchedCreationFailed, |client.trace| - 1));
      }
      t := client.trace;
      OneCall(env, SchedItem(who, Upstream), t);
      RunHead(env, SchedItem(who, Upstream), [], t);
      if !schedFound(Upstream) {
        return Some(Error(SchedCreationFailed, |client.trace|));
      }
      FlowsInSend(env, CreateSchedulers(who, Upstream), t);
      code := client.Invoke(CreateSchedulers(who, Upstream));
      if code != Ok {
        return Some(Error(SchedCreationFailed, |client.trace| - 1));
      }
      return None;
    }

    method ProvisionQueues() returns (err: Option<Error>)
      requires Valid()
      modifies client
      ensures Valid()
      ensures (client.trace, err) == RunScript(World(), QueueScript(who), old(client.trace))
    {
      ghost var env, t := World(), client.trace;
      OneCall(env, QueueItem(who, Downstream), t);
      RunHead(env, QueueItem(who, Downstream), [QueueItem(who, Upstream)], t);
      if !queuesFound(Downstream) {
        return Some(Error(QueueCreationFailed, |client.trace|));
      }
      FlowsInSend(env, CreateQueues(who, Downstream), t);
      var code := client.Invoke(CreateQueues(who, Downstream));
      if code != Ok {
        return Some(Error(QueueCreationFailed, |client.trace| - 1));
      }
      t := client.trace;
      OneCall(env, QueueItem(who, Upstream), t);
      RunHead(env, QueueItem(who, Upstream), [], t);
      if !queuesFound(Upstream) {
        return Some(Error(QueueCreationFailed, |client.trace|));
      }
      FlowsInSend(env, CreateQueues(who, Upstream), t);
      code := client.Invoke(CreateQueues(who, Upstream));
      if code != Ok {
        return Some(Error(QueueCreationFailed, |client.trace| - 1));
      }
      return None;
    }

    // -------------------------------------------------------------- sending one flow

    /** AddFlow and AddTtFlow: they differ only in the formatter.  `t` is the template it stands for. */
    method AddFlow(tt: bool, service: FlowType, dir: Direction, flowId: u64, gem: u32, pcp: nat,
                   replicate: bool, symmetricFlowId: u64, pbitToGem: map<nat, u32>, ghost t: Template)
      returns (err: Option<Error>)
      requires HoldsId(flowId)
      requires t == Template(tt, service, dir, gem, pcp, replicate, pbitToGem, t.paired)
      requires var n := FlowsIn(client.trace); symmetricFlowId == if t.paired && n > 0 then World().id(n - 1) else 0
      modifies client
      ensures Valid()
      ensures client.trace == Send(World(), PrimCall(World(), Add(t), FlowsIn(old(client.trace))), old(client.trace))
      ensures err == if Accepted(client.trace[|old(client.trace)|]) then None
                     else Some(Error(FlowAddFailed, |old(client.trace)|))
    {
      ghost var env, t0, n := World(), client.trace, FlowsIn(client.trace);
      var classifier, action;
      if tt {
        classifier, action := FormatTtClassifierAction(service, dir, mac(FlowsIn(client.trace)));
      } else {
        classifier, action := FormatClassifierAction(service, dir, who.ctag, who.stag);
      }
      if pcp != NO_PCP {
        classifier := classifier.(oPbits := pcp);
      }
      var flow := Flow(ToI32(who.pon), ToI32(who.onu), ToI32(who.uni), flowId, dir, ToI32(tp.allocId), ToI32(gem),
                       classifier, action, 1000, who.port, symmetricFlowId, replicate, pbitToGem, 0);
      assert flow == MakeFlow(env, t, n);
      FlowsInSend(env, FlowAdd(service, flow), t0);
      var code := client.Invoke(FlowAdd(service, flow));
      if code == AlreadyExists {
        return None;
      }
      if code != Ok {
        return Some(Error(FlowAddFailed, |client.trace| - 1));
      }
      return None;
    }

    /** A stage that sends one flow. */
    method SendSingle(service: FlowType, pbitToGem: map<nat, u32>) returns (err: Option<Error>)
      requires Valid()
      modifies client, rsrMgr
      ensures Valid()
      ensures (client.trace, err)
           == RunScript(World(), [FlowItem([Add(Replicated(service, pbitToGem))])], old(client.trace))
    {
      ghost var env, t, us := World(), client.trace, Replicated(service, pbitToGem);
      OneCall(env, FlowItem([Add(us)]), t);
      RunHead(env, FlowItem([Add(us)]), [], t);
      var flowId := rsrMgr.GetFlowID();
      err := AddFlow(false, service, Upstream, flowId, 0, NO_PCP, true, 0, pbitToGem, us);
    }

    // -------------------------------------------------------------- the ATT and DT stages

    method ProvisionEapFlow() returns (err: Option<Error>)
      requires Valid()
      modifies client, rsrMgr
      ensures Valid()
      ensures (client.trace, err) == RunScript(World(), EapScript(wf, tp.gems), old(client.trace))
    {
      if wf != Att {
        return None;
      }
      var pbitToGem := Decode(tp.gems);
      err := SendSingle(Eapol, pbitToGem);
    }

    method ProvisionDhcpIpv4Flow() returns (err: Option<Error>)
      requires Valid()
      modifies client, rsrMgr
      ensures Valid()
      ensures (client.trace, err) == RunScript(World(), DhcpScript(wf, tp.gems), old(client.trace))
    {
      if wf != Att {
        return None;
      }
      var pbitToGem := Decode(tp.gems);
      err := SendSingle(DhcpIpv4, pbitToGem);
    }

    /** The upstream flow, and after it was accepted the downstream one that names it. */
    method ProvisionHsiaPair() returns (err: Option<Error>)
      requires Valid()
      modifies client, rsrMgr
      ensures Valid()
      ensures (client.trace, err) == RunScript(World(), HsiaScript(tp.gems), old(client.trace))
    {
      ghost var env, t := World(), client.trace;
      var pbitToGem := Decode(tp.gems);
      ghost var us := Replicated(Hsia, pbitToGem);
      OneCall(env, FlowItem([Add(us)]), t);
      RunHead(env, FlowItem([Add(us)]), [FlowItem([Add(Paired(us))])], t);
      var flowIdUs := rsrMgr.GetFlowID();
      err := AddFlow(false, Hsia, Upstream, flowIdUs, 0, NO_PCP, true, 0, pbitToGem, us);
      if err.Some? {
        return;
      }
      FlowsInSend(env, PrimCall(env, Add(us), FlowsIn(t)), t);
      t := client.trace;
      OneCall(env, FlowItem([Add(Paired(us))]), t);
      RunHead(env, FlowItem([Add(Paired(us))]), [], t);
      var flowIdDs := rsrMgr.GetFlowID();
      err := AddFlow(false, Hsia, Downstream, flowIdDs, 0, NO_PCP, true, flowIdUs, pbitToGem, Paired(us));
    }

    // -------------------------------------------------------------- the TT stages

    /** The upstream and downstream flow of one bit; a rejected upstream flow does not stop the other. */
    method SendPair(service: FlowType, gem: u32, pcp: nat) returns (errUs: Option<Error>, errDs: Option<Error>)
      requires Valid()
      modifies client, rsrMgr
      ensures Valid()
      ensures var us := PerBit(true, service, gem, pcp);
              client.trace == SendAll(World(), [Add(us), Add(Paired(us))], old(client.trace))
      ensures var t0 := old(client.trace);
              && |client.trace| == |t0| + 2
              && errUs == (if Accepted(client.trace[|t0|]) then None else Some(Error(FlowAddFailed, |t0|)))
              && errDs == (if Accepted(client.trace[|t0| + 1]) then None else Some(Error(FlowAddFailed, |t0| + 1)))
    {
      ghost var env, t0, us := World(), client.trace, PerBit(true, service, gem, pcp);
      var flowIdUs := rsrMgr.GetFlowID();
      errUs := AddFlow(true, service, Upstream, flowIdUs, gem, pcp, false, 0, map[], us);
      ghost var t1 := client.trace;
      FlowsInSend(env, PrimCall(env, Add(us), FlowsIn(t0)), t0);
      var flowIdDs := rsrMgr.GetFlowID();
      errDs := AddFlow(true, service, Downstream, flowIdDs, gem, pcp, false, flowIdUs, map[], Paired(us));
      assert SendAll(env, [Add(us)], t0) == t1 by {
        assert SendAll(env, [Add(us)], t0) == SendAll(env, [Add(us)][1..], t1);
      }
      SendAllSnoc(env, [Add(us)], Add(Paired(us)), t0);
      assert [Add(us)] + [Add(Paired(us))] == [Add(us), Add(Paired(us))];
    }

    /** A trap flow that goes with a bit. */
    method SendTrap(tt: bool, service: FlowType, gem: u32, pcp: nat, ghost ps: seq<Prim>, ghost t0: Trace)
      returns (err: Option<Error>)
      requires Valid() && client.trace == SendAll(World(), ps, t0)
      modifies client, rsrMgr
      ensures Valid()
      ensures client.trace == SendAll(World(), ps + [Add(PerBit(tt, service, gem, pcp))], t0)
      ensures |client.trace| == |old(client.trace)| + 1 && old(client.trace) <= client.trace
      ensures err == if Accepted(client.trace[|old(client.trace)|]) then None
                     else Some(Error(FlowAddFailed, |old(client.trace)|))
    {
      SendAllSnoc(World(), ps, Add(PerBit(tt, service, gem, pcp)), t0);
      var flowId := rsrMgr.GetFlowID();
      err := AddFlow(tt, service, Upstream, flowId, gem, pcp, false, 0, map[], PerBit(tt, service, gem, pcp));
    }

    /** The body of the four TT loops: everything for one bit is tried, then the first error is returned. */
    method ProvisionBit(service: FlowType, gem: u32, pcp: nat) returns (err: Option<Error>)
      requires Valid() && TtService(service)
      modifies client, rsrMgr
      ensures Valid()
      ensures (client.trace, err) == RunItem(World(), FlowItem(TtGroup(service, gem, pcp)), old(client.trace))
    {
      ghost var env, t0, us := World(), client.trace, PerBit(true, service, gem, pcp);
      ghost var pair := [Add(us), Add(Paired(us))];
      ghost var dhcp := [Add(PerBit(false, DhcpIpv4, gem, pcp))];
      ghost var igmp := [Add(PerBit(true, Igmp, gem, pcp))];
      var errUs, errDs := SendPair(service, gem, pcp);
      var errDhcp: Option<Error> := None;
      var errIgmp: Option<Error> := None;
      if service != Hsia {
        errDhcp := SendTrap(false, DhcpIpv4, gem, pcp, pair, t0);
      }
      if service == Vod {
        errIgmp := SendTrap(true, Igmp, gem, pcp, pair + dhcp, t0);
      }
      assert TtGroup(service, gem, pcp)
          == if service == Hsia then pair else if service == Vod then pair + dhcp + igmp else pair + dhcp;
      BitError(client.trace, |t0|, service, errUs, errDs, errDhcp, errIgmp);
      GroupRuns(env, TtGroup(service, gem, pcp), t0);
      if errUs.Some? || errDs.Some? || errDhcp.Some? || errIgmp.Some? {
        if errUs.Some? {
          return errUs;
        }
        if errDs.Some? {
          return errDs;
        }
        if errDhcp.Some? {
          return errDhcp;
        }
        return errIgmp;
      }
      return None;
    }

    /** One character of a bitmap. */
    method ProvisionPosition(service: FlowType, gem: u32, bits: string, pos: nat, ghost later: seq<Item>)
      returns (err: Option<Error>)
      requires Valid() && TtService(service) && pos < |bits|
      modifies client, rsrMgr
      ensures Valid()
      ensures RunScript(World(), GemScript(service, gem, Priorities(bits[pos..])) + later, old(client.trace))
           == if err.Some? then (client.trace, err)
              else RunScript(World(), GemScript(service, gem, Priorities(bits[pos + 1..])) + later, client.trace)
    {
      BitStep(World(), service, gem, bits, pos, later, client.trace);
      err := None;
      if bits[pos] == '1' {
        var pcp := |bits| - 1 - pos;
        err := ProvisionBit(service, gem, pcp);
      }
    }

    /** The loop over one GEM port's bitmap, most significant bit first; `later` is what follows it. */
    method ProvisionGem(service: FlowType, gem: Gem, ghost later: seq<Item>) returns (err: Option<Error>)
      requires Valid() && TtService(service)
      modifies client, rsrMgr
      ensures Valid()
      ensures RunScript(World(), GemScript(service, gem.id, Priorities(Bits(gem))) + later, old(client.trace))
           == if err.Some? then (client.trace, err) else RunScript(World(), later, client.trace)
    {
      var bits := Bits(gem);
      ghost var goal := RunScript(World(), GemScript(service, gem.id, Priorities(bits)) + later, client.trace);
      var pos := 0;
      assert bits[0..] == bits;
      while pos < |bits|
        invariant 0 <= pos <= |bits| && Valid()
        invariant RunScript(World(), GemScript(service, gem.id, Priorities(bits[pos..])) + later, client.trace) == goal
      {
        err := ProvisionPosition(service, gem.id, bits, pos, later);
        if err.Some? {
          return;
        }
        pos := pos + 1;
      }
      assert Priorities(bits[pos..]) == [];
      assert [] + later == later;
      return None;
    }

    /** The loop shared by the four TT services: GEM ports in list order. */
    method ProvisionTtService(service: FlowType) returns (err: Option<Error>)
      requires Valid() && TtService(service)
      modifies client, rsrMgr
      ensures Valid()
      ensures (client.trace, err) == RunScript(World(), TtScript(service, tp.gems), old(client.trace))
    {
      ghost var env := World();
      ghost var goal := RunScript(env, TtScript(service, tp.gems), client.trace);
      var idx := 0;
      while idx < |tp.gems|
        invariant 0 <= idx <= |tp.gems| && Valid()
        invariant RunScript(env, TtScript(service, tp.gems[idx..]), client.trace) == goal
      {
        assert tp.gems[idx..][1..] == tp.gems[idx + 1..];
        err := ProvisionGem(service, tp.gems[idx], TtScript(service, tp.gems[idx + 1..]));
        if err.Some? {
          return;
        }
        idx := idx + 1;
      }
      return None;
    }

    method ProvisionHsiaFlow() returns (err: Option<Error>)
      requires Valid()
      modifies client, rsrMgr
      ensures Valid()
      ensures (client.trace, err) == RunScript(World(), HsiaStage(wf, tp.gems), old(client.trace))
    {
      match wf {
        case Att => err := ProvisionHsiaPair();
        case Dt => err := ProvisionHsiaPair();
        case Tt => err := ProvisionTtService(Hsia);
        case Unknown => err := None;
      }
    }

    /** Voice, video and management: TT only. */
    method ProvisionTtOnly(service: FlowType) returns (err: Option<Error>)
      requires Valid() && TtService(service)
      modifies client, rsrMgr
      ensures Valid()
      ensures (client.trace, err) == RunScript(World(), TtOnly(wf, service, tp.gems), old(client.trace))
    {
      if wf != Tt {
        return None;
      }
      err := ProvisionTtService(service);
    }

    // -------------------------------------------------------------- multicast

    /** One device call whose failure ends the multicast provisioning. */
    method Operate(call: Call, reason: Reason) returns (err: Option<Error>)
      requires Valid() && !call.FlowAdd?
      modifies client
      ensures Valid()
      ensures (client.trace, err) == RunItem(World(), Item(NoLookup, [Fixed(call)], reason), old(client.trace))
    {
      OneCall(World(), Item(NoLookup, [Fixed(call)], reason), client.trace);
      FlowsInSend(World(), call, client.trace);
      var code := client.Invoke(call);
      if code != Ok {
        return Some(Error(reason, |client.trace| - 1));
      }
      return None;
    }

    method AddMulticastFlow() returns (err: Option<Error>)
      requires Valid()
      modifies client, rsrMgr
      ensures Valid()
      ensures (client.trace, err) == RunItem(World(), Item(NoLookup, [AddMcast], DeviceError), old(client.trace))
    {
      OneCall(World(), Item(NoLookup, [AddMcast], DeviceError), client.trace);
      var flowId := rsrMgr.GetFlowID();
      err := SendMulticast(flowId);
    }

    method SendMulticast(flowId: u64) returns (err: Option<Error>)
      requires HoldsId(flowId)
      modifies client
      ensures Valid()
      ensures client.trace == Send(World(), PrimCall(World(), AddMcast, FlowsIn(old(client.trace))), old(client.trace))
      ensures err == if Accepted(client.trace[|old(client.trace)|]) then None
                     else Some(Error(DeviceError, |old(client.trace)|))
    {
      ghost var env, t, n := World(), client.trace, FlowsIn(client.trace);
      var dstMac := mac(FlowsIn(client.trace));
      var classifier := Classifier(0, 0, 0, 0, 255, 55, 255, 255, DoubleTag, dstMac);
      var flow := Flow(ToI32(who.pon), ToI32(who.onu), ToI32(who.uni), flowId, Multicast, 0, 4069,
                       classifier, EMPTY_ACTION, 0, who.port, 0, false, map[], who.onu);
      assert flow == MakeMcastFlow(env, n);
      FlowsInSend(env, FlowAdd(McastFlow, flow), t);
      var code := client.Invoke(FlowAdd(McastFlow, flow));
      if code == AlreadyExists {
        return None;
      }
      if code != Ok {
        return Some(Error(DeviceError, |client.trace| - 1));
      }
      return None;
    }

    /** The group test: first the election, in which this is subscriber `x`, then the device calls it leads to. */
    method ProvisionMulticastFlow(election: Elections.Election, ghost x: nat) returns (err: Option<Error>)
      requires Valid() && election.Waits(x, who.pon)
      modifies client, rsrMgr, election
      ensures Valid() && election.Valid() && old(election.steps) <= election.steps
      ensures wf == Tt ==> election.Now().phases[x].Decided?
      ensures (client.trace, err) == RunScript(World(), McastScript(wf, who, election.Elected(x)), old(client.trace))
    {
      if wf != Tt {
        return None;
      }
      var elected := election.Elect(who.pon, x);
      ghost var env := World();
      ghost var member := Item(NoLookup, [Fixed(AddMember(who.onu, who.pon))], DeviceError);
      ghost var sched := Item(NoLookup, [Fixed(CreateMcastScheduler(who))], SchedCreationFailed);
      ghost var queue := Item(NoLookup, [Fixed(CreateMcastQueue(who))], DeviceError);
      ghost var last := (if elected then [sched, queue] else []) + [member];
      if who.pon == 0 {
        ghost var group := Item(NoLookup, [Fixed(SetMembers(who.onu))], DeviceError);
        ghost var flow := Item(NoLookup, [AddMcast], DeviceError);
        assert McastScript(wf, who, elected) == [group] + ([flow] + last);
        RunHead(env, group, [flow] + last, client.trace);
        err := Operate(SetMembers(who.onu), DeviceError);
        if err.Some? {
          return;
        }
        RunHead(env, flow, last, client.trace);
        err := AddMulticastFlow();
        if err.Some? {
          return;
        }
      } else {
        assert McastScript(wf, who, elected) == last;
      }
      err := FinishMulticast(elected, last);
    }

    method FinishMulticast(elected: bool, ghost last: seq<Item>) returns (err: Option<Error>)
      requires Valid()
      requires last == (if elected then [Item(NoLookup, [Fixed(CreateMcastScheduler(who))], SchedCreationFailed),
                                         Item(NoLookup, [Fixed(CreateMcastQueue(who))], DeviceError)] else [])
                       + [Item(NoLookup, [Fixed(AddMember(who.onu, who.pon))], DeviceError)]
      modifies client
      ensures Valid()
      ensures (client.trace, err) == RunScript(World(), last, old(client.trace))
    {
      ghost var env := World();
      ghost var member := Item(NoLookup, [Fixed(AddMember(who.onu, who.pon))], DeviceError);
      if elected {
        ghost var sched := Item(NoLookup, [Fixed(CreateMcastScheduler(who))], SchedCreationFailed);
        ghost var queue := Item(NoLookup, [Fixed(CreateMcastQueue(who))], DeviceError);
        assert last == [sched] + ([queue] + [member]);
        RunHead(env, sched, [queue] + [member], client.trace);
        err := Operate(CreateMcastScheduler(who), SchedCreationFailed);
        if err.Some? {
          return;
        }
        RunHead(env, queue, [member], client.trace);
        err := Operate(CreateMcastQueue(who), DeviceError);
        if err.Some? {
          return;
        }
      }
      assert [member] + [] == [member];
      RunHead(env, member, [], client.trace);
      err := Operate(AddMember(who.onu, who.pon), DeviceError);
    }

    // -------------------------------------------------------------- the staged deployment

    method DeploySetup(ghost rest: seq<Item>) returns (err: Option<Error>)
      requires Valid()
      modifies client
      ensures Valid()
      ensures RunScript(World(), SchedScript(who) + (QueueScript(who) + rest), old(client.trace))
           == if err.Some? then (client.trace, err) else RunScript(World(), rest, client.trace)
    {
      RunConcat(World(), SchedScript(who), QueueScript(who) + rest, client.trace);
      err := ProvisionScheds();
      if err.Some? {
        return;
      }
      RunConcat(World(), QueueScript(who), rest, client.trace);
      err := ProvisionQueues();
    }

    method DeployFlows() returns (err: Option<Error>)
      requires Valid()
      modifies client, rsrMgr
      ensures Valid()
      ensures (client.trace, err) == RunScript(World(), FlowScript(wf, tp.gems), old(client.trace))
    {
      ghost var env := World();
      ghost var hsia, voip, vod, mgmt := HsiaStage(wf, tp.gems), TtOnly(wf, Voip, tp.gems),
                                         TtOnly(wf, Vod, tp.gems), TtOnly(wf, Mgmt, tp.gems);
      ghost var eap, dhcp := EapScript(wf, tp.gems), DhcpScript(wf, tp.gems);
      StagesJoin(wf, tp.gems);
      RunConcat(env, eap, dhcp + (hsia + (voip + (vod + mgmt))), client.trace);
      err := ProvisionEapFlow();
      if err.Some? { return; }
      RunConcat(env, dhcp, hsia + (voip + (vod + mgmt)), client.trace);
      err := ProvisionDhcpIpv4Flow();
      if err.Some? { return; }
      // IPv6 DHCP and IGMP stages do nothing in any workflow.
      RunConcat(env, hsia, voip + (vod + mgmt), client.trace);
      err := ProvisionHsiaFlow();
      if err.Some? { return; }
      RunConcat(env, voip, vod + mgmt, client.trace);
      err := ProvisionTtOnly(Voip);
      if err.Some? { return; }
      RunConcat(env, vod, mgmt, client.trace);
      err := ProvisionTtOnly(Vod);
      if err.Some? { return; }
      err := ProvisionTtOnly(Mgmt);
    }

    /**
      * The deployment of one subscriber: it makes exactly the calls of its script, records the
      * reason of the first failing stage or success, and calls Done exactly once either way.
      */
    method DeployWorkflow(isGroup: bool, election: Elections.Election, ghost x: nat)
      requires Valid() && wf != Unknown && (isGroup ==> election.Waits(x, who.pon))
      modifies this, client, rsrMgr, subWg, election
      ensures Valid() && subWg.count == old(subWg.count) - 1
      ensures if isGroup then election.Valid() && old(election.steps) <= election.steps else unchanged(election)
      ensures var elected := isGroup && election.Elected(x);
              var script := if isGroup then McastScript(wf, who, elected) else SubscriberScript(wf, who, tp.gems);
              var (t, e) := RunScript(World(), script, old(client.trace));
              client.trace == t && reason == Some(FinalReason(e))
    {
      var err;
      if isGroup {
        err := ProvisionMulticastFlow(election, x);
      } else {
        ghost var flows := FlowScript(wf, tp.gems);
        assert SubscriberScript(wf, who, tp.gems) == SchedScript(who) + (QueueScript(who) + flows);
        err := DeploySetup(flows);
        if err.None? {
          err := DeployFlows();
        }
      }
      reason := Some(if err.Some? then err.value.reason else ProvisionSuccess);
      subWg.Done();
    }
  }

  // ---------------------------------------------------------------- symmetric flow ids of a deployment

  /**
    * In any deployment, until 2^64 ids have been taken from the port's counter by all goroutines
    * together, each downstream flow names a smaller id, that of the flow sent just before it.
    */
  lemma DeployedSymmetricIds(s: Subscriber, n: nat)
    requires n + 4 < |RunScript(s.World(), SubscriberScript(s.wf, s.who, s.tp.gems), []).0|
    requires Taken(s.rsrMgr.rivals, n + 1) < WORD64
    ensures var r := RunScript(s.World(), SubscriberScript(s.wf, s.who, s.tp.gems), []).0;
            var f := r[n + 4].call;
            && f.FlowAdd?
            && (f.flow.dir == Downstream ==>
                  r[n + 3].call.FlowAdd? && r[n + 3].call.service == f.service
                  && r[n + 3].call.flow.dir == Upstream && r[n + 3].call.flow.gemPortId == f.flow.gemPortId
                  && f.flow.symmetricFlowId == r[n + 3].call.flow.flowId < f.flow.flowId)
  {
    WorldIdsIncrease(s, n);
    var us := SymmetricIds(s.World(), s.wf, s.tp.gems, n);
  }

  lemma WorldIdsIncrease(s: Subscriber, n: nat)
    requires Taken(s.rsrMgr.rivals, n + 1) < WORD64
    ensures IncreasingTo(s.World().id, n)
  {
    forall l: nat, m: nat | l < m <= n
      ensures NthId(s.rsrMgr.rivals, l) < NthId(s.rsrMgr.rivals, m)
    {
      TakenMonotone(s.rsrMgr.rivals, m + 1, n + 1);
      ViewIncreases(s.rsrMgr.rivals, l, m);
    }
  }

  lemma {:induction false} TakenMonotone(rivals: nat -> nat, m: nat, n: nat)
    requires m <= n
    ensures Taken(rivals, m) <= Taken(rivals, n)
  {
    if m == n {
    } else {
      TakenMonotone(rivals, m, n - 1);
    }
  }

  // ---------------------------------------------------------------- stages of the script

  function EapScript(wf: Workflow, gems: seq<Gem>): seq<Item> {
    if wf == Att then [FlowItem([Add(Replicated(Eapol, PbitToGem(gems)))])] else []
  }

  function DhcpScript(wf: Workflow, gems: seq<Gem>): seq<Item> {
    if wf == Att then [FlowItem([Add(Replicated(DhcpIpv4, PbitToGem(gems)))])] else []
  }

  function HsiaStage(wf: Workflow, gems: seq<Gem>): seq<Item> {
    match wf
    case Att => HsiaScript(gems)
    case Dt => HsiaScript(gems)
    case Tt => TtScript(Hsia, gems)
    case Unknown => []
  }

  function TtOnly(wf: Workflow, service: FlowType, gems: seq<Gem>): seq<Item> {
    if wf == Tt then TtScript(service, gems) else []
  }

  lemma StagesJoin(wf: Workflow, gems: seq<Gem>)
    ensures FlowScript(wf, gems)
         == EapScript(wf, gems) + (DhcpScript(wf, gems) + (HsiaStage(wf, gems)
            + (TtOnly(wf, Voip, gems) + (TtOnly(wf, Vod, gems) + TtOnly(wf, Mgmt, gems)))))
  {
    if wf == Tt {
      RightAssociate(TtScript(Hsia, gems), TtScript(Voip, gems), TtScript(Vod, gems), TtScript(Mgmt, gems));
    } else {
      DropEmpty(HsiaStage(wf, gems));
    }
  }

  lemma RightAssociate(a: seq<Item>, b: seq<Item>, c: seq<Item>, d: seq<Item>)
    ensures a + b + c + d == [] + ([] + (a + (b + (c + d))))
  {
    assert a + b + c + d == a + (b + (c + d));
  }

  lemma DropEmpty(a: seq<Item>)
    ensures a + ([] + ([] + [])) == a == [] + ([] + a)
  {}

  lemma GemScriptHead(service: FlowType, gem: u32, priorities: seq<nat>, later: seq<Item>)
    requires priorities != []
    ensures GemScript(service, gem, priorities) + later
         == [FlowItem(TtGroup(service, gem, priorities[0]))] + (GemScript(service, gem, priorities[1..]) + later)
  {}
}
