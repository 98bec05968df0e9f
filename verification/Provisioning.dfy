/**
  * The reference meaning of provisioning one subscriber: a script of items run against the device.
  *
  * An item is a lookup that may fail, then a group of device calls that are all attempted; the
  * first item with a failure ends the script.
  */
module Provisioning {
  import opened Words
  import opened Results
  import opened Frames
  import opened Pbits

  // ---------------------------------------------------------------- device calls

  /** The identity of the subscriber being provisioned, with its port and tags. */
  datatype Who = Who(pon: u32, onu: u32, uni: u32, port: nat, ctag: u32, stag: u32)

  /** The part of a technology-profile instance the flow stages read. */
  datatype Tp = Tp(allocId: u32, gems: seq<Gem>)

  datatype Flow = Flow(accessIntf: int, onuId: int, uniId: int, flowId: u64, dir: Direction,
                       allocId: int, gemPortId: int, classifier: Classifier, action: Action,
                       priority: nat, portNo: nat, symmetricFlowId: u64, replicate: bool,
                       pbitToGem: map<nat, u32>, groupId: u32)

  datatype Call =
    | CreateSchedulers(who: Who, dir: Direction)
    | CreateQueues(who: Who, dir: Direction)
    | FlowAdd(service: FlowType, flow: Flow)
    | SetMembers(group: u32)
    | CreateMcastScheduler(who: Who)
    | CreateMcastQueue(who: Who)
    | AddMember(group: u32, pon: u32)

  datatype Event = Event(call: Call, code: Code)

  type Trace = seq<Event>

  /** `origin` is the place in the trace of the call that failed, which tells error objects apart. */
  datatype Error = Error(reason: Reason, origin: nat)

  /** A flow that is already there counts as added; no other call may be repeated. */
  predicate Accepted(e: Event) {
    e.code == Ok || (e.call.FlowAdd? && e.code == AlreadyExists)
  }

  /** How many flows a trace has tried to add. */
  function FlowsIn(t: Trace): nat {
    if t == [] then 0 else FlowsIn(t[..|t| - 1]) + (if t[|t| - 1].call.FlowAdd? then 1 else 0)
  }

  /**
    * Everything outside the subscriber: the device's answers, the lookups in the technology
    * profile, the flow ids it draws (the n-th draw) and the random MAC addresses.
    */
  datatype Env = Env(who: Who, tp: Tp, answer: (Trace, Call) -> Code,
                     schedFound: Direction -> bool, queuesFound: Direction -> bool,
                     id: nat -> u64, mac: nat -> seq<nat>)

  // ---------------------------------------------------------------- scripts

  /** A flow to add; `paired` flows name the flow sent just before as their symmetric flow. */
  datatype Template = Template(tt: bool, service: FlowType, dir: Direction, gem: u32, pcp: nat,
                               replicate: bool, pbits: map<nat, u32>, paired: bool)

  datatype Prim = Fixed(call: Call) | Add(t: Template) | AddMcast

  datatype Lookup = NoLookup | SchedLookup(dir: Direction) | QueueLookup(dir: Direction)

  datatype Item = Item(lookup: Lookup, prims: seq<Prim>, reason: Reason)

  predicate Found(env: Env, l: Lookup) {
    match l
    case NoLookup => true
    case SchedLookup(d) => env.schedFound(d)
    case QueueLookup(d) => env.queuesFound(d)
  }

  const NO_PCP: nat := 0xff

  /** The flow a template stands for when it is the n-th flow the subscriber adds. */
  function MakeFlow(env: Env, t: Template, n: nat): Flow {
    var c := if t.tt then TtClassifierOf(t.service, t.dir, env.mac(n))
             else ClassifierOf(t.service, t.dir, env.who.ctag, env.who.stag);
    var a := if t.tt then TtActionOf(t.service, t.dir) else ActionOf(t.service, t.dir, env.who.stag);
    Flow(ToI32(env.who.pon), ToI32(env.who.onu), ToI32(env.who.uni), env.id(n), t.dir,
         ToI32(env.tp.allocId), ToI32(t.gem), if t.pcp != NO_PCP then c.(oPbits := t.pcp) else c, a,
         1000, env.who.port, if t.paired && n > 0 then env.id(n - 1) else 0, t.replicate, t.pbits, 0)
  }

  function MakeMcastFlow(env: Env, n: nat): Flow {
    Flow(ToI32(env.who.pon), ToI32(env.who.onu), ToI32(env.who.uni), env.id(n), Multicast,
         0, 4069, Classifier(0, 0, 0, 0, 255, 55, 255, 255, DoubleTag, env.mac(n)), EMPTY_ACTION,
         0, env.who.port, 0, false, map[], env.who.onu)
  }

  function PrimCall(env: Env, p: Prim, n: nat): Call {
    match p
    case Fixed(c) => c
    case Add(t) => FlowAdd(t.service, MakeFlow(env, t, n))
    case AddMcast => FlowAdd(McastFlow, MakeMcastFlow(env, n))
  }

  function Send(env: Env, c: Call, t: Trace): Trace { t + [Event(c, env.answer(t, c))] }

  function SendAll(env: Env, ps: seq<Prim>, t: Trace): Trace
    decreases |ps|
  {
    if ps == [] then t else SendAll(env, ps[1..], Send(env, PrimCall(env, ps[0], FlowsIn(t)), t))
  }

  /** The first call at or after `from` that the device rejected. */
  function FirstRejected(t: Trace, from: nat): Option<nat>
    decreases |t| - from
  {
    if from >= |t| then None
    else if !Accepted(t[from]) then Some(from)
    else FirstRejected(t, from + 1)
  }

  function RunItem(env: Env, item: Item, t: Trace): (Trace, Option<Error>) {
    if !Found(env, item.lookup) then (t, Some(Error(item.reason, |t|)))
    else
      var t' := SendAll(env, item.prims, t);
      match FirstRejected(t', |t|)
      case None => (t', None)
      case Some(i) => (t', Some(Error(item.reason, i)))
  }

  function RunScript(env: Env, script: seq<Item>, t: Trace): (Trace, Option<Error>)
    decreases |script|
  {
    if script == [] then (t, None)
    else
      var (t', e) := RunItem(env, script[0], t);
      if e.Some? then (t', e) else RunScript(env, script[1..], t')
  }

  /** All the calls a script asks for, in order. */
  function Flat(script: seq<Item>): seq<Prim> {
    if script == [] then [] else script[0].prims + Flat(script[1..])
  }

  // ---------------------------------------------------------------- runs follow their scripts

  ghost predicate AcceptedFrom(t: Trace, from: nat) {
    forall i | from <= i < |t| :: Accepted(t[i])
  }

  /** From `from` on, the calls of a trace are those a list of primitives asks for. */
  ghost predicate Follows(env: Env, ps: seq<Prim>, t: Trace, from: nat) {
    && from <= |t| <= from + |ps|
    && forall i | from <= i < |t| :: t[i].call == PrimCall(env, ps[i - from], FlowsIn(t[..i]))
  }

  lemma {:induction false} SendAllFollows(env: Env, ps: seq<Prim>, t: Trace)
    ensures t <= SendAll(env, ps, t) && |SendAll(env, ps, t)| == |t| + |ps|
    ensures Follows(env, ps, SendAll(env, ps, t), |t|)
    decreases |ps|
  {
    if ps == [] {
    } else {
      var t1 := Send(env, PrimCall(env, ps[0], FlowsIn(t)), t);
      var r := SendAll(env, ps, t);
      SendAllFollows(env, ps[1..], t1);
      assert r[..|t|] == t && r[|t|] == t1[|t|];
      forall i | |t| <= i < |r|
        ensures r[i].call == PrimCall(env, ps[i - |t|], FlowsIn(r[..i]))
      {
        if i > |t| {
          assert ps[1..][i - |t1|] == ps[i - |t|];
        }
      }
    }
  }

  lemma {:induction false} RejectedMeaning(t: Trace, from: nat)
    ensures FirstRejected(t, from).None? <==> AcceptedFrom(t, from)
    ensures FirstRejected(t, from).Some? ==>
              var i := FirstRejected(t, from).value;
              from <= i < |t| && !Accepted(t[i]) && forall j | from <= j < i :: Accepted(t[j])
    decreases |t| - from
  {
    if from >= |t| || !Accepted(t[from]) {
    } else {
      RejectedMeaning(t, from + 1);
    }
  }

  /** One item: everything in it is attempted, and the error, if any, names the first rejected call. */
  lemma ItemMeaning(env: Env, item: Item, t: Trace)
    ensures var (r, e) := RunItem(env, item, t);
            && t <= r && Follows(env, item.prims, r, |t|)
            && |r| == |t| + (if Found(env, item.lookup) then |item.prims| else 0)
            && (e.None? <==> Found(env, item.lookup) && AcceptedFrom(r, |t|))
            && (e.Some? ==> e.value.reason == item.reason)
            && (e.Some? && Found(env, item.lookup) ==>
                  |t| <= e.value.origin < |r| && !Accepted(r[e.value.origin])
                  && forall j | |t| <= j < e.value.origin :: Accepted(r[j]))
  {
    SendAllFollows(env, item.prims, t);
    RejectedMeaning(SendAll(env, item.prims, t), |t|);
  }

  lemma FollowsJoin(env: Env, ps: seq<Prim>, qs: seq<Prim>, t1: Trace, t: Trace, from: nat)
    requires from <= |t1| && t1 <= t
    requires Follows(env, ps, t1, from) && |t1| == from + |ps| && Follows(env, qs, t, |t1|)
    ensures Follows(env, ps + qs, t, from)
  {
    forall i | from <= i < |t|
      ensures t[i].call == PrimCall(env, (ps + qs)[i - from], FlowsIn(t[..i]))
    {
      if i < |t1| {
        assert t[i] == t1[i] && t[..i] == t1[..i];
        assert (ps + qs)[i - from] == ps[i - from];
      } else {
        assert (ps + qs)[i - from] == qs[i - |t1|];
      }
    }
  }

  lemma FollowsExtend(env: Env, ps: seq<Prim>, qs: seq<Prim>, t: Trace, from: nat)
    requires Follows(env, ps, t, from)
    ensures Follows(env, ps + qs, t, from)
  {}

  /** A run makes the script's calls, in the script's order, and all of them if it succeeds. */
  lemma {:induction false} RunFollows(env: Env, script: seq<Item>, t: Trace)
    ensures var (r, e) := RunScript(env, script, t);
            && t <= r && Follows(env, Flat(script), r, |t|)
            && (e.None? ==> |r| == |t| + |Flat(script)|)
    decreases |script|
  {
    if script == [] {
    } else {
      ItemMeaning(env, script[0], t);
      var (t1, e) := RunItem(env, script[0], t);
      if e.Some? {
        FollowsExtend(env, script[0].prims, Flat(script[1..]), t1, |t|);
      } else {
        RunFollows(env, script[1..], t1);
        FollowsJoin(env, script[0].prims, Flat(script[1..]), t1, RunScript(env, script, t).0, |t|);
      }
    }
  }

  ghost predicate AllFound(env: Env, script: seq<Item>) {
    forall item <- script :: Found(env, item.lookup)
  }

  /** A run succeeds exactly when every lookup succeeds and every call it makes is accepted. */
  lemma {:induction false} RunSucceeds(env: Env, script: seq<Item>, t: Trace)
    ensures var (r, e) := RunScript(env, script, t);
            e.None? <==> AllFound(env, script) && AcceptedFrom(r, |t|)
    decreases |script|
  {
    if script == [] {
    } else {
      ItemMeaning(env, script[0], t);
      var (t1, e) := RunItem(env, script[0], t);
      var rest := script[1..];
      assert script == [script[0]] + rest;
      if e.None? {
        RunSucceeds(env, rest, t1);
        RunFollows(env, rest, t1);
        var r := RunScript(env, script, t).0;
        assert AcceptedFrom(r, |t|) <==> AcceptedFrom(t1, |t|) && AcceptedFrom(r, |t1|) by {
          assert forall i | |t| <= i < |t1| :: r[i] == t1[i];
        }
      }
    }
  }

  /**
    * A failing run stops at the first failing item: the items before it succeeded, everything in
    * it was attempted, nothing after it was, and the reason is its reason.
    */
  lemma {:induction false} RunFails(env: Env, script: seq<Item>, t: Trace) returns (k: nat)
    requires RunScript(env, script, t).1.Some?
    ensures k < |script| && RunScript(env, script[..k], t).1.None?
    ensures RunScript(env, script, t) == RunItem(env, script[k], RunScript(env, script[..k], t).0)
    ensures RunScript(env, script, t).1.value.reason == script[k].reason
    decreases |script|
  {
    ItemMeaning(env, script[0], t);
    var (t1, e) := RunItem(env, script[0], t);
    if e.Some? {
      k := 0;
    } else {
      var m := RunFails(env, script[1..], t1);
      k := m + 1;
      assert script[..k][1..] == script[1..][..m];
    }
  }

  /** Running a script is running its head, then its tail. */
  lemma RunConcat(env: Env, a: seq<Item>, b: seq<Item>, t: Trace)
    ensures RunScript(env, a + b, t)
         == var (t1, e) := RunScript(env, a, t); if e.Some? then (t1, e) else RunScript(env, b, t1)
    decreases |a|
  {
    if a == [] {
      assert a + b == b;
    } else {
      var (t1, e) := RunItem(env, a[0], t);
      assert (a + b)[1..] == a[1..] + b;
      if e.None? {
        RunConcat(env, a[1..], b, t1);
      }
    }
  }

  lemma {:induction false} FlatConcat(a: seq<Item>, b: seq<Item>)
    ensures Flat(a + b) == Flat(a) + Flat(b)
  {
    if a == [] {
      assert a + b == b;
    } else {
      assert (a + b)[1..] == a[1..] + b;
      FlatConcat(a[1..], b);
    }
  }
}
