/** The process-wide VLAN tag allocators, specified by the history of draws made from them. */
module Tags {
  import opened Words

  datatype Workflow = Att | Dt | Tt | Unknown

  /** A subscriber: PON port, ONU id on that port, UNI on that ONU. */
  datatype Key = Key(pon: u32, onu: u32, uni: u32)

  /** One critical section of an allocator, with the subscriber it was entered for. */
  datatype Draw = CtagDraw(wf: Workflow, key: Key) | StagDraw(key: Key)

  // ---------------------------------------------------------------- reference numbering

  /** How many C-tags a workflow has drawn on a PON port. */
  function Count(log: seq<Draw>, wf: Workflow, pon: u32): (n: nat)
    ensures n <= |log|
  {
    if log == [] then 0
    else
      var d := log[|log| - 1];
      Count(log[..|log| - 1], wf, pon) + (if d.CtagDraw? && d.wf == wf && d.key.pon == pon then 1 else 0)
  }

  /** The subscribers that asked for a DT S-tag, in order of first request. */
  function FirstSeen(log: seq<Draw>): (keys: seq<Key>)
    ensures |keys| <= |log|
  {
    if log == [] then []
    else
      var d, keys := log[|log| - 1], FirstSeen(log[..|log| - 1]);
      if d.StagDraw? && d.key !in keys then keys + [d.key] else keys
  }

  function IndexOf(keys: seq<Key>, k: Key): (i: nat)
    requires k in keys
    ensures i < |keys| && keys[i] == k
  {
    if keys[0] == k then 0 else 1 + IndexOf(keys[1..], k)
  }

  function FirstCtag(wf: Workflow): nat { if wf == Att then 2 else 1 }

  /** The last C-tag a workflow drew on a PON port: its draws there, counted up from the first tag. */
  function CtagAfter(log: seq<Draw>, wf: Workflow, pon: u32): u32 {
    ToU32(FirstCtag(wf) - 1 + Count(log, wf, pon))
  }

  /** A subscriber's DT S-tag: its place in the order of first requests. */
  function DtStagOf(log: seq<Draw>, k: Key): u32
    requires k in FirstSeen(log)
  {
    ToU32(IndexOf(FirstSeen(log), k) + 1)
  }

  // ---------------------------------------------------------------- the allocators

  ghost predicate CounterOk(m: map<u32, u32>, log: seq<Draw>, wf: Workflow) {
    forall pon: u32 :: (pon in m <==> Count(log, wf, pon) > 0)
                    && (pon in m ==> m[pon] == CtagAfter(log, wf, pon))
  }

  ghost predicate MemoOk(m: map<Key, u32>, curr: u32, log: seq<Draw>) {
    && curr == ToU32(|FirstSeen(log)|)
    && (forall k :: k in m <==> k in FirstSeen(log))
    && (forall k | k in m :: m[k] == DtStagOf(log, k))
  }

  /** The log entries of GetCtag and GetStag; the calls that only compute leave none. */
  function CtagLog(wf: Workflow, k: Key): seq<Draw> { if wf == Unknown then [] else [CtagDraw(wf, k)] }
  function StagLog(wf: Workflow, k: Key): seq<Draw> { if wf == Dt then [StagDraw(k)] else [] }

  /** The tags those calls return, by the history up to and including the call. */
  function CtagResult(log: seq<Draw>, wf: Workflow, k: Key): u32 {
    if wf == Unknown then 0 else CtagAfter(log + CtagLog(wf, k), wf, k.pon)
  }

  function StagResult(log: seq<Draw>, wf: Workflow, k: Key): u32 {
    match wf
    case Att => ToU32(k.pon + 2)
    case Tt => ToU32(k.pon + 2)
    case Dt => FirstSeenLast(log, k); DtStagOf(log + StagLog(wf, k), k)
    case Unknown => 0
  }

  lemma FirstSeenLast(log: seq<Draw>, k: Key)
    ensures k in FirstSeen(log + StagLog(Dt, k))
    ensures FirstSeen(log + StagLog(Dt, k)) == if k in FirstSeen(log) then FirstSeen(log) else FirstSeen(log) + [k]
  {
    assert (log + [StagDraw(k)])[..|log|] == log;
  }

  class TagAllocator {
    var attCtag: map<u32, u32>
    var dtCtag: map<u32, u32>
    var ttCtag: map<u32, u32>
    var dtStag: map<Key, u32>
    var currDtStag: u32
    ghost var log: seq<Draw>

    ghost predicate Valid()
      reads this
    {
      && CounterOk(attCtag, log, Att)
      && CounterOk(dtCtag, log, Dt)
      && CounterOk(ttCtag, log, Tt)
      && MemoOk(dtStag, currDtStag, log)
    }

    constructor ()
      ensures Valid() && log == []
    {
      attCtag, dtCtag, ttCtag, dtStag, currDtStag, log := map[], map[], map[], map[], 0, [];
    }

    /** Other goroutines may use the allocators whenever the lock is free. */
    method OthersRun()
      requires Valid()
      modifies this
      ensures Valid() && old(log) <= log
    {}

    method GetAttCtag(ponIntf: u32, ghost caller: Key) returns (tag: u32)
      requires Valid() && caller.pon == ponIntf
      modifies this
      ensures Valid() && log == old(log) + [CtagDraw(Att, caller)]
      ensures tag == CtagAfter(log, Att, ponIntf)
    {
      if ponIntf !in attCtag {
        attCtag := attCtag[ponIntf := 2];
      } else {
        attCtag := attCtag[ponIntf := Inc32(attCtag[ponIntf])];
      }
      tag := attCtag[ponIntf];
      CounterStep(old(attCtag), log, Att, caller);
      DrawFrame(log, CtagDraw(Att, caller));
      log := log + [CtagDraw(Att, caller)];
    }

    method GetDtCtag(ponIntf: u32, ghost caller: Key) returns (tag: u32)
      requires Valid() && caller.pon == ponIntf
      modifies this
      ensures Valid() && log == old(log) + [CtagDraw(Dt, caller)]
      ensures tag == CtagAfter(log, Dt, ponIntf)
    {
      if ponIntf !in dtCtag {
        dtCtag := dtCtag[ponIntf := 1];
      } else {
        dtCtag := dtCtag[ponIntf := Inc32(dtCtag[ponIntf])];
      }
      tag := dtCtag[ponIntf];
      CounterStep(old(dtCtag), log, Dt, caller);
      DrawFrame(log, CtagDraw(Dt, caller));
      log := log + [CtagDraw(Dt, caller)];
    }

    method GetTtCtag(ponIntf: u32, ghost caller: Key) returns (tag: u32)
      requires Valid() && caller.pon == ponIntf
      modifies this
      ensures Valid() && log == old(log) + [CtagDraw(Tt, caller)]
      ensures tag == CtagAfter(log, Tt, ponIntf)
    {
      if ponIntf !in ttCtag {
        ttCtag := ttCtag[ponIntf := 1];
      } else {
        ttCtag := ttCtag[ponIntf := Inc32(ttCtag[ponIntf])];
      }
      tag := ttCtag[ponIntf];
      CounterStep(old(ttCtag), log, Tt, caller);
      DrawFrame(log, CtagDraw(Tt, caller));
      log := log + [CtagDraw(Tt, caller)];
    }

    method GetDtStag(key: Key) returns (tag: u32)
      requires Valid()
      modifies this
      ensures Valid() && log == old(log) + [StagDraw(key)]
      ensures tag == StagResult(old(log), Dt, key)
    {
      DrawFrame(log, StagDraw(key));
      MemoStep(dtStag, currDtStag, log, key);
      if key !in dtStag {
        dtStag := dtStag[key := Inc32(currDtStag)];
        currDtStag := dtStag[key];
      }
      tag := dtStag[key];
      log := log + [StagDraw(key)];
    }

    method GetCtag(wf: Workflow, ponIntf: u32, ghost caller: Key) returns (tag: u32)
      requires Valid() && caller.pon == ponIntf
      modifies this
      ensures Valid() && log == old(log) + CtagLog(wf, caller)
      ensures tag == CtagResult(old(log), wf, caller)
    {
      match wf {
        case Att => tag := GetAttCtag(ponIntf, caller);
        case Dt => tag := GetDtCtag(ponIntf, caller);
        case Tt => tag := GetTtCtag(ponIntf, caller);
        case Unknown => tag := 0;
      }
    }

    method GetStag(wf: Workflow, key: Key) returns (tag: u32)
      requires Valid()
      modifies this
      ensures Valid() && log == old(log) + StagLog(wf, key)
      ensures tag == StagResult(old(log), wf, key)
    {
      match wf {
        case Att => tag := ToU32(key.pon + 2);
        case Dt => tag := GetDtStag(key);
        case Tt => tag := ToU32(key.pon + 2);
        case Unknown => tag := 0;
      }
    }
  }

  /** The counter map after one more draw on a port. */
  ghost function Bumped(m: map<u32, u32>, wf: Workflow, pon: u32): map<u32, u32> {
    m[pon := if pon in m then Inc32(m[pon]) else FirstCtag(wf)]
  }

  lemma CounterStep(m: map<u32, u32>, log: seq<Draw>, wf: Workflow, key: Key)
    requires CounterOk(m, log, wf)
    ensures CounterOk(Bumped(m, wf, key.pon), log + [CtagDraw(wf, key)], wf)
  {
    CountStep(log, CtagDraw(wf, key));
    var later := log + [CtagDraw(wf, key)];
    var n := FirstCtag(wf) - 1 + Count(log, wf, key.pon);
    assert CtagAfter(later, wf, key.pon) == ToU32(n + 1);
    assert CtagAfter(later, wf, key.pon) == Bumped(m, wf, key.pon)[key.pon] by {
      if key.pon in m {
        IncToU32(n);
      } else {
        assert n + 1 == FirstCtag(wf);
      }
    }
    assert forall pon: u32 | pon != key.pon :: CtagAfter(later, wf, pon) == CtagAfter(log, wf, pon);
  }

  lemma {:induction false} IncToU32(n: nat)
    ensures Inc32(ToU32(n)) == ToU32(n + 1)
  {
    if n < WORD32 {
    } else {
      IncToU32(n - WORD32);
    }
  }

  /** A draw touches only the counter of its own workflow, or only the memo. */
  lemma DrawFrame(log: seq<Draw>, d: Draw)
    ensures forall m, wf | CounterOk(m, log, wf) && !(d.CtagDraw? && d.wf == wf) :: CounterOk(m, log + [d], wf)
    ensures forall m, curr | d.CtagDraw? && MemoOk(m, curr, log) :: MemoOk(m, curr, log + [d])
  {
    CountStep(log, d);
  }

  lemma MemoStep(m: map<Key, u32>, curr: u32, log: seq<Draw>, key: Key)
    requires MemoOk(m, curr, log)
    ensures key in m ==> MemoOk(m, curr, log + [StagDraw(key)]) && m[key] == StagResult(log, Dt, key)
    ensures key !in m ==> MemoOk(m[key := Inc32(curr)], Inc32(curr), log + [StagDraw(key)])
    ensures key !in m ==> Inc32(curr) == StagResult(log, Dt, key)
  {
    FirstSeenLast(log, key);
    if key !in m {
      MemoMiss(m, curr, log, key);
    }
  }

  lemma MemoMiss(m: map<Key, u32>, curr: u32, log: seq<Draw>, key: Key)
    requires MemoOk(m, curr, log) && key !in m
    requires FirstSeen(log + [StagDraw(key)]) == FirstSeen(log) + [key]
    ensures MemoOk(m[key := Inc32(curr)], Inc32(curr), log + [StagDraw(key)])
    ensures Inc32(curr) == DtStagOf(log + [StagDraw(key)], key)
  {
    var keys, later := FirstSeen(log), log + [StagDraw(key)];
    IndexStable(keys, key);
    IncToU32(|keys|);
    forall k | k in keys
      ensures DtStagOf(later, k) == DtStagOf(log, k)
    {}
    assert DtStagOf(later, key) == Inc32(curr);
  }

  lemma CountStep(log: seq<Draw>, d: Draw)
    ensures forall wf, pon: u32 :: Count(log + [d], wf, pon)
              == Count(log, wf, pon) + if d.CtagDraw? && d.wf == wf && d.key.pon == pon then 1 else 0
    ensures d.CtagDraw? ==> FirstSeen(log + [d]) == FirstSeen(log)
  {
    assert (log + [d])[..|log|] == log;
  }

  lemma {:induction false} IndexStable(keys: seq<Key>, k: Key)
    ensures forall q | q in keys :: IndexOf(keys + [k], q) == IndexOf(keys, q)
    ensures k !in keys ==> IndexOf(keys + [k], k) == |keys|
  {
    if keys == [] {
    } else {
      IndexStable(keys[1..], k);
      assert (keys + [k])[1..] == keys[1..] + [k];
    }
  }

  // ---------------------------------------------------------------- what the numbering promises

  lemma {:induction false} FirstSeenDistinct(log: seq<Draw>)
    ensures forall i, j | 0 <= i < j < |FirstSeen(log)| :: FirstSeen(log)[i] != FirstSeen(log)[j]
  {
    if log == [] {
    } else {
      FirstSeenDistinct(log[..|log| - 1]);
    }
  }

  /** Draws only ever add to the order of first requests. */
  lemma {:induction false} FirstSeenGrows(log: seq<Draw>, later: seq<Draw>)
    requires log <= later
    ensures FirstSeen(log) <= FirstSeen(later)
    decreases |later|
  {
    if |log| < |later| {
      FirstSeenGrows(log, later[..|later| - 1]);
    } else {
      assert log == later;
    }
  }

  lemma {:induction false} IndexPrefix(a: seq<Key>, b: seq<Key>, k: Key)
    requires a <= b && k in a
    ensures k in b && IndexOf(b, k) == IndexOf(a, k)
  {
    if a[0] == k {
    } else {
      IndexPrefix(a[1..], b[1..], k);
    }
  }

  /** A DT S-tag once given out never changes, however many draws follow. */
  lemma DtStagStable(log: seq<Draw>, later: seq<Draw>, k: Key)
    requires log <= later && k in FirstSeen(log)
    ensures k in FirstSeen(later) && DtStagOf(later, k) == DtStagOf(log, k)
  {
    FirstSeenGrows(log, later);
    IndexPrefix(FirstSeen(log), FirstSeen(later), k);
  }

  /**
    * Before the counter wraps, the memo is a bijection onto 1..current: distinct subscribers have
    * distinct tags, all in range, and every tag in range has been given out.
    */
  lemma DtStagBijection(log: seq<Draw>)
    requires |FirstSeen(log)| < WORD32
    ensures forall k | k in FirstSeen(log) :: 1 <= DtStagOf(log, k) <= |FirstSeen(log)|
    ensures forall k, q | k in FirstSeen(log) && q in FirstSeen(log) && k != q :: DtStagOf(log, k) != DtStagOf(log, q)
    ensures forall i | 0 <= i < |FirstSeen(log)| :: DtStagOf(log, FirstSeen(log)[i]) == i + 1
  {
    var keys := FirstSeen(log);
    forall k | k in keys
      ensures DtStagOf(log, k) == IndexOf(keys, k) + 1
    {}
    forall i | 0 <= i < |keys|
      ensures DtStagOf(log, keys[i]) == i + 1
    {
      var n := IndexOf(keys, keys[i]);
      assert keys[n] == keys[i];
      FirstSeenDistinct(log);
    }
  }

  /** The places of a workflow's draws on a port. */
  ghost function DrawsOn(log: seq<Draw>, wf: Workflow, pon: u32): set<nat> {
    set i: nat | i < |log| && log[i].CtagDraw? && log[i].wf == wf && log[i].key.pon == pon
  }

  lemma DrawsStep(log: seq<Draw>, d: Draw, wf: Workflow, pon: u32)
    ensures DrawsOn(log + [d], wf, pon)
         == DrawsOn(log, wf, pon) + if d.CtagDraw? && d.wf == wf && d.key.pon == pon then {|log|} else {}
  {
    assert forall i: nat | i < |log| :: (log + [d])[i] == log[i];
  }

  /** The reference count counts them. */
  lemma {:induction false} CountMeaning(log: seq<Draw>, wf: Workflow, pon: u32)
    ensures Count(log, wf, pon) == |DrawsOn(log, wf, pon)|
  {
    if log == [] {
      assert DrawsOn(log, wf, pon) == {};
    } else {
      var n := |log| - 1;
      CountMeaning(log[..n], wf, pon);
      DrawsStep(log[..n], log[n], wf, pon);
      assert log == log[..n] + [log[n]];
    }
  }

  /** A subscriber is in the order exactly if it has asked for an S-tag, and stands before all that asked later for the first time. */
  lemma FirstSeenMeaning(log: seq<Draw>, k: Key)
    ensures k in FirstSeen(log) <==> StagDraw(k) in log
    ensures forall i: nat | i < |log| && StagDraw(k) in log[..i] && log[i].StagDraw? && log[i] !in log[..i] ::
              log[i].key in FirstSeen(log) && IndexOf(FirstSeen(log), k) < IndexOf(FirstSeen(log), log[i].key)
  {
    FirstSeenKeys(log);
    forall i: nat | i < |log| && StagDraw(k) in log[..i] && log[i].StagDraw? && log[i] !in log[..i]
      ensures log[i].key in FirstSeen(log) && IndexOf(FirstSeen(log), k) < IndexOf(FirstSeen(log), log[i].key)
    {
      LaterInOrder(log, k, i);
    }
  }

  lemma {:induction false} FirstSeenKeys(log: seq<Draw>)
    ensures forall k :: k in FirstSeen(log) <==> StagDraw(k) in log
  {
    if log == [] {
    } else {
      var n := |log| - 1;
      FirstSeenKeys(log[..n]);
      assert log == log[..n] + [log[n]];
    }
  }

  lemma LaterInOrder(log: seq<Draw>, k: Key, i: nat)
    requires i < |log| && StagDraw(k) in log[..i] && log[i].StagDraw? && log[i] !in log[..i]
    ensures k in FirstSeen(log) && log[i].key in FirstSeen(log)
    ensures IndexOf(FirstSeen(log), k) < IndexOf(FirstSeen(log), log[i].key)
  {
    var q := log[i].key;
    var before, upTo := log[..i], log[..i + 1];
    FirstSeenKeys(before);
    assert upTo[..i] == before;
    assert FirstSeen(upTo) == FirstSeen(before) + [q];
    IndexStable(FirstSeen(before), q);
    FirstSeenGrows(upTo, log);
    IndexPrefix(FirstSeen(upTo), FirstSeen(log), k);
    IndexPrefix(FirstSeen(upTo), FirstSeen(log), q);
  }

  lemma {:induction false} CountMonotone(log: seq<Draw>, m: nat, n: nat, wf: Workflow, pon: u32)
    requires m <= n <= |log|
    ensures Count(log[..m], wf, pon) <= Count(log[..n], wf, pon)
  {
    if m == n {
    } else {
      CountMonotone(log, m, n - 1, wf, pon);
      assert log[..n][..n - 1] == log[..n - 1];
    }
  }

  /** The tag the draw at position `i` of a log returned. */
  function CtagAt(log: seq<Draw>, i: nat): u32
    requires i < |log| && log[i].CtagDraw?
  {
    CtagAfter(log[..i + 1], log[i].wf, log[i].key.pon)
  }

  /** The n-th draw on a PON port gets the n-th tag from the first, whatever happens on other ports. */
  lemma CtagCounts(log: seq<Draw>, i: nat)
    requires i < |log| && log[i].CtagDraw?
    ensures var before := Count(log[..i], log[i].wf, log[i].key.pon);
            CtagAt(log, i) == ToU32(before + if log[i].wf == Att then 2 else 1)
  {
    assert log[..i + 1][..i] == log[..i];
  }

  /** The counter of a port has not wrapped. */
  ghost predicate CtagFits(log: seq<Draw>, wf: Workflow, pon: u32) {
    FirstCtag(wf) - 1 + Count(log, wf, pon) < WORD32
  }

  /** Draws on a port whose tags are usable 12-bit VLAN ids. */
  function UsableCtags(wf: Workflow): nat { if wf == Att then 4093 else 4094 }

  predicate UsableVid(tag: u32) { 1 <= tag <= 4094 }

  lemma PrefixCount(log: seq<Draw>, i: nat, wf: Workflow, pon: u32)
    requires i < |log| && log[i].CtagDraw? && log[i].wf == wf && log[i].key.pon == pon
    ensures 1 <= Count(log[..i + 1], wf, pon) <= Count(log, wf, pon)
  {
    var upTo := log[..i + 1];
    assert upTo[|upTo| - 1] == log[i];
    assert log[..|log|] == log;
    CountMonotone(log, i + 1, |log|, wf, pon);
  }

  lemma CtagPlace(log: seq<Draw>, i: nat)
    requires i < |log| && log[i].CtagDraw?
    ensures var n := Count(log[..i + 1], log[i].wf, log[i].key.pon);
            && 1 <= n <= Count(log, log[i].wf, log[i].key.pon)
            && CtagAt(log, i) == ToU32(FirstCtag(log[i].wf) - 1 + n)
  {
    PrefixCount(log, i, log[i].wf, log[i].key.pon);
  }

  /** C-tags are usable VLAN ids, 1 to 4094, exactly up to the 4093rd (ATT) or 4094th draw on their port. */
  lemma CtagUsable(log: seq<Draw>, i: nat)
    requires i < |log| && log[i].CtagDraw? && CtagFits(log, log[i].wf, log[i].key.pon)
    ensures 1 <= CtagAt(log, i) <= 4094
       <==> Count(log[..i + 1], log[i].wf, log[i].key.pon) <= if log[i].wf == Att then 4093 else 4094
  {
    CtagPlace(log, i);
  }

  /** Draws of the same workflow on the same port get different tags. */
  lemma CtagsDiffer(log: seq<Draw>, i: nat, j: nat)
    requires i < j < |log| && log[i].CtagDraw? && log[j].CtagDraw?
    requires log[i].wf == log[j].wf && log[i].key.pon == log[j].key.pon
    requires CtagFits(log, log[j].wf, log[j].key.pon)
    ensures 1 <= CtagAt(log, i) < CtagAt(log, j)
  {
    CtagPlace(log, i);
    CtagPlace(log, j);
    CountMonotone(log, i + 1, j, log[i].wf, log[i].key.pon);
    assert log[..j + 1][..j] == log[..j];
  }

  /** The S-tag of a subscriber, given the history after its draw. */
  function StagOf(log: seq<Draw>, wf: Workflow, k: Key): u32
    requires wf == Dt ==> k in FirstSeen(log)
  {
    match wf
    case Att => ToU32(k.pon + 2)
    case Tt => ToU32(k.pon + 2)
    case Dt => DtStagOf(log, k)
    case Unknown => 0
  }

  /** Isolation: two subscribers, wherever their draws fall among everybody else's, never share both tags. */
  lemma PairsDiffer(log: seq<Draw>, wf: Workflow, i: nat, j: nat)
    requires wf != Unknown && i < |log| && j < |log|
    requires log[i].CtagDraw? && log[j].CtagDraw? && log[i].wf == log[j].wf == wf
    requires log[i].key != log[j].key && CtagFits(log, wf, log[i].key.pon)
    requires wf == Dt ==> |FirstSeen(log)| < WORD32 && log[i].key in FirstSeen(log) && log[j].key in FirstSeen(log)
    ensures StagOf(log, wf, log[i].key) != StagOf(log, wf, log[j].key) || CtagAt(log, i) != CtagAt(log, j)
  {
    StagsDiffer(log, wf, log[i].key, log[j].key);
    if wf != Dt && log[i].key.pon == log[j].key.pon {
      if i < j { CtagsDiffer(log, i, j); } else { CtagsDiffer(log, j, i); }
    }
  }

  /** S-tags tell subscribers apart, except in ATT and TT on the same PON port. */
  lemma StagsDiffer(log: seq<Draw>, wf: Workflow, a: Key, b: Key)
    requires wf != Unknown && a != b
    requires wf == Dt ==> |FirstSeen(log)| < WORD32 && a in FirstSeen(log) && b in FirstSeen(log)
    ensures wf == Dt || a.pon != b.pon ==> StagOf(log, wf, a) != StagOf(log, wf, b)
  {
    if wf == Dt {
      DtStagsDiffer(log, a, b);
    } else if a.pon != b.pon {
      AddTwoInjective(a.pon, b.pon);
    }
  }

  lemma DtStagsDiffer(log: seq<Draw>, a: Key, b: Key)
    requires |FirstSeen(log)| < WORD32 && a in FirstSeen(log) && b in FirstSeen(log) && a != b
    ensures DtStagOf(log, a) != DtStagOf(log, b)
  {
    DtStagBijection(log);
  }

  lemma AddTwoInjective(p: u32, q: u32)
    requires p != q
    ensures ToU32(p as int + 2) != ToU32(q as int + 2)
  {}

  lemma TagsNonZero(log: seq<Draw>, wf: Workflow, i: nat)
    requires wf != Unknown && i < |log|
    requires log[i].CtagDraw? && log[i].wf == wf && CtagFits(log, wf, log[i].key.pon)
    requires wf == Dt ==> |FirstSeen(log)| < WORD32 && log[i].key in FirstSeen(log)
    ensures CtagAt(log, i) >= 1
    ensures wf == Dt || log[i].key.pon < WORD32 - 2 ==> StagOf(log, wf, log[i].key) >= 1
  {
    CtagPlace(log, i);
    if wf == Dt {
      DtStagBijection(log);
    }
  }
}
