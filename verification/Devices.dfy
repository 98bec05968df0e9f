/** The ONU activation step and the ONU device's start-up loop. */
module Devices {
  import opened Words
  import opened Results
  import opened Tags
  import Isolation
  import Protocol
  import Serials
  import UniPorts

  datatype OnuReason = NotSet | ReasonOk | ErrorText

  datatype OnuKey = OnuKey(onuId: u32, ponIntf: u32)

  /** The OLT manager's map of activated ONUs, with the reason recorded for each. */
  class Manager {
    var onuDeviceMap: map<OnuKey, OnuReason>

    /** Whatever the device answers, the ONU is recorded; it is started exactly when the protocol's ONU is. */
    method ActivateOnu(intfId: u32, onuId: u32, answer: Code) returns (started: bool)
      modifies this
      ensures started <==> Protocol.PhaseAfter(answer) == Protocol.Spawning
      ensures onuDeviceMap.Keys == old(onuDeviceMap).Keys + {OnuKey(onuId, intfId)}
      ensures forall k | k in old(onuDeviceMap) && k != OnuKey(onuId, intfId) :: onuDeviceMap[k] == old(onuDeviceMap)[k]
      ensures onuDeviceMap[OnuKey(onuId, intfId)] == ReasonOk <==> started
      ensures onuDeviceMap[OnuKey(onuId, intfId)] == NotSet <==> answer == AlreadyExists
    {
      var reason := NotSet;
      if answer != Ok {
        if answer != AlreadyExists {
          reason := ErrorText;
        }
      } else {
        reason := ReasonOk;
      }
      onuDeviceMap := onuDeviceMap[OnuKey(onuId, intfId) := reason];
      started := answer == Ok;
    }
  }

  datatype Record = Record(name: seq<Serials.byte>, onuId: u32, uniId: u32, ponIntf: u32,
                           uniPortNo: nat, ctag: u32, stag: u32)

  class OnuDevice {
    const serial: nat
    const onuId: u32
    const ponIntf: u32
    const wf: Workflow
    const subsPerOnu: u32
    const alloc: TagAllocator

    var subscriberMap: map<seq<Serials.byte>, Record>
    var added: nat            // calls of subWg.Add(1)
    var started: seq<Record>  // subscriber goroutines, in start order

    constructor (serial: nat, onuId: u32, ponIntf: u32, wf: Workflow, subsPerOnu: u32, alloc: TagAllocator)
      ensures this.alloc == alloc && this.wf == wf && this.subsPerOnu == subsPerOnu
      ensures this.serial == serial && this.onuId == onuId && this.ponIntf == ponIntf
    {
      this.serial, this.onuId, this.ponIntf, this.wf, this.subsPerOnu := serial, onuId, ponIntf, wf, subsPerOnu;
      this.alloc := alloc;
      subscriberMap, added, started := map[], 0, [];
    }

    /** Exactly the given records are in the map, each under its name. */
    static ghost predicate Entered(m: map<seq<Serials.byte>, Record>, records: seq<Record>) {
      m.Keys == Names(records) && forall r <- records :: m[r.name] == r
    }

    static lemma EnterOne(m: map<seq<Serials.byte>, Record>, records: seq<Record>, r: Record)
      requires Entered(m, records) && r.name !in Names(records)
      ensures Entered(m[r.name := r], records + [r])
    {
      assert Names(records + [r]) == Names(records) + {r.name};
    }

    static ghost function Names(records: seq<Record>): set<seq<Serials.byte>> { set r <- records :: r.name }

    ghost function KeyOf(u: u32): Key { Key(ponIntf, onuId, u) }

    /** The u-th subscriber record, given where in the allocators' history its C-tag was drawn. */
    ghost predicate RecordOk(r: Record, u: u32, log: seq<Draw>, draw: nat) {
      && r.name == Serials.SubscriberName(serial, u)
      && r.onuId == onuId && r.uniId == u && r.ponIntf == ponIntf
      && r.uniPortNo == UniPorts.MkUniPortNum(ponIntf, onuId, u)
      && Isolation.DrawOk(wf, log, KeyOf(u), r.ctag, draw)
      && (wf == Dt ==> KeyOf(u) in FirstSeen(log))
      && r.stag == StagOf(log, wf, KeyOf(u))
    }

    lemma RecordStays(r: Record, u: u32, log: seq<Draw>, later: seq<Draw>, draw: nat)
      requires log <= later && RecordOk(r, u, log, draw)
      ensures RecordOk(r, u, later, draw)
    {
      assert later[..draw + 1] == log[..draw + 1];
      if wf == Dt {
        DtStagStable(log, later, KeyOf(u));
      }
    }

    ghost predicate RecordsOk(records: seq<Record>, log: seq<Draw>, draws: seq<nat>) {
      && |records| == |draws| && |records| <= subsPerOnu
      && forall u: u32 | u < |records| :: RecordOk(records[u], u, log, draws[u])
    }

    lemma AddRecord(records: seq<Record>, draws: seq<nat>, log: seq<Draw>, later: seq<Draw>, r: Record, draw: nat)
      requires log <= later && RecordsOk(records, log, draws) && |records| < subsPerOnu
      requires RecordOk(r, |records|, later, draw)
      ensures RecordsOk(records + [r], later, draws + [draw]) && r.name !in Names(records)
    {
      var n: u32 := |records|;
      forall u: u32 | u < n
        ensures RecordOk(records[u], u, later, draws[u]) && records[u].name != r.name
      {
        RecordStays(records[u], u, log, later, draws[u]);
        Serials.NamesAlike(serial, u, serial, n);
      }
    }

    /**
      * The start-up loop, with other goroutines free to draw tags between any two of its own draws.
      * One Add and one goroutine per subscriber; every subscriber is entered in the map under its
      * own name, with its own port and tags.  The wait and the Done that follow the loop are the
      * JoinSubs step of the protocol.
      */
    method Start() returns (ghost draws: seq<nat>)
      requires alloc.Valid() && wf != Unknown
      modifies this, alloc
      ensures alloc.Valid() && old(alloc.log) <= alloc.log
      ensures |started| == subsPerOnu && added == old(added) + subsPerOnu
      ensures RecordsOk(started, alloc.log, draws)
      ensures Entered(subscriberMap, started)
    {
      subscriberMap := map[];
      started := [];
      draws := [];
      var subs := 0;
      while subs < subsPerOnu
        invariant 0 <= subs <= subsPerOnu
        invariant alloc.Valid() && old(alloc.log) <= alloc.log
        invariant |started| == subs && added == old(added) + subs
        invariant RecordsOk(started, alloc.log, draws)
        invariant Entered(subscriberMap, started)
      {
        ghost var before := alloc.log;
        var record;
        ghost var draw;
        record, draw := NewRecord(subs);
        AddRecord(started, draws, before, alloc.log, record, draw);
        EnterOne(subscriberMap, started, record);
        subscriberMap := subscriberMap[record.name := record];
        added := added + 1;
        started := started + [record];
        draws := draws + [draw];
        subs := subs + 1;
      }
    }

    method NewRecord(subs: u32) returns (record: Record, ghost draw: nat)
      requires alloc.Valid() && wf != Unknown
      modifies alloc
      ensures alloc.Valid() && old(alloc.log) <= alloc.log
      ensures RecordOk(record, subs, alloc.log, draw)
    {
      var key := Key(ponIntf, onuId, subs);
      alloc.OthersRun();
      draw := |alloc.log|;
      var ctag := alloc.GetCtag(wf, ponIntf, key);
      ghost var afterCtag := alloc.log;
      assert afterCtag[..draw + 1] == afterCtag;
      alloc.OthersRun();
      var stag := alloc.GetStag(wf, key);
      assert alloc.log[..draw + 1] == afterCtag;
      StagMatches(alloc.log, wf, key);
      record := Record(Serials.SubscriberName(serial, subs), onuId, subs, ponIntf,
                       UniPorts.MkUniPortNum(ponIntf, onuId, subs), ctag, stag);
    }
  }

  /** The S-tag a call returns is the one its history assigns to the caller. */
  lemma StagMatches(later: seq<Draw>, wf: Workflow, key: Key)
    ensures forall log | later == log + StagLog(wf, key) ::
              (wf == Dt ==> key in FirstSeen(later)) && StagResult(log, wf, key) == StagOf(later, wf, key)
  {
    forall log | later == log + StagLog(wf, key)
      ensures wf == Dt ==> key in FirstSeen(later)
    {
      FirstSeenLast(log, key);
    }
  }
}
