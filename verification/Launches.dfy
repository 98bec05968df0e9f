/** Launch accounting: every slot the main goroutine has passed took a serial number and either launched an ONU or skipped. */
module Launches {
  import opened Words
  import opened Batches
  import opened Protocol

  ghost function OnPort(q: nat): Onu -> nat {
    (o: Onu) => if o.pon == q then 1 else 0
  }

  /** Launches skipped because the allocator had no ONU id to give. */
  ghost function Skip(): Event -> nat {
    (e: Event) => if e.IdError? then 1 else 0
  }

  ghost predicate NoSkip(events: seq<Event>) {
    forall e <- events :: !e.IdError?
  }

  lemma SkipsCounted(events: seq<Event>)
    ensures Sum(events, Skip()) == 0 <==> NoSkip(events)
  {
    if NoSkip(events) {
      SumZero(events, Skip());
    } else {
      var x :| 0 <= x < |events| && events[x].IdError?;
      SumTerm(events, x, Skip());
    }
  }

  lemma NextSlot(prog: seq<Instr>, pc: nat, w: Instr -> nat)
    requires pc < |prog|
    ensures Sum(prog[..pc + 1], w) == Sum(prog[..pc], w) + w(prog[pc])
  {
    SumAppend(prog[..pc], prog[pc], w);
    assert prog[..pc + 1] == prog[..pc] + [prog[pc]];
  }

  /** Serial numbers, launches and skips up to a state. */
  ghost predicate Accounted(c: Config, s: State, skipped: nat, q: nat) {
    && s.pc <= |c.prog|
    && s.serials == Sum(c.prog[..s.pc], AnyPon()) == |s.onus| + skipped
    && Sum(s.onus, OnPort(q)) <= Sum(c.prog[..s.pc], OnPon(q)) <= Sum(s.onus, OnPort(q)) + skipped
  }

  lemma StepAccounts(c: Config, s: State, e: Event, skipped: nat, q: nat)
    requires ValidConfig(c) && Accounted(c, s, skipped, q) && Enabled(c, s, e)
    ensures Accounted(c, Apply(c, s, e), skipped + Skip()(e), q)
  {
    var s' := Apply(c, s, e);
    if e.IdError? || e.LaunchOnu? || e.PassBarrier? {
      NextSlot(c.prog, s.pc, AnyPon());
      NextSlot(c.prog, s.pc, OnPon(q));
      if e.LaunchOnu? {
        SumAppend(s.onus, NewOnu(s, c.prog[s.pc].pon, e.id), OnPort(q));
      }
    } else if !e.IndexPanic? {
      assert s'.onus == s.onus[e.x := s'.onus[e.x]];
      SumUpdate(s.onus, e.x, s'.onus[e.x], OnPort(q));
    }
  }

  /**
    * In every state of every interleaving, the serial numbers taken count the launch attempts; each
    * attempt either launched an ONU or was skipped; and no port has more ONUs than attempts, nor
    * fewer unless launches were skipped.
    */
  lemma {:induction false} LaunchesCount(c: Config, states: seq<State>, events: seq<Event>, i: nat, q: nat)
    requires ValidConfig(c) && IsRun(c, states, events) && i < |states|
    ensures Accounted(c, states[i], Sum(events[..i], Skip()), q)
  {
    if i == 0 {
    } else {
      LaunchesCount(c, states, events, i - 1, q);
      StepAccounts(c, states[i - 1], events[i - 1], Sum(events[..i - 1], Skip()), q);
      SumAppend(events[..i - 1], events[i - 1], Skip());
      assert events[..i] == events[..i - 1] + [events[i - 1]];
    }
  }

  // ---------------------------------------------------------------- there is an id left

  ghost function IdsOn(onus: seq<Onu>, pon: nat): (ids: set<u32>)
    ensures forall o <- onus :: o.pon == pon ==> o.id in ids
  {
    set o <- onus | o.pon == pon :: o.id
  }

  ghost function Ids(p: Pool): set<u32> { set id: u32 | InPool(p, id) }

  lemma {:induction false} PoolCounted(p: Pool)
    ensures |Ids(p)| == PoolSize(p)
    decreases PoolSize(p)
  {
    if p.first > p.last {
      assert Ids(p) == {};
    } else if p.first == p.last {
      assert Ids(p) == {p.last};
    } else {
      PoolCounted(Pool(p.first, p.last - 1));
      assert Ids(p) == Ids(Pool(p.first, p.last - 1)) + {p.last};
    }
  }

  /** The ids in use on a port are as many as its ONUs, and all of the pool. */
  ghost predicate IdsCounted(c: Config, s: State, q: nat) {
    |IdsOn(s.onus, q)| == Sum(s.onus, OnPort(q)) && IdsOn(s.onus, q) <= Ids(c.pool)
  }

  lemma AppendIds(onus: seq<Onu>, o: Onu, q: nat)
    ensures IdsOn(onus + [o], q) == IdsOn(onus, q) + if o.pon == q then {o.id} else {}
    ensures Sum(onus + [o], OnPort(q)) == Sum(onus, OnPort(q)) + OnPort(q)(o)
  {
    SumAppend(onus, o, OnPort(q));
  }

  lemma FreshIsNew(pool: Pool, onus: seq<Onu>, q: nat, id: u32)
    requires Fresh(pool, onus, q, id)
    ensures id !in IdsOn(onus, q) && id in Ids(pool)
  {}

  lemma LaunchKeepsIds(c: Config, s: State, id: u32, q: nat)
    requires ValidConfig(c) && IdsCounted(c, s, q) && Enabled(c, s, LaunchOnu(id))
    ensures IdsCounted(c, Apply(c, s, LaunchOnu(id)), q)
  {
    var o := NewOnu(s, c.prog[s.pc].pon, id);
    assert Apply(c, s, LaunchOnu(id)).onus == s.onus + [o];
    AppendIds(s.onus, o, q);
    FreshIsNew(c.pool, s.onus, o.pon, id);
  }

  lemma StepKeepsIds(c: Config, s: State, e: Event, q: nat)
    requires ValidConfig(c) && IdsCounted(c, s, q) && Enabled(c, s, e)
    ensures IdsCounted(c, Apply(c, s, e), q)
  {
    var s' := Apply(c, s, e);
    if e.LaunchOnu? {
      LaunchKeepsIds(c, s, e.id, q);
    } else if !(e.IdError? || e.PassBarrier? || e.IndexPanic?) {
      ReplaceKeepsIds(s.onus, e.x, s'.onus[e.x], q);
      assert s'.onus == s.onus[e.x := s'.onus[e.x]];
    }
  }

  lemma ReplaceKeepsIds(onus: seq<Onu>, x: nat, o: Onu, q: nat)
    requires x < |onus| && o.pon == onus[x].pon && o.id == onus[x].id
    ensures IdsOn(onus[x := o], q) == IdsOn(onus, q)
    ensures Sum(onus[x := o], OnPort(q)) == Sum(onus, OnPort(q))
  {
    SumUpdate(onus, x, o, OnPort(q));
    forall y | 0 <= y < |onus|
      ensures onus[x := o][y].pon == onus[y].pon && onus[x := o][y].id == onus[y].id
    {}
    assert forall y | 0 <= y < |onus| && onus[y].pon == q :: onus[x := o][y] in onus[x := o];
  }

  lemma {:induction false} RunKeepsIds(c: Config, states: seq<State>, events: seq<Event>, i: nat, q: nat)
    requires ValidConfig(c) && IsRun(c, states, events) && i < |states|
    ensures IdsCounted(c, states[i], q)
  {
    if i == 0 {
      assert IdsOn([], q) == {};
    } else {
      RunKeepsIds(c, states, events, i - 1, q);
      StepKeepsIds(c, states[i - 1], events[i - 1], q);
    }
  }

  /** No port ever has more ONUs than the pool has ids; while it has fewer, an id is left. */
  lemma PoolBound(c: Config, states: seq<State>, events: seq<Event>, i: nat, q: nat)
    requires ValidConfig(c) && IsRun(c, states, events) && i < |states|
    ensures Sum(states[i].onus, OnPort(q)) <= PoolSize(c.pool)
    ensures Sum(states[i].onus, OnPort(q)) < PoolSize(c.pool) <==> exists id: u32 :: Fresh(c.pool, states[i].onus, q, id)
  {
    var used := IdsOn(states[i].onus, q);
    RunKeepsIds(c, states, events, i, q);
    PoolCounted(c.pool);
    SubsetSize(used, Ids(c.pool));
    if used != Ids(c.pool) {
      var id :| id in Ids(c.pool) && id !in used;
      assert Fresh(c.pool, states[i].onus, q, id);
    }
    if id: u32 :| Fresh(c.pool, states[i].onus, q, id) {
      assert id in Ids(c.pool) && id !in used;
    }
  }

  lemma {:induction false} SubsetSize<T>(a: set<T>, b: set<T>)
    requires a <= b
    ensures |a| <= |b| && (|a| == |b| <==> a == b)
  {
    if a == {} {
    } else {
      var x :| x in a;
      SubsetSize(a - {x}, b - {x});
      assert a == a - {x} + {x} && b == b - {x} + {x};
    }
  }
}
