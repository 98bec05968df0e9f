/** Flow ids: one locked counter per PON port, shared by trap, subscriber and multicast flows. */
module FlowIds {
  import opened Words

  // ---------------------------------------------------------------- one goroutine's view

  /**
    * Ids taken from a counter, by anyone, once a goroutine has made its first `n` draws;
    * `rivals(m)` is how many others make between its draws m - 1 and m.
    */
  function Taken(rivals: nat -> nat, n: nat): nat {
    if n == 0 then 0 else Taken(rivals, n - 1) + rivals(n - 1) + 1
  }

  /** The id a goroutine gets from its draw number `n`, counting from 0. */
  function NthId(rivals: nat -> nat, n: nat): u64 { ToU64(Taken(rivals, n + 1)) }

  /** A resource manager as one goroutine sees it. */
  class ResourceMgr {
    const rivals: nat -> nat
    var flowId: u64
    var draws: nat

    ghost predicate Valid() reads this { flowId == ToU64(Taken(rivals, draws)) }

    constructor (rivals: nat -> nat)
      ensures Valid() && this.rivals == rivals && draws == 0
    {
      this.rivals, flowId, draws := rivals, 0, 0;
    }

    method GetFlowID() returns (id: u64)
      requires Valid()
      modifies this
      ensures Valid() && draws == old(draws) + 1
      ensures id == NthId(rivals, old(draws))
    {
      flowId := ToU64(flowId + rivals(draws));  // the others' draws
      flowId := ToU64(flowId + 1);              // this one
      WrapTwice(Taken(rivals, draws), rivals(draws));
      draws := draws + 1;
      id := flowId;
    }
  }

  lemma WrapTwice(a: nat, b: nat)
    ensures ToU64(ToU64(ToU64(a) + b) + 1) == ToU64(a + b + 1)
  {
    WrapAdd(a, b);
    WrapAdd(a + b, 1);
  }

  lemma {:induction false} WrapAdd(a: nat, b: nat)
    ensures ToU64(ToU64(a) + b) == ToU64(a + b)
  {
    if a < WORD64 {
    } else {
      WrapAdd(a - WORD64, b);
    }
  }

  /** A goroutine's own ids increase until the counter wraps. */
  lemma {:induction false} ViewIncreases(rivals: nat -> nat, m: nat, n: nat)
    requires m < n && Taken(rivals, n + 1) < WORD64
    ensures NthId(rivals, m) < NthId(rivals, n)
  {
    if m == n - 1 {
    } else {
      ViewIncreases(rivals, m, n - 1);
    }
  }

  // ---------------------------------------------------------------- all goroutines together

  /** The id of the k-th draw of all, counting from 0. */
  function IssuedAt(k: nat): u64 { ToU64(k + 1) }

  /** Where in a history of draws, given by who made each, a goroutine's own draws are. */
  function Positions<C(==)>(history: seq<C>, c: C): seq<nat> {
    if history == [] then []
    else
      var n := |history| - 1;
      Positions(history[..n], c) + if history[n] == c then [n] else []
  }

  lemma {:induction false} PositionsMeaning<C>(history: seq<C>, c: C)
    ensures forall i | 0 <= i < |Positions(history, c)| ::
              Positions(history, c)[i] < |history| && history[Positions(history, c)[i]] == c
    ensures forall i, j | 0 <= i < j < |Positions(history, c)| :: Positions(history, c)[i] < Positions(history, c)[j]
    ensures forall p: nat | p < |history| && history[p] == c :: p in Positions(history, c)
  {
    if history == [] {
    } else {
      var n := |history| - 1;
      PositionsMeaning(history[..n], c);
      forall p: nat | p < n && history[p] == c
        ensures p in Positions(history, c)
      {
        assert history[..n][p] == c;
      }
    }
  }

  /** The draws of others in between, as one goroutine's rivals. */
  ghost function RivalsOf(positions: seq<nat>): nat -> nat {
    (m: nat) =>
      if m >= |positions| then 0
      else if m == 0 then positions[0]
      else if positions[m] > positions[m - 1] then positions[m] - positions[m - 1] - 1
      else 0
  }

  /**
    * Every interleaving is covered by the one-goroutine view: in any history of draws, each
    * goroutine gets exactly the ids its view predicts.
    */
  lemma {:induction false} ViewOfHistory<C>(history: seq<C>, c: C, m: nat)
    requires m < |Positions(history, c)|
    ensures NthId(RivalsOf(Positions(history, c)), m) == IssuedAt(Positions(history, c)[m])
  {
    PositionsMeaning(history, c);
    TakenAt(Positions(history, c), m);
  }

  lemma {:induction false} TakenAt(ps: seq<nat>, m: nat)
    requires m < |ps| && forall i, j | 0 <= i < j < |ps| :: ps[i] < ps[j]
    ensures Taken(RivalsOf(ps), m + 1) == ps[m] + 1
  {
    if m == 0 {
      assert Taken(RivalsOf(ps), 0) == 0;
    } else {
      TakenAt(ps, m - 1);
    }
  }

  /** The first n ids of a counter are pairwise distinct exactly while n is at most 2^64, and 1..n before that. */
  lemma IssuedDistinct(n: nat)
    ensures (forall j, k | 0 <= j < k < n :: IssuedAt(j) != IssuedAt(k)) <==> n <= WORD64
    ensures n < WORD64 ==> forall k | 0 <= k < n :: IssuedAt(k) == k + 1
  {
    if n <= WORD64 {
      assert forall k | 0 <= k < WORD64 - 1 :: IssuedAt(k) == k + 1;
      assert IssuedAt(WORD64 - 1) == 0;
    } else {
      assert IssuedAt(0) == 1;
      assert IssuedAt(WORD64) == 1;
    }
  }

  /** The id a goroutine gets from its m-th draw in a history, by its own view. */
  ghost function ViewId<C>(history: seq<C>, c: C, m: nat): u64 {
    NthId(RivalsOf(Positions(history, c)), m)
  }

  ghost predicate DrewInBoth<C>(history: seq<C>, c: C, m: nat, d: C, n: nat) {
    m < |Positions(history, c)| && n < |Positions(history, d)| && (c, m) != (d, n)
  }

  /** No id goes to two draws, whichever goroutines make them. */
  ghost predicate NeverShared<C(!new)>(history: seq<C>) {
    forall c, m: nat, d, n: nat | DrewInBoth(history, c, m, d, n) :: ViewId(history, c, m) != ViewId(history, d, n)
  }

  lemma PositionsDiffer<C>(history: seq<C>, c: C, m: nat, d: C, n: nat)
    requires DrewInBoth(history, c, m, d, n)
    ensures Positions(history, c)[m] != Positions(history, d)[n]
    ensures Positions(history, c)[m] < |history| && Positions(history, d)[n] < |history|
  {
    PositionsMeaning(history, c);
    PositionsMeaning(history, d);
  }

  /** Who makes a draw, and as which of its own. */
  lemma OwnDraw<C>(history: seq<C>, p: nat) returns (m: nat)
    requires p < |history|
    ensures m < |Positions(history, history[p])| && Positions(history, history[p])[m] == p
    ensures ViewId(history, history[p], m) == IssuedAt(p)
  {
    PositionsMeaning(history, history[p]);
    var ps := Positions(history, history[p]);
    assert p in ps;
    m :| m < |ps| && ps[m] == p;
    ViewOfHistory(history, history[p], m);
  }

  /** Over all interleavings of any goroutines, no two draws ever get the same id exactly up to 2^64 draws. */
  lemma IdsNeverShared<C(!new)>(history: seq<C>)
    ensures NeverShared(history) <==> |history| <= WORD64
  {
    IssuedDistinct(|history|);
    if |history| <= WORD64 {
      forall c, m: nat, d, n: nat | DrewInBoth(history, c, m, d, n)
        ensures ViewId(history, c, m) != ViewId(history, d, n)
      {
        PositionsDiffer(history, c, m, d, n);
        ViewOfHistory(history, c, m);
        ViewOfHistory(history, d, n);
      }
    } else {
      var m := OwnDraw(history, 0);
      var n := OwnDraw(history, WORD64);
      assert DrewInBoth(history, history[0], m, history[WORD64], n);
      assert IssuedAt(0) == IssuedAt(WORD64) == 1;
    }
  }
}
