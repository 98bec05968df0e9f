/** The batch arithmetic of the OLT manager: which ONUs are launched, and in which order. */
module Batches {
  import opened Words

  /** What the main goroutine does next: one launch attempt on a PON port, or wait for the batch. */
  datatype Instr = Slot(batch: nat, pon: nat) | Barrier(batch: nat)

  /** How the checks before the launch loop end. */
  datatype Plan =
    | NotPowerOfTwo
    | FewerOnusThanPons
    | DivideByZero
    | Launch(perPon: nat, perBatch: nat, batches: nat)

  // ---------------------------------------------------------------- the power-of-two test

  /** The word test; the subtraction wraps at zero, so zero passes. */
  predicate IsPowerOfTwo(n: u64) {
    BitAnd(n, (n + WORD64 - 1) % WORD64) == 0
  }

  lemma {:induction false} BitTestSound(n: nat) returns (e: nat)
    requires n >= 1 && BitAnd(n, n - 1) == 0
    ensures n == Pow2(e)
  {
    if n == 1 {
      e := 0;
    } else {
      if n % 2 == 1 {
        BitAndSelf(n / 2);
        assert false;
      }
      assert n / 2 - 1 == (n - 1) / 2;
      e := BitTestSound(n / 2);
      e := e + 1;
    }
  }

  lemma {:induction false} BitAndSelf(n: nat)
    ensures BitAnd(n, n) == n
  {
    if n == 0 {
    } else {
      BitAndSelf(n / 2);
    }
  }

  lemma {:induction false} BitTestComplete(e: nat)
    ensures BitAnd(Pow2(e), Pow2(e) - 1) == 0
  {
    if e == 0 {
    } else {
      BitTestComplete(e - 1);
      assert (Pow2(e) - 1) / 2 == Pow2(e - 1) - 1;
    }
  }

  /** For every ONU count but zero the bit test decides "is a power of two". */
  lemma PowerOfTwoTest(n: u64)
    ensures n >= 1 ==> (IsPowerOfTwo(n) <==> exists e :: n == Pow2(e))
    ensures IsPowerOfTwo(0)
  {
    if n >= 1 {
      assert (n + WORD64 - 1) % WORD64 == n - 1;
      if IsPowerOfTwo(n) {
        var e := BitTestSound(n);
      }
      if e :| n == Pow2(e) {
        BitTestComplete(e);
      }
    }
  }

  // ---------------------------------------------------------------- the halving loop

  /** The batch size the halving loop settles on for a per-PON count that has been cut to 32 bits. */
  function Halve(perPon: nat, k: nat): (r: nat)
    ensures r <= k
  {
    if perPon < k then Halve(perPon, k / 2) else k
  }

  function PlanOf(numOfOnu: u64, pons: u32): Plan {
    if !IsPowerOfTwo(numOfOnu) then NotPowerOfTwo
    else if numOfOnu < pons then FewerOnusThanPons
    else if pons == 0 then DivideByZero
    else
      var perPon := numOfOnu / pons;
      var k := Halve(ToU32(perPon), 4);
      if k == 0 then DivideByZero else Launch(perPon, k, ToU32(perPon) / k)
  }

  /** The checks and the halving loop of provisionONUs. */
  method PlanBatches(numOfOnu: u64, pons: u32) returns (plan: Plan)
    ensures plan == PlanOf(numOfOnu, pons)
  {
    if !IsPowerOfTwo(numOfOnu) {
      return NotPowerOfTwo;
    }
    if numOfOnu < pons {
      return FewerOnusThanPons;
    }
    if pons == 0 {
      return DivideByZero;
    }
    var perPon := numOfOnu / pons;
    var low := ToU32(perPon);
    var k := 4;
    while low < k
      invariant 0 <= k <= 4
      invariant Halve(low, k) == Halve(low, 4)
    {
      k := k / 2;
    }
    if k == 0 {
      return DivideByZero;
    }
    return Launch(perPon, k, low / k);
  }

  /** How each configuration ends: the checks in the order in which they are made. */
  lemma PlanOutcome(numOfOnu: u64, pons: u32)
    ensures PlanOf(numOfOnu, pons).NotPowerOfTwo? <==> numOfOnu != 0 && forall e :: numOfOnu != Pow2(e)
    ensures PlanOf(numOfOnu, pons).FewerOnusThanPons? <==>
              (numOfOnu == 0 || exists e :: numOfOnu == Pow2(e)) && numOfOnu < pons
    ensures PlanOf(numOfOnu, pons).DivideByZero? <==>
              && (numOfOnu == 0 || exists e :: numOfOnu == Pow2(e)) && numOfOnu >= pons
              && (pons == 0 || ToU32(numOfOnu / pons) == 0)
  {
    PowerOfTwoTest(numOfOnu);
    if pons != 0 {
      HalveZero(ToU32(numOfOnu / pons));
    }
  }

  lemma HalveZero(cut: nat)
    ensures Halve(cut, 4) == 0 <==> cut == 0
  {
    HalveCases(cut);
  }

  /** The batch size is the largest of 4, 2 and 1 that does not exceed the 32-bit per-port count. */
  lemma PlanLaunch(numOfOnu: u64, pons: u32)
    requires PlanOf(numOfOnu, pons).Launch?
    ensures pons != 0
    ensures var plan, cut := PlanOf(numOfOnu, pons), ToU32(numOfOnu / pons);
            && plan.perPon == numOfOnu / pons && plan.batches == cut / plan.perBatch
            && plan.perBatch == (if cut >= 4 then 4 else if cut >= 2 then 2 else 1)
  {
    HalveCases(ToU32(numOfOnu / pons));
  }

  /**
    * The source's comment says the least batch size is 1.  It is 0, and the loop bound's division
    * faults, exactly when the low 32 bits of the per-PON count are all zero.
    */
  lemma HalvingReachesZero(numOfOnu: u64, pons: u32)
    requires IsPowerOfTwo(numOfOnu) && 1 <= pons <= numOfOnu
    ensures PlanOf(numOfOnu, pons).DivideByZero? <==> ToU32(numOfOnu / pons) == 0
    ensures PlanOf(numOfOnu, pons).Launch? ==> PlanOf(numOfOnu, pons).perBatch in {1, 2, 4}
  {
    HalveCases(ToU32(numOfOnu / pons));
  }

  /** The fault happens: 2^32 ONUs on one port. */
  lemma HalvingFault()
    ensures PlanOf(0x1_0000_0000, 1) == DivideByZero
  {
    PowersOfTwo();
    assert WORD32 == Pow2(32);
    PowerOfTwoTest(WORD32);
    HalvingReachesZero(WORD32, 1);
  }

  lemma HalveCases(p: nat)
    ensures Halve(p, 4) == if p >= 4 then 4 else if p >= 2 then 2 else if p == 1 then 1 else 0
  {
    assert Halve(p, 4) == if p < 4 then Halve(p, 2) else 4;
    assert Halve(p, 2) == if p < 2 then Halve(p, 1) else 2;
    assert Halve(p, 1) == if p < 1 then Halve(p, 0) else 1;
  }

  // ---------------------------------------------------------------- the launch loop

  /** `n` launch attempts in a row on one PON port. */
  function Attempts(batch: nat, pon: nat, n: nat): (r: seq<Instr>)
    ensures |r| == n
  {
    if n == 0 then [] else Attempts(batch, pon, n - 1) + [Slot(batch, pon)]
  }

  /** One batch over the first `pons` ports. */
  function Round(batch: nat, pons: nat, k: nat): seq<Instr> {
    if pons == 0 then [] else Round(batch, pons - 1, k) + Attempts(batch, pons - 1, k)
  }

  /** The first `batches` batches, each followed by its barrier. */
  function Program(batches: nat, pons: nat, k: nat): seq<Instr> {
    if batches == 0 then []
    else Program(batches - 1, pons, k) + Round(batches - 1, pons, k) + [Barrier(batches - 1)]
  }

  /** The triple loop of provisionONUs, as the list of what the main goroutine does. */
  method LaunchLoop(batches: u32, pons: u32, k: u32) returns (prog: seq<Instr>)
    ensures prog == Program(batches, pons, k)
  {
    prog := [];
    var i := 0;
    while i < batches
      invariant 0 <= i <= batches
      invariant prog == Program(i, pons, k)
    {
      var j := 0;
      ghost var before := prog;
      while j < pons
        invariant 0 <= j <= pons
        invariant prog == before + Round(i, j, k)
      {
        var l := 0;
        ghost var row := prog;
        while l < k
          invariant 0 <= l <= k
          invariant prog == row + Attempts(i, j, l)
        {
          prog := prog + [Slot(i, j)];
          l := l + 1;
        }
        assert prog == before + (Round(i, j, k) + Attempts(i, j, k));
        j := j + 1;
      }
      prog := prog + [Barrier(i)];
      i := i + 1;
    }
  }

  /** What the main goroutine does once the checks have ended in a plan. */
  function ProgramOf(plan: Plan, pons: nat): seq<Instr> {
    if plan.Launch? then Program(plan.batches, pons, plan.perBatch) else []
  }

  /** Launch attempts planned on each port. */
  function PerPort(numOfOnu: u64, pons: u32): nat {
    var plan := PlanOf(numOfOnu, pons);
    if plan.Launch? then plan.batches * plan.perBatch else 0
  }

  /** Launch attempts on one PON port. */
  function OnPon(pon: nat): Instr -> nat {
    (x: Instr) => if x.Slot? && x.pon == pon then 1 else 0
  }

  /** All launch attempts. */
  function AnyPon(): Instr -> nat {
    (x: Instr) => if x.Slot? then 1 else 0
  }

  lemma {:induction false} SumConcat<T>(a: seq<T>, b: seq<T>, w: T -> nat)
    ensures Sum(a + b, w) == Sum(a, w) + Sum(b, w)
  {
    if b == [] {
      assert a + b == a;
    } else {
      var n := |b| - 1;
      SumConcat(a, b[..n], w);
      SumAppend(a + b[..n], b[n], w);
      assert a + b == (a + b[..n]) + [b[n]];
    }
  }

  lemma {:induction false} AttemptsCount(batch: nat, pon: nat, n: nat, q: nat)
    ensures Sum(Attempts(batch, pon, n), OnPon(q)) == if pon == q then n else 0
    ensures Sum(Attempts(batch, pon, n), AnyPon()) == n
  {
    if n == 0 {
    } else {
      AttemptsCount(batch, pon, n - 1, q);
      SumAppend(Attempts(batch, pon, n - 1), Slot(batch, pon), OnPon(q));
      SumAppend(Attempts(batch, pon, n - 1), Slot(batch, pon), AnyPon());
    }
  }

  lemma {:induction false} RoundCount(batch: nat, pons: nat, k: nat, q: nat)
    ensures Sum(Round(batch, pons, k), OnPon(q)) == if q < pons then k else 0
  {
    if pons == 0 {
    } else {
      RoundCount(batch, pons - 1, k, q);
      AttemptsCount(batch, pons - 1, k, q);
      SumConcat(Round(batch, pons - 1, k), Attempts(batch, pons - 1, k), OnPon(q));
    }
  }

  lemma {:induction false} RoundTotal(batch: nat, pons: nat, k: nat)
    ensures Sum(Round(batch, pons, k), AnyPon()) == pons * k
  {
    if pons == 0 {
    } else {
      RoundTotal(batch, pons - 1, k);
      AttemptsCount(batch, pons - 1, k, 0);
      SumConcat(Round(batch, pons - 1, k), Attempts(batch, pons - 1, k), AnyPon());
      Distribute(pons, k);
    }
  }

  /** Every PON port gets the same number of attempts: one batch size per batch. */
  lemma {:induction false} ProgramCount(batches: nat, pons: nat, k: nat, q: nat)
    requires q < pons
    ensures Sum(Program(batches, pons, k), OnPon(q)) == batches * k
  {
    if batches == 0 {
    } else {
      calc {
        Sum(Program(batches, pons, k), OnPon(q));
        { LastBatchCount(batches, pons, k, q); }
        Sum(Program(batches - 1, pons, k), OnPon(q)) + k;
        { ProgramCount(batches - 1, pons, k, q); }
        (batches - 1) * k + k;
        { Distribute(batches, k); }
        batches * k;
      }
    }
  }

  lemma {:induction false} ProgramTotal(batches: nat, pons: nat, k: nat, round: nat)
    requires round == pons * k
    ensures Sum(Program(batches, pons, k), AnyPon()) == batches * round
  {
    if batches == 0 {
    } else {
      ProgramTotal(batches - 1, pons, k, round);
      LastBatchCount(batches, pons, k, 0);
      Distribute(batches, round);
    }
  }

  lemma LastBatchCount(batches: nat, pons: nat, k: nat, q: nat)
    requires batches >= 1
    ensures Sum(Program(batches, pons, k), OnPon(q))
         == Sum(Program(batches - 1, pons, k), OnPon(q)) + if q < pons then k else 0
    ensures Sum(Program(batches, pons, k), AnyPon()) == Sum(Program(batches - 1, pons, k), AnyPon()) + pons * k
  {
    var b := batches - 1;
    var p, r := Program(b, pons, k), Round(b, pons, k);
    RoundCount(b, pons, k, q);
    RoundTotal(b, pons, k);
    SumConcat(p, r, OnPon(q));
    SumConcat(p, r, AnyPon());
    SumAppend(p + r, Barrier(b), OnPon(q));
    SumAppend(p + r, Barrier(b), AnyPon());
  }

  lemma Distribute(n: nat, k: nat)
    requires n >= 1
    ensures n * k == (n - 1) * k + k
  {}

  /** The attempts of one batch, port by port. */
  lemma {:induction false} RoundAt(batch: nat, pons: nat, k: nat, p: nat, l: nat)
    requires p < pons && l < k
    ensures |Round(batch, pons, k)| == pons * k && p * k + l < pons * k
    ensures Round(batch, pons, k)[p * k + l] == Slot(batch, p)
  {
    RoundLength(batch, pons - 1, k);
    assert (pons - 1) * k + k == pons * k;
    if p == pons - 1 {
      AttemptAt(batch, p, k, l);
    } else {
      RoundAt(batch, pons - 1, k, p, l);
    }
  }

  lemma {:induction false} RoundLength(batch: nat, pons: nat, k: nat)
    ensures |Round(batch, pons, k)| == pons * k
  {
    if pons == 0 {
    } else {
      RoundLength(batch, pons - 1, k);
      assert (pons - 1) * k + k == pons * k;
    }
  }

  lemma {:induction false} ProgramLength(batches: nat, pons: nat, k: nat, round: nat)
    requires round == pons * k + 1
    ensures |Program(batches, pons, k)| == batches * round
  {
    if batches == 0 {
    } else {
      ProgramLength(batches - 1, pons, k, round);
      RoundLength(batches - 1, pons, k);
      assert (batches - 1) * round + round == batches * round;
    }
  }

  lemma {:induction false} ProgramSlice(batches: nat, pons: nat, k: nat, round: nat, b: nat, at: nat)
    requires round == pons * k + 1 && b < batches && at == b * round
    ensures at + round <= |Program(batches, pons, k)|
    ensures Program(batches, pons, k)[at..at + round] == Round(b, pons, k) + [Barrier(b)]
  {
    ProgramLength(batches - 1, pons, k, round);
    RoundLength(batches - 1, pons, k);
    var before := Program(batches - 1, pons, k);
    if b == batches - 1 {
      assert |before| == at;
    } else {
      ProgramSlice(batches - 1, pons, k, round, b, at);
      assert Program(batches, pons, k)[at..at + round] == before[at..at + round];
    }
  }

  /**
    * The launch program place by place: batch `b` makes attempt `l` on port `p` at place p * k + l of
    * its round, and waits at the end of the round.
    */
  lemma ProgramAt(batches: nat, pons: nat, k: nat, b: nat, p: nat, l: nat, at: nat, i: nat)
    requires b < batches && p < pons && l < k
    requires at == b * (pons * k + 1) && i == p * k + l
    ensures var prog := Program(batches, pons, k);
            && |prog| == batches * (pons * k + 1)
            && at + i < |prog| && prog[at + i] == Slot(b, p)
            && at + pons * k < |prog| && prog[at + pons * k] == Barrier(b)
  {
    var round := pons * k + 1;
    ProgramLength(batches, pons, k, round);
    RoundAt(b, pons, k, p, l);
    PlaceInProgram(batches, pons, k, round, b, at, i);
    PlaceInProgram(batches, pons, k, round, b, at, round - 1);
  }

  lemma PlaceInProgram(batches: nat, pons: nat, k: nat, round: nat, b: nat, at: nat, i: nat)
    requires round == pons * k + 1 && b < batches && at == b * round && i < round
    requires |Round(b, pons, k)| == round - 1
    ensures at + i < |Program(batches, pons, k)|
    ensures Program(batches, pons, k)[at + i] == if i < round - 1 then Round(b, pons, k)[i] else Barrier(b)
  {
    ProgramSlice(batches, pons, k, round, b, at);
    assert Program(batches, pons, k)[at + i] == Program(batches, pons, k)[at..at + round][i];
  }

  /** A program starts with its first batch's attempts on port 0. */
  lemma {:induction false} ProgramStart(batches: nat, pons: nat, k: nat)
    requires batches >= 1 && pons >= 1
    ensures Attempts(0, 0, k) <= Program(batches, pons, k)
  {
    if batches == 1 {
      RoundStart(0, pons, k);
      assert Program(0, pons, k) == [];
    } else {
      ProgramStart(batches - 1, pons, k);
    }
  }

  lemma {:induction false} RoundStart(batch: nat, pons: nat, k: nat)
    requires pons >= 1
    ensures Attempts(batch, 0, k) <= Round(batch, pons, k)
  {
    if pons == 1 {
      assert Round(batch, 0, k) == [];
    } else {
      RoundStart(batch, pons - 1, k);
    }
  }

  lemma {:induction false} AttemptAt(batch: nat, pon: nat, n: nat, i: nat)
    requires i < n
    ensures Attempts(batch, pon, n)[i] == Slot(batch, pon)
  {
    if i == n - 1 {
    } else {
      AttemptAt(batch, pon, n - 1, i);
    }
  }

  // ---------------------------------------------------------------- coverage

  /** A factor of a power of two is a power of two. */
  lemma {:induction false} FactorOfPower(p: nat, q: nat, e: nat) returns (f: nat)
    requires p * q == Pow2(e)
    ensures q == Pow2(f)
    decreases e
  {
    if e == 0 {
      ProductOne(p, q);
      f := 0;
    } else if q % 2 == 0 {
      ProductHalf(p, q / 2);
      f := FactorOfPower(p, q / 2, e - 1);
      f := f + 1;
    } else {
      ProductEven(p, q, Pow2(e - 1));
      f := FactorOfPower(p / 2, q, e - 1);
    }
  }

  lemma ProductOne(p: nat, q: nat)
    requires p * q == 1
    ensures q == 1
  {
    assert p != 0;
    assert q == 1 * q <= p * q;
  }

  lemma ProductHalf(p: nat, h: nat)
    ensures p * (2 * h) == 2 * (p * h)
  {}

  lemma ProductEven(p: nat, q: nat, h: nat)
    requires q % 2 == 1 && p * q == 2 * h
    ensures p % 2 == 0 && (p / 2) * q == h
  {
    var a, b := p / 2, q / 2;
    if p % 2 == 1 {
      OddTimesOdd(a, b);
    } else {
      ProductHalf(q, a);
    }
  }

  lemma OddTimesOdd(a: nat, b: nat)
    ensures (2 * a + 1) * (2 * b + 1) == 2 * (2 * (a * b) + a + b) + 1
  {}

  lemma PowerDivisible(q: nat, f: nat)
    requires q == Pow2(f)
    ensures Halve(q, 4) >= 1 && q / Halve(q, 4) * Halve(q, 4) == q
  {
    HalveCases(q);
    if f >= 2 {
      assert q == 4 * Pow2(f - 2);
    } else {
      assert Pow2(1) == 2 * Pow2(0);
    }
  }

  /** The launch plan of a configuration that passes the checks and does not fault. */
  lemma PlanShape(numOfOnu: u64, pons: u32)
    requires IsPowerOfTwo(numOfOnu) && 1 <= pons <= numOfOnu
    ensures var plan, cut := PlanOf(numOfOnu, pons), ToU32(numOfOnu / pons);
            && (plan.Launch? <==> cut != 0)
            && (plan.Launch? ==>
                 && plan.perBatch in {1, 2, 4} && plan.perBatch == Halve(cut, 4)
                 && plan.batches == cut / plan.perBatch
                 && cut - 3 <= plan.batches * plan.perBatch <= cut)
  {
    var cut := ToU32(numOfOnu / pons);
    HalveCases(cut);
    if cut != 0 {
      LaunchedPerPon(cut);
    }
  }

  lemma LaunchedPerPon(p: nat)
    requires p >= 1
    ensures Halve(p, 4) in {1, 2, 4} && p - 3 <= (p / Halve(p, 4)) * Halve(p, 4) <= p
  {
    HalveCases(p);
  }

  lemma {:induction false} PowMonotone(m: nat, n: nat)
    requires m <= n
    ensures Pow2(m) <= Pow2(n)
  {
    if m == n {
    } else {
      PowMonotone(m, n - 1);
    }
  }

  /** Cut to 32 bits, a power of two is kept whole or lost whole. */
  lemma CutPower(f: nat)
    ensures ToU32(Pow2(f)) == if Pow2(f) < WORD32 then Pow2(f) else 0
  {
    PowersOfTwo();
    CutLoss(Pow2(f));
    if f >= 32 {
      PowAdd(f - 32, 32);
      CutMultiple(Pow2(f - 32));
    } else {
      PowMonotone(f, 31);
      assert Pow2(32) == 2 * Pow2(31);
    }
  }

  lemma QuotientOfPower(n: nat, p: nat, e: nat) returns (f: nat)
    requires p >= 1 && n == Pow2(e) && n % p == 0
    ensures n / p == Pow2(f)
  {
    DivMod(n, p);
    f := FactorOfPower(p, n / p, e);
  }

  /** A port count that divides the ONU count leaves a power of two per port. */
  lemma PortsDivide(numOfOnu: u64, pons: u32) returns (f: nat)
    requires IsPowerOfTwo(numOfOnu) && 1 <= pons <= numOfOnu && numOfOnu % pons == 0
    ensures numOfOnu / pons == Pow2(f)
  {
    PowerOfTwoTest(numOfOnu);
    var e :| numOfOnu == Pow2(e);
    f := QuotientOfPower(numOfOnu, pons, e);
  }

  lemma DividingCut(numOfOnu: u64, pons: u32)
    requires IsPowerOfTwo(numOfOnu) && 1 <= pons <= numOfOnu && numOfOnu % pons == 0
    ensures var q := numOfOnu / pons; ToU32(q) == if q < WORD32 then q else 0
    ensures var q := numOfOnu / pons; Halve(q, 4) >= 1 && q / Halve(q, 4) * Halve(q, 4) == q
  {
    var f := PortsDivide(numOfOnu, pons);
    CutPower(f);
    PowerDivisible(numOfOnu / pons, f);
  }

  /**
    * What the launch loop covers, for every configuration that passes the checks, the ones that
    * fault on the division included.  All PON ports get the same number of attempts; fewer than 4
    * per port are missing exactly when the per-port count fits 32 bits; and none is missing exactly
    * when it fits and the port count divides the ONU count.  When the port count divides but the
    * per-port count does not fit, nothing is launched at all.
    */
  lemma {:induction false} Coverage(numOfOnu: u64, pons: u32, q: nat)
    requires IsPowerOfTwo(numOfOnu) && 1 <= pons <= numOfOnu
    ensures var prog := ProgramOf(PlanOf(numOfOnu, pons), pons);
            && Sum(prog, AnyPon()) <= numOfOnu
            && (numOfOnu <= Sum(prog, AnyPon()) + 4 * pons - 1 <==> numOfOnu / pons < WORD32)
            && (Sum(prog, AnyPon()) == numOfOnu <==> numOfOnu % pons == 0 && numOfOnu / pons < WORD32)
            && (q < pons ==> Sum(prog, OnPon(q)) * pons == Sum(prog, AnyPon()))
    ensures numOfOnu % pons == 0 ==> (PlanOf(numOfOnu, pons).DivideByZero? <==> numOfOnu / pons >= WORD32)
  {
    var cut := ToU32(numOfOnu / pons);
    QuotientPositive(numOfOnu, pons);
    var launched := PerPort(numOfOnu, pons);
    Attempted(numOfOnu, pons);
    Planned(numOfOnu, pons, q);
    CutLoss(numOfOnu / pons);
    if numOfOnu % pons == 0 {
      DividingCut(numOfOnu, pons);
    }
    if numOfOnu / pons < WORD32 {
      Shortfall(numOfOnu, pons, launched);
    } else {
      MulBounds(launched, cut, pons);
      BigLoss(numOfOnu, pons, cut);
    }
  }

  /** Attempts per port and in all, for every configuration. */
  lemma Planned(numOfOnu: u64, pons: u32, q: nat)
    ensures var prog := ProgramOf(PlanOf(numOfOnu, pons), pons);
            && Sum(prog, AnyPon()) == PerPort(numOfOnu, pons) * pons
            && (q < pons ==> Sum(prog, OnPon(q)) == PerPort(numOfOnu, pons))
  {
    var plan := PlanOf(numOfOnu, pons);
    if plan.Launch? {
      ProgramTotal(plan.batches, pons, plan.perBatch, pons * plan.perBatch);
      MulSwap(plan.batches, pons, plan.perBatch);
      if q < pons {
        ProgramCount(plan.batches, pons, plan.perBatch, q);
      }
    }
  }

  /** Attempts per port in terms of the per-port count. */
  lemma Attempted(numOfOnu: u64, pons: u32)
    requires IsPowerOfTwo(numOfOnu) && 1 <= pons <= numOfOnu
    ensures var plan, cut, launched := PlanOf(numOfOnu, pons), ToU32(numOfOnu / pons), PerPort(numOfOnu, pons);
            && cut - 3 <= launched <= cut
            && (plan.Launch? <==> cut != 0) && (cut == 0 ==> plan.DivideByZero? && launched == 0)
            && (cut != 0 ==> launched == cut / Halve(cut, 4) * Halve(cut, 4))
  {
    PlanShape(numOfOnu, pons);
    HalvingReachesZero(numOfOnu, pons);
  }

  /** A port count that divides gives every port its share. */
  lemma PerPortWhenDivides(numOfOnu: u64, pons: u32)
    requires IsPowerOfTwo(numOfOnu) && 1 <= pons <= numOfOnu
    requires numOfOnu % pons == 0 && numOfOnu / pons < WORD32
    ensures PerPort(numOfOnu, pons) == numOfOnu / pons && PerPort(numOfOnu, pons) * pons == numOfOnu
  {
    QuotientPositive(numOfOnu, pons);
    Attempted(numOfOnu, pons);
    DividingCut(numOfOnu, pons);
    DivMod(numOfOnu, pons);
  }

  lemma Shortfall(n: nat, p: nat, launched: nat)
    requires p >= 1 && n / p - 3 <= launched <= n / p
    ensures launched * p <= n <= launched * p + 4 * p - 1
    ensures n % p != 0 ==> launched * p != n
    ensures n % p == 0 && launched == n / p ==> launched * p == n
  {
    MulBounds(launched, n / p, p);
    DivMod(n, p);
  }

  /** Cutting a per-port count to 32 bits loses at least 2^32 ONUs a port. */
  lemma BigLoss(n: nat, p: nat, cut: nat)
    requires p >= 1 && cut + WORD32 <= n / p
    ensures cut * p + 4 * p <= n
  {
    DivMod(n, p);
    assert (cut + 4) * p <= (n / p) * p by { MulMonotone(cut + 4, n / p, p); }
    assert (cut + 4) * p == cut * p + 4 * p;
  }

  lemma MulMonotone(m: nat, n: nat, b: nat)
    requires m <= n
    ensures m * b <= n * b
  {}

  /** ONUs are left out: of 4 on 3 ports, one is never attempted. */
  lemma CoverageGap()
    ensures IsPowerOfTwo(4) && Sum(ProgramOf(PlanOf(4, 3), 3), AnyPon()) == 3
  {
    assert Pow2(2) == 2 * (2 * Pow2(0));
    PowerOfTwoTest(4);
    Attempted(4, 3);
    Planned(4, 3, 0);
    HalveCases(1);
  }

  lemma DivMod(n: nat, p: nat)
    requires p >= 1
    ensures n == (n / p) * p + n % p && 0 <= n % p < p
  {}

  lemma QuotientPositive(n: nat, p: nat)
    requires 1 <= p <= n
    ensures n / p >= 1
  {
    DivMod(n, p);
    assert n / p != 0;
  }

  lemma MulSwap(a: nat, b: nat, c: nat)
    ensures a * (b * c) == (a * c) * b
  {
    assert a * (b * c) == a * (c * b);
    assert a * (c * b) == (a * c) * b;
  }

  lemma MulBounds(a: nat, b: nat, p: nat)
    requires b - 3 <= a <= b
    ensures a * p <= b * p <= a * p + 3 * p
  {
    assert (b - a) * p <= 3 * p;
    assert b * p == a * p + (b - a) * p;
  }

  // ---------------------------------------------------------------- resource-manager indexing

  /** The launch loop uses its batch index to select a resource manager; there is one per port. */
  ghost predicate IndexInRange(prog: seq<Instr>, pons: nat) {
    forall x <- prog :: x.Slot? ==> x.batch < pons
  }

  lemma {:induction false} RoundBatches(batch: nat, pons: nat, k: nat)
    ensures forall x <- Round(batch, pons, k) :: x.Slot? && x.batch == batch && x.pon < pons
    ensures pons >= 1 && k >= 1 ==> Slot(batch, 0) in Round(batch, pons, k)
  {
    if pons == 0 {
    } else {
      RoundBatches(batch, pons - 1, k);
      AttemptsAre(batch, pons - 1, k);
    }
  }

  lemma {:induction false} AttemptsAre(batch: nat, pon: nat, n: nat)
    ensures forall x <- Attempts(batch, pon, n) :: x == Slot(batch, pon)
    ensures n >= 1 ==> Slot(batch, pon) in Attempts(batch, pon, n)
  {
    if n == 0 {
    } else {
      AttemptsAre(batch, pon, n - 1);
    }
  }

  lemma {:induction false} ProgramBatches(batches: nat, pons: nat, k: nat)
    ensures forall x <- Program(batches, pons, k) :: x.batch < batches && (x.Slot? ==> x.pon < pons)
    ensures pons >= 1 && k >= 1 ==> forall b | 0 <= b < batches :: Slot(b, 0) in Program(batches, pons, k)
  {
    if batches == 0 {
    } else {
      ProgramBatches(batches - 1, pons, k);
      RoundBatches(batches - 1, pons, k);
    }
  }

  lemma ProgramInRange(batches: nat, pons: nat, k: nat)
    requires pons >= 1 && k >= 1
    ensures IndexInRange(Program(batches, pons, k), pons) <==> batches <= pons
  {
    ProgramBatches(batches, pons, k);
    if batches > pons {
      assert Slot(pons, 0) in Program(batches, pons, k);
    }
  }

  lemma BatchBound(cut: nat, pons: nat)
    requires pons >= 1 && cut >= 1
    ensures Halve(cut, 4) >= 1 && (cut / Halve(cut, 4) <= pons <==> cut <= 4 * pons + 3)
  {
    HalveCases(cut);
  }

  /** Resource-manager accesses stay in range exactly while the per-port count, cut to 32 bits, is at most 4 * pons + 3. */
  lemma IndexCondition(numOfOnu: u64, pons: u32)
    requires IsPowerOfTwo(numOfOnu) && 1 <= pons <= numOfOnu
    ensures IndexInRange(ProgramOf(PlanOf(numOfOnu, pons), pons), pons)
       <==> ToU32(numOfOnu / pons) <= 4 * pons + 3
  {
    PlanShape(numOfOnu, pons);
    var plan := PlanOf(numOfOnu, pons);
    if plan.Launch? {
      ProgramInRange(plan.batches, pons, plan.perBatch);
      BatchBound(ToU32(numOfOnu / pons), pons);
    }
  }

  /** An access is out of range for 8 ONUs on one port. */
  lemma IndexFault()
    ensures IsPowerOfTwo(8) && PlanOf(8, 1).Launch? && !IndexInRange(ProgramOf(PlanOf(8, 1), 1), 1)
  {
    assert Pow2(3) == 2 * (2 * (2 * Pow2(0)));
    PowerOfTwoTest(8);
    IndexCondition(8, 1);
  }
}
