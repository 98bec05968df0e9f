/** Priority-bit maps of GEM ports. */
module Pbits {
  import opened Words

  /** A GEM port with its priority-bit map: a string of binary digits, most significant first. */
  datatype Gem = Gem(id: u32, pbitMap: string)

  function TrimPrefix(s: string): string {
    if |s| >= 2 && s[0] == '0' && s[1] == 'b' then s[2..] else s
  }

  function Bits(g: Gem): string { TrimPrefix(g.pbitMap) }

  // ---------------------------------------------------------------- numbers

  /** The base-2 value of a string; any character but '1' counts as zero. */
  function Value(bits: string): nat {
    if bits == "" then 0
    else 2 * Value(bits[..|bits| - 1]) + (if bits[|bits| - 1] == '1' then 1 else 0)
  }

  predicate BitSet(v: nat, p: nat) {
    if p == 0 then v % 2 == 1 else BitSet(v / 2, p - 1)
  }

  predicate HasBit(g: Gem, p: nat) { BitSet(Value(Bits(g)), p) }

  lemma {:induction false} BitAt(bits: string, p: nat)
    ensures BitSet(Value(bits), p) <==> p < |bits| && bits[|bits| - 1 - p] == '1'
  {
    if bits == "" {
      ZeroHasNoBit(p);
    } else if p > 0 {
      BitAt(bits[..|bits| - 1], p - 1);
    }
  }

  lemma {:induction false} ZeroHasNoBit(p: nat)
    ensures !BitSet(0, p)
  {
    if p == 0 {
    } else {
      ZeroHasNoBit(p - 1);
    }
  }

  // ---------------------------------------------------------------- the decoder

  /** Enters one GEM port's bits, most significant first, overwriting what is there. */
  function EnterBits(m: map<nat, u32>, id: u32, bits: string): map<nat, u32>
    decreases |bits|
  {
    if bits == "" then m
    else EnterBits(if bits[0] == '1' then m[|bits| - 1 := id] else m, id, bits[1..])
  }

  function PbitToGem(gems: seq<Gem>): map<nat, u32> {
    if gems == [] then map[]
    else
      var n := |gems| - 1;
      EnterBits(PbitToGem(gems[..n]), gems[n].id, Bits(gems[n]))
  }

  /** The decoding loops of the ATT and DT flow stages. */
  method Decode(gems: seq<Gem>) returns (pbitToGem: map<nat, u32>)
    ensures pbitToGem == PbitToGem(gems)
  {
    pbitToGem := map[];
    var gemPortIds: seq<u32> := [];
    var i := 0;
    while i < |gems|
      invariant 0 <= i <= |gems| && |gemPortIds| == i
      invariant forall g | 0 <= g < i :: gemPortIds[g] == gems[g].id
    {
      gemPortIds := gemPortIds + [gems[i].id];
      i := i + 1;
    }
    var idx := 0;
    while idx < |gemPortIds|
      invariant 0 <= idx <= |gems|
      invariant pbitToGem == PbitToGem(gems[..idx])
    {
      var bits := Bits(gems[idx]);
      ghost var before := pbitToGem;
      var pos := 0;
      while pos < |bits|
        invariant 0 <= pos <= |bits|
        invariant EnterBits(pbitToGem, gems[idx].id, bits[pos..]) == EnterBits(before, gems[idx].id, bits)
      {
        if bits[pos] == '1' {
          var pcp := |bits| - 1 - pos;
          pbitToGem := pbitToGem[pcp := gemPortIds[idx]];
        }
        pos := pos + 1;
      }
      assert gems[..idx + 1][..idx] == gems[..idx];
      idx := idx + 1;
    }
    assert gems[..|gems|] == gems;
  }

  // ---------------------------------------------------------------- what the map means

  lemma {:induction false} EnterBitsMeaning(m: map<nat, u32>, id: u32, bits: string, p: nat)
    ensures var r := EnterBits(m, id, bits);
            if BitSet(Value(bits), p) then p in r && r[p] == id
            else (p in r <==> p in m) && (p in m ==> r[p] == m[p])
    decreases |bits|
  {
    BitAt(bits, p);
    if bits == "" {
    } else {
      EnterBitsMeaning(if bits[0] == '1' then m[|bits| - 1 := id] else m, id, bits[1..], p);
      BitAt(bits[1..], p);
    }
  }

  /** The last GEM port in list order that has bit p set. */
  predicate LastWithBit(gems: seq<Gem>, g: nat, p: nat) {
    g < |gems| && HasBit(gems[g], p) && forall h | g < h < |gems| :: !HasBit(gems[h], p)
  }

  lemma LastStep(gems: seq<Gem>, g: nat, p: nat)
    requires gems != []
    ensures var n := |gems| - 1;
            LastWithBit(gems, g, p) <==> if HasBit(gems[n], p) then g == n else LastWithBit(gems[..n], g, p)
  {
    var n := |gems| - 1;
    if LastWithBit(gems, g, p) && g < n {
      assert !HasBit(gems[n], p);
      assert forall h: nat | h < n :: gems[..n][h] == gems[h];
    }
    if LastWithBit(gems[..n], g, p) {
      assert gems[..n][g] == gems[g];
      assert forall h: nat | g < h < n :: gems[..n][h] == gems[h];
    }
  }

  /** Bit p is mapped exactly when some GEM port has it, and then to the last one that does. */
  lemma {:induction false} PbitToGemMeaning(gems: seq<Gem>, p: nat)
    ensures p in PbitToGem(gems) <==> exists g: nat :: LastWithBit(gems, g, p)
    ensures forall g: nat | LastWithBit(gems, g, p) :: p in PbitToGem(gems) && PbitToGem(gems)[p] == gems[g].id
  {
    if gems == [] {
    } else {
      var n := |gems| - 1;
      PbitToGemMeaning(gems[..n], p);
      EnterBitsMeaning(PbitToGem(gems[..n]), gems[n].id, Bits(gems[n]), p);
      forall g: nat
        ensures LastWithBit(gems, g, p) <==> if HasBit(gems[n], p) then g == n else LastWithBit(gems[..n], g, p)
      {
        LastStep(gems, g, p);
      }
      if HasBit(gems[n], p) {
        assert LastWithBit(gems, n, p);
      } else if g: nat :| LastWithBit(gems[..n], g, p) {
        assert LastWithBit(gems, g, p);
      }
    }
  }

  lemma {:induction false} LastExists(gems: seq<Gem>, h: nat, p: nat) returns (g: nat)
    requires h < |gems| && HasBit(gems[h], p)
    ensures LastWithBit(gems, g, p) && h <= g
    decreases |gems| - h
  {
    if LastWithBit(gems, h, p) {
      g := h;
    } else {
      var k :| h < k < |gems| && HasBit(gems[k], p);
      g := LastExists(gems, k, p);
    }
  }

  ghost predicate DistinctIds(gems: seq<Gem>) {
    forall g, h | 0 <= g < h < |gems| :: gems[g].id != gems[h].id
  }

  ghost predicate Disjoint(gems: seq<Gem>) {
    forall g, h, p: nat | 0 <= g < h < |gems| && HasBit(gems[g], p) :: !HasBit(gems[h], p)
  }

  /** Each GEM port's bits can be read back from the map. */
  ghost predicate Recoverable(gems: seq<Gem>) {
    forall g, p: nat | 0 <= g < |gems| ::
      HasBit(gems[g], p) <==> p in PbitToGem(gems) && PbitToGem(gems)[p] == gems[g].id
  }

  /** With distinct ids, nothing is lost in the map exactly when no two bitmaps overlap. */
  lemma RecoverableWhenDisjoint(gems: seq<Gem>)
    requires DistinctIds(gems)
    ensures Recoverable(gems) <==> Disjoint(gems)
  {
    if Recoverable(gems) {
      forall g, h, p: nat | 0 <= g < h < |gems| && HasBit(gems[g], p)
        ensures !HasBit(gems[h], p)
      {
        assert PbitToGem(gems)[p] == gems[g].id;
      }
    }
    if Disjoint(gems) {
      forall g, p: nat | 0 <= g < |gems|
        ensures HasBit(gems[g], p) <==> p in PbitToGem(gems) && PbitToGem(gems)[p] == gems[g].id
      {
        RecoverOne(gems, g, p);
      }
    }
  }

  lemma RecoverOne(gems: seq<Gem>, g: nat, p: nat)
    requires DistinctIds(gems) && Disjoint(gems) && g < |gems|
    ensures HasBit(gems[g], p) <==> p in PbitToGem(gems) && PbitToGem(gems)[p] == gems[g].id
  {
    PbitToGemMeaning(gems, p);
    if HasBit(gems[g], p) {
      assert LastWithBit(gems, g, p);
    } else if p in PbitToGem(gems) {
      var h: nat :| LastWithBit(gems, h, p);
      assert h != g;
    }
  }

  /** Some GEM port carries priority p. */
  ghost predicate Carried(gems: seq<Gem>, p: nat) {
    exists g: nat :: g < |gems| && HasBit(gems[g], p)
  }

  /** A priority is mapped exactly when some bitmap carries it; covering 0..7 maps all eight. */
  lemma MappedWhenCarried(gems: seq<Gem>, p: nat)
    ensures p in PbitToGem(gems) <==> Carried(gems, p)
  {
    PbitToGemMeaning(gems, p);
    if Carried(gems, p) {
      var g: nat :| g < |gems| && HasBit(gems[g], p);
      var last := LastExists(gems, g, p);
    }
  }

  // ---------------------------------------------------------------- bitmaps as they are written

  /** The digits a bitmap is written with, the optional prefix aside. */
  ghost predicate Writes(bitmap: string, digits: string) {
    bitmap == "0b" + digits || (bitmap == digits && !("0b" <= digits))
  }

  /** The digit at place p from the right is there and is a one. */
  predicate OneAt(digits: string, p: nat) { p < |digits| && digits[|digits| - 1 - p] == '1' }

  /** A bitmap carries priority p if the digit at place p from the right is a one. */
  ghost predicate Carries(bitmap: string, p: nat) {
    exists digits :: Writes(bitmap, digits) && OneAt(digits, p)
  }

  lemma WritesOnce(g: Gem, digits: string)
    ensures Writes(g.pbitMap, digits) <==> digits == Bits(g)
  {
    if "0b" <= g.pbitMap {
      assert g.pbitMap == "0b" + g.pbitMap[2..];
      assert ("0b" + digits)[2..] == digits;
    }
  }

  lemma CarriesIsHasBit(g: Gem, p: nat)
    ensures Carries(g.pbitMap, p) <==> HasBit(g, p)
  {
    BitAt(Bits(g), p);
    if HasBit(g, p) {
      WritesOnce(g, Bits(g));
      assert OneAt(Bits(g), p);
    } else if digits :| Writes(g.pbitMap, digits) && OneAt(digits, p) {
      WritesOnce(g, digits);
      assert false;
    }
  }

  /** With the prefix, the digits after it count; without it, all of them. */
  lemma WrittenDigits(digits: string, p: nat)
    ensures Carries("0b" + digits, p) <==> p < |digits| && digits[|digits| - 1 - p] == '1'
    ensures !("0b" <= digits) ==> (Carries(digits, p) <==> p < |digits| && digits[|digits| - 1 - p] == '1')
  {
    CarriesIsHasBit(Gem(0, "0b" + digits), p);
    WritesOnce(Gem(0, "0b" + digits), digits);
    BitAt(digits, p);
    if !("0b" <= digits) {
      CarriesIsHasBit(Gem(0, digits), p);
      WritesOnce(Gem(0, digits), digits);
    }
  }

  /** The last GEM port in list order whose bitmap is written with priority p. */
  ghost predicate LastCarrier(gems: seq<Gem>, g: nat, p: nat) {
    g < |gems| && Carries(gems[g].pbitMap, p) && forall h | g < h < |gems| :: !Carries(gems[h].pbitMap, p)
  }

  /** The map as the bitmaps are written: a priority goes to the last GEM port whose bitmap carries it. */
  lemma DecodedMap(gems: seq<Gem>, p: nat)
    ensures p in PbitToGem(gems) <==> exists g: nat :: LastCarrier(gems, g, p)
    ensures forall g: nat | LastCarrier(gems, g, p) :: p in PbitToGem(gems) && PbitToGem(gems)[p] == gems[g].id
  {
    PbitToGemMeaning(gems, p);
    forall g: nat
      ensures LastCarrier(gems, g, p) <==> LastWithBit(gems, g, p)
    {
      forall h: nat | h < |gems|
        ensures Carries(gems[h].pbitMap, p) <==> HasBit(gems[h], p)
      {
        CarriesIsHasBit(gems[h], p);
      }
    }
    if p in PbitToGem(gems) {
      var g: nat :| LastWithBit(gems, g, p);
      assert LastCarrier(gems, g, p);
    }
  }

  // ---------------------------------------------------------------- set bits in order

  /** The priorities of a bitmap, most significant first. */
  function Priorities(bits: string): seq<nat> {
    if bits == "" then []
    else (if bits[0] == '1' then [|bits| - 1] else []) + Priorities(bits[1..])
  }

  /** They are exactly the set bits, in strictly decreasing order. */
  lemma {:induction false} PrioritiesMeaning(bits: string)
    ensures forall p: nat :: p in Priorities(bits) <==> BitSet(Value(bits), p)
    ensures forall i, j | 0 <= i < j < |Priorities(bits)| :: Priorities(bits)[i] > Priorities(bits)[j]
    ensures forall p <- Priorities(bits) :: p < |bits|
  {
    forall p: nat
      ensures p in Priorities(bits) <==> BitSet(Value(bits), p)
    {
      PriorityAt(bits, p);
    }
    PrioritiesDecrease(bits);
  }

  lemma {:induction false} PrioritiesDecrease(bits: string)
    ensures forall i, j | 0 <= i < j < |Priorities(bits)| :: Priorities(bits)[i] > Priorities(bits)[j]
    ensures forall i | 0 <= i < |Priorities(bits)| :: Priorities(bits)[i] < |bits|
  {
    if bits == "" {
    } else {
      PrioritiesDecrease(bits[1..]);
    }
  }

  lemma PriorityAt(bits: string, p: nat)
    ensures p in Priorities(bits) <==> BitSet(Value(bits), p)
  {
    BitAt(bits, p);
    PriorityPlace(bits, p);
  }

  lemma {:induction false} PriorityPlace(bits: string, p: nat)
    ensures p in Priorities(bits) <==> p < |bits| && bits[|bits| - 1 - p] == '1'
  {
    if bits == "" {
    } else {
      var rest := bits[1..];
      PriorityPlace(rest, p);
      assert p < |rest| ==> rest[|rest| - 1 - p] == bits[|bits| - 1 - p];
      var head := if bits[0] == '1' then [|bits| - 1] else [];
      assert Priorities(bits) == head + Priorities(rest);
      assert p in Priorities(bits) <==> p in head || p in Priorities(rest);
    }
  }
}
