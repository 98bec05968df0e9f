/** UNI port numbers: three fields packed into one 32-bit word. */
module UniPorts {
  import opened Words

  datatype Fields = Fields(intfId: u32, onuId: u32, uniId: u32)

  /** Shifts drop what is pushed past the top of the word, and fields that are too wide overlap. */
  function MkUniPortNum(intfId: u32, onuId: u32, uniId: u32): nat {
    BitOr(BitOr(ToU32(intfId * 0x1000), ToU32(onuId * 0x10)), uniId)
  }

  /** Reads the three fields back. */
  function Unpack(port: nat): Fields {
    Fields(ToU32(port / 0x1000), (port / 0x10) % 0x100, port % 0x10)
  }

  predicate Fits(f: Fields) {
    f.intfId < 0x10_0000 && f.onuId < 0x100 && f.uniId < 0x10
  }

  /** While the fields fit, packing is positional notation. */
  lemma PackedSum(intfId: u32, onuId: u32, uniId: u32)
    requires Fits(Fields(intfId, onuId, uniId))
    ensures MkUniPortNum(intfId, onuId, uniId) == intfId * 0x1000 + onuId * 0x10 + uniId
  {
    PowersOfTwo();
    var high, mid := intfId * 0x1000, onuId * 0x10;
    assert ToU32(high) == high && ToU32(mid) == mid;
    assert BitOr(high, mid) == high + mid by { OrDisjoint(intfId, mid, 12); }
    assert high + mid == (intfId * 0x100 + onuId) * 0x10;
    OrDisjoint(intfId * 0x100 + onuId, uniId, 4);
  }

  lemma UnpackSum(f: Fields)
    requires Fits(f)
    ensures Unpack(f.intfId * 0x1000 + f.onuId * 0x10 + f.uniId) == f
  {
    var p := f.intfId * 0x1000 + f.onuId * 0x10 + f.uniId;
    assert p / 0x1000 == f.intfId;
    assert p / 0x10 == f.intfId * 0x100 + f.onuId;
    assert p % 0x10 == f.uniId;
  }

  lemma UnpackFits(port: u32)
    ensures Fits(Unpack(port))
  {
    assert port / 0x1000 < 0x10_0000;
  }

  /** The packing can be undone exactly when each field fits its width. */
  lemma UnpackInverts(f: Fields)
    ensures Unpack(MkUniPortNum(f.intfId, f.onuId, f.uniId)) == f <==> Fits(f)
  {
    var port := MkUniPortNum(f.intfId, f.onuId, f.uniId);
    if Fits(f) {
      assert port == f.intfId * 0x1000 + f.onuId * 0x10 + f.uniId by { PackedSum(f.intfId, f.onuId, f.uniId); }
      UnpackSum(f);
    } else {
      assert Fits(Unpack(port)) by {
        PackedTop(f.intfId, f.onuId, f.uniId);
        UnpackFits(port);
      }
    }
  }

  lemma {:induction false} OrBound(a: nat, b: nat, k: nat)
    requires a < Pow2(k) && b < Pow2(k)
    ensures BitOr(a, b) < Pow2(k)
  {
    if k == 0 || a == 0 || b == 0 {
    } else {
      OrBound(a / 2, b / 2, k - 1);
    }
  }

  /** A packed port number is a 32-bit word. */
  lemma PackedTop(intfId: u32, onuId: u32, uniId: u32)
    ensures MkUniPortNum(intfId, onuId, uniId) < WORD32
  {
    PowersOfTwo();
    OrBound(ToU32(intfId * 0x1000), ToU32(onuId * 0x10), 32);
    OrBound(BitOr(ToU32(intfId * 0x1000), ToU32(onuId * 0x10)), uniId, 32);
  }

  lemma PortsDistinct(f: Fields, g: Fields)
    requires Fits(f) && Fits(g) && f != g
    ensures MkUniPortNum(f.intfId, f.onuId, f.uniId) != MkUniPortNum(g.intfId, g.onuId, g.uniId)
  {
    UnpackInverts(f);
    UnpackInverts(g);
  }

  lemma OrDouble(a: nat, b: nat)
    ensures BitOr(2 * a, 2 * b) == 2 * BitOr(a, b)
  {
    assert (2 * a) / 2 == a && (2 * b) / 2 == b;
  }

  /** OR-ing in the bit above the low four makes the number above it odd. */
  lemma OrSixteen(h: nat)
    ensures BitOr(16 * h, 16) == 16 * if h % 2 == 1 then h else h + 1
  {
    OrDouble(8 * h, 8);
    OrDouble(4 * h, 4);
    OrDouble(2 * h, 2);
    OrDouble(h, 1);
    assert BitOr(h / 2, 0) == h / 2;
  }

  lemma HighFields(intfId: u32, onuId: u32)
    requires intfId < 0x10_0000 && onuId < 0x100
    ensures BitOr(intfId * 0x1000, onuId * 0x10) == 16 * (intfId * 0x100 + onuId)
  {
    PowersOfTwo();
    OrDisjoint(intfId, onuId * 0x10, 12);
  }

  lemma Parity(intfId: nat, onuId: nat)
    ensures (intfId * 0x100 + onuId) % 2 == onuId % 2
  {
    assert intfId * 0x100 + onuId == 2 * (intfId * 0x80) + onuId;
  }

  lemma SeventeenthPort(intfId: u32, onuId: u32, next: u32)
    requires intfId < 0x10_0000 && onuId < 0x100 && next < 0x100
    requires next == if onuId % 2 == 1 then onuId else onuId + 1
    ensures MkUniPortNum(intfId, onuId, 16) == MkUniPortNum(intfId, next, 0)
  {
    HighFields(intfId, onuId);
    HighFields(intfId, next);
    OrSixteen(intfId * 0x100 + onuId);
    Parity(intfId, onuId);
  }

  /**
    * The seventeenth subscriber of an ONU clashes: with the first of its own ONU if the ONU id is
    * odd, and with the first of the next ONU if it is even.
    */
  lemma PortsClash(intfId: u32, onuId: u32)
    requires intfId < 0x10_0000 && onuId < 0x100
    ensures MkUniPortNum(intfId, onuId, 16)
         == MkUniPortNum(intfId, if onuId % 2 == 1 then onuId else onuId + 1, 0)
  {
    SeventeenthPort(intfId, onuId, if onuId % 2 == 1 then onuId else onuId + 1);
  }
}
