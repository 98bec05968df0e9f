/** Serial numbers: the generator, the printer, and how far the printed form stays unique. */
module Serials {

  type byte = x: int | 0 <= x < 256

  const FIRST_SERIAL_BASE := 1000

  datatype SerialNumber = SerialNumber(vendorId: seq<byte>, vendorSpecific: seq<byte>)

  // ---------------------------------------------------------------- decimal numerals

  function Digit(d: nat): (c: byte)
    requires d < 10
  {
    0x30 + d
  }

  /** The decimal numeral of a natural number, as bytes. */
  function Decimal(n: nat): (s: seq<byte>)
    ensures |s| >= 1
  {
    if n < 10 then [Digit(n)] else Decimal(n / 10) + [Digit(n % 10)]
  }

  /** The number a string of decimal digits denotes. */
  function Value(s: seq<byte>): int {
    if s == [] then 0 else 10 * Value(s[..|s| - 1]) + s[|s| - 1] as int - 0x30
  }

  lemma {:induction false} DecimalValue(n: nat)
    ensures Value(Decimal(n)) == n
    ensures forall i | 0 <= i < |Decimal(n)| :: 0x30 <= Decimal(n)[i] <= 0x39
  {
    if n >= 10 {
      DecimalValue(n / 10);
      var s := Decimal(n);
      assert s[..|s| - 1] == Decimal(n / 10);
    } else {
      assert Decimal(n)[..0] == [];
    }
  }

  lemma DecimalInjective(a: nat, b: nat)
    requires Decimal(a) == Decimal(b)
    ensures a == b
  {
    DecimalValue(a);
    DecimalValue(b);
  }

  /** Four digits are there from 1000 on. */
  lemma DecimalLength(n: nat)
    ensures n >= 1000 ==> |Decimal(n)| >= 4
    ensures 1000 <= n < 10000 ==> |Decimal(n)| == 4
  {
    if n >= 1000 {
      if n >= 10000 {
        DecimalLength(n / 10);
      } else {
        assert |Decimal(n / 1000)| == 1;
        assert n / 10 / 10 / 10 == n / 1000;
        assert |Decimal(n / 10 / 10)| == 2;
        assert |Decimal(n / 10)| == 3;
      }
    }
  }

  // ---------------------------------------------------------------- generator and printer

  const VENDOR_NAME: seq<byte> := [0x41, 0x42, 0x43, 0x44]

  /** The process-wide serial number generator. */
  class Generator {
    var vendorSpecificId: nat
    ghost var issued: nat

    ghost predicate Valid() reads this { vendorSpecificId == FIRST_SERIAL_BASE + issued }

    constructor ()
      ensures Valid() && issued == 0
    {
      vendorSpecificId := FIRST_SERIAL_BASE;
      issued := 0;
    }

    /** The n-th call returns serial number 1000 + n. */
    method GenerateNext() returns (sn: SerialNumber)
      requires Valid()
      modifies this
      ensures Valid() && issued == old(issued) + 1
      ensures sn == Nth(issued)
    {
      vendorSpecificId := vendorSpecificId + 1;
      issued := issued + 1;
      sn := SerialNumber(VENDOR_NAME, Decimal(vendorSpecificId));
    }
  }

  /** The n-th serial number of a run, counting from 1. */
  function Nth(n: nat): SerialNumber {
    SerialNumber(VENDOR_NAME, Decimal(FIRST_SERIAL_BASE + n))
  }

  /** One lower-case hexadecimal digit. */
  function Hex(n: nat): byte
    requires n < 16
  {
    if n < 10 then 0x30 + n else 0x61 + (n - 10)
  }

  function HexByte(b: byte): (s: seq<byte>)
    ensures |s| == 2
  {
    [Hex(b / 16), Hex(b % 16)]
  }

  /** The printer looks at the first four bytes and no further. */
  function StringifyVendorSpecific(v: seq<byte>): (s: seq<byte>)
    requires |v| >= 4
    ensures |s| == 8
  {
    HexByte(v[0]) + HexByte(v[1]) + HexByte(v[2]) + HexByte(v[3])
  }

  function Stringify(sn: SerialNumber): seq<byte>
    requires |sn.vendorSpecific| >= 4
  {
    sn.vendorId + StringifyVendorSpecific(sn.vendorSpecific)
  }

  /** The printed form of the n-th serial number of a run. */
  function Printed(n: nat): (s: seq<byte>)
    ensures |s| == 12
  {
    DecimalLength(FIRST_SERIAL_BASE + n);
    Stringify(Nth(n))
  }

  // ---------------------------------------------------------------- uniqueness

  /** Vendor-specific byte strings never repeat. */
  lemma VendorSpecificDistinct(m: nat, n: nat)
    requires m != n
    ensures Nth(m).vendorSpecific != Nth(n).vendorSpecific
  {
    if Nth(m).vendorSpecific == Nth(n).vendorSpecific {
      DecimalInjective(FIRST_SERIAL_BASE + m, FIRST_SERIAL_BASE + n);
    }
  }

  lemma HexByteInjective(a: byte, b: byte)
    requires HexByte(a) == HexByte(b)
    ensures a == b
  {
    assert HexByte(a)[0] == HexByte(b)[0] && HexByte(a)[1] == HexByte(b)[1];
  }

  lemma PrinterInjective(v: seq<byte>, w: seq<byte>)
    requires |v| >= 4 && |w| >= 4
    ensures StringifyVendorSpecific(v) == StringifyVendorSpecific(w) <==> v[..4] == w[..4]
  {
    var a, b := StringifyVendorSpecific(v), StringifyVendorSpecific(w);
    if a == b {
      assert a[0..2] == HexByte(v[0]) && a[2..4] == HexByte(v[1]) && a[4..6] == HexByte(v[2]) && a[6..8] == HexByte(v[3]);
      assert b[0..2] == HexByte(w[0]) && b[2..4] == HexByte(w[1]) && b[4..6] == HexByte(w[2]) && b[6..8] == HexByte(w[3]);
      HexByteInjective(v[0], w[0]);
      HexByteInjective(v[1], w[1]);
      HexByteInjective(v[2], w[2]);
      HexByteInjective(v[3], w[3]);
    }
    if v[..4] == w[..4] {
      assert forall i | 0 <= i < 4 :: v[i] == v[..4][i] && w[i] == w[..4][i];
    }
  }

  /** The number its first four digits denote. */
  function Lead(id: nat): nat {
    if id < 10000 then id else Lead(id / 10)
  }

  lemma {:induction false} LeadDigits(id: nat)
    requires id >= 1000
    ensures 1000 <= Lead(id) < 10000
    ensures |Decimal(id)| >= 4 && Decimal(id)[..4] == Decimal(Lead(id))
  {
    DecimalLength(id);
    if id < 10000 {
    } else {
      LeadDigits(id / 10);
      DecimalLength(id / 10);
      assert Decimal(id)[..4] == Decimal(id / 10)[..4];
    }
  }

  /** Two serial numbers of a run print alike exactly when their ids share the first four digits. */
  lemma PrintedAlike(m: nat, n: nat)
    ensures Printed(m) == Printed(n) <==> Lead(FIRST_SERIAL_BASE + m) == Lead(FIRST_SERIAL_BASE + n)
  {
    var a, b := FIRST_SERIAL_BASE + m, FIRST_SERIAL_BASE + n;
    LeadDigits(a);
    LeadDigits(b);
    PrinterInjective(Decimal(a), Decimal(b));
    assert Printed(m)[4..] == StringifyVendorSpecific(Decimal(a));
    assert Printed(n)[4..] == StringifyVendorSpecific(Decimal(b));
    if Lead(a) != Lead(b) && Decimal(Lead(a)) == Decimal(Lead(b)) {
      DecimalInjective(Lead(a), Lead(b));
    }
  }

  ghost predicate PrintedUnique(total: nat) {
    forall m, n | 1 <= m < n <= total :: Printed(m) != Printed(n)
  }

  /** The first two serial numbers of a run that print alike. */
  lemma FirstAlike()
    ensures Printed(9000) == Printed(9001)
  {
    PrintedAlike(9000, 9001);
    assert Lead(10000) == Lead(1000) && Lead(10001) == Lead(1000);
  }

  /** The printed serial numbers of a run are pairwise distinct exactly when it has at most 9000 of them. */
  lemma PrintedUniqueBound(total: nat)
    ensures PrintedUnique(total) <==> total <= 9000
  {
    if total <= 9000 {
      forall m, n | 1 <= m < n <= total
        ensures Printed(m) != Printed(n)
      {
        PrintedAlike(m, n);
        assert Lead(10000) == Lead(1000) == 1000;
      }
    } else {
      FirstAlike();
    }
  }

  /** Reads a printed serial number back: every second character of the hexadecimal part. */
  function Parse(s: seq<byte>): int
    requires |s| == 12
  {
    Value([s[5], s[7], s[9], s[11]])
  }

  lemma DigitHex(c: byte)
    requires 0x30 <= c <= 0x39
    ensures HexByte(c) == [0x33, c]
  {}

  /** Parsing recovers the leading four digits, hence the whole id exactly while it has four digits. */
  lemma ParsePrinted(n: nat)
    ensures Parse(Printed(n)) == Lead(FIRST_SERIAL_BASE + n)
    ensures Parse(Printed(n)) == FIRST_SERIAL_BASE + n <==> n <= 8999
  {
    var id := FIRST_SERIAL_BASE + n;
    LeadDigits(id);
    var d := Decimal(Lead(id));
    DecimalLength(Lead(id));
    DecimalValue(Lead(id));
    ParseDigits(Decimal(id), Printed(n), d);
  }

  lemma ParseDigits(v: seq<byte>, s: seq<byte>, d: seq<byte>)
    requires |d| == 4 && (forall i | 0 <= i < 4 :: 0x30 <= d[i] <= 0x39)
    requires |v| >= 4 && v[..4] == d && |s| == 12 && s[4..] == StringifyVendorSpecific(v)
    ensures Parse(s) == Value(d)
  {
    assert v[0] == d[0] && v[1] == d[1] && v[2] == d[2] && v[3] == d[3];
    DigitHex(d[0]);
    DigitHex(d[1]);
    DigitHex(d[2]);
    DigitHex(d[3]);
    var h := s[4..];
    assert s[5] == h[1] && s[7] == h[3] && s[9] == h[5] && s[11] == h[7];
    assert [s[5], s[7], s[9], s[11]] == d;
  }

  // ---------------------------------------------------------------- subscriber names

  /** A subscriber's name: the ONU's printed serial number, a dash, and the subscriber index. */
  function SubscriberName(serial: nat, index: nat): seq<byte> {
    Printed(serial) + [0x2D] + Decimal(index)
  }

  /** Two names agree exactly when the printed serial numbers and the indices do. */
  lemma NamesAlike(m: nat, i: nat, n: nat, j: nat)
    ensures SubscriberName(m, i) == SubscriberName(n, j) <==> Printed(m) == Printed(n) && i == j
  {
    var a, b := SubscriberName(m, i), SubscriberName(n, j);
    assert a[..12] == Printed(m) && a[13..] == Decimal(i);
    assert b[..12] == Printed(n) && b[13..] == Decimal(j);
    if a == b {
      DecimalInjective(i, j);
    }
  }

  /** The first serial number of a run is ABCD and 1001, printed ABCD31303031; its first subscriber is ABCD31303031-0. */
  lemma FirstSerial()
    ensures Nth(1) == SerialNumber([0x41, 0x42, 0x43, 0x44], [0x31, 0x30, 0x30, 0x31])
    ensures Printed(1) == [0x41, 0x42, 0x43, 0x44, 0x33, 0x31, 0x33, 0x30, 0x33, 0x30, 0x33, 0x31]
    ensures SubscriberName(1, 0) == Printed(1) + [0x2D, 0x30]
  {
    assert Decimal(1) == [0x31];
    assert Decimal(10) == [0x31, 0x30];
    assert Decimal(100) == [0x31, 0x30, 0x30];
    assert Decimal(1001) == [0x31, 0x30, 0x30, 0x31];
    assert Decimal(0) == [0x30];
  }
}
