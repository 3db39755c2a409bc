// src/types/hash.rs: 256-bit hashes and their order.
module Hashes {
  import opened Bytes

  type Bytes32 = s: seq<byte> | |s| == 32 witness Zeros(32)

  datatype H256 = H256(bytes: Bytes32)

  const ZERO: H256 := H256(Zeros(32))

  datatype Ordering = Less | Equal | Greater

  function CmpNat(a: nat, b: nat): Ordering {
    if a < b then Less else if a == b then Equal else Greater
  }

  /** Ord::cmp: the high 128-bit halves decide, then the low halves. */
  function Cmp(a: H256, b: H256): Ordering {
    var aHigh := FromBe(a.bytes[0..16]);
    var aLow := FromBe(a.bytes[16..32]);
    var bHigh := FromBe(b.bytes[0..16]);
    var bLow := FromBe(b.bytes[16..32]);
    var high := CmpNat(aHigh, bHigh);
    match high
    case Equal => CmpNat(aLow, bLow)
    case _ => high
  }

  /** The operator <= that partial_cmp gives to H256. */
  predicate AtMost(a: H256, b: H256) {
    Cmp(a, b) != Greater
  }

  /** Lexicographic comparison of byte strings: the first differing byte decides. */
  function LexCmp(s: seq<byte>, t: seq<byte>): Ordering
    requires |s| == |t|
  {
    if s == [] then Equal
    else if s[0] != t[0] then CmpNat(s[0], t[0])
    else LexCmp(s[1..], t[1..])
  }

  lemma HalfFitsU128(s: seq<byte>)
    requires |s| == 16
    ensures FromBe(s) < 0x1_0000_0000_0000_0000_0000_0000_0000_0000
  {
    FromBeBound(s);
    assert Pow256(4) == 0x1_0000_0000;
    assert Pow256(8) == 0x1_0000_0000_0000_0000;
    assert Pow256(12) == 0x1_0000_0000_0000_0000_0000_0000;
    assert Pow256(16) == 0x1_0000_0000_0000_0000_0000_0000_0000_0000;
  }

  lemma HighDigitsDecide(x: nat, y: nat, u: nat, v: nat, m: nat)
    requires u < m && v < m && x < y
    ensures x * m + u < y * m + v
  {
    assert (x + 1) * m <= y * m;
  }

  lemma HighPartDecides(ah: seq<byte>, al: seq<byte>, bh: seq<byte>, bl: seq<byte>)
    requires |al| == |bl|
    ensures CmpNat(FromBe(ah + al), FromBe(bh + bl))
         == if FromBe(ah) == FromBe(bh) then CmpNat(FromBe(al), FromBe(bl)) else CmpNat(FromBe(ah), FromBe(bh))
  {
    var m := Pow256(|al|);
    FromBeConcat(ah, al);
    FromBeConcat(bh, bl);
    FromBeBound(al);
    FromBeBound(bl);
    if FromBe(ah) < FromBe(bh) {
      HighDigitsDecide(FromBe(ah), FromBe(bh), FromBe(al), FromBe(bl), m);
    } else if FromBe(bh) < FromBe(ah) {
      HighDigitsDecide(FromBe(bh), FromBe(ah), FromBe(bl), FromBe(al), m);
    }
  }

  /** Comparing by halves is comparing the 256-bit numbers. */
  lemma CmpIsNumeric(a: H256, b: H256)
    ensures Cmp(a, b) == CmpNat(FromBe(a.bytes), FromBe(b.bytes))
  {
    var (ah, al, bh, bl) := (a.bytes[0..16], a.bytes[16..32], b.bytes[0..16], b.bytes[16..32]);
    assert a.bytes == ah + al && b.bytes == bh + bl;
    HighPartDecides(ah, al, bh, bl);
  }

  /** For byte strings of equal length the numeric order is the lexicographic one. */
  lemma {:induction false} NumericIsLexicographic(s: seq<byte>, t: seq<byte>)
    requires |s| == |t|
    ensures LexCmp(s, t) == CmpNat(FromBe(s), FromBe(t))
  {
    if s != [] {
      assert s == s[..1] + s[1..] && t == t[..1] + t[1..];
      OneDigit(s[..1]);
      OneDigit(t[..1]);
      HighPartDecides(s[..1], s[1..], t[..1], t[1..]);
      NumericIsLexicographic(s[1..], t[1..]);
    }
  }

  lemma OneDigit(s: seq<byte>)
    requires |s| == 1
    ensures FromBe(s) == s[0]
  {
    assert s[..0] == [];
  }

  lemma CmpIsLexicographic(a: H256, b: H256)
    ensures Cmp(a, b) == LexCmp(a.bytes, b.bytes)
  {
    CmpIsNumeric(a, b);
    NumericIsLexicographic(a.bytes, b.bytes);
  }

  /** The difficulty test is the comparison of 256-bit numbers, and the order is total. */
  lemma AtMostIsTotalOrder(a: H256, b: H256, c: H256)
    ensures AtMost(a, b) <==> FromBe(a.bytes) <= FromBe(b.bytes)
    ensures Cmp(a, b) == Equal <==> a == b
    ensures AtMost(a, b) || AtMost(b, a)
    ensures AtMost(a, b) && AtMost(b, a) ==> a == b
    ensures AtMost(a, b) && AtMost(b, c) ==> AtMost(a, c)
  {
    CmpIsNumeric(a, b);
    CmpIsNumeric(b, a);
    CmpIsNumeric(b, c);
    CmpIsNumeric(a, c);
    if FromBe(a.bytes) == FromBe(b.bytes) {
      FromBeInjective(a.bytes, b.bytes);
    }
  }
}
