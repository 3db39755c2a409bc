// Bytes and big-endian numbers, as Rust's from_be_bytes and to_be_bytes read and write them.
module Bytes {

  type byte = x: int | 0 <= x < 256

  type u32 = x: int | 0 <= x < 0x1_0000_0000

  function Zeros(n: nat): (s: seq<byte>)
    ensures |s| == n && forall i :: 0 <= i < n ==> s[i] == 0
  {
    if n == 0 then [] else Zeros(n - 1) + [0]
  }

  function Pow256(n: nat): (p: nat)
    ensures p > 0
  {
    if n == 0 then 1 else 256 * Pow256(n - 1)
  }

  lemma AppendShift<T>(xs: seq<T>, x: T, ys: seq<T>)
    ensures xs + ([x] + ys) == (xs + [x]) + ys
  {
  }

  /** The number whose big-endian digits are s. */
  function FromBe(s: seq<byte>): nat {
    if s == [] then 0 else 256 * FromBe(s[..|s| - 1]) + s[|s| - 1]
  }

  /** The k low big-endian digits of n. */
  function ToBe(n: nat, k: nat): (s: seq<byte>)
    ensures |s| == k
  {
    if k == 0 then [] else ToBe(n / 256, k - 1) + [n % 256]
  }

  lemma {:induction false} FromBeBound(s: seq<byte>)
    ensures FromBe(s) < Pow256(|s|)
  {
    if s != [] {
      FromBeBound(s[..|s| - 1]);
    }
  }

  lemma {:induction false} FromBeConcat(s: seq<byte>, t: seq<byte>)
    ensures FromBe(s + t) == FromBe(s) * Pow256(|t|) + FromBe(t)
  {
    if t == [] {
      assert s + t == s;
    } else {
      var t', d := t[..|t| - 1], t[|t| - 1];
      assert (s + t)[..|s + t| - 1] == s + t';
      FromBeConcat(s, t');
      ShiftDigit(FromBe(s), Pow256(|t'|), FromBe(t'), d);
    }
  }

  lemma ShiftDigit(a: nat, p: nat, c: nat, d: nat)
    ensures 256 * (a * p + c) + d == a * (256 * p) + (256 * c + d)
  {
    assert 256 * (a * p) == a * (256 * p);
  }

  lemma {:induction false} FromBeInjective(s: seq<byte>, t: seq<byte>)
    requires |s| == |t| && FromBe(s) == FromBe(t)
    ensures s == t
  {
    if s != [] {
      FromBeInjective(s[..|s| - 1], t[..|t| - 1]);
      assert s == s[..|s| - 1] + [s[|s| - 1]];
      assert t == t[..|t| - 1] + [t[|t| - 1]];
    }
  }

  lemma {:induction false} FromBeToBe(n: nat, k: nat)
    requires n < Pow256(k)
    ensures FromBe(ToBe(n, k)) == n
  {
    if k > 0 {
      FromBeToBe(n / 256, k - 1);
      assert ToBe(n, k)[..k - 1] == ToBe(n / 256, k - 1);
    }
  }
}
