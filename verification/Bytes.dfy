// Bytes and the little-endian memory image of fixed-width integers.

module Bytes {

  type byte = x: int | 0 <= x < 256

  const UINT16_MAX := 0xFFFF
  const UINT32_MAX := 0xFFFF_FFFF

  datatype Option<+T> = None | Some(value: T)

  /** The outcome of an operation that may throw. */
  datatype Result<+T> = Ok(value: T) | Thrown

  function Min(a: int, b: int): int {
    if a <= b then a else b
  }

  lemma Regroup<T>(a: seq<T>, b: seq<T>, c: seq<T>)
    ensures (a + b) + c == a + (b + c)
  {
  }

  function Pow256(n: nat): (p: nat)
    ensures p > 0
    ensures n > 0 ==> p % 2 == 0
  {
    if n == 0 then 1 else 256 * Pow256(n - 1)
  }

  /** The `n` bytes of `v` as a little-endian host stores them. */
  function ToLE(n: nat, v: nat): (s: seq<byte>)
    requires v < Pow256(n)
    ensures |s| == n
  {
    if n == 0 then [] else [v % 256] + ToLE(n - 1, v / 256)
  }

  function FromLE(s: seq<byte>): (v: nat)
    ensures v < Pow256(|s|)
  {
    if s == [] then 0 else s[0] + 256 * FromLE(s[1..])
  }

  lemma {:induction false} FromToLE(n: nat, v: nat)
    requires v < Pow256(n)
    ensures FromLE(ToLE(n, v)) == v
  {
    if n > 0 {
      FromToLE(n - 1, v / 256);
      assert ToLE(n, v)[1..] == ToLE(n - 1, v / 256);
    }
  }

  lemma {:induction false} ToFromLE(s: seq<byte>)
    ensures ToLE(|s|, FromLE(s)) == s
  {
    if s != [] {
      var rest, v := s[1..], FromLE(s);
      ToFromLE(rest);
      assert v % 256 == s[0] && v / 256 == FromLE(rest);
      assert ToLE(|s|, v)[1..] == ToLE(|rest|, FromLE(rest)) == rest;
      assert s == [s[0]] + rest;
    }
  }

  /** Dividing by 256 and then by another number is dividing by both at once. */
  lemma DivTwice(x: int, p: nat)
    requires p > 0
    ensures x / (256 * p) == (x / 256) / p
  {
    var q, r := (x / 256) / p, (x / 256) % p;
    assert x / 256 == q * p + r;
    assert x == 256 * (q * p) + (256 * r + x % 256);
    assert 0 <= 256 * r + x % 256 < 256 * p;
    QuotientIs(x, 256 * p, q, 256 * r + x % 256);
  }

  lemma Multiple(d: int, k: int)
    requires d > 0
    ensures k >= 1 ==> d * k >= d
    ensures k <= -1 ==> d * k <= -d
  {
  }

  lemma QuotientIs(x: int, d: nat, q: int, r: int)
    requires d > 0 && x == d * q + r && 0 <= r < d
    ensures x / d == q
  {
    var p, s := x / d, x % d;
    var k := p - q;
    assert d * k == d * p - d * q == r - s;
    Multiple(d, k);
  }

  /** Little-endian: byte `i` is the digit of weight 256 to the power `i`. */
  lemma {:induction false} ToLEAt(n: nat, v: nat, i: nat)
    requires v < Pow256(n) && i < n
    ensures ToLE(n, v)[i] == v / Pow256(i) % 256
  {
    if i > 0 {
      ToLEAt(n - 1, v / 256, i - 1);
      DivTwice(v, Pow256(i - 1));
    }
  }

  /** Conversion of a signed `n`-byte integer to the unsigned type of its width. */
  function ToUnsigned(n: nat, x: int): (u: nat)
    requires -(Pow256(n) / 2) <= x < Pow256(n) / 2
    ensures u < Pow256(n)
  {
    if x < 0 then x + Pow256(n) else x
  }

  function ToSigned(n: nat, u: nat): (x: int)
    requires n > 0 && u < Pow256(n)
    ensures -(Pow256(n) / 2) <= x < Pow256(n) / 2
    ensures ToUnsigned(n, x) == u
  {
    if u < Pow256(n) / 2 then u else u - Pow256(n)
  }

  lemma UnsignedDigits(n: nat, x: int)
    requires n > 1 && -(Pow256(n) / 2) <= x < Pow256(n) / 2
    ensures -(Pow256(n - 1) / 2) <= x / 256 < Pow256(n - 1) / 2
    ensures ToUnsigned(n, x) % 256 == x % 256 && ToUnsigned(n, x) / 256 == ToUnsigned(n - 1, x / 256)
  {
    HighDigits(Pow256(n - 1) / 2, x);
  }

  lemma HighDigits(half: int, x: int)
    requires -256 * half <= x < 256 * half
    ensures -half <= x / 256 < half
    ensures (x + 512 * half) / 256 == x / 256 + 2 * half && (x + 512 * half) % 256 == x % 256
  {
  }

  /** Two's complement: byte `i` of a signed integer is the digit of its floored quotient. */
  lemma {:induction false} SignedAt(n: nat, x: int, i: nat)
    requires -(Pow256(n) / 2) <= x < Pow256(n) / 2 && i < n
    ensures ToLE(n, ToUnsigned(n, x))[i] == x / Pow256(i) % 256
  {
    if n == 1 {
      assert Pow256(1) == 256;
    } else {
      UnsignedDigits(n, x);
      if i > 0 {
        SignedAt(n - 1, x / 256, i - 1);
        DivTwice(x, Pow256(i - 1));
      }
    }
  }
}
