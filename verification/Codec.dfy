// The wire format of PacketBuffer's stream operators: integers of either sign, float bit patterns,
// strings, byte vectors and fixed byte arrays, and lists of them.

module Codec {
  import opened Bytes

  /** What a `>>` chain is about to read. */
  datatype Schema =
    | UInt(width: nat)
    | SInt(width: nat)
    | Float(width: nat)
    | Text
    | Blob
    | Fixed(length: nat)

  datatype Value =
    | UIntValue(width: nat, n: nat)
    | SIntValue(width: nat, x: int)
    | FloatValue(width: nat, bits: nat)
    | TextValue(text: seq<byte>)
    | BlobValue(bytes: seq<byte>)
    | FixedValue(bytes: seq<byte>)

  predicate KnownSchema(f: Schema) {
    match f
    case UInt(w) => w in {1, 2, 4, 8}
    case SInt(w) => w in {1, 2, 4, 8}
    case Float(w) => w in {4, 8}
    case Text => true
    case Blob => true
    case Fixed(_) => true
  }

  /** The values the C++ types can hold; strings and vectors may be of any length. */
  predicate Representable(v: Value) {
    match v
    case UIntValue(w, n) => w in {1, 2, 4, 8} && n < Pow256(w)
    case SIntValue(w, x) => w in {1, 2, 4, 8} && -(Pow256(w) / 2) <= x < Pow256(w) / 2
    case FloatValue(w, bits) => w in {4, 8} && bits < Pow256(w)
    case TextValue(_) => true
    case BlobValue(_) => true
    case FixedValue(_) => true
  }

  /** The writers refuse a string or a vector whose length does not fit its 16-bit prefix. */
  predicate Encodable(v: Value) {
    Representable(v) &&
    match v
    case TextValue(t) => |t| <= UINT16_MAX
    case BlobValue(b) => |b| <= UINT16_MAX
    case _ => true
  }

  function SchemaOf(v: Value): (f: Schema) {
    match v
    case UIntValue(w, _) => UInt(w)
    case SIntValue(w, _) => SInt(w)
    case FloatValue(w, _) => Float(w)
    case TextValue(_) => Text
    case BlobValue(_) => Blob
    case FixedValue(b) => Fixed(|b|)
  }

  function Prefixed(b: seq<byte>): seq<byte>
    requires |b| <= UINT16_MAX
  {
    ToLE(2, |b|) + b
  }

  function Enc(v: Value): seq<byte>
    requires Encodable(v)
  {
    match v
    case UIntValue(w, n) => ToLE(w, n)
    case SIntValue(w, x) => ToLE(w, ToUnsigned(w, x))
    case FloatValue(w, bits) => ToLE(w, bits)
    case TextValue(t) => Prefixed(t)
    case BlobValue(b) => Prefixed(b)
    case FixedValue(b) => b
  }

  // ---- The wire form, byte by byte --------------------------------------------------------------

  /** The bytes of an integer, least significant first; of a negative one, those of its two's
      complement. */
  predicate IsInteger(w: nat, x: int, s: seq<byte>) {
    |s| == w && forall i | 0 <= i < w :: s[i] == x / Pow256(i) % 256
  }

  predicate IsPrefixed(b: seq<byte>, s: seq<byte>) {
    |s| == 2 + |b| && s[0] == |b| % 256 && s[1] == |b| / 256 && s[2..] == b
  }

  predicate IsWireForm(v: Value, s: seq<byte>) {
    match v
    case UIntValue(w, n) => IsInteger(w, n, s)
    case SIntValue(w, x) => IsInteger(w, x, s)
    case FloatValue(w, bits) => IsInteger(w, bits, s)
    case TextValue(t) => IsPrefixed(t, s)
    case BlobValue(b) => IsPrefixed(b, s)
    case FixedValue(b) => s == b
  }

  lemma ToLEIsInteger(w: nat, n: nat, s: seq<byte>)
    requires n < Pow256(w)
    ensures IsInteger(w, n, s) <==> s == ToLE(w, n)
  {
    forall i | 0 <= i < w ensures ToLE(w, n)[i] == n / Pow256(i) % 256 {
      ToLEAt(w, n, i);
    }
  }

  lemma SignedIsInteger(w: nat, x: int, s: seq<byte>)
    requires -(Pow256(w) / 2) <= x < Pow256(w) / 2
    ensures IsInteger(w, x, s) <==> s == ToLE(w, ToUnsigned(w, x))
  {
    forall i | 0 <= i < w ensures ToLE(w, ToUnsigned(w, x))[i] == x / Pow256(i) % 256 {
      SignedAt(w, x, i);
    }
  }

  lemma TwoBytes(n: nat)
    requires n <= UINT16_MAX
    ensures Pow256(2) == UINT16_MAX + 1 && ToLE(2, n) == [n % 256, n / 256]
  {
    assert Pow256(1) == 256 && Pow256(2) == 65536;
    assert ToLE(1, n / 256) == [n / 256 % 256] + ToLE(0, n / 256 / 256);
  }

  lemma PrefixedIs(b: seq<byte>, s: seq<byte>)
    requires |b| <= UINT16_MAX
    ensures IsPrefixed(b, s) <==> s == Prefixed(b)
  {
    TwoBytes(|b|);
    assert Prefixed(b)[2..] == b;
    if IsPrefixed(b, s) { assert s == [s[0], s[1]] + s[2..]; }
  }

  /** What a writer appends for a value is its wire form and nothing else. */
  lemma EncIsWireForm(v: Value, s: seq<byte>)
    requires Encodable(v)
    ensures IsWireForm(v, s) <==> s == Enc(v)
  {
    match v
    case UIntValue(w, n) => ToLEIsInteger(w, n, s);
    case SIntValue(w, x) => SignedIsInteger(w, x, s);
    case FloatValue(w, bits) => ToLEIsInteger(w, bits, s);
    case TextValue(t) => PrefixedIs(t, s);
    case BlobValue(b) => PrefixedIs(b, s);
    case FixedValue(_) =>
  }

  type Decoded<T> = Option<(T, seq<byte>)>

  function Take(n: nat, s: seq<byte>): Decoded<seq<byte>> {
    if n <= |s| then Some((s[..n], s[n..])) else None
  }

  function TakePrefixed(s: seq<byte>): Decoded<seq<byte>> {
    match Take(2, s)
    case None => None
    case Some((length, rest)) => Take(FromLE(length), rest)
  }

  /** One `>>`: the value read and the bytes left, or None when the reader throws. */
  function Dec(f: Schema, s: seq<byte>): Decoded<Value>
    requires KnownSchema(f)
  {
    match f
    case UInt(w) => (match Take(w, s) case None => None case Some((b, rest)) => Some((UIntValue(w, FromLE(b)), rest)))
    case SInt(w) =>
      (match Take(w, s) case None => None case Some((b, rest)) => Some((SIntValue(w, ToSigned(w, FromLE(b))), rest)))
    case Float(w) => (match Take(w, s) case None => None case Some((b, rest)) => Some((FloatValue(w, FromLE(b)), rest)))
    case Text => (match TakePrefixed(s) case None => None case Some((b, rest)) => Some((TextValue(b), rest)))
    case Blob => (match TakePrefixed(s) case None => None case Some((b, rest)) => Some((BlobValue(b), rest)))
    case Fixed(n) => (match Take(n, s) case None => None case Some((b, rest)) => Some((FixedValue(b), rest)))
  }

  lemma TakeOf(b: seq<byte>, rest: seq<byte>)
    ensures Take(|b|, b + rest) == Some((b, rest))
  {
    assert (b + rest)[..|b|] == b && (b + rest)[|b|..] == rest;
  }

  lemma TakePrefixedOf(b: seq<byte>, rest: seq<byte>)
    requires |b| <= UINT16_MAX
    ensures TakePrefixed(Prefixed(b) + rest) == Some((b, rest))
  {
    assert Prefixed(b) + rest == ToLE(2, |b|) + (b + rest);
    TakeOf(ToLE(2, |b|), b + rest);
    TakeOf(b, rest);
    FromToLE(2, |b|);
  }

  lemma PrefixedOfTake(s: seq<byte>, b: seq<byte>, rest: seq<byte>)
    requires TakePrefixed(s) == Some((b, rest))
    ensures |b| <= UINT16_MAX && s == Prefixed(b) + rest
  {
    assert |b| == FromLE(s[..2]) < Pow256(2) == 65536;
    ToFromLE(s[..2]);
    assert s == s[..2] + (b + rest);
  }

  /** Reading back what was written yields the value and leaves the following bytes alone. */
  lemma DecAfterEnc(v: Value, rest: seq<byte>)
    requires Encodable(v)
    ensures KnownSchema(SchemaOf(v)) && Dec(SchemaOf(v), Enc(v) + rest) == Some((v, rest))
  {
    TakeOf(Enc(v), rest);
    match v
    case UIntValue(w, n) => FromToLE(w, n);
    case SIntValue(w, x) => FromToLE(w, ToUnsigned(w, x));
    case FloatValue(w, bits) => FromToLE(w, bits);
    case TextValue(t) => TakePrefixedOf(t, rest);
    case BlobValue(b) => TakePrefixedOf(b, rest);
    case FixedValue(b) =>
  }

  /** A successful read consumed exactly the encoding of its result. */
  lemma EncAfterDec(f: Schema, s: seq<byte>, v: Value, rest: seq<byte>)
    requires KnownSchema(f) && Dec(f, s) == Some((v, rest))
    ensures Encodable(v) && SchemaOf(v) == f && s == Enc(v) + rest
  {
    match f
    case UInt(w) => RejoinTake(w, s);
    case SInt(w) => RejoinTake(w, s);
    case Float(w) => RejoinTake(w, s);
    case Text => PrefixedOfTake(s, v.text, rest);
    case Blob => PrefixedOfTake(s, v.bytes, rest);
    case Fixed(n) =>
  }

  lemma RejoinTake(n: nat, s: seq<byte>)
    requires n <= |s|
    ensures ToLE(n, FromLE(s[..n])) + s[n..] == s
  {
    ToFromLE(s[..n]);
  }

  // ---- Lists of values -------------------------------------------------------------------------

  predicate AllEncodable(vs: seq<Value>) {
    vs == [] || (Encodable(vs[0]) && AllEncodable(vs[1..]))
  }

  predicate AllKnown(fs: seq<Schema>) {
    fs == [] || (KnownSchema(fs[0]) && AllKnown(fs[1..]))
  }

  function SchemasOf(vs: seq<Value>): (fs: seq<Schema>)
    ensures |fs| == |vs|
  {
    if vs == [] then [] else [SchemaOf(vs[0])] + SchemasOf(vs[1..])
  }

  function EncAll(vs: seq<Value>): seq<byte>
    requires AllEncodable(vs)
  {
    if vs == [] then [] else Enc(vs[0]) + EncAll(vs[1..])
  }

  function DecAll(fs: seq<Schema>, s: seq<byte>): Decoded<seq<Value>>
    requires AllKnown(fs)
  {
    if fs == [] then Some(([], s))
    else
      match Dec(fs[0], s)
      case None => None
      case Some((v, rest)) =>
        match DecAll(fs[1..], rest)
        case None => None
        case Some((vs, tail)) => Some(([v] + vs, tail))
  }

  lemma {:induction false} KnownSchemas(vs: seq<Value>)
    requires AllEncodable(vs)
    ensures AllKnown(SchemasOf(vs))
  {
    if vs != [] {
      DecAfterEnc(vs[0], []);
      KnownSchemas(vs[1..]);
      assert SchemasOf(vs)[1..] == SchemasOf(vs[1..]);
    }
  }

  lemma DecAllStep(fs: seq<Schema>, s: seq<byte>, v: Value, mid: seq<byte>, vs: seq<Value>, rest: seq<byte>)
    requires fs != [] && AllKnown(fs)
    requires Dec(fs[0], s) == Some((v, mid)) && DecAll(fs[1..], mid) == Some((vs, rest))
    ensures DecAll(fs, s) == Some(([v] + vs, rest))
  {
  }

  /** Heterogeneous round trip: any list of values, followed by any bytes. */
  lemma {:induction false} RoundTripAll(vs: seq<Value>, rest: seq<byte>)
    requires AllEncodable(vs)
    ensures AllKnown(SchemasOf(vs)) && DecAll(SchemasOf(vs), EncAll(vs) + rest) == Some((vs, rest))
  {
    KnownSchemas(vs);
    if vs != [] {
      var fs, mid := SchemasOf(vs), EncAll(vs[1..]) + rest;
      Regroup(Enc(vs[0]), EncAll(vs[1..]), rest);
      DecAfterEnc(vs[0], mid);
      RoundTripAll(vs[1..], rest);
      assert fs[1..] == SchemasOf(vs[1..]);
      DecAllStep(fs, EncAll(vs) + rest, vs[0], mid, vs[1..], rest);
      assert vs == [vs[0]] + vs[1..];
    } else {
      assert EncAll(vs) + rest == rest;
    }
  }

  /** A read of a whole schema that completes consumed exactly an encoding of that schema. */
  lemma {:induction false} EncAllAfterDecAll(fs: seq<Schema>, s: seq<byte>, vs: seq<Value>, rest: seq<byte>)
    requires AllKnown(fs) && DecAll(fs, s) == Some((vs, rest))
    ensures AllEncodable(vs) && SchemasOf(vs) == fs && s == EncAll(vs) + rest
  {
    if fs != [] {
      var (v, tail) := Dec(fs[0], s).value;
      var ws := DecAll(fs[1..], tail).value.0;
      EncAfterDec(fs[0], s, v, tail);
      EncAllAfterDecAll(fs[1..], tail, ws, rest);
      assert vs[1..] == ws;
      Regroup(Enc(v), EncAll(ws), rest);
      assert fs == [fs[0]] + fs[1..];
    } else {
      assert s == EncAll(vs) + rest;
    }
  }

  /** Reading a schema from any strict prefix `p` of an encoding `p + q` of it throws. */
  lemma TruncationThrows(vs: seq<Value>, p: seq<byte>, q: seq<byte>)
    requires AllEncodable(vs) && EncAll(vs) == p + q && q != []
    ensures AllKnown(SchemasOf(vs)) && DecAll(SchemasOf(vs), p) == None
  {
    KnownSchemas(vs);
    var r := DecAll(SchemasOf(vs), p);
    if r.Some? {
      EncAllAfterDecAll(SchemasOf(vs), p, r.value.0, r.value.1);
      LongerThanEncoding(vs, r.value.0, r.value.1, q);
    }
  }

  lemma LongerThanEncoding(vs: seq<Value>, ws: seq<Value>, rest: seq<byte>, q: seq<byte>)
    requires AllEncodable(vs) && AllEncodable(ws) && SchemasOf(vs) == SchemasOf(ws)
    requires EncAll(vs) == (EncAll(ws) + rest) + q
    ensures q == []
  {
    Regroup(EncAll(ws), rest, q);
    assert EncAll(vs) + [] == EncAll(vs);
    RoundTripAll(vs, []);
    RoundTripAll(ws, rest + q);
  }

  /** Encodings of one schema are self-delimiting, hence injective. */
  lemma SelfDelimiting(vs: seq<Value>, ws: seq<Value>, r: seq<byte>, t: seq<byte>)
    requires AllEncodable(vs) && AllEncodable(ws) && SchemasOf(vs) == SchemasOf(ws)
    ensures EncAll(vs) + r == EncAll(ws) + t <==> vs == ws && r == t
  {
    RoundTripAll(vs, r);
    RoundTripAll(ws, t);
  }

  // ---- Vectors and arrays of wider elements -----------------------------------------------------

  predicate Fits(w: nat, ns: seq<nat>) {
    ns == [] || (ns[0] < Pow256(w) && Fits(w, ns[1..]))
  }

  /** `w * k` as repeated addition, which keeps the proofs below linear. */
  function Times(w: nat, k: nat): (t: nat)
    ensures w > 0 ==> t >= k
    ensures w > 1 && k > 0 ==> t > k
    ensures w == 1 ==> t == k
  {
    if k == 0 then 0 else w + Times(w, k - 1)
  }

  lemma {:induction false} TimesIsProduct(w: nat, k: nat)
    ensures Times(w, k) == w * k
  {
    if k > 0 { TimesIsProduct(w, k - 1); }
  }

  /** The bytes an array of `w`-byte elements occupies on a little-endian host. */
  function Memory(w: nat, ns: seq<nat>): (s: seq<byte>)
    requires Fits(w, ns)
    ensures |s| == Times(w, |ns|)
  {
    if ns == [] then [] else ToLE(w, ns[0]) + Memory(w, ns[1..])
  }

  /** A block of memory seen as elements of `w` bytes each. */
  function Elements(w: nat, s: seq<byte>): (ns: seq<nat>)
    requires w > 0
  {
    if |s| < w then [] else [FromLE(s[..w])] + Elements(w, s[w..])
  }

  /** A vector resized to `n` elements: cut off, or filled up with zeros. */
  function Resized(target: seq<nat>, n: nat): (z: seq<nat>)
    ensures |z| == n && forall i | 0 <= i < n :: z[i] == if i < |target| then target[i] else 0
  {
    if n <= |target| then target[..n] else target + seq(n - |target|, _ => 0)
  }

  /** Writing a vector: its element count, then each element. */
  function EncVector(w: nat, ns: seq<nat>): seq<byte>
    requires Fits(w, ns) && |ns| <= UINT16_MAX
  {
    ToLE(2, |ns|) + Memory(w, ns)
  }

  /** Reading a vector as the code does it: the target is resized to the number of BYTES, and
      that many bytes then fill its first elements. */
  function DecVector(w: nat, target: seq<nat>, s: seq<byte>): Decoded<seq<nat>>
    requires w > 0
  {
    match Take(2, s)
    case None => None
    case Some((prefix, rest)) => DecElements(w, FromLE(prefix), target, rest)
  }

  function DecElements(w: nat, length: nat, target: seq<nat>, s: seq<byte>): Decoded<seq<nat>>
    requires w > 0
  {
    match Take(Times(w, length), s)
    case None => None
    case Some((b, rest)) => Some((Elements(w, b) + Resized(target, Times(w, length))[length..], rest))
  }

  lemma {:induction false} FitsAppend(w: nat, a: seq<nat>, b: seq<nat>)
    requires Fits(w, a) && Fits(w, b)
    ensures Fits(w, a + b)
  {
    if a == [] {
      assert a + b == b;
    } else {
      assert (a + b)[1..] == a[1..] + b;
      FitsAppend(w, a[1..], b);
    }
  }

  /** Elements lie one after the other. */
  lemma {:induction false} MemoryAppend(w: nat, a: seq<nat>, b: seq<nat>)
    requires Fits(w, a) && Fits(w, b)
    ensures Fits(w, a + b) && Memory(w, a + b) == Memory(w, a) + Memory(w, b)
  {
    FitsAppend(w, a, b);
    if a == [] {
      assert a + b == b;
    } else {
      assert (a + b)[1..] == a[1..] + b;
      MemoryAppend(w, a[1..], b);
      Regroup(ToLE(w, a[0]), Memory(w, a[1..]), Memory(w, b));
    }
  }

  lemma MemoryOne(w: nat, n: nat)
    requires n < Pow256(w)
    ensures Fits(w, [n]) && IsInteger(w, n, Memory(w, [n]))
  {
    ToLEIsInteger(w, n, ToLE(w, n));
    assert [n][1..] == [];
  }

  lemma {:induction false} ElementsOfMemory(w: nat, ns: seq<nat>)
    requires w > 0 && Fits(w, ns)
    ensures Elements(w, Memory(w, ns)) == ns
  {
    if ns != [] {
      ElementsOfMemory(w, ns[1..]);
      FromToLE(w, ns[0]);
      var m := Memory(w, ns);
      assert m[..w] == ToLE(w, ns[0]) && m[w..] == Memory(w, ns[1..]);
    }
  }

  lemma DecElementsOf(w: nat, ns: seq<nat>, target: seq<nat>, rest: seq<byte>)
    requires w > 0 && Fits(w, ns)
    ensures DecElements(w, |ns|, target, Memory(w, ns) + rest)
            == Some((ns + Resized(target, Times(w, |ns|))[|ns|..], rest))
  {
    var m := Memory(w, ns);
    assert |m| == Times(w, |ns|);
    TakeOf(m, rest);
    ElementsOfMemory(w, ns);
  }

  /** What reading back a vector of `w`-byte elements gives: its elements, and (w - 1) elements more for
      each of them, which the target held before or which are zero. */
  lemma {:induction false} VectorReadBack(w: nat, ns: seq<nat>, target: seq<nat>, rest: seq<byte>)
    requires w > 0 && Fits(w, ns) && |ns| <= UINT16_MAX
    ensures DecVector(w, target, EncVector(w, ns) + rest)
            == Some((ns + Resized(target, Times(w, |ns|))[|ns|..], rest))
  {
    FromToLE(2, |ns|);
    Regroup(ToLE(2, |ns|), Memory(w, ns), rest);
    TakeOf(ToLE(2, |ns|), Memory(w, ns) + rest);
    DecElementsOf(w, ns, target, rest);
  }

  /** Whatever the target held, a vector survives the round trip exactly when it is empty or its
      elements are single bytes. */
  lemma VectorRoundTripIff(w: nat, ns: seq<nat>, target: seq<nat>, rest: seq<byte>)
    requires w > 0 && Fits(w, ns) && |ns| <= UINT16_MAX
    ensures DecVector(w, target, EncVector(w, ns) + rest) == Some((ns, rest)) <==> w == 1 || ns == []
  {
    VectorReadBack(w, ns, target, rest);
    var extra := Resized(target, Times(w, |ns|))[|ns|..];
    if w == 1 || ns == [] {
      assert ns + extra == ns;
    } else {
      assert |ns + extra| > |ns|;
    }
  }

  /** A vector of single bytes is written as the byte vector of the schema language. */
  lemma {:induction false} ByteVectorIsBlob(b: seq<byte>)
    requires |b| <= UINT16_MAX
    ensures Fits(1, b) && EncVector(1, b) == Enc(BlobValue(b))
  {
    BytesAsMemory(b);
  }

  lemma {:induction false} BytesAsMemory(b: seq<byte>)
    ensures Fits(1, b) && Memory(1, b) == b
    ensures Elements(1, b) == b
  {
    assert Pow256(1) == 256;
    if b != [] {
      BytesAsMemory(b[1..]);
      assert ToLE(1, b[0]) == [b[0]];
    }
  }

  /** A fixed array of `w`-byte elements is written whole but only its first N BYTES are read, so
      the reader is left where the writer stopped exactly for N == 0 or single-byte elements. */
  lemma ArrayReadPositionIff(w: nat, ns: seq<nat>, rest: seq<byte>)
    requires w > 0 && Fits(w, ns)
    ensures Dec(Fixed(|ns|), Memory(w, ns) + rest).Some?
    ensures Dec(Fixed(|ns|), Memory(w, ns) + rest).value.1 == rest <==> w == 1 || ns == []
  {
    var m := Memory(w, ns);
    assert (m + rest)[|ns|..] == m[|ns|..] + rest;
    if w == 1 || ns == [] {
      assert m[|ns|..] + rest == rest;
    } else {
      assert |m[|ns|..] + rest| > |rest|;
    }
  }
}
