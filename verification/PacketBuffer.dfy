// PacketBuffer: a byte vector with a lazy start offset, and the FIFO byte sequence it stands for.

module Fifo {
  import opened Bytes

  /** The operations of PacketBuffer other than the typed stream operators. */
  datatype Op =
    | WriteByte(b: byte)
    | WriteBlock(bytes: seq<byte>)
    | ReadByte
    | ReadBlock(n: nat)
    | PeekByte(at: byte)
    | PeekBlock(n: nat)
    | Skip(k: byte)

  /** What an operation hands back: the bytes it returned, or a throw. */
  datatype Reply = Bytes(bytes: seq<byte>) | Threw

  /** Appending single bytes until the buffer is full. */
  function Appended(view: seq<byte>, s: seq<byte>): (r: seq<byte>)
    requires |view| <= UINT32_MAX
    ensures |r| == Min(|view| + |s|, UINT32_MAX) && r <= view + s
  {
    view + s[..Min(|s|, UINT32_MAX - |view|)]
  }

  lemma AppendedTwice(view: seq<byte>, s: seq<byte>, t: seq<byte>)
    requires |view| <= UINT32_MAX
    ensures |view| + |s| <= UINT32_MAX ==> Appended(Appended(view, s), t) == Appended(view, s + t)
    ensures |view| + |s| > UINT32_MAX ==> Appended(view, s) == Appended(view, s + t)
  {
    var room := UINT32_MAX - |view|;
    if |s| <= room {
      assert (s + t)[..Min(|s + t|, room)] == s + t[..Min(|t|, room - |s|)];
    } else {
      assert (s + t)[..room] == s[..room];
    }
  }

  /** `Skip` is unchecked; inside the buffer it is a FIFO operation. */
  predicate Allowed(view: seq<byte>, op: Op) {
    match op
    case WriteBlock(s) => |s| <= UINT32_MAX
    case ReadBlock(n) => n <= UINT32_MAX
    case PeekBlock(n) => n <= UINT32_MAX
    case Skip(n) => n <= |view|
    case _ => true
  }

  /** One operation on the plain FIFO sequence. */
  function Step(view: seq<byte>, op: Op): (r: (seq<byte>, Reply))
    requires |view| <= UINT32_MAX && Allowed(view, op)
    ensures |r.0| <= UINT32_MAX
  {
    match op
    case WriteByte(b) => if |view| < UINT32_MAX then (view + [b], Bytes([])) else (view, Threw)
    case WriteBlock(s) => if |view| + |s| <= UINT32_MAX then (view + s, Bytes([])) else (view, Threw)
    case ReadByte => if view == [] then (view, Threw) else (view[1..], Bytes([view[0]]))
    case ReadBlock(n) => (view[Min(n, |view|)..], Bytes(view[..Min(n, |view|)]))
    case PeekByte(k) => if k < |view| then (view, Bytes([view[k]])) else (view, Threw)
    case PeekBlock(n) => (view, Bytes(view[..Min(n, |view|)]))
    case Skip(n) => (view[n..], Bytes([]))
  }

  predicate AllAllowed(view: seq<byte>, ops: seq<Op>)
    requires |view| <= UINT32_MAX
    decreases |ops|
  {
    ops == [] || (Allowed(view, ops[0]) && AllAllowed(Step(view, ops[0]).0, ops[1..]))
  }

  function Run(view: seq<byte>, ops: seq<Op>): (r: (seq<byte>, seq<Reply>))
    requires |view| <= UINT32_MAX && AllAllowed(view, ops)
    ensures |r.0| <= UINT32_MAX
    decreases |ops|
  {
    if ops == [] then (view, [])
    else
      var (v, reply) := Step(view, ops[0]);
      var (w, replies) := Run(v, ops[1..]);
      (w, [reply] + replies)
  }

  /** The bytes one operation took in, judged by its reply alone. */
  function Accepted(op: Op, reply: Reply): seq<byte> {
    match (op, reply)
    case (_, Threw) => []
    case (WriteByte(b), _) => [b]
    case (WriteBlock(s), _) => s
    case _ => []
  }

  /** The bytes one operation took out; a skip takes the front of the view without returning it. */
  function Removed(view: seq<byte>, op: Op, reply: Reply): seq<byte> {
    match (op, reply)
    case (ReadByte, Bytes(s)) => s
    case (ReadBlock(_), Bytes(s)) => s
    case (Skip(n), Bytes(_)) => view[..Min(n, |view|)]
    case _ => []
  }

  function AllAccepted(view: seq<byte>, ops: seq<Op>): seq<byte>
    requires |view| <= UINT32_MAX && AllAllowed(view, ops)
    decreases |ops|
  {
    if ops == [] then []
    else
      var (v, reply) := Step(view, ops[0]);
      Accepted(ops[0], reply) + AllAccepted(v, ops[1..])
  }

  function AllRemoved(view: seq<byte>, ops: seq<Op>): seq<byte>
    requires |view| <= UINT32_MAX && AllAllowed(view, ops)
    decreases |ops|
  {
    if ops == [] then []
    else
      var (v, reply) := Step(view, ops[0]);
      Removed(view, ops[0], reply) + AllRemoved(v, ops[1..])
  }

  lemma StepConserves(view: seq<byte>, op: Op)
    requires |view| <= UINT32_MAX && Allowed(view, op)
    ensures var (v, reply) := Step(view, op);
            Removed(view, op, reply) + v == view + Accepted(op, reply)
  {
  }

  lemma Splice(a: seq<byte>, b: seq<byte>, v: seq<byte>, view: seq<byte>, x: seq<byte>, y: seq<byte>, w: seq<byte>)
    requires a + v == view + x && b + w == v + y
    ensures (a + b) + w == view + (x + y)
  {
    assert (a + b) + w == a + (b + w) == (a + v) + y == view + (x + y);
  }

  /** Conservation under any mix of operations: what was taken out, then what is left, is what was
      there, then what was accepted. */
  lemma {:induction false} RunConserves(view: seq<byte>, ops: seq<Op>)
    requires |view| <= UINT32_MAX && AllAllowed(view, ops)
    ensures AllRemoved(view, ops) + Run(view, ops).0 == view + AllAccepted(view, ops)
    decreases |ops|
  {
    if ops != [] {
      var (v, reply) := Step(view, ops[0]);
      StepConserves(view, ops[0]);
      RunConserves(v, ops[1..]);
      Splice(Removed(view, ops[0], reply), AllRemoved(v, ops[1..]), v, view,
             Accepted(ops[0], reply), AllAccepted(v, ops[1..]), Run(v, ops[1..]).0);
    }
  }

  /** A byte read is refused exactly when there is none, a byte write exactly when there is no room; what is
      written into an empty buffer is what is read next. */
  lemma ByteIsReadBack(view: seq<byte>, b: byte)
    requires |view| <= UINT32_MAX
    ensures Step(view, ReadByte).1.Threw? <==> view == []
    ensures Step(view, WriteByte(b)).1.Threw? <==> |view| == UINT32_MAX
    ensures view == [] ==> Step(Step(view, WriteByte(b)).0, ReadByte) == ([], Bytes([b]))
  {
  }

  /** A block is read as its bytes would be, until there are no more. */
  lemma ReadBlockIsReads(view: seq<byte>, n: nat)
    requires |view| <= UINT32_MAX && n <= UINT32_MAX
    ensures if n == 0 || view == [] then Step(view, ReadBlock(n)) == (view, Bytes([]))
            else
              var (v, first) := Step(view, ReadByte);
              var (w, more) := Step(v, ReadBlock(n - 1));
              first.Bytes? && more.Bytes? && Step(view, ReadBlock(n)) == (w, Bytes(first.bytes + more.bytes))
  {
    if n > 0 && view != [] {
      var k := Min(n, |view|);
      assert view[..k] == [view[0]] + view[1..][..k - 1] && view[k..] == view[1..][k - 1..];
    }
  }

  /** A block is written as its bytes would be, or refused as a whole, exactly when it has no room. */
  lemma WriteBlockIsWrites(view: seq<byte>, s: seq<byte>)
    requires |view| <= UINT32_MAX && |s| <= UINT32_MAX
    ensures Step(view, WriteBlock(s)).1.Threw? <==> |view| + |s| > UINT32_MAX
    ensures s == [] ==> Step(view, WriteBlock(s)).0 == view
    ensures s != [] && |view| + |s| <= UINT32_MAX ==>
              Step(view, WriteBlock(s)).0 == Step(Step(view, WriteByte(s[0])).0, WriteBlock(s[1..])).0
  {
    if s != [] && |view| + |s| <= UINT32_MAX { assert view + s == (view + [s[0]]) + s[1..]; }
  }

  /** A skip loses what as many reads would return. */
  lemma SkipIsReads(view: seq<byte>, k: byte)
    requires |view| <= UINT32_MAX && k <= |view|
    ensures Step(view, Skip(k)).0 == Step(view, ReadBlock(k)).0
  {
  }

  /** A peek finds, and leaves, what a read would return after skipping up to it. */
  lemma PeekIsLaterRead(view: seq<byte>, k: byte)
    requires |view| <= UINT32_MAX
    ensures Step(view, PeekByte(k)).0 == view
    ensures Step(view, PeekByte(k)).1 == if k <= |view| then Step(Step(view, Skip(k)).0, ReadByte).1 else Threw
  {
  }

  // ---- Where a buffer answers differently -------------------------------------------------------

  /** The single-byte peek of a buffer: its index is a 32-bit sum, which may wrap to the front. */
  function PeekReply(data: seq<byte>, startOffset: nat, at: byte): Reply
    requires startOffset <= |data| <= UINT32_MAX
  {
    var index := (startOffset + at) % (UINT32_MAX + 1);
    if index < |data| then Bytes([data[index]]) else Threw
  }

  /** The guard under which the sum does not wrap. */
  predicate PeekInside(startOffset: nat, op: Op) {
    op.PeekByte? ==> startOffset + op.at <= UINT32_MAX
  }

  /** A peek answers as the FIFO does exactly when its index does not wrap. */
  lemma PeekIsFifoIff(data: seq<byte>, startOffset: nat, at: byte)
    requires startOffset <= |data| <= UINT32_MAX
    ensures PeekReply(data, startOffset, at) == Step(data[startOffset..], PeekByte(at)).1
            <==> PeekInside(startOffset, PeekByte(at))
  {
  }

  /** A full buffer with ten bytes left: peeking twenty bytes ahead finds a byte that was read long
      ago, and does not throw. */
  lemma PeekFails(data: seq<byte>)
    requires |data| == UINT32_MAX
    ensures PeekReply(data, UINT32_MAX - 10, 20) == Bytes([data[9]])
    ensures Step(data[UINT32_MAX - 10..], PeekByte(20)).1 == Threw
  {
  }

  /** Where the start offset of a buffer is after an operation: writing compacts, and so does a block
      peek whose end would not fit 32 bits. */
  function OffsetAfter(startOffset: nat, view: seq<byte>, op: Op): nat {
    match op
    case WriteByte(_) => 0
    case WriteBlock(_) => 0
    case ReadByte => if view == [] then startOffset else startOffset + 1
    case ReadBlock(n) => startOffset + Min(n, |view|)
    case PeekByte(_) => startOffset
    case PeekBlock(n) => if n + startOffset > UINT32_MAX then 0 else startOffset
    case Skip(k) => startOffset + k
  }

  lemma SameCons<T>(x: T, s: seq<T>, y: T, t: seq<T>)
    ensures [x] + s == [y] + t <==> x == y && s == t
  {
    assert ([x] + s)[0] == x && ([x] + s)[1..] == s && ([y] + t)[0] == y && ([y] + t)[1..] == t;
  }

  /** No single-byte peek of a run wraps. */
  predicate PeeksInside(startOffset: nat, view: seq<byte>, ops: seq<Op>)
    requires |view| <= UINT32_MAX && AllAllowed(view, ops)
    decreases |ops|
  {
    ops == [] ||
    (PeekInside(startOffset, ops[0])
     && PeeksInside(OffsetAfter(startOffset, view, ops[0]), Step(view, ops[0]).0, ops[1..]))
  }

  /** Peeking n bytes and then skipping them is reading them, for every n `Skip` can take. */
  lemma PeekThenSkipIsRead(view: seq<byte>, n: byte)
    requires |view| <= UINT32_MAX && n <= |view|
    ensures Step(view, PeekBlock(n)).1 == Step(view, ReadBlock(n)).1
    ensures Step(Step(view, PeekBlock(n)).0, Skip(n)).0 == Step(view, ReadBlock(n)).0
  {
  }
}

module Buffers {
  import opened Bytes
  import opened Codec
  import Fifo

  class PacketBuffer {
    /** Byte values. */
    var data: seq<byte>
    /** Offset of the first unread value in `data`. */
    var startOffset: nat

    /** What the fields can hold. Only a skip past the end leaves the offset outside the vector. */
    ghost predicate InRange()
      reads this
    {
      startOffset <= UINT32_MAX && |data| <= UINT32_MAX
    }

    ghost predicate Valid()
      reads this
    {
      InRange() && startOffset <= |data|
    }

    /** The FIFO sequence this buffer stands for. */
    ghost function View(): (s: seq<byte>)
      requires InRange()
      reads this
      ensures |s| <= UINT32_MAX
    {
      if startOffset <= |data| then data[startOffset..] else []
    }

    constructor ()
      ensures Valid() && View() == [] && startOffset == 0
    {
      data, startOffset := [], 0;
    }

    method Size() returns (n: nat)
      requires Valid()
      ensures n == |View()|
    {
      n := |data| - startOffset;
    }

    method RemoveStartOffset()
      requires Valid()
      modifies this
      ensures Valid() && startOffset == 0 && data == View() == old(View())
    {
      if startOffset != 0 {
        data := data[startOffset..];
        startOffset := 0;
      }
    }

    method Clear()
      modifies this
      ensures Valid() && startOffset == 0 && View() == []
    {
      startOffset := 0;
      data := [];
    }

    /** Resizes the vector; used on a buffer nothing was read from. */
    method Resize(n: nat)
      requires Valid() && startOffset == 0 && n <= UINT32_MAX
      modifies this
      ensures Valid() && startOffset == 0 && |View()| == n
      ensures forall i | 0 <= i < n :: View()[i] == if i < |old(View())| then old(View())[i] else 0
    {
      data := seq(n, i requires 0 <= i < n reads this => if i < |data| then data[i] else 0);
    }

    // ---- Write ----------------------------------------------------------------------------------

    method Write(val: byte) returns (ok: bool)
      requires Valid()
      modifies this
      ensures Valid() && startOffset == 0
      ensures ok == (|old(View())| < UINT32_MAX)
      ensures View() == if ok then old(View()) + [val] else old(View())
    {
      RemoveStartOffset();
      if |data| >= UINT32_MAX {
        return false;
      }
      data := data + [val];
      ok := true;
    }

    /** All or nothing. */
    method WriteBlock(val: seq<byte>) returns (ok: bool)
      requires Valid() && |val| <= UINT32_MAX
      modifies this
      ensures Valid() && startOffset == 0
      ensures ok == (|old(View())| + |val| <= UINT32_MAX)
      ensures View() == if ok then old(View()) + val else old(View())
    {
      RemoveStartOffset();
      if |data| + |val| > UINT32_MAX {
        return false;
      }
      ghost var before := data;
      for i := 0 to |val|
        invariant startOffset == 0 && data == before + val[..i]
      {
        data := data + [val[i]];
      }
      ok := true;
    }

    /** The byte loop of the stream operators: stops with a throw when the buffer is full. */
    method WriteEach(val: seq<byte>) returns (ok: bool)
      requires Valid()
      modifies this
      ensures Valid()
      ensures ok == (|old(View())| + |val| <= UINT32_MAX)
      ensures View() == Fifo.Appended(old(View()), val)
      ensures ok ==> View() == old(View()) + val
    {
      ghost var before := View();
      for i := 0 to |val|
        invariant Valid() && View() == before + val[..i]
      {
        var done := Write(val[i]);
        if !done {
          return false;
        }
      }
      ok := true;
    }

    method WritePrefixed(content: seq<byte>, count: nat) returns (ok: bool)
      requires Valid() && count <= UINT16_MAX
      modifies this
      ensures Valid()
      ensures ok == (|old(View())| + 2 + |content| <= UINT32_MAX)
      ensures View() == Fifo.Appended(old(View()), ToLE(2, count) + content)
    {
      Fifo.AppendedTwice(View(), ToLE(2, count), content);
      ok := WriteEach(ToLE(2, count));
      if ok {
        ok := WriteEach(content);
      }
    }

    /** `buffer << value`: refused with a throw when a length does not fit its prefix, and cut off
        with a throw when the buffer fills up. */
    method Put(v: Value) returns (ok: bool)
      requires Valid() && Representable(v)
      modifies this
      ensures Valid()
      ensures ok == (Encodable(v) && |old(View())| + |Enc(v)| <= UINT32_MAX)
      ensures View() == if Encodable(v) then Fifo.Appended(old(View()), Enc(v)) else old(View())
      ensures ok ==> |old(View())| <= |View()| && IsWireForm(v, View()[|old(View())|..])
    {
      if Encodable(v) { EncIsWireForm(v, Enc(v)); }
      match v
      case UIntValue(w, n) => ok := WriteEach(ToLE(w, n));
      case SIntValue(w, x) => ok := WriteEach(ToLE(w, ToUnsigned(w, x)));
      case FloatValue(w, bits) => ok := WriteEach(ToLE(w, bits));
      case TextValue(t) =>
        if |t| > UINT16_MAX {
          return false;
        }
        ok := WritePrefixed(t, |t|);
      case BlobValue(b) =>
        if |b| > UINT16_MAX {
          return false;
        }
        ok := WritePrefixed(b, |b|);
      case FixedValue(b) => ok := WriteEach(b);
    }

    /** A chain of `<<`, stopped by the first throw. */
    method PutAll(vs: seq<Value>) returns (ok: bool)
      requires Valid() && AllEncodable(vs)
      modifies this
      ensures Valid()
      ensures ok == (|old(View())| + |EncAll(vs)| <= UINT32_MAX)
      ensures View() == Fifo.Appended(old(View()), EncAll(vs))
      decreases |vs|
    {
      if vs == [] {
        return true;
      }
      Fifo.AppendedTwice(View(), Enc(vs[0]), EncAll(vs[1..]));
      ok := Put(vs[0]);
      if ok {
        ok := PutAll(vs[1..]);
      }
    }

    /** `buffer << std::vector<T>` for elements of `w` bytes. */
    method PutVector(w: nat, ns: seq<nat>) returns (ok: bool)
      requires Valid() && Fits(w, ns)
      modifies this
      ensures Valid()
      ensures |ns| > UINT16_MAX ==> !ok && View() == old(View())
      ensures |ns| <= UINT16_MAX ==> ok == (|old(View())| + |EncVector(w, ns)| <= UINT32_MAX)
      ensures |ns| <= UINT16_MAX ==> View() == Fifo.Appended(old(View()), EncVector(w, ns))
    {
      if |ns| > UINT16_MAX {
        return false;
      }
      ok := WritePrefixed(Memory(w, ns), |ns|);
    }

    // ---- Read -----------------------------------------------------------------------------------

    method Read() returns (r: Result<byte>)
      requires InRange()
      modifies this`startOffset
      ensures InRange() && (old(Valid()) ==> Valid())
      ensures startOffset == old(startOffset) + if r.Ok? then 1 else 0
      ensures old(View()) == [] ==> r == Thrown && View() == []
      ensures old(View()) != [] ==> r == Ok(old(View())[0]) && View() == old(View())[1..]
    {
      if startOffset >= |data| {
        return Thrown;
      }
      r := Ok(data[startOffset]);
      startOffset := startOffset + 1;
    }

    /** Reads up to `n` bytes into `out` and tells how many there were. */
    method ReadArray(out: array<byte>, n: nat) returns (count: nat)
      requires Valid() && n <= out.Length && n <= UINT32_MAX
      modifies this`startOffset, out
      ensures Valid()
      ensures count == Min(n, |old(View())|)
      ensures out[..count] == old(View())[..count] && out[count..] == old(out[count..])
      ensures View() == old(View())[count..]
    {
      ghost var before, untouched := View(), out[..];
      for i := 0 to n
        invariant Valid() && i <= |before| && View() == before[i..]
        invariant out[..i] == before[..i] && out[i..] == untouched[i..]
      {
        var r := Read();
        if r.Thrown? {
          return i;
        }
        out[i] := r.value;
        assert out[..i + 1] == before[..i] + [before[i]] == before[..i + 1];
      }
      count := n;
    }

    /** The byte loop of the integer readers: throws when a byte is missing, having drained the
        buffer by then. */
    method ReadEach(n: nat) returns (r: Result<seq<byte>>)
      requires Valid()
      modifies this`startOffset
      ensures Valid()
      ensures Take(n, old(View())).Some? ==> r.Ok? && Some((r.value, View())) == Take(n, old(View()))
      ensures Take(n, old(View())).None? ==> r == Thrown && View() == []
    {
      ghost var before := View();
      var bytes := [];
      for i := 0 to n
        invariant Valid() && i <= |before| && View() == before[i..] && bytes == before[..i]
      {
        var b := Read();
        if b.Thrown? {
          return Thrown;
        }
        bytes := bytes + [b.value];
      }
      r := Ok(bytes);
    }

    /** The block read of strings, vectors and fixed arrays: throws unless all bytes were there. */
    method ReadWhole(n: nat) returns (r: Result<seq<byte>>)
      requires Valid() && n <= UINT32_MAX
      modifies this`startOffset
      ensures Valid()
      ensures Take(n, old(View())).Some? ==> r.Ok? && Some((r.value, View())) == Take(n, old(View()))
      ensures Take(n, old(View())).None? ==> r == Thrown && View() == []
    {
      var arr := new byte[n];
      var count := ReadArray(arr, n);
      if count != n {
        return Thrown;
      }
      assert arr[..] == arr[..count];
      r := Ok(arr[..]);
    }

    method ReadPrefixed() returns (r: Result<seq<byte>>)
      requires Valid()
      modifies this`startOffset
      ensures Valid()
      ensures TakePrefixed(old(View())).Some? ==> r.Ok? && Some((r.value, View())) == TakePrefixed(old(View()))
      ensures TakePrefixed(old(View())).None? ==> r == Thrown && View() == []
    {
      var length := ReadEach(2);
      if length.Thrown? {
        return Thrown;
      }
      r := ReadWhole(FromLE(length.value));
    }

    /** `buffer >> value`. A throw leaves the buffer empty. */
    method Get(f: Schema) returns (r: Result<Value>)
      requires Valid() && KnownSchema(f) && (f.Fixed? ==> f.length <= UINT32_MAX)
      modifies this`startOffset
      ensures Valid()
      ensures Dec(f, old(View())).Some? ==> r.Ok? && Some((r.value, View())) == Dec(f, old(View()))
      ensures Dec(f, old(View())).None? ==> r == Thrown && View() == []
      ensures r.Ok? ==> SchemaOf(r.value) == f &&
                        exists s :: old(View()) == s + View() && IsWireForm(r.value, s)
    {
      ghost var view := View();
      if Dec(f, view).Some? {
        EncAfterDec(f, view, Dec(f, view).value.0, Dec(f, view).value.1);
        EncIsWireForm(Dec(f, view).value.0, Enc(Dec(f, view).value.0));
      }
      var b: Result<seq<byte>>;
      match f {
        case UInt(w) => b := ReadEach(w);
        case SInt(w) => b := ReadEach(w);
        case Float(w) => b := ReadEach(w);
        case Text => b := ReadPrefixed();
        case Blob => b := ReadPrefixed();
        case Fixed(n) => b := ReadWhole(n);
      }
      if b.Thrown? {
        return Thrown;
      }
      match f
      case UInt(w) => r := Ok(UIntValue(w, FromLE(b.value)));
      case SInt(w) => r := Ok(SIntValue(w, ToSigned(w, FromLE(b.value))));
      case Float(w) => r := Ok(FloatValue(w, FromLE(b.value)));
      case Text => r := Ok(TextValue(b.value));
      case Blob => r := Ok(BlobValue(b.value));
      case Fixed(_) => r := Ok(FixedValue(b.value));
    }

    /** `buffer >> target` for a vector of elements of `w` bytes: the target is resized to the byte
        count, and the bytes read fill its front. */
    method GetVector(w: nat, target: seq<nat>) returns (r: Result<seq<nat>>)
      requires Valid() && w in {1, 2, 4, 8}
      modifies this`startOffset
      ensures Valid()
      ensures var d := DecVector(w, target, old(View()));
              if d.Some? then r.Ok? && Some((r.value, View())) == d else r == Thrown && View() == []
    {
      var prefix := ReadEach(2);
      if prefix.Thrown? {
        return Thrown;
      }
      var length := FromLE(prefix.value);
      TimesIsProduct(w, length);
      var b := ReadWhole(Times(w, length));
      if b.Thrown? {
        return Thrown;
      }
      r := Ok(Elements(w, b.value) + Resized(target, Times(w, length))[length..]);
    }

    /** A chain of `>>`, stopped by the first throw. */
    method GetAll(fs: seq<Schema>) returns (r: Result<seq<Value>>)
      requires Valid() && AllKnown(fs) && forall f | f in fs && f.Fixed? :: f.length <= UINT32_MAX
      modifies this`startOffset
      ensures Valid()
      ensures DecAll(fs, old(View())).Some? ==> r.Ok? && Some((r.value, View())) == DecAll(fs, old(View()))
      ensures DecAll(fs, old(View())).None? ==> r == Thrown && View() == []
      decreases |fs|
    {
      if fs == [] {
        return Ok([]);
      }
      var v := Get(fs[0]);
      if v.Thrown? {
        return Thrown;
      }
      var vs := GetAll(fs[1..]);
      if vs.Thrown? {
        return Thrown;
      }
      r := Ok([v.value] + vs.value);
    }

    // ---- Peek and skip --------------------------------------------------------------------------

    /** Outside the view this throws, unless the 32-bit index wraps: then it finds a byte that was
        read before. */
    method Peek(offset: byte) returns (r: Result<byte>)
      requires Valid()
      ensures offset < |View()| ==> r == Ok(View()[offset])
      ensures offset >= |View()| && startOffset + offset <= UINT32_MAX ==> r == Thrown
      ensures startOffset + offset > UINT32_MAX ==> r == Ok(data[startOffset + offset - UINT32_MAX - 1])
      ensures Fifo.PeekReply(data, startOffset, offset) == if r.Ok? then Fifo.Bytes([r.value]) else Fifo.Threw
    {
      var index := (startOffset + offset) % (UINT32_MAX + 1);
      if index >= |data| {
        return Thrown;
      }
      r := Ok(data[index]);
    }

    /** The peek of a const buffer: throws when offset and length together overflow 32 bits. */
    method PeekArrayConst(out: array<byte>, n: nat) returns (count: Result<nat>)
      requires Valid() && n <= out.Length && n <= UINT32_MAX
      modifies out
      ensures count.Thrown? <==> n + startOffset > UINT32_MAX
      ensures count.Thrown? ==> out[..] == old(out[..])
      ensures count.Ok? ==> count.value == Min(n, |View()|)
      ensures count.Ok? ==> out[..count.value] == View()[..count.value] && out[count.value..] == old(out[count.value..])
    {
      if n + startOffset > UINT32_MAX {
        return Thrown;
      }
      var k := CopyOut(out, n);
      count := Ok(k);
    }

    /** The peek of a mutable buffer: compacts first when offset and length overflow 32 bits. */
    method PeekArray(out: array<byte>, n: nat) returns (count: nat)
      requires Valid() && n <= out.Length && n <= UINT32_MAX
      modifies this, out
      ensures Valid() && View() == old(View())
      ensures startOffset == if n + old(startOffset) > UINT32_MAX then 0 else old(startOffset)
      ensures count == Min(n, |View()|)
      ensures out[..count] == View()[..count] && out[count..] == old(out[count..])
    {
      if n + startOffset > UINT32_MAX {
        RemoveStartOffset();
      }
      count := CopyOut(out, n);
    }

    /** The copy loop of both peeks. */
    method CopyOut(out: array<byte>, n: nat) returns (count: nat)
      requires Valid() && n <= out.Length
      modifies out
      ensures count == Min(n, |View()|)
      ensures out[..count] == View()[..count] && out[count..] == old(out[count..])
    {
      ghost var untouched := out[..];
      for i := 0 to n
        invariant i <= |View()|
        invariant out[..i] == View()[..i] && out[i..] == untouched[i..]
      {
        if startOffset + i >= |data| {
          return i;
        }
        out[i] := data[startOffset + i];
        assert out[..i + 1] == View()[..i] + [View()[i]] == View()[..i + 1];
      }
      count := n;
    }

    /** Unchecked: it drops the front of the view exactly when that is long enough. Otherwise the
        offset ends up past the end, or wraps and brings back what was read before. */
    method Skip(byteCount: byte)
      requires Valid()
      modifies this`startOffset
      ensures InRange() && startOffset == (old(startOffset) + byteCount) % (UINT32_MAX + 1)
      ensures byteCount <= |old(View())| <==> Valid() && startOffset >= old(startOffset)
      ensures byteCount <= |old(View())| ==>
                View() == old(View())[byteCount..] && startOffset == old(startOffset) + byteCount
    {
      startOffset := (startOffset + byteCount) % (UINT32_MAX + 1);
    }

    // ---- Refinement -----------------------------------------------------------------------------

    /** Any one operation does to the view what it does to the FIFO sequence. It has the same reply
        unless it is a single-byte peek whose index wraps, and then never. */
    method Apply(op: Fifo.Op) returns (reply: Fifo.Reply)
      requires Valid() && Fifo.Allowed(View(), op)
      modifies this
      ensures Valid() && View() == Fifo.Step(old(View()), op).0
      ensures startOffset == Fifo.OffsetAfter(old(startOffset), old(View()), op)
      ensures reply == Fifo.Step(old(View()), op).1 <==> Fifo.PeekInside(old(startOffset), op)
    {
      match op
      case WriteByte(b) =>
        var ok := Write(b);
        reply := if ok then Fifo.Bytes([]) else Fifo.Threw;
      case WriteBlock(s) =>
        var ok := WriteBlock(s);
        reply := if ok then Fifo.Bytes([]) else Fifo.Threw;
      case ReadByte =>
        var r := Read();
        reply := if r.Ok? then Fifo.Bytes([r.value]) else Fifo.Threw;
      case ReadBlock(n) =>
        var out := new byte[n];
        var count := ReadArray(out, n);
        reply := Fifo.Bytes(out[..count]);
      case PeekByte(k) =>
        Fifo.PeekIsFifoIff(data, startOffset, k);
        var r := Peek(k);
        reply := if r.Ok? then Fifo.Bytes([r.value]) else Fifo.Threw;
      case PeekBlock(n) =>
        var out := new byte[n];
        var count := PeekArray(out, n);
        reply := Fifo.Bytes(out[..count]);
      case Skip(n) =>
        Skip(n);
        reply := Fifo.Bytes([]);
    }

    /** Any mix of operations on the buffer ends in the view of the FIFO sequence, and all replies are
        those of the FIFO exactly when no single-byte peek wraps. */
    method ApplyAll(ops: seq<Fifo.Op>) returns (replies: seq<Fifo.Reply>)
      requires Valid() && Fifo.AllAllowed(View(), ops)
      modifies this
      ensures Valid() && View() == Fifo.Run(old(View()), ops).0
      ensures replies == Fifo.Run(old(View()), ops).1 <==> Fifo.PeeksInside(old(startOffset), old(View()), ops)
      decreases |ops|
    {
      if ops == [] {
        return [];
      }
      var reply := Apply(ops[0]);
      var later := ApplyAll(ops[1..]);
      replies := [reply] + later;
      ghost var (v, expected) := Fifo.Step(old(View()), ops[0]);
      Fifo.SameCons(reply, later, expected, Fifo.Run(v, ops[1..]).1);
    }
  }
}
