/** mlserver/raw.py:39-70: numbers as little-endian bytes, and the BYTES layout, in which every element
    is preceded by its length as four little-endian bytes. */
module RawBytes {

  type Byte = b: int | 0 <= b < 256

  /** One element of a tensor's data: a byte string, or a number (a bool as 0 or 1, a float as its bit
      pattern). */
  datatype Value = Blob(bytes: seq<Byte>) | Scalar(n: int)

  datatype Error = StructError | TypeError | IndexError
  datatype Outcome<+T> = Ok(value: T) | Raised(error: Error)

  // ---------- Little-endian numbers ----------

  /** How many values fit in so many bytes. */
  function Span(width: nat): (r: nat)
    ensures r > 0
  {
    if width == 0 then 1 else 256 * Span(width - 1)
  }

  function LeBytes(n: nat, width: nat): (r: seq<Byte>)
    ensures |r| == width
  {
    if width == 0 then [] else [n % 256] + LeBytes(n / 256, width - 1)
  }

  function LeNat(bytes: seq<Byte>): nat {
    if bytes == [] then 0 else bytes[0] + 256 * LeNat(bytes[1..])
  }

  lemma {:induction false} LeNatFits(bytes: seq<Byte>)
    ensures LeNat(bytes) < Span(|bytes|)
  {
    if bytes != [] { LeNatFits(bytes[1..]); }
  }

  /** Reading back what was written gives the number, modulo what fits in the width. */
  lemma {:induction false} LeNatOfLeBytes(n: nat, width: nat)
    requires n < Span(width)
    ensures LeNat(LeBytes(n, width)) == n
  {
    if width > 0 { LeNatOfLeBytes(n / 256, width - 1); }
  }

  lemma {:induction false} LeBytesOfLeNat(bytes: seq<Byte>)
    ensures LeBytes(LeNat(bytes), |bytes|) == bytes
  {
    if bytes != [] {
      LeBytesOfLeNat(bytes[1..]);
      assert LeNat(bytes) / 256 == LeNat(bytes[1..]);
    }
  }

  /** The least significant byte comes first. */
  lemma {:induction false} FourBytesAreLittleEndian(n: nat)
    requires n < 0x1_0000_0000
    ensures LeBytes(n, 4) == [n % 256, n / 256 % 256, n / 65536 % 256, n / 16777216]
  {
    var b, c, d := n / 256, n / 65536, n / 16777216;
    assert b / 256 == c && c / 256 == d && d < 256;
    assert LeBytes(d, 1) == [d];
    assert LeBytes(c, 2) == [c % 256] + LeBytes(d, 1);
    assert LeBytes(b, 3) == [b % 256] + LeBytes(c, 2);
  }

  // ---------- The BYTES layout ----------

  const SIZE_WIDTH := 4

  /** `struct.pack("<I", len)` takes lengths below 2^32. */
  predicate Framable(value: Value) {
    value.Blob? && |value.bytes| < Span(SIZE_WIDTH)
  }

  predicate AllFramable(values: seq<Value>) {
    forall i :: 0 <= i < |values| ==> Framable(values[i])
  }

  function Frame(bytes: seq<Byte>): seq<Byte> {
    LeBytes(|bytes|, SIZE_WIDTH) + bytes
  }

  function Frames(values: seq<Value>): seq<Byte>
    requires AllFramable(values)
  {
    if values == [] then [] else Frame(values[0].bytes) + Frames(values[1..])
  }

  /** The first element that cannot be written decides the error: a number has no length, a byte string
      may be too long for the length field. */
  function FrameError(values: seq<Value>): Error
    requires !AllFramable(values)
  {
    if !Framable(values[0]) then (if values[0].Scalar? then TypeError else StructError)
    else FrameError(values[1..])
  }

  function PackBytes(values: seq<Value>): Outcome<seq<Byte>> {
    if AllFramable(values) then Ok(Frames(values)) else Raised(FrameError(values))
  }

  /** What `_unpack_bytes` reads from `raw` on: a frame and then the rest, or an error when the length
      or the bytes it announces are cut short. */
  function UnpackBytes(raw: seq<Byte>): Outcome<seq<Value>>
    decreases |raw|
  {
    if raw == [] then Ok([])
    else if |raw| < SIZE_WIDTH then Raised(StructError)
    else
      var size := LeNat(raw[..SIZE_WIDTH]);
      if |raw| - SIZE_WIDTH < size then Raised(StructError)
      else Prefixed(Blob(raw[SIZE_WIDTH..SIZE_WIDTH + size]), UnpackBytes(raw[SIZE_WIDTH + size..]))
  }

  function Prefixed(value: Value, rest: Outcome<seq<Value>>): Outcome<seq<Value>> {
    if rest.Raised? then rest else Ok([value] + rest.value)
  }

  /** A frame at the front is read as its byte string. */
  lemma {:induction false} UnpackFrame(bytes: seq<Byte>, rest: seq<Byte>)
    requires |bytes| < Span(SIZE_WIDTH)
    ensures UnpackBytes(Frame(bytes) + rest) == Prefixed(Blob(bytes), UnpackBytes(rest))
  {
    var raw := Frame(bytes) + rest;
    LeNatOfLeBytes(|bytes|, SIZE_WIDTH);
    assert raw[..SIZE_WIDTH] == LeBytes(|bytes|, SIZE_WIDTH);
    assert raw[SIZE_WIDTH..SIZE_WIDTH + |bytes|] == bytes;
    assert raw[SIZE_WIDTH + |bytes|..] == rest;
  }

  /** Unpacking undoes packing: every list of byte strings shorter than 2^32 comes back. */
  lemma {:induction false} UnpackUndoesPack(values: seq<Value>)
    requires AllFramable(values)
    ensures UnpackBytes(Frames(values)) == Ok(values)
  {
    if values != [] {
      UnpackUndoesPack(values[1..]);
      UnpackFrame(values[0].bytes, Frames(values[1..]));
      assert [values[0]] + values[1..] == values;
    }
  }

  /** Packing undoes unpacking: every buffer that is accepted is written back byte for byte. */
  lemma {:induction false} PackUndoesUnpack(raw: seq<Byte>)
    requires UnpackBytes(raw).Ok?
    ensures PackBytes(UnpackBytes(raw).value) == Ok(raw)
    decreases |raw|
  {
    if raw != [] {
      var size := LeNat(raw[..SIZE_WIDTH]);
      var rest := raw[SIZE_WIDTH + size..];
      PackUndoesUnpack(rest);
      LeNatFits(raw[..SIZE_WIDTH]);
      LeBytesOfLeNat(raw[..SIZE_WIDTH]);
      var values := UnpackBytes(raw).value;
      assert values[1..] == UnpackBytes(rest).value;
      assert Frame(values[0].bytes) + rest == raw;
    }
  }

  /** The buffers that unpack are exactly the packed ones. */
  lemma {:induction false} UnpacksIffPacked(raw: seq<Byte>)
    ensures UnpackBytes(raw).Ok? <==> exists values :: PackBytes(values) == Ok(raw)
  {
    if UnpackBytes(raw).Ok? { PackUndoesUnpack(raw); }
    forall values | PackBytes(values) == Ok(raw) ensures UnpackBytes(raw).Ok? {
      UnpackUndoesPack(values);
    }
  }

  // ---------- The loops ----------

  function ReadThen(read: seq<Value>, rest: Outcome<seq<Value>>): Outcome<seq<Value>> {
    if rest.Raised? then rest else Ok(read + rest.value)
  }

  lemma {:induction false} ReadThenNext(read: seq<Value>, value: Value, rest: Outcome<seq<Value>>)
    ensures ReadThen(read, Prefixed(value, rest)) == ReadThen(read + [value], rest)
  {
    if rest.Ok? { assert read + ([value] + rest.value) == read + [value] + rest.value; }
  }

  /** `_unpack_bytes`: the offset walks from frame to frame to the end of the buffer. */
  method UnpackBytesLoop(raw: seq<Byte>) returns (r: Outcome<seq<Value>>)
    ensures r == UnpackBytes(raw)
    ensures r.Ok? ==> PackBytes(r.value) == Ok(raw)
  {
    var offset, elems := 0, [];
    assert raw[0..] == raw;
    assert UnpackBytes(raw).Ok? ==> [] + UnpackBytes(raw).value == UnpackBytes(raw).value;
    while offset < |raw|
      invariant 0 <= offset <= |raw|
      invariant UnpackBytes(raw) == ReadThen(elems, UnpackBytes(raw[offset..]))
    {
      ghost var left := raw[offset..];
      if |raw| - offset < SIZE_WIDTH { return Raised(StructError); }
      var size := LeNat(raw[offset..offset + SIZE_WIDTH]);
      assert left[..SIZE_WIDTH] == raw[offset..offset + SIZE_WIDTH];
      offset := offset + SIZE_WIDTH;
      if |raw| - offset < size { return Raised(StructError); }
      assert left[SIZE_WIDTH..SIZE_WIDTH + size] == raw[offset..offset + size];
      assert left[SIZE_WIDTH + size..] == raw[offset + size..];
      ReadThenNext(elems, Blob(raw[offset..offset + size]), UnpackBytes(raw[offset + size..]));
      elems := elems + [Blob(raw[offset..offset + size])];
      offset := offset + size;
    }
    r := Ok(elems);
    assert raw[offset..] == [] && elems + [] == elems;
    PackUndoesUnpack(raw);
  }

  lemma {:induction false} Regroup(a: seq<Byte>, b: seq<Byte>, c: seq<Byte>)
    ensures (a + b) + c == a + (b + c)
  {
  }

  lemma {:induction false} FramesSnoc(values: seq<Value>, value: Value)
    requires AllFramable(values) && Framable(value)
    ensures AllFramable(values + [value])
    ensures Frames(values + [value]) == Frames(values) + Frame(value.bytes)
  {
    var more := values + [value];
    if values == [] {
      assert more == [value] && more[1..] == [];
    } else {
      FramesSnoc(values[1..], value);
      assert more[0] == values[0] && more[1..] == values[1..] + [value];
      Regroup(Frame(values[0].bytes), Frames(values[1..]), Frame(value.bytes));
    }
  }

  lemma {:induction false} FrameErrorAt(values: seq<Value>, i: nat)
    requires i < |values| && AllFramable(values[..i]) && !Framable(values[i])
    ensures FrameError(values) == if values[i].Scalar? then TypeError else StructError
  {
    if i > 0 {
      assert values[0] == values[..i][0];
      assert values[1..][..i - 1] == values[..i][1..];
      FrameErrorAt(values[1..], i - 1);
    }
  }

  /** `_pack_bytes`: collects length and bytes of every element, and joins them. */
  method PackBytesLoop(unpacked: seq<Value>) returns (r: Outcome<seq<Byte>>)
    ensures r == PackBytes(unpacked)
    ensures r.Ok? ==> UnpackBytes(r.value) == Ok(unpacked)
  {
    var packed := [];
    for i := 0 to |unpacked|
      invariant AllFramable(unpacked[..i])
      invariant packed == Frames(unpacked[..i])
    {
      var elem := unpacked[i];
      if elem.Scalar? {
        FrameErrorAt(unpacked, i);
        return Raised(TypeError);
      }
      if |elem.bytes| >= Span(SIZE_WIDTH) {
        FrameErrorAt(unpacked, i);
        return Raised(StructError);
      }
      FramesSnoc(unpacked[..i], elem);
      assert unpacked[..i + 1] == unpacked[..i] + [elem];
      packed := packed + LeBytes(|elem.bytes|, SIZE_WIDTH) + elem.bytes;
    }
    assert unpacked[..|unpacked|] == unpacked;
    UnpackUndoesPack(unpacked);
    r := Ok(packed);
  }
}
