/** mlserver/raw.py:10-36, 73-127: tensors as raw bytes, and moving the data of a whole list of
    tensors out into raw entries and back in. */
module RawTensors {
  import opened Shapes
  import opened RawBytes
  import opened OrderedDict

  datatype Datatype =
    | BOOL
    | UINT8 | UINT16 | UINT32 | UINT64
    | INT8 | INT16 | INT32 | INT64
    | FP16 | FP32 | FP64
    | BYTES

  /** The size of the struct format of a datatype, on a host with 64-bit `long`. */
  function Width(dtype: Datatype): nat
    requires dtype != BYTES
  {
    if dtype == BOOL || dtype == UINT8 || dtype == INT8 then 1
    else if dtype == UINT16 || dtype == INT16 || dtype == FP16 then 2
    else if dtype == UINT32 || dtype == INT32 || dtype == FP32 then 4
    else 8
  }

  predicate Signed(dtype: Datatype) {
    dtype == INT8 || dtype == INT16 || dtype == INT32 || dtype == INT64
  }

  // ---------- One element ----------

  /** What Python takes for true. */
  predicate Truthy(value: Value) {
    match value
    case Blob(bytes) => bytes != []
    case Scalar(n) => n != 0
  }

  /** The numbers `struct` takes for a format of that width. */
  predicate InRange(signed: bool, width: nat, n: int) {
    if signed then -(Span(width) as int) <= 2 * n < Span(width) else 0 <= n < Span(width)
  }

  /** Two's complement for a negative number. */
  function EncodeNumber(width: nat, n: int): seq<Byte>
    requires -(Span(width) as int) <= n
  {
    LeBytes(if n < 0 then n + Span(width) else n, width)
  }

  function DecodeNumber(signed: bool, bytes: seq<Byte>): int {
    var n := LeNat(bytes);
    if signed && 2 * n >= Span(|bytes|) then n - Span(|bytes|) else n
  }

  lemma {:induction false} DecodeOfEncodeNumber(signed: bool, width: nat, n: int)
    requires InRange(signed, width, n)
    ensures DecodeNumber(signed, EncodeNumber(width, n)) == n
  {
    LeNatOfLeBytes(if n < 0 then n + Span(width) else n, width);
  }

  lemma {:induction false} EncodeOfDecodeNumber(signed: bool, bytes: seq<Byte>)
    ensures InRange(signed, |bytes|, DecodeNumber(signed, bytes))
    ensures EncodeNumber(|bytes|, DecodeNumber(signed, bytes)) == bytes
  {
    LeNatFits(bytes);
    LeBytesOfLeNat(bytes);
  }

  /** The bytes of a number in range are those of the one natural number that fits the width and is
      congruent to it. */
  lemma {:induction false} EncodesModuloSpan(signed: bool, width: nat, n: int)
    requires InRange(signed, width, n)
    ensures var bits := LeNat(EncodeNumber(width, n));
            bits < Span(width) && (bits == n || bits == n + Span(width))
  {
    LeNatOfLeBytes(if n < 0 then n + Span(width) else n, width);
  }

  /** `struct` takes the value for the datatype: a bool format takes anything, the others a number in
      range. */
  predicate Fits(dtype: Datatype, value: Value)
    requires dtype != BYTES
  {
    dtype == BOOL || (value.Scalar? && InRange(Signed(dtype), Width(dtype), value.n))
  }

  function Encode(dtype: Datatype, value: Value): (r: seq<Byte>)
    requires dtype != BYTES && Fits(dtype, value)
    ensures |r| == Width(dtype)
  {
    if dtype == BOOL then [if Truthy(value) then 1 else 0] else EncodeNumber(Width(dtype), value.n)
  }

  function Decode(dtype: Datatype, bytes: seq<Byte>): Value
    requires dtype != BYTES && |bytes| == Width(dtype)
  {
    if dtype == BOOL then Scalar(if bytes[0] != 0 then 1 else 0) else Scalar(DecodeNumber(Signed(dtype), bytes))
  }

  /** The values a bool tensor is decoded to. */
  predicate Canonical(dtype: Datatype, value: Value) {
    dtype == BOOL ==> value == Scalar(0) || value == Scalar(1)
  }

  lemma {:induction false} DecodeOfEncode(dtype: Datatype, value: Value)
    requires dtype != BYTES && Fits(dtype, value)
    ensures Decode(dtype, Encode(dtype, value)) == value <==> Canonical(dtype, value)
  {
    if dtype != BOOL { DecodeOfEncodeNumber(Signed(dtype), Width(dtype), value.n); }
  }

  /** The bytes a bool tensor is encoded to. */
  predicate CanonicalBytes(dtype: Datatype, bytes: seq<Byte>) {
    dtype == BOOL ==> forall i :: 0 <= i < |bytes| ==> bytes[i] <= 1
  }

  lemma {:induction false} EncodeOfDecode(dtype: Datatype, bytes: seq<Byte>)
    requires dtype != BYTES && |bytes| == Width(dtype)
    ensures Fits(dtype, Decode(dtype, bytes)) && Canonical(dtype, Decode(dtype, bytes))
    ensures Encode(dtype, Decode(dtype, bytes)) == bytes <==> CanonicalBytes(dtype, bytes)
  {
    if dtype != BOOL { EncodeOfDecodeNumber(Signed(dtype), bytes); }
  }

  // ---------- One tensor ----------

  predicate AllFit(dtype: Datatype, values: seq<Value>)
    requires dtype != BYTES
  {
    forall i :: 0 <= i < |values| ==> Fits(dtype, values[i])
  }

  predicate AllOfWidth(chunks: seq<seq<Byte>>, width: nat) {
    forall i :: 0 <= i < |chunks| ==> |chunks[i]| == width
  }

  function Flat(chunks: seq<seq<Byte>>, width: nat): (r: seq<Byte>)
    requires AllOfWidth(chunks, width)
    ensures |r| == Area(|chunks|, width)
  {
    if chunks == [] then [] else chunks[0] + Flat(chunks[1..], width)
  }

  function Cut(raw: seq<Byte>, width: nat, count: nat): (r: seq<seq<Byte>>)
    requires |raw| == Area(count, width)
    ensures |r| == count && AllOfWidth(r, width)
  {
    if count == 0 then [] else [raw[..width]] + Cut(raw[width..], width, count - 1)
  }

  lemma {:induction false} CutOfFlat(chunks: seq<seq<Byte>>, width: nat)
    requires AllOfWidth(chunks, width)
    ensures Cut(Flat(chunks, width), width, |chunks|) == chunks
  {
    if chunks != [] {
      var raw, rest := Flat(chunks, width), Flat(chunks[1..], width);
      assert raw[..width] == chunks[0] && raw[width..] == rest;
      CutOfFlat(chunks[1..], width);
    }
  }

  lemma {:induction false} FlatOfCut(raw: seq<Byte>, width: nat, count: nat)
    requires |raw| == Area(count, width)
    ensures Flat(Cut(raw, width, count), width) == raw
  {
    if count > 0 {
      var chunks, rest := Cut(raw, width, count), Cut(raw[width..], width, count - 1);
      assert chunks[0] == raw[..width] && chunks[1..] == rest;
      FlatOfCut(raw[width..], width, count - 1);
    }
  }

  function Encoded(dtype: Datatype, values: seq<Value>): (chunks: seq<seq<Byte>>)
    requires dtype != BYTES && AllFit(dtype, values)
    ensures |chunks| == |values| && AllOfWidth(chunks, Width(dtype))
  {
    seq(|values|, i requires 0 <= i < |values| => Encode(dtype, values[i]))
  }

  /** All elements, as `struct.pack` writes them one after the other. */
  function EncodeAll(dtype: Datatype, values: seq<Value>): (r: seq<Byte>)
    requires dtype != BYTES && AllFit(dtype, values)
    ensures |r| == Area(|values|, Width(dtype))
  {
    Flat(Encoded(dtype, values), Width(dtype))
  }

  function Decoded(dtype: Datatype, chunks: seq<seq<Byte>>): (values: seq<Value>)
    requires dtype != BYTES && AllOfWidth(chunks, Width(dtype))
    ensures |values| == |chunks|
  {
    seq(|chunks|, i requires 0 <= i < |chunks| => Decode(dtype, chunks[i]))
  }

  function DecodeAll(dtype: Datatype, raw: seq<Byte>, count: nat): (r: seq<Value>)
    requires dtype != BYTES && |raw| == Area(count, Width(dtype))
    ensures |r| == count
  {
    Decoded(dtype, Cut(raw, Width(dtype), count))
  }

  predicate AllCanonical(dtype: Datatype, values: seq<Value>) {
    forall i :: 0 <= i < |values| ==> Canonical(dtype, values[i])
  }

  lemma {:induction false} DecodedOfEncoded(dtype: Datatype, values: seq<Value>)
    requires dtype != BYTES && AllFit(dtype, values)
    ensures Decoded(dtype, Encoded(dtype, values)) == values <==> AllCanonical(dtype, values)
  {
    var back := Decoded(dtype, Encoded(dtype, values));
    forall i | 0 <= i < |values| ensures back[i] == values[i] <==> Canonical(dtype, values[i]) {
      DecodeOfEncode(dtype, values[i]);
    }
  }

  lemma {:induction false} DecodeAllOfEncodeAll(dtype: Datatype, values: seq<Value>)
    requires dtype != BYTES && AllFit(dtype, values)
    ensures DecodeAll(dtype, EncodeAll(dtype, values), |values|) == values <==> AllCanonical(dtype, values)
  {
    CutOfFlat(Encoded(dtype, values), Width(dtype));
    DecodedOfEncoded(dtype, values);
  }

  predicate AllCanonicalBytes(dtype: Datatype, chunks: seq<seq<Byte>>) {
    forall i :: 0 <= i < |chunks| ==> CanonicalBytes(dtype, chunks[i])
  }

  lemma {:induction false} EncodedOfDecoded(dtype: Datatype, chunks: seq<seq<Byte>>)
    requires dtype != BYTES && AllOfWidth(chunks, Width(dtype))
    ensures AllFit(dtype, Decoded(dtype, chunks)) && AllCanonical(dtype, Decoded(dtype, chunks))
    ensures Encoded(dtype, Decoded(dtype, chunks)) == chunks <==> AllCanonicalBytes(dtype, chunks)
  {
    var values := Decoded(dtype, chunks);
    forall i | 0 <= i < |chunks| ensures Fits(dtype, values[i]) && Canonical(dtype, values[i]) {
      EncodeOfDecode(dtype, chunks[i]);
    }
    var back := Encoded(dtype, values);
    forall i | 0 <= i < |chunks| ensures back[i] == chunks[i] <==> CanonicalBytes(dtype, chunks[i]) {
      EncodeOfDecode(dtype, chunks[i]);
    }
  }

  lemma {:induction false} CanonicalInChunks(dtype: Datatype, chunks: seq<seq<Byte>>, width: nat)
    requires AllOfWidth(chunks, width)
    ensures CanonicalBytes(dtype, Flat(chunks, width)) <==> AllCanonicalBytes(dtype, chunks)
  {
    if chunks != [] {
      CanonicalInChunks(dtype, chunks[1..], width);
      CanonicalSplits(dtype, chunks[0], Flat(chunks[1..], width));
      assert forall i :: 1 <= i < |chunks| ==> chunks[i] == chunks[1..][i - 1];
    }
  }

  lemma {:induction false} CanonicalSplits(dtype: Datatype, first: seq<Byte>, rest: seq<Byte>)
    ensures CanonicalBytes(dtype, first + rest) <==> CanonicalBytes(dtype, first) && CanonicalBytes(dtype, rest)
  {
    var raw := first + rest;
    assert first == raw[..|first|] && rest == raw[|first|..];
  }

  lemma {:induction false} EncodeAllOfDecodeAll(dtype: Datatype, raw: seq<Byte>, count: nat)
    requires dtype != BYTES && |raw| == Area(count, Width(dtype))
    ensures AllFit(dtype, DecodeAll(dtype, raw, count)) && AllCanonical(dtype, DecodeAll(dtype, raw, count))
    ensures EncodeAll(dtype, DecodeAll(dtype, raw, count)) == raw <==> CanonicalBytes(dtype, raw)
  {
    var w, chunks := Width(dtype), Cut(raw, Width(dtype), count);
    FlatOfCut(raw, w, count);
    EncodedOfDecoded(dtype, chunks);
    var again := Encoded(dtype, Decoded(dtype, chunks));
    CutOfFlat(again, w);
    assert Flat(again, w) == raw <==> again == chunks;
    CanonicalInChunks(dtype, chunks, w);
  }

  datatype Header = Header(dtype: Datatype, shape: seq<nat>)

  /** `pack`: a fixed-width tensor needs as many elements as the product of its shape; the shape of a
      BYTES tensor is not looked at. */
  function Pack(header: Header, data: seq<Value>): Outcome<seq<Byte>> {
    if header.dtype == BYTES then PackBytes(data)
    else if |data| != Product(header.shape) || !AllFit(header.dtype, data) then Raised(StructError)
    else Ok(EncodeAll(header.dtype, data))
  }

  function Unpack(header: Header, raw: seq<Byte>): Outcome<seq<Value>> {
    if header.dtype == BYTES then UnpackBytes(raw)
    else if |raw| != Area(Product(header.shape), Width(header.dtype)) then Raised(StructError)
    else Ok(DecodeAll(header.dtype, raw, Product(header.shape)))
  }

  /** Whatever packs unpacks to itself, exactly when a bool tensor holds only 0 and 1. */
  lemma {:induction false} UnpackUndoesPackExactly(header: Header, data: seq<Value>)
    requires Pack(header, data).Ok?
    ensures Unpack(header, Pack(header, data).value).Ok?
    ensures Unpack(header, Pack(header, data).value) == Ok(data) <==> AllCanonical(header.dtype, data)
  {
    if header.dtype == BYTES {
      UnpackUndoesPack(data);
    } else {
      DecodeAllOfEncodeAll(header.dtype, data);
    }
  }

  /** Whatever unpacks packs to the same bytes, exactly when a bool tensor's bytes are 0 and 1. */
  lemma {:induction false} PackUndoesUnpackExactly(header: Header, raw: seq<Byte>)
    requires Unpack(header, raw).Ok?
    ensures Pack(header, Unpack(header, raw).value).Ok?
    ensures Pack(header, Unpack(header, raw).value) == Ok(raw) <==> CanonicalBytes(header.dtype, raw)
  {
    if header.dtype == BYTES {
      PackUndoesUnpack(raw);
    } else {
      EncodeAllOfDecodeAll(header.dtype, raw, Product(header.shape));
    }
  }

  // ---------- Lists of tensors ----------

  datatype Content = Content(header: Header, data: seq<Value>)

  class Tensor {
    const header: Header
    var data: seq<Value>

    constructor (header: Header, data: seq<Value>)
      ensures this.header == header && this.data == data
    {
      this.header, this.data := header, data;
    }

    function Holds(): Content
      reads this
    {
      Content(header, data)
    }

    /** The loop body of `extract_raw`. */
    method TakeRaw() returns (raw: Outcome<seq<Byte>>)
      modifies this
      ensures raw == PackContent(old(Holds()))
      ensures Holds() == if raw.Ok? then old(Holds()).(data := []) else old(Holds())
    {
      if header.dtype == BYTES {
        raw := PackBytesLoop(data);
      } else {
        raw := Pack(header, data);
      }
      if raw.Ok? { data := []; }
    }

    /** The loop body of `inject_raw`; the index of the next raw entry afterwards. */
    method FillFrom(rawContents: seq<seq<Byte>>, rawIdx: nat) returns (r: Outcome<nat>)
      modifies this
      ensures r == NextEntry(old(Holds()), rawContents, rawIdx)
      ensures Holds() == Refilled(old(Holds()), rawContents, rawIdx)
    {
      if data != [] { return Ok(rawIdx); }
      if rawIdx >= |rawContents| { return Raised(IndexError); }
      var unpacked: Outcome<seq<Value>>;
      if header.dtype == BYTES {
        unpacked := UnpackBytesLoop(rawContents[rawIdx]);
      } else {
        unpacked := Unpack(header, rawContents[rawIdx]);
      }
      if unpacked.Raised? { return Raised(unpacked.error); }
      data := unpacked.value;
      r := Ok(rawIdx + 1);
    }
  }

  type Holding = map<Tensor, Content>

  function HoldingOf(elems: seq<Tensor>): (now: Holding)
    reads elems
    ensures Covers(now, elems)
  {
    map t | t in elems :: t.Holds()
  }

  predicate Covers(now: Holding, elems: seq<Tensor>) {
    forall i :: 0 <= i < |elems| ==> elems[i] in now
  }

  function ContentsIn(elems: seq<Tensor>, now: Holding): seq<Content>
    requires Covers(now, elems)
  {
    seq(|elems|, i requires 0 <= i < |elems| => now[elems[i]])
  }

  predicate NoAliases(elems: seq<Tensor>) {
    forall i, j :: 0 <= i < j < |elems| ==> elems[i] != elems[j]
  }

  function PackContent(c: Content): Outcome<seq<Byte>> {
    Pack(c.header, c.data)
  }

  /** The first tensor at or after `i` that does not pack. */
  function FirstUnpackable(cs: seq<Content>, i: nat): (n: nat)
    requires i <= |cs|
    ensures i <= n <= |cs|
    ensures forall j :: i <= j < n ==> PackContent(cs[j]).Ok?
    ensures n < |cs| ==> PackContent(cs[n]).Raised?
    decreases |cs| - i
  {
    if i == |cs| || PackContent(cs[i]).Raised? then i else FirstUnpackable(cs, i + 1)
  }

  predicate AllPack(cs: seq<Content>) {
    forall i :: 0 <= i < |cs| ==> PackContent(cs[i]).Ok?
  }

  function RawEntries(cs: seq<Content>): seq<seq<Byte>>
    requires AllPack(cs)
  {
    seq(|cs|, i requires 0 <= i < |cs| => PackContent(cs[i]).value)
  }

  function ExtractResult(cs: seq<Content>): Outcome<seq<seq<Byte>>> {
    var n := FirstUnpackable(cs, 0);
    if n < |cs| then Raised(PackContent(cs[n]).error) else Ok(RawEntries(cs))
  }

  /** The tensors after `extract_raw`: emptied up to the first one that raises. */
  function Extracted(cs: seq<Content>): seq<Content> {
    seq(|cs|, i requires 0 <= i < |cs| => if i < FirstUnpackable(cs, 0) then cs[i].(data := []) else cs[i])
  }

  /** The number of empty tensors among the first `i`. */
  function EmptyBefore(cs: seq<Content>, i: nat): nat
    requires i <= |cs|
  {
    if i == 0 then 0 else EmptyBefore(cs, i - 1) + if cs[i - 1].data == [] then 1 else 0
  }

  /** What a tensor holds once `inject_raw` has got past it: its own data, or else what the next unused
      raw entry unpacks to. */
  function RefillFrom(c: Content, raws: seq<seq<Byte>>, rawIdx: nat): Outcome<seq<Value>> {
    if c.data != [] then Ok(c.data)
    else if rawIdx >= |raws| then Raised(IndexError)
    else Unpack(c.header, raws[rawIdx])
  }

  function Refilled(c: Content, raws: seq<seq<Byte>>, rawIdx: nat): Content {
    match RefillFrom(c, raws, rawIdx)
    case Ok(data) => c.(data := data)
    case Raised(_) => c
  }

  function NextEntry(c: Content, raws: seq<seq<Byte>>, rawIdx: nat): Outcome<nat> {
    match RefillFrom(c, raws, rawIdx)
    case Ok(_) => Ok(if c.data == [] then rawIdx + 1 else rawIdx)
    case Raised(error) => Raised(error)
  }

  function Refill(cs: seq<Content>, raws: seq<seq<Byte>>, i: nat): Outcome<seq<Value>>
    requires i < |cs|
  {
    RefillFrom(cs[i], raws, EmptyBefore(cs, i))
  }

  /** The first tensor at or after `i` that cannot be refilled. */
  function FirstStuck(cs: seq<Content>, raws: seq<seq<Byte>>, i: nat): (n: nat)
    requires i <= |cs|
    ensures i <= n <= |cs|
    ensures forall j :: i <= j < n ==> Refill(cs, raws, j).Ok?
    ensures n < |cs| ==> Refill(cs, raws, n).Raised?
    decreases |cs| - i
  {
    if i == |cs| || Refill(cs, raws, i).Raised? then i else FirstStuck(cs, raws, i + 1)
  }

  function Injected(cs: seq<Content>, raws: seq<seq<Byte>>): seq<Content> {
    seq(|cs|, i requires 0 <= i < |cs| =>
      if i < FirstStuck(cs, raws, 0) then cs[i].(data := Refill(cs, raws, i).value) else cs[i])
  }

  /** The raw entries are those of the first tensors. */
  predicate ArePacked(cs: seq<Content>, raws: seq<seq<Byte>>) {
    && |raws| <= |cs|
    && forall j {:trigger PackContent(cs[j])} :: 0 <= j < |raws| ==> PackContent(cs[j]) == Ok(raws[j])
  }

  /** The loop has come to the `i`-th tensor with these raw entries. */
  predicate ExtractedUpTo(cs: seq<Content>, i: nat, raws: seq<seq<Byte>>, now: seq<Content>) {
    && |raws| == i <= FirstUnpackable(cs, 0) && ArePacked(cs, raws)
    && |now| == |cs| && forall j :: 0 <= j < |cs| ==> now[j] == if j < i then cs[j].(data := []) else cs[j]
  }

  lemma {:induction false} ExtractStep(cs: seq<Content>, i: nat, raws: seq<seq<Byte>>, now: seq<Content>)
    requires i < |cs| && ExtractedUpTo(cs, i, raws, now)
    ensures match PackContent(now[i])
            case Ok(raw) => ExtractedUpTo(cs, i + 1, raws + [raw], now[i := now[i].(data := [])])
            case Raised(error) => now == Extracted(cs) && ExtractResult(cs) == Raised(error)
  {
    assert now[i] == cs[i];
    if PackContent(cs[i]).Raised? { assert i == FirstUnpackable(cs, 0); }
  }

  lemma {:induction false} ExtractedAll(cs: seq<Content>, raws: seq<seq<Byte>>, now: seq<Content>)
    requires ExtractedUpTo(cs, |cs|, raws, now)
    ensures now == Extracted(cs) && ExtractResult(cs) == Ok(raws)
  {
    assert RawEntries(cs) == raws;
  }

  /** The loop of `extract_raw` from the `i`-th tensor on: what the tensors hold afterwards, and the result.
      A tensor that the list holds twice is met empty the second time. */
  function ExtractFrom(elems: seq<Tensor>, now: Holding, i: nat, raws: seq<seq<Byte>>)
    : (Holding, Outcome<seq<seq<Byte>>>)
    requires i <= |elems| && Covers(now, elems)
    decreases |elems| - i
  {
    if i == |elems| then (now, Ok(raws))
    else
      var c := now[elems[i]];
      match PackContent(c)
      case Ok(raw) => ExtractFrom(elems, now[elems[i] := c.(data := [])], i + 1, raws + [raw])
      case Raised(error) => (now, Raised(error))
  }

  lemma {:induction false} SetOne(elems: seq<Tensor>, now: Holding, i: nat, c: Content)
    requires NoAliases(elems) && Covers(now, elems) && i < |elems|
    ensures ContentsIn(elems, now[elems[i] := c]) == ContentsIn(elems, now)[i := c]
  {
  }

  predicate ExtractsTo(elems: seq<Tensor>, cs: seq<Content>, end: (Holding, Outcome<seq<seq<Byte>>>)) {
    Covers(end.0, elems) && ContentsIn(elems, end.0) == Extracted(cs) && end.1 == ExtractResult(cs)
  }

  lemma {:induction false} ExtractFromIs(elems: seq<Tensor>, cs: seq<Content>, now: Holding, i: nat,
                                         raws: seq<seq<Byte>>)
    requires NoAliases(elems) && |elems| == |cs| && Covers(now, elems)
    requires ExtractedUpTo(cs, i, raws, ContentsIn(elems, now))
    ensures ExtractsTo(elems, cs, ExtractFrom(elems, now, i, raws))
    decreases |elems| - i
  {
    if i == |elems| {
      ExtractedAll(cs, raws, ContentsIn(elems, now));
    } else {
      ExtractStep(cs, i, raws, ContentsIn(elems, now));
      var c := now[elems[i]];
      SetOne(elems, now, i, c.(data := []));
      if PackContent(c).Ok? {
        ExtractFromIs(elems, cs, now[elems[i] := c.(data := [])], i + 1, raws + [PackContent(c).value]);
      }
    }
  }

  /** When no tensor is in the list twice, the loop is what the closed forms say. */
  lemma {:induction false} ExtractsEveryTensor(elems: seq<Tensor>, now: Holding)
    requires NoAliases(elems) && Covers(now, elems)
    ensures ExtractsTo(elems, ContentsIn(elems, now), ExtractFrom(elems, now, 0, []))
  {
    ExtractFromIs(elems, ContentsIn(elems, now), now, 0, []);
  }

  function ErrorOf<T>(r: Outcome<T>): Option<Error> {
    if r.Ok? then None else Some(r.error)
  }

  function InjectError(cs: seq<Content>, raws: seq<seq<Byte>>): Option<Error> {
    var n := FirstStuck(cs, raws, 0);
    if n == |cs| then None else Some(Refill(cs, raws, n).error)
  }

  /** The loop has come to the `i`-th tensor, and uses this raw entry next. */
  predicate InjectedUpTo(cs: seq<Content>, raws: seq<seq<Byte>>, i: nat, rawIdx: nat, now: seq<Content>) {
    && |now| == |cs| && i <= FirstStuck(cs, raws, 0) && rawIdx == EmptyBefore(cs, i)
    && forall j: nat {:trigger Refill(cs, raws, j)} {:trigger now[j]} ::
         j < |cs| ==> now[j] == if j < i then Refilled(cs[j], raws, EmptyBefore(cs, j)) else cs[j]
  }

  /** One turn of the loop. */
  lemma {:induction false} InjectStep(cs: seq<Content>, raws: seq<seq<Byte>>, i: nat, rawIdx: nat,
                                      now: seq<Content>)
    requires i < |cs| && InjectedUpTo(cs, raws, i, rawIdx, now)
    ensures now[i] == cs[i]
    ensures var next, after := NextEntry(now[i], raws, rawIdx), now[i := Refilled(now[i], raws, rawIdx)];
            if next.Ok? then InjectedUpTo(cs, raws, i + 1, next.value, after)
            else after == Injected(cs, raws) && InjectError(cs, raws) == Some(next.error)
  {
    assert Refill(cs, raws, i) == RefillFrom(now[i], raws, rawIdx);
    if Refill(cs, raws, i).Raised? {
      assert i == FirstStuck(cs, raws, 0);
      InjectedIs(cs, raws, rawIdx, now);
      assert now[i := now[i]] == now;
    }
  }

  lemma {:induction false} InjectedIs(cs: seq<Content>, raws: seq<seq<Byte>>, rawIdx: nat, now: seq<Content>)
    requires InjectedUpTo(cs, raws, FirstStuck(cs, raws, 0), rawIdx, now)
    ensures now == Injected(cs, raws)
  {
    forall j: nat | j < |cs| ensures now[j] == Injected(cs, raws)[j] {
      if j < FirstStuck(cs, raws, 0) { assert Refill(cs, raws, j).Ok?; }
    }
  }

  /** The loop of `inject_raw` from the `i`-th tensor on: what the tensors hold afterwards, and what it
      raises. */
  function InjectFrom(elems: seq<Tensor>, now: Holding, raws: seq<seq<Byte>>, i: nat, rawIdx: nat)
    : (Holding, Option<Error>)
    requires i <= |elems| && Covers(now, elems)
    decreases |elems| - i
  {
    if i == |elems| then (now, None)
    else
      var c := now[elems[i]];
      match NextEntry(c, raws, rawIdx)
      case Ok(next) => InjectFrom(elems, now[elems[i] := Refilled(c, raws, rawIdx)], raws, i + 1, next)
      case Raised(error) => (now, Some(error))
  }

  predicate InjectsTo(elems: seq<Tensor>, cs: seq<Content>, raws: seq<seq<Byte>>, end: (Holding, Option<Error>)) {
    Covers(end.0, elems) && ContentsIn(elems, end.0) == Injected(cs, raws) && end.1 == InjectError(cs, raws)
  }

  lemma {:induction false} InjectFromIs(elems: seq<Tensor>, cs: seq<Content>, raws: seq<seq<Byte>>, now: Holding,
                                        i: nat, rawIdx: nat)
    requires NoAliases(elems) && |elems| == |cs| && Covers(now, elems)
    requires InjectedUpTo(cs, raws, i, rawIdx, ContentsIn(elems, now))
    ensures InjectsTo(elems, cs, raws, InjectFrom(elems, now, raws, i, rawIdx))
    decreases |elems| - i
  {
    if i == |elems| {
      InjectedIs(cs, raws, rawIdx, ContentsIn(elems, now));
    } else {
      InjectStep(cs, raws, i, rawIdx, ContentsIn(elems, now));
      var c := now[elems[i]];
      SetOne(elems, now, i, Refilled(c, raws, rawIdx));
      var next := NextEntry(c, raws, rawIdx);
      if next.Ok? {
        InjectFromIs(elems, cs, raws, now[elems[i] := Refilled(c, raws, rawIdx)], i + 1, next.value);
      }
    }
  }

  /** When no tensor is in the list twice, the loop is what the closed forms say. */
  lemma {:induction false} InjectsEmptyTensors(elems: seq<Tensor>, now: Holding, raws: seq<seq<Byte>>)
    requires NoAliases(elems) && Covers(now, elems)
    ensures InjectsTo(elems, ContentsIn(elems, now), raws, InjectFrom(elems, now, raws, 0, 0))
  {
    InjectFromIs(elems, ContentsIn(elems, now), raws, now, 0, 0);
  }

  /** The same for the `i`-th tensor of a list, wherever else it is in there. */
  method TakeRawAt(elems: seq<Tensor>, i: nat) returns (raw: Outcome<seq<Byte>>)
    requires i < |elems|
    modifies elems[i]
    ensures raw == PackContent(old(HoldingOf(elems))[elems[i]])
    ensures var before := old(HoldingOf(elems));
            HoldingOf(elems) == if raw.Ok? then before[elems[i] := before[elems[i]].(data := [])] else before
  {
    raw := elems[i].TakeRaw();
  }

  method FillFromAt(elems: seq<Tensor>, i: nat, rawContents: seq<seq<Byte>>, rawIdx: nat)
    returns (next: Outcome<nat>)
    requires i < |elems|
    modifies elems[i]
    ensures next == NextEntry(old(HoldingOf(elems))[elems[i]], rawContents, rawIdx)
    ensures var before := old(HoldingOf(elems));
            HoldingOf(elems) == if next.Ok? then before[elems[i] := Refilled(before[elems[i]], rawContents, rawIdx)]
                                else before
  {
    next := elems[i].FillFrom(rawContents, rawIdx);
  }

  /** Every tensor's data leaves as a raw entry, in order, and every tensor ends up empty; when one
      raises, those before it are empty already and the rest are untouched. */
  method ExtractRaw(elems: seq<Tensor>) returns (r: Outcome<seq<seq<Byte>>>)
    modifies elems
    ensures (HoldingOf(elems), r) == ExtractFrom(elems, old(HoldingOf(elems)), 0, [])
    ensures NoAliases(elems) ==> ExtractsTo(elems, ContentsIn(elems, old(HoldingOf(elems))), (HoldingOf(elems), r))
  {
    ghost var before := HoldingOf(elems);
    if NoAliases(elems) { ExtractsEveryTensor(elems, before); }
    var rawContents: seq<seq<Byte>> := [];
    for i := 0 to |elems|
      invariant ExtractFrom(elems, HoldingOf(elems), i, rawContents) == ExtractFrom(elems, before, 0, [])
    {
      var raw := TakeRawAt(elems, i);
      if raw.Raised? { return Raised(raw.error); }
      rawContents := rawContents + [raw.value];
    }
    r := Ok(rawContents);
  }

  /** The k-th empty tensor takes the k-th raw entry and a filled one keeps its data; entries that are
      left over are ignored. */
  method InjectRaw(elems: seq<Tensor>, rawContents: seq<seq<Byte>>) returns (r: Outcome<seq<Tensor>>)
    modifies elems
    ensures r.Ok? ==> r.value == elems
    ensures (HoldingOf(elems), ErrorOf(r)) == InjectFrom(elems, old(HoldingOf(elems)), rawContents, 0, 0)
    ensures NoAliases(elems) ==>
              InjectsTo(elems, ContentsIn(elems, old(HoldingOf(elems))), rawContents, (HoldingOf(elems), ErrorOf(r)))
  {
    ghost var before := HoldingOf(elems);
    if NoAliases(elems) { InjectsEmptyTensors(elems, before, rawContents); }
    var rawIdx := 0;
    for i := 0 to |elems|
      invariant InjectFrom(elems, HoldingOf(elems), rawContents, i, rawIdx)
             == InjectFrom(elems, before, rawContents, 0, 0)
    {
      var next := FillFromAt(elems, i, rawContents, rawIdx);
      if next.Raised? { return Raised(next.error); }
      rawIdx := next.value;
    }
    r := Ok(elems);
  }

  // ---------- Round trips over lists ----------

  lemma {:induction false} AllEmptyBefore(cs: seq<Content>, i: nat)
    requires i <= |cs| && forall j :: 0 <= j < |cs| ==> cs[j].data == []
    ensures EmptyBefore(cs, i) == i
  {
    if i > 0 { AllEmptyBefore(cs, i - 1); }
  }

  /** Injecting what was extracted gives every tensor its data back, exactly when the bool tensors
      hold only 0 and 1. */
  lemma {:induction false} InjectUndoesExtractExactly(cs: seq<Content>)
    requires AllPack(cs)
    ensures FirstStuck(Extracted(cs), RawEntries(cs), 0) == |cs|
    ensures Injected(Extracted(cs), RawEntries(cs)) == cs
        <==> forall i :: 0 <= i < |cs| ==> AllCanonical(cs[i].header.dtype, cs[i].data)
  {
    var emptied, raws := Extracted(cs), RawEntries(cs);
    forall i: nat | i < |cs|
      ensures Refill(emptied, raws, i).Ok?
      ensures Refill(emptied, raws, i) == Ok(cs[i].data) <==> AllCanonical(cs[i].header.dtype, cs[i].data)
    {
      AllEmptyBefore(emptied, i);
      UnpackUndoesPackExactly(cs[i].header, cs[i].data);
    }
    var back := Injected(emptied, raws);
    assert forall i :: 0 <= i < |cs| ==> (back[i] == cs[i] <==> Refill(emptied, raws, i) == Ok(cs[i].data));
  }

  /** Extracting what was injected into empty tensors gives the raw entries back, exactly when those of
      the bool tensors hold only the bytes 0 and 1. */
  lemma {:induction false} ExtractUndoesInjectExactly(cs: seq<Content>, raws: seq<seq<Byte>>)
    requires |raws| == |cs| && forall i :: 0 <= i < |cs| ==> cs[i].data == []
    requires FirstStuck(cs, raws, 0) == |cs|
    ensures AllPack(Injected(cs, raws))
    ensures RawEntries(Injected(cs, raws)) == raws
        <==> forall i :: 0 <= i < |cs| ==> CanonicalBytes(cs[i].header.dtype, raws[i])
  {
    var filled := Injected(cs, raws);
    forall i: nat | i < |cs|
      ensures PackContent(filled[i]).Ok?
      ensures PackContent(filled[i]) == Ok(raws[i]) <==> CanonicalBytes(cs[i].header.dtype, raws[i])
    {
      AllEmptyBefore(cs, i);
      assert Refill(cs, raws, i).Ok?;
      PackUndoesUnpackExactly(cs[i].header, raws[i]);
    }
    assert forall i :: 0 <= i < |cs| ==> (RawEntries(filled)[i] == raws[i] <==> PackContent(filled[i]) == Ok(raws[i]));
  }

  lemma {:induction false} EmptiesGrow(cs: seq<Content>, i: nat, n: nat)
    requires i <= n <= |cs|
    ensures EmptyBefore(cs, i) <= EmptyBefore(cs, n)
  {
    if i < n { EmptiesGrow(cs, i, n - 1); }
  }

  /** Injection succeeds exactly when there is a raw entry for every empty tensor, and the k-th of them
      unpacks for the k-th empty tensor. */
  lemma {:induction false} InjectSucceedsExactly(cs: seq<Content>, raws: seq<seq<Byte>>)
    ensures FirstStuck(cs, raws, 0) == |cs|
        <==> && EmptyBefore(cs, |cs|) <= |raws|
             && forall i: nat :: i < |cs| && cs[i].data == [] && EmptyBefore(cs, i) < |raws| ==>
                                   Unpack(cs[i].header, raws[EmptyBefore(cs, i)]).Ok?
  {
    var n := FirstStuck(cs, raws, 0);
    if n == |cs| {
      forall i: nat | i < |cs| && cs[i].data == [] && EmptyBefore(cs, i) < |raws|
        ensures Unpack(cs[i].header, raws[EmptyBefore(cs, i)]).Ok?
      {
        assert Refill(cs, raws, i).Ok?;
      }
      EnoughEntries(cs, raws, |cs|);
    } else {
      EmptiesGrow(cs, n + 1, |cs|);
    }
  }

  lemma {:induction false} EnoughEntries(cs: seq<Content>, raws: seq<seq<Byte>>, n: nat)
    requires n <= |cs| && forall i: nat :: i < n ==> Refill(cs, raws, i).Ok?
    ensures EmptyBefore(cs, n) <= |raws|
  {
    if n > 0 {
      EnoughEntries(cs, raws, n - 1);
      assert Refill(cs, raws, n - 1).Ok?;
    }
  }
}
