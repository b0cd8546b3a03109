/** mlserver/raw.py:11-26, 39-101: the bytes of every datatype, in numbers: which values a format takes,
    which bytes it writes, and how long a buffer has to be. */
module RawFormats {
  import opened OrderedDict
  import opened Shapes
  import opened RawBytes
  import opened RawTensors

  // ---------- Little-endian bytes of signed numbers ----------

  /** The lowest bytes of a number in two's complement. */
  function LowBytes(n: int, width: nat): (r: seq<Byte>)
    ensures |r| == width
    decreases width
  {
    if width == 0 then [] else [n % 256] + LowBytes(n / 256, width - 1)
  }

  lemma {:induction false} NaturalsAreLow(n: nat, width: nat)
    ensures LeBytes(n, width) == LowBytes(n, width)
  {
    if width > 0 { NaturalsAreLow(n / 256, width - 1); }
  }

  lemma {:induction false} NegativesAreLow(n: int, width: nat)
    requires -(Span(width) as int) <= n < 0
    ensures LeBytes(n + Span(width), width) == LowBytes(n, width)
    decreases width
  {
    if width > 0 {
      assert n + Span(width) == n + 256 * Span(width - 1);
      assert (n + Span(width)) % 256 == n % 256 && (n + Span(width)) / 256 == n / 256 + Span(width - 1);
      NegativesAreLow(n / 256, width - 1);
    }
  }

  lemma {:induction false} EncodesLow(width: nat, n: int)
    requires -(Span(width) as int) <= n
    ensures EncodeNumber(width, n) == LowBytes(n, width)
  {
    if n < 0 { NegativesAreLow(n, width); } else { NaturalsAreLow(n, width); }
  }

  function Two(n: int): seq<Byte> {
    [n % 256, n / 256 % 256]
  }

  function Four(n: int): seq<Byte> {
    [n % 256, n / 256 % 256, n / 65536 % 256, n / 16777216 % 256]
  }

  function Eight(n: int): seq<Byte> {
    [n % 256, n / 256 % 256, n / 65536 % 256, n / 16777216 % 256,
     n / 4294967296 % 256, n / 1099511627776 % 256, n / 281474976710656 % 256, n / 72057594037927936 % 256]
  }

  lemma {:induction false} LowTwo(n: int)
    ensures LowBytes(n, 2) == Two(n)
  {
    assert LowBytes(n / 256, 1) == [n / 256 % 256];
  }

  lemma {:induction false} LowFour(n: int)
    ensures LowBytes(n, 4) == Four(n)
  {
    assert n / 256 / 256 == n / 65536 && n / 65536 / 256 == n / 16777216;
    LowTwo(n / 65536);
    assert LowBytes(n / 256, 3) == [n / 256 % 256] + LowBytes(n / 65536, 2);
  }

  lemma {:induction false} LowEight(n: int)
    ensures LowBytes(n, 8) == Eight(n)
  {
    var b, c, d, high := n / 256, n / 65536, n / 16777216, n / 4294967296;
    LowFour(n);
    LowFour(high);
    assert b / 256 == c && c / 256 == d && d / 256 == high;
    assert LowBytes(d, 5) == [d % 256] + LowBytes(high, 4);
    assert LowBytes(c, 6) == [c % 256] + LowBytes(d, 5);
    assert LowBytes(b, 7) == [b % 256] + LowBytes(c, 6);
    FourAndFour(n, high);
  }

  lemma {:induction false} FourAndFour(n: int, high: int)
    requires high == n / 4294967296
    ensures Four(n) + Four(high) == Eight(n)
  {
    assert high / 256 == n / 1099511627776;
    assert high / 65536 == n / 281474976710656;
    assert high / 16777216 == n / 72057594037927936;
  }

  // ---------- One value ----------

  lemma {:induction false} Spans()
    ensures Span(1) == 256 && Span(2) == 65536 && Span(4) == 4294967296 && Span(8) == 18446744073709551616
  {
    assert Span(3) == 16777216 && Span(5) == 1099511627776 && Span(6) == 281474976710656;
    assert Span(7) == 72057594037927936;
  }

  lemma {:induction false} FlatOne(chunk: seq<Byte>)
    ensures Flat([chunk], |chunk|) == chunk
  {
    assert [chunk][1..] == [];
  }

  lemma {:induction false} PacksOne(d: Datatype, value: Value)
    requires d != BYTES
    ensures Pack(Header(d, [1]), [value]).Ok? <==> Fits(d, value)
    ensures Fits(d, value) ==> Pack(Header(d, [1]), [value]) == Ok(Encode(d, value))
  {
    assert Product([1]) == 1;
    if Fits(d, value) {
      assert Encoded(d, [value]) == [Encode(d, value)];
      FlatOne(Encode(d, value));
    }
  }

  /** A number is taken exactly in the range of the datatype, a float as its bit pattern. */
  lemma {:induction false} PackTakesExactly(d: Datatype, n: int)
    requires d != BYTES
    ensures Pack(Header(d, [1]), [Scalar(n)]).Ok? <==>
            match d
            case BOOL => true
            case UINT8 => 0 <= n < 256
            case UINT16 => 0 <= n < 65536
            case UINT32 => 0 <= n < 4294967296
            case UINT64 => 0 <= n < 18446744073709551616
            case INT8 => -128 <= n < 128
            case INT16 => -32768 <= n < 32768
            case INT32 => -2147483648 <= n < 2147483648
            case INT64 => -9223372036854775808 <= n < 9223372036854775808
            case FP16 => 0 <= n < 65536
            case FP32 => 0 <= n < 4294967296
            case FP64 => 0 <= n < 18446744073709551616
  {
    Spans();
    PacksOne(d, Scalar(n));
  }

  /** The bytes that are written, lowest first, negative numbers in two's complement. */
  lemma {:induction false} PackWrites(d: Datatype, n: int)
    requires d != BYTES && Pack(Header(d, [1]), [Scalar(n)]).Ok?
    ensures Pack(Header(d, [1]), [Scalar(n)]).value ==
            match d
            case BOOL => [if n != 0 then 1 else 0]
            case UINT8 => [n % 256]
            case INT8 => [n % 256]
            case UINT16 => Two(n)
            case INT16 => Two(n)
            case FP16 => Two(n)
            case UINT32 => Four(n)
            case INT32 => Four(n)
            case FP32 => Four(n)
            case UINT64 => Eight(n)
            case INT64 => Eight(n)
            case FP64 => Eight(n)
  {
    if d == BOOL {
      PacksOne(d, Scalar(n));
    } else {
      PackWritesLow(d, n);
      if Width(d) == 2 { LowTwo(n); }
      if Width(d) == 4 { LowFour(n); }
      if Width(d) == 8 { LowEight(n); }
    }
  }

  lemma {:induction false} PackWritesLow(d: Datatype, n: int)
    requires d != BYTES && d != BOOL && Pack(Header(d, [1]), [Scalar(n)]).Ok?
    ensures Pack(Header(d, [1]), [Scalar(n)]).value == LowBytes(n, Width(d))
  {
    PacksOne(d, Scalar(n));
    EncodesLow(Width(d), n);
  }

  /** A byte string is taken by bool formats alone, for true unless it is empty. */
  lemma {:induction false} PackTakesBlobs(d: Datatype, bytes: seq<Byte>)
    requires d != BYTES
    ensures Pack(Header(d, [1]), [Blob(bytes)])
         == if d == BOOL then Ok([if bytes != [] then 1 else 0]) else Raised(StructError)
  {
    PacksOne(d, Blob(bytes));
  }

  // ---------- Whole tensors ----------

  lemma {:induction false} FlatSplits(a: seq<seq<Byte>>, b: seq<seq<Byte>>, width: nat)
    requires AllOfWidth(a, width) && AllOfWidth(b, width)
    ensures AllOfWidth(a + b, width) && Flat(a + b, width) == Flat(a, width) + Flat(b, width)
  {
    if a == [] {
      assert a + b == b;
    } else {
      FlatSplits(a[1..], b, width);
      assert (a + b)[1..] == a[1..] + b;
    }
  }

  /** A tensor packs exactly when it has as many values as its shape says and each of them packs; what is
      written does not depend on the shape beyond that. */
  lemma {:induction false} PacksExactly(d: Datatype, shape: seq<nat>, data: seq<Value>)
    requires d != BYTES
    ensures Pack(Header(d, shape), data).Ok? <==>
            && |data| == Product(shape)
            && forall i :: 0 <= i < |data| ==> Pack(Header(d, [1]), [data[i]]).Ok?
    ensures Pack(Header(d, shape), data).Raised? ==> Pack(Header(d, shape), data).error == StructError
    ensures |data| == Product(shape) ==> Pack(Header(d, shape), data) == Pack(Header(d, [|data|]), data)
  {
    assert Product([|data|]) == |data|;
    forall i | 0 <= i < |data| ensures Pack(Header(d, [1]), [data[i]]).Ok? <==> Fits(d, data[i]) {
      PacksOne(d, data[i]);
    }
  }

  /** The bytes of two lists of values are those of the one and then those of the other. */
  lemma {:induction false} PackConcatenates(d: Datatype, a: seq<Value>, b: seq<Value>)
    requires d != BYTES && Pack(Header(d, [|a|]), a).Ok? && Pack(Header(d, [|b|]), b).Ok?
    ensures Pack(Header(d, [|a + b|]), a + b)
         == Ok(Pack(Header(d, [|a|]), a).value + Pack(Header(d, [|b|]), b).value)
  {
    assert Product([|a + b|]) == |a + b|;
    EncodeAllSplits(d, a, b);
  }

  lemma {:induction false} EncodeAllSplits(d: Datatype, a: seq<Value>, b: seq<Value>)
    requires d != BYTES && AllFit(d, a) && AllFit(d, b)
    ensures AllFit(d, a + b) && EncodeAll(d, a + b) == EncodeAll(d, a) + EncodeAll(d, b)
  {
    EncodedSplits(d, a, b);
    FlatSplits(Encoded(d, a), Encoded(d, b), Width(d));
  }

  lemma {:induction false} EncodedSplits(d: Datatype, a: seq<Value>, b: seq<Value>)
    requires d != BYTES && AllFit(d, a) && AllFit(d, b)
    ensures AllFit(d, a + b) && Encoded(d, a + b) == Encoded(d, a) + Encoded(d, b)
  {
    var both := a + b;
    assert forall i :: 0 <= i < |both| ==> both[i] == if i < |a| then a[i] else b[i - |a|];
    assert AllFit(d, both);
    forall i | 0 <= i < |both| ensures Encoded(d, both)[i] == (Encoded(d, a) + Encoded(d, b))[i] {
    }
  }

  /** A buffer is accepted exactly when it has the bytes of as many values as the shape says. */
  lemma {:induction false} UnpackTakesExactly(d: Datatype, shape: seq<nat>, raw: seq<Byte>)
    requires d != BYTES
    ensures Unpack(Header(d, shape), raw).Ok? <==>
            match d
            case BOOL => |raw| == Product(shape)
            case UINT8 => |raw| == Product(shape)
            case INT8 => |raw| == Product(shape)
            case UINT16 => |raw| == 2 * Product(shape)
            case INT16 => |raw| == 2 * Product(shape)
            case FP16 => |raw| == 2 * Product(shape)
            case UINT32 => |raw| == 4 * Product(shape)
            case INT32 => |raw| == 4 * Product(shape)
            case FP32 => |raw| == 4 * Product(shape)
            case UINT64 => |raw| == 8 * Product(shape)
            case INT64 => |raw| == 8 * Product(shape)
            case FP64 => |raw| == 8 * Product(shape)
    ensures match Unpack(Header(d, shape), raw)
            case Ok(data) => |data| == Product(shape)
            case Raised(error) => error == StructError
  {
    AreaIsProduct(Product(shape), Width(d));
  }

  // ---------- BYTES ----------

  /** The layout of one element: its length as four bytes, lowest first, and its bytes. */
  lemma {:induction false} FrameLayout(header: Header, bytes: seq<Byte>)
    requires header.dtype == BYTES
    ensures var n := |bytes|;
            Pack(header, [Blob(bytes)])
            == if n < 4294967296 then Ok(Four(n) + bytes)
               else Raised(StructError)
  {
    Spans();
    NaturalsAreLow(|bytes|, 4);
    LowFour(|bytes|);
    FrameOne(Blob(bytes));
  }

  lemma {:induction false} FrameOne(value: Value)
    ensures AllFramable([value]) <==> Framable(value)
    ensures Framable(value) ==> Frames([value]) == Frame(value.bytes)
    ensures !Framable(value) ==> FrameError([value]) == if value.Scalar? then TypeError else StructError
  {
    var values := [value];
    assert values[0] == value && values[1..] == [];
    if Framable(value) { assert Frames(values) == Frame(value.bytes) + Frames([]); }
  }

  lemma {:induction false} BothFramable(a: seq<Value>, b: seq<Value>)
    ensures AllFramable(a + b) <==> AllFramable(a) && AllFramable(b)
  {
    assert forall i :: 0 <= i < |a| ==> (a + b)[i] == a[i];
    assert forall i :: 0 <= i < |b| ==> (a + b)[|a| + i] == b[i];
  }

  lemma {:induction false} FrameFirst(first: Value, rest: seq<Value>)
    requires Framable(first) && AllFramable(rest)
    ensures AllFramable([first] + rest) && Frames([first] + rest) == Frame(first.bytes) + Frames(rest)
  {
    assert ([first] + rest)[1..] == rest;
  }

  lemma {:induction false} FramesConcatenate(a: seq<Value>, b: seq<Value>)
    requires AllFramable(a) && AllFramable(b)
    ensures AllFramable(a + b) && Frames(a + b) == Frames(a) + Frames(b)
  {
    if a == [] {
      assert a + b == b;
    } else {
      FramesConcatenate(a[1..], b);
      assert a == [a[0]] + a[1..];
      FirstConcatenates(a[0], a[1..], b);
    }
  }

  lemma {:induction false} FirstConcatenates(first: Value, rest: seq<Value>, b: seq<Value>)
    requires Framable(first) && AllFramable(rest) && AllFramable(b)
    requires AllFramable(rest + b) && Frames(rest + b) == Frames(rest) + Frames(b)
    ensures AllFramable([first] + rest) && AllFramable([first] + rest + b)
    ensures Frames([first] + rest + b) == Frames([first] + rest) + Frames(b)
  {
    FrameFirst(first, rest);
    FrameFirst(first, rest + b);
    assert [first] + rest + b == [first] + (rest + b);
    Joined(Frame(first.bytes), Frames(rest), Frames(b));
  }

  lemma {:induction false} Joined(a: seq<Byte>, b: seq<Byte>, c: seq<Byte>)
    ensures a + b + c == a + (b + c)
  {
  }

  lemma {:induction false} ErrorsFollow(a: seq<Value>, b: seq<Value>)
    requires !AllFramable(a + b)
    ensures AllFramable(a) ==> !AllFramable(b) && FrameError(a + b) == FrameError(b)
    ensures !AllFramable(a) ==> FrameError(a + b) == FrameError(a)
  {
    if a == [] {
      assert a + b == b;
    } else {
      assert (a + b)[1..] == a[1..] + b && (a + b)[0] == a[0];
      FramableSplits(a + b);
      FramableSplits(a);
      if Framable(a[0]) { ErrorsFollow(a[1..], b); }
    }
  }

  /** The elements follow one another; the first that cannot be written decides the error. */
  lemma {:induction false} FramesFollow(header: Header, a: seq<Value>, b: seq<Value>)
    requires header.dtype == BYTES
    ensures Pack(header, []) == Ok([])
    ensures Pack(header, a + b)
         == match Pack(header, a)
            case Raised(error) => Raised(error)
            case Ok(first) => match Pack(header, b)
                              case Raised(error) => Raised(error)
                              case Ok(second) => Ok(first + second)
  {
    BothFramable(a, b);
    if AllFramable(a) && AllFramable(b) { FramesConcatenate(a, b); } else { ErrorsFollow(a, b); }
  }

  lemma {:induction false} FramableSplits(values: seq<Value>)
    ensures values != [] ==> (AllFramable(values) <==> Framable(values[0]) && AllFramable(values[1..]))
  {
    if values != [] { assert forall i :: 1 <= i < |values| ==> values[i] == values[1..][i - 1]; }
  }

  /** A number has no length. */
  lemma {:induction false} NumbersHaveNoFrame(header: Header, n: int)
    requires header.dtype == BYTES
    ensures Pack(header, [Scalar(n)]) == Raised(TypeError)
  {
    FrameOne(Scalar(n));
  }

  lemma {:induction false} CutShortIsStructError(header: Header, raw: seq<Byte>)
    requires header.dtype == BYTES && Unpack(header, raw).Raised?
    ensures Unpack(header, raw).error == StructError
    decreases |raw|
  {
    if |raw| >= 4 {
      var size := LeNat(raw[..4]);
      if |raw| - 4 >= size && UnpackBytes(raw[4 + size..]).Raised? { CutShortIsStructError(header, raw[4 + size..]); }
    }
  }

  // ---------- Injecting ----------

  lemma {:induction false} UnpackErrors(header: Header, raw: seq<Byte>)
    requires Unpack(header, raw).Raised?
    ensures Unpack(header, raw).error == StructError
  {
    if header.dtype == BYTES { CutShortIsStructError(header, raw); }
  }

  /** Injecting raises an index error exactly when it comes to an empty tensor that there is no entry for, and a
      struct error exactly when it comes to an entry that does not unpack for its tensor. */
  lemma {:induction false} InjectErrorsExactly(cs: seq<Content>, raws: seq<seq<Byte>>)
    ensures var n := FirstStuck(cs, raws, 0);
            && (n < |cs| ==> cs[n].data == [] && EmptyBefore(cs, n) <= |raws|)
            && InjectError(cs, raws) ==
                 (if n == |cs| then None
                  else if EmptyBefore(cs, n) == |raws| then Some(IndexError) else Some(StructError))
  {
    var n := FirstStuck(cs, raws, 0);
    if n < |cs| {
      EnoughEntries(cs, raws, n);
      if EmptyBefore(cs, n) < |raws| { UnpackErrors(cs[n].header, raws[EmptyBefore(cs, n)]); }
    }
  }
}
