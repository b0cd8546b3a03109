/** mlserver/batching/shape.py: a tensor shape whose axis 0 is the batch. */
module Shapes {

  /** `reduce(mul, dims, 1)` */
  function Product(dims: seq<nat>): nat {
    if dims == [] then 1 else Product(dims[..|dims| - 1]) * dims[|dims| - 1]
  }

  /** The number of items of one datapoint: the product of every axis but the first. */
  function ElemSize(dims: seq<nat>): nat
    requires dims != []
  {
    Product(dims[1..])
  }

  /** A tensor holds one element per datapoint: the whole product is batch size times element size. */
  lemma {:induction false} ProductSplitsBatchAxis(dims: seq<nat>)
    requires dims != []
    ensures Product(dims) == dims[0] * ElemSize(dims)
  {
    if |dims| == 1 {
      assert dims[..0] == [] && dims[1..] == [];
    } else {
      var init, last := dims[..|dims| - 1], dims[|dims| - 1];
      ProductSplitsBatchAxis(init);
      assert dims[1..][..|dims[1..]| - 1] == init[1..];
      assert dims[0] * Product(init[1..]) * last == dims[0] * (Product(init[1..]) * last);
    }
  }

  /** The number of items of `rows` rows with `width` items each. */
  function Area(rows: nat, width: nat): nat {
    if rows == 0 then 0 else width + Area(rows - 1, width)
  }

  lemma {:induction false} AreaIsProduct(rows: nat, width: nat)
    ensures Area(rows, width) == rows * width
  {
    if rows > 0 {
      AreaIsProduct(rows - 1, width);
      assert rows * width == width + (rows - 1) * width;
    }
  }

  lemma {:induction false} AreaAdds(a: nat, b: nat, width: nat)
    ensures Area(a + b, width) == Area(a, width) + Area(b, width)
  {
    if a > 0 { AreaAdds(a - 1, b, width); }
  }

  class Shape {
    var dims: seq<nat>

    constructor (dims: seq<nat>)
      ensures this.dims == dims
    {
      this.dims := dims;
    }

    function BatchSize(): nat
      requires dims != []
      reads this
    {
      dims[0]
    }

    /** Pops axis 0 and inserts the new size in its place. */
    method SetBatchSize(newSize: nat)
      requires dims != []
      modifies this
      ensures dims == [newSize] + old(dims)[1..]
      ensures BatchSize() == newSize && ElemSize(dims) == old(ElemSize(dims))
      ensures Product(dims) == newSize * old(ElemSize(dims))
    {
      dims := dims[1..];
      dims := [newSize] + dims;
      assert dims[1..] == old(dims)[1..];
      ProductSplitsBatchAxis(dims);
    }

    /** Multiplies up a local copy without the batch axis. */
    method ElemSizeOf() returns (size: nat)
      requires dims != []
      ensures size == ElemSize(dims)
    {
      var rest := dims[1..];
      size := 1;
      for i := 0 to |rest|
        invariant size == Product(rest[..i])
      {
        assert rest[..i + 1][..i] == rest[..i];
        size := size * rest[i];
      }
      assert rest[..|rest|] == rest;
    }
  }
}
