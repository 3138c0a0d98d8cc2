/** Contiguous row-major tensors (a flat sequence plus its shape) and the
    torch reshaping operations the predictor uses: `permute((0, 2, 3, 1))`,
    `reshape((batch, -1))` / `view(batch, -1)`, `cat` along axis 1 of 2-d
    tensors, `reshape((-1, N, K))` and `cat` along axis 2 of 3-d tensors.
    Each is stated by where it puts every element (an `...At` lemma) and by
    the fact that it only moves elements (a `...Multiset` lemma). */
module Tensors {
  import opened Arith
  import opened Seqs

  /** A shape-(d0, d1, d2, d3) tensor stored contiguously: `d0` items of `d1 * d2 * d3` elements. */
  datatype Tensor4<T> = Tensor4(d0: nat, d1: nat, d2: nat, d3: nat, data: seq<T>) {
    predicate Valid() { |data| == Mul(d0, ItemSize()) }

    /** Number of elements of one batch item. */
    function ItemSize(): nat { Mul(Mul(d1, d2), d3) }

    /** Offset of (i1, i2, i3) inside an item: `(i1 * d2 + i2) * d3 + i3`. */
    function ItemIndex(i1: nat, i2: nat, i3: nat): (q: nat)
      requires i1 < d1 && i2 < d2 && i3 < d3
      ensures q < ItemSize()
    {
      IndexBound(i1, d1, i2, d2);
      IndexBound(Flat(i1, d2, i2), Mul(d1, d2), i3, d3);
      Flat(Flat(i1, d2, i2), d3, i3)
    }

    /** Element (i0, i1, i2, i3). */
    function At(i0: nat, i1: nat, i2: nat, i3: nat): T
      requires Valid() && i0 < d0 && i1 < d1 && i2 < d2 && i3 < d3
    {
      IndexBound(i0, d0, ItemIndex(i1, i2, i3), ItemSize());
      data[Flat(i0, ItemSize(), ItemIndex(i1, i2, i3))]
    }
  }

  /** A shape-(d0, d1) tensor stored contiguously. */
  datatype Tensor2<T> = Tensor2(d0: nat, d1: nat, data: seq<T>) {
    predicate Valid() { |data| == Mul(d0, d1) }

    function At(i0: nat, i1: nat): T
      requires Valid() && i0 < d0 && i1 < d1
    {
      IndexBound(i0, d0, i1, d1);
      data[Flat(i0, d1, i1)]
    }

    /** Row `i0`. */
    function Row(i0: nat): (r: seq<T>)
      requires Valid() && i0 < d0
      ensures |r| == d1
    {
      Chunk(data, d1, d0, i0)
    }
  }

  /** A shape-(d0, d1, d2) tensor stored contiguously. */
  datatype Tensor3<T> = Tensor3(d0: nat, d1: nat, d2: nat, data: seq<T>) {
    predicate Valid() { |data| == Mul(d0, Mul(d1, d2)) }

    function At(i0: nat, i1: nat, i2: nat): T
      requires Valid() && i0 < d0 && i1 < d1 && i2 < d2
    {
      IndexBound(i1, d1, i2, d2);
      IndexBound(i0, d0, Flat(i1, d2, i2), Mul(d1, d2));
      data[Flat(i0, Mul(d1, d2), Flat(i1, d2, i2))]
    }
  }

  // ---------------------------------------------------------------------------
  // permute((0, 2, 3, 1)).contiguous()

  /** Offset of channel `c` of cell `q` of item `n` in the stored (channel-first) order. */
  function PixelIndex<T>(t: Tensor4<T>, n: nat, c: nat, q: nat): (k: nat)
    requires t.Valid() && n < t.d0 && c < t.d1 && q < Mul(t.d2, t.d3)
    ensures k < |t.data|
  {
    IndexBound(c, t.d1, q, Mul(t.d2, t.d3));
    MulAssoc(t.d1, t.d2, t.d3);
    IndexBound(n, t.d0, Flat(c, Mul(t.d2, t.d3), q), t.ItemSize());
    Flat(n, t.ItemSize(), Flat(c, Mul(t.d2, t.d3), q))
  }

  /** The `d1` values of batch item `n` at spatial position `q` (row-major over
      axes 2 and 3): the channel vector of one cell. */
  function Pixel<T>(t: Tensor4<T>, n: nat, q: nat): (r: seq<T>)
    requires t.Valid() && n < t.d0 && q < Mul(t.d2, t.d3)
    ensures |r| == t.d1
  {
    seq(t.d1, c requires 0 <= c < t.d1 => t.data[PixelIndex(t, n, c, q)])
  }

  /** The channel vector of every cell of batch item `n`, cells in row-major order. */
  function Pixels<T>(t: Tensor4<T>, n: nat): (r: seq<seq<T>>)
    requires t.Valid() && n < t.d0
    ensures |r| == Mul(t.d2, t.d3) && forall q :: 0 <= q < |r| ==> |r[q]| == t.d1
  {
    seq(Mul(t.d2, t.d3), q requires 0 <= q < Mul(t.d2, t.d3) => Pixel(t, n, q))
  }

  /** Batch item `n` with the channel axis moved last: cell by cell, each cell's channel vector. */
  function ChannelLast<T>(t: Tensor4<T>, n: nat): (r: seq<T>)
    requires t.Valid() && n < t.d0
    ensures |r| == Mul(Mul(t.d2, t.d3), t.d1)
  {
    ConcatUniformLength(Pixels(t, n), t.d1);
    Concat(Pixels(t, n))
  }

  /** Every batch item in channel-last order. */
  function ChannelLastItems<T>(t: Tensor4<T>): (r: seq<seq<T>>)
    requires t.Valid()
    ensures |r| == t.d0 && forall n :: 0 <= n < t.d0 ==> |r[n]| == Mul(Mul(t.d2, t.d3), t.d1)
  {
    seq(t.d0, n requires 0 <= n < t.d0 => ChannelLast(t, n))
  }

  /** `t.permute((0, 2, 3, 1)).contiguous()`: shape (d0, d2, d3, d1). */
  function Permute0231<T>(t: Tensor4<T>): (r: Tensor4<T>)
    requires t.Valid()
    ensures r.Valid()
    ensures r.d0 == t.d0 && r.d1 == t.d2 && r.d2 == t.d3 && r.d3 == t.d1
  {
    ConcatUniformLength(ChannelLastItems(t), Mul(Mul(t.d2, t.d3), t.d1));
    Tensor4(t.d0, t.d2, t.d3, t.d1, Concat(ChannelLastItems(t)))
  }

  /** Element (n, c, h, w) of `t` is element (n, h, w, c) of the permuted tensor. */
  lemma PermuteAt<T>(t: Tensor4<T>, n: nat, c: nat, h: nat, w: nat)
    requires t.Valid() && n < t.d0 && c < t.d1 && h < t.d2 && w < t.d3
    ensures Permute0231(t).At(n, h, w, c) == t.At(n, c, h, w)
  {
    var p := Permute0231(t);
    var idx := p.ItemIndex(h, w, c);
    ConcatUniformAt(ChannelLastItems(t), p.ItemSize(), n, idx);
    ChannelLastAt(t, n, c, h, w);
  }

  /** Element (n, c, h, w) is entry `(h * d3 + w) * d1 + c` of batch item `n` in channel-last order. */
  lemma ChannelLastAt<T>(t: Tensor4<T>, n: nat, c: nat, h: nat, w: nat)
    requires t.Valid() && n < t.d0 && c < t.d1 && h < t.d2 && w < t.d3
    ensures Flat(Flat(h, t.d3, w), t.d1, c) < |ChannelLast(t, n)|
    ensures ChannelLast(t, n)[Flat(Flat(h, t.d3, w), t.d1, c)] == t.At(n, c, h, w)
  {
    var q := Flat(h, t.d3, w);
    IndexBound(h, t.d2, w, t.d3);
    ConcatUniformAt(Pixels(t, n), t.d1, q, c);
    FlatNest(c, t.d2, h, t.d3, w);
  }

  /** Permuting moves elements and changes none: the same multiset. */
  lemma PermuteMultiset<T>(t: Tensor4<T>)
    requires t.Valid()
    ensures multiset(Permute0231(t).data) == multiset(t.data)
  {
    var items := ChannelLastItems(t);
    var blocks := ItemBlocks(t);
    ChunksConcat(t.data, t.ItemSize(), t.d0);
    ConcatMultiset(items);
    ConcatMultiset(blocks);
    forall n | 0 <= n < t.d0 ensures Multisets(items)[n] == Multisets(blocks)[n] {
      ItemMultiset(t, n);
    }
    assert Multisets(items) == Multisets(blocks);
  }

  /** The batch items of `t` in their stored (channel-first) order. */
  function ItemBlocks<T>(t: Tensor4<T>): (r: seq<seq<T>>)
    requires t.Valid()
    ensures |r| == t.d0 && forall n :: 0 <= n < t.d0 ==> |r[n]| == t.ItemSize()
  {
    Chunks(t.data, t.ItemSize(), t.d0)
  }

  /** The channel planes of batch item `n`, each in row-major order. */
  function Planes<T>(t: Tensor4<T>, n: nat): (r: seq<seq<T>>)
    requires t.Valid() && n < t.d0
    ensures |r| == t.d1 && forall c :: 0 <= c < t.d1 ==> |r[c]| == Mul(t.d2, t.d3)
  {
    MulAssoc(t.d1, t.d2, t.d3);
    Chunks(ItemBlocks(t)[n], Mul(t.d2, t.d3), t.d1)
  }

  /** Singleton multisets of the entries of batch item `n`, by channel then cell. */
  ghost function PlaneGrid<T>(t: Tensor4<T>, n: nat): (g: seq<seq<multiset<T>>>)
    requires t.Valid() && n < t.d0
    ensures |g| == t.d1 && forall c :: 0 <= c < t.d1 ==> |g[c]| == Mul(t.d2, t.d3)
  {
    var planes := Planes(t, n);
    seq(t.d1, c requires 0 <= c < t.d1 =>
      seq(Mul(t.d2, t.d3), q requires 0 <= q < Mul(t.d2, t.d3) => multiset{planes[c][q]}))
  }

  /** One batch item keeps its elements when its channel axis moves last. */
  lemma ItemMultiset<T>(t: Tensor4<T>, n: nat)
    requires t.Valid() && n < t.d0
    ensures multiset(ChannelLast(t, n)) == multiset(ItemBlocks(t)[n])
  {
    var g := PlaneGrid(t, n);
    MSumSwap(g, Mul(t.d2, t.d3));
    GridRows(t, n);
    GridColumns(t, n);
    ConcatMultiset(Planes(t, n));
    ConcatMultiset(Pixels(t, n));
    MulAssoc(t.d1, t.d2, t.d3);
    ChunksConcat(ItemBlocks(t)[n], Mul(t.d2, t.d3), t.d1);
  }

  lemma GridRows<T>(t: Tensor4<T>, n: nat)
    requires t.Valid() && n < t.d0
    ensures RowSums(PlaneGrid(t, n)) == Multisets(Planes(t, n))
  {
    var planes := Planes(t, n);
    var g := PlaneGrid(t, n);
    forall c | 0 <= c < t.d1 ensures RowSums(g)[c] == Multisets(planes)[c] {
      SingletonsMultiset(planes[c]);
      assert g[c] == seq(|planes[c]|, q requires 0 <= q < |planes[c]| => multiset{planes[c][q]});
    }
  }

  lemma GridColumns<T>(t: Tensor4<T>, n: nat)
    requires t.Valid() && n < t.d0
    ensures ColumnSums(PlaneGrid(t, n), Mul(t.d2, t.d3)) == Multisets(Pixels(t, n))
  {
    hide Planes, Pixel, Chunks, ItemBlocks;
    var pixels := Pixels(t, n);
    var g := PlaneGrid(t, n);
    forall q | 0 <= q < Mul(t.d2, t.d3) ensures ColumnSums(g, Mul(t.d2, t.d3))[q] == Multisets(pixels)[q] {
      SingletonsMultiset(pixels[q]);
      forall c | 0 <= c < t.d1 ensures Column(g, q)[c] == multiset{pixels[q][c]} {
        PlanePixel(t, n, c, q);
      }
      assert Column(g, q) == seq(|pixels[q]|, c requires 0 <= c < |pixels[q]| => multiset{pixels[q][c]});
    }
  }

  /** Cell `q` of plane `c` and channel `c` of cell `q` are the same element. */
  lemma PlanePixel<T>(t: Tensor4<T>, n: nat, c: nat, q: nat)
    requires t.Valid() && n < t.d0 && c < t.d1 && q < Mul(t.d2, t.d3)
    ensures Planes(t, n)[c][q] == Pixel(t, n, q)[c]
  {
    var P := Mul(t.d2, t.d3);
    MulAssoc(t.d1, t.d2, t.d3);
    ChunkAt(ItemBlocks(t)[n], P, t.d1, c, q);
    ChunkAt(t.data, t.ItemSize(), t.d0, n, Flat(c, P, q));
  }

  // ---------------------------------------------------------------------------
  // reshape((batch, -1)) and view(batch, -1) of a contiguous tensor

  /** The same elements seen as (d0, d1 * d2 * d3). */
  function View2<T>(t: Tensor4<T>): (r: Tensor2<T>)
    requires t.Valid()
    ensures r.Valid() && r.d0 == t.d0 && r.d1 == t.ItemSize() && r.data == t.data
  {
    Tensor2(t.d0, t.ItemSize(), t.data)
  }

  /** Element (n, i1, i2, i3) is at column (i1 * d2 + i2) * d3 + i3 of row n. */
  lemma View2At<T>(t: Tensor4<T>, n: nat, i1: nat, i2: nat, i3: nat)
    requires t.Valid() && n < t.d0 && i1 < t.d1 && i2 < t.d2 && i3 < t.d3
    ensures t.ItemIndex(i1, i2, i3) < View2(t).d1
    ensures View2(t).At(n, t.ItemIndex(i1, i2, i3)) == t.At(n, i1, i2, i3)
  {
  }

  // ---------------------------------------------------------------------------
  // torch.cat(list of (rows, w_i) tensors, dim=1)

  /** Column count of every tensor, in order. */
  function Widths<T>(ts: seq<Tensor2<T>>): seq<nat>
  {
    seq(|ts|, i requires 0 <= i < |ts| => ts[i].d1)
  }

  /** Every tensor is well formed and has `rows` rows. */
  predicate SameRows<T>(ts: seq<Tensor2<T>>, rows: nat)
  {
    forall i :: 0 <= i < |ts| ==> ts[i].Valid() && ts[i].d0 == rows
  }

  /** Row `n` of every tensor, in list order. */
  function RowParts<T>(ts: seq<Tensor2<T>>, rows: nat, n: nat): (r: seq<seq<T>>)
    requires SameRows(ts, rows) && n < rows
    ensures |r| == |ts| && forall i :: 0 <= i < |ts| ==> r[i] == ts[i].Row(n)
  {
    seq(|ts|, i requires 0 <= i < |ts| => ts[i].Row(n))
  }

  /** Row `n` of the result: row `n` of each tensor, in list order. */
  function JoinedRow<T>(ts: seq<Tensor2<T>>, rows: nat, n: nat): (r: seq<T>)
    requires SameRows(ts, rows) && n < rows
    ensures |r| == Sum(Widths(ts))
  {
    var parts := RowParts(ts, rows, n);
    ConcatLength(parts);
    assert Lengths(parts) == Widths(ts);
    Concat(parts)
  }

  /** Every row of the result. */
  function JoinedRows<T>(ts: seq<Tensor2<T>>, rows: nat): (r: seq<seq<T>>)
    requires SameRows(ts, rows)
    ensures |r| == rows && forall n :: 0 <= n < rows ==> |r[n]| == Sum(Widths(ts))
  {
    seq(rows, n requires 0 <= n < rows => JoinedRow(ts, rows, n))
  }

  /** `torch.cat(ts, dim=1)`: shape (rows, sum of widths). */
  function CatDim1<T>(ts: seq<Tensor2<T>>, rows: nat): (r: Tensor2<T>)
    requires SameRows(ts, rows)
    ensures r.Valid() && r.d0 == rows && r.d1 == Sum(Widths(ts))
  {
    ConcatUniformLength(JoinedRows(ts, rows), Sum(Widths(ts)));
    Tensor2(rows, Sum(Widths(ts)), Concat(JoinedRows(ts, rows)))
  }

  /** Column `p` of tensor `i` becomes column `Sum(widths of tensors 0..i-1) + p`. */
  lemma CatDim1At<T>(ts: seq<Tensor2<T>>, rows: nat, n: nat, i: nat, p: nat, col: nat)
    requires SameRows(ts, rows) && n < rows && i < |ts| && p < ts[i].d1
    requires col == Sum(Widths(ts[..i]))
    ensures col + p < CatDim1(ts, rows).d1
    ensures CatDim1(ts, rows).At(n, col + p) == ts[i].At(n, p)
  {
    var W := Sum(Widths(ts));
    JoinedRowAt(ts, rows, n, i, p);
    ConcatUniformAt(JoinedRows(ts, rows), W, n, col + p);
    RowAt(ts[i], n, p);
  }

  /** Entry `p` of row `n` is entry (n, p). */
  lemma RowAt<T>(t: Tensor2<T>, n: nat, p: nat)
    requires t.Valid() && n < t.d0 && p < t.d1
    ensures t.Row(n)[p] == t.At(n, p)
  {
    ChunkAt(t.data, t.d1, t.d0, n, p);
  }

  lemma JoinedRowAt<T>(ts: seq<Tensor2<T>>, rows: nat, n: nat, i: nat, p: nat)
    requires SameRows(ts, rows) && n < rows && i < |ts| && p < ts[i].d1
    ensures Sum(Widths(ts[..i])) + p < Sum(Widths(ts))
    ensures JoinedRow(ts, rows, n)[Sum(Widths(ts[..i])) + p] == ts[i].Row(n)[p]
  {
    var parts := RowParts(ts, rows, n);
    ConcatAt(parts, i, p);
    PartsOffset(ts, rows, n, i);
    assert JoinedRow(ts, rows, n) == Concat(parts);
  }

  /** Row `n` of tensor `i` starts after the widths of the tensors before it. */
  lemma PartsOffset<T>(ts: seq<Tensor2<T>>, rows: nat, n: nat, i: nat)
    requires SameRows(ts, rows) && n < rows && i <= |ts|
    ensures Offset(RowParts(ts, rows, n), i) == Sum(Widths(ts[..i]))
  {
    var before := RowParts(ts, rows, n)[..i];
    ConcatLength(before);
    assert Lengths(before) == Widths(ts[..i]);
  }

  /** Grid whose entry (n, i) is the multiset of row `n` of tensor `i`. */
  ghost function RowGrid<T>(ts: seq<Tensor2<T>>, rows: nat): (g: seq<seq<multiset<T>>>)
    requires SameRows(ts, rows)
    ensures |g| == rows && forall n :: 0 <= n < rows ==> |g[n]| == |ts|
  {
    seq(rows, n requires 0 <= n < rows => Multisets(RowParts(ts, rows, n)))
  }

  /** Joining keeps exactly the elements of all tensors. */
  lemma CatDim1Multiset<T>(ts: seq<Tensor2<T>>, rows: nat)
    requires SameRows(ts, rows)
    ensures multiset(CatDim1(ts, rows).data) == MSum(seq(|ts|, i requires 0 <= i < |ts| => multiset(ts[i].data)))
  {
    var g := RowGrid(ts, rows);
    MSumSwap(g, |ts|);
    ConcatMultiset(JoinedRows(ts, rows));
    RowGridRows(ts, rows);
    RowGridColumns(ts, rows);
  }

  lemma RowGridRows<T>(ts: seq<Tensor2<T>>, rows: nat)
    requires SameRows(ts, rows)
    ensures RowSums(RowGrid(ts, rows)) == Multisets(JoinedRows(ts, rows))
  {
    var g := RowGrid(ts, rows);
    forall n | 0 <= n < rows ensures RowSums(g)[n] == Multisets(JoinedRows(ts, rows))[n] {
      ConcatMultiset(RowParts(ts, rows, n));
    }
  }

  lemma RowGridColumns<T>(ts: seq<Tensor2<T>>, rows: nat)
    requires SameRows(ts, rows)
    ensures ColumnSums(RowGrid(ts, rows), |ts|) == seq(|ts|, i requires 0 <= i < |ts| => multiset(ts[i].data))
  {
    var g := RowGrid(ts, rows);
    forall i | 0 <= i < |ts| ensures ColumnSums(g, |ts|)[i] == multiset(ts[i].data) {
      var rowsOf := Chunks(ts[i].data, ts[i].d1, rows);
      ChunksConcat(ts[i].data, ts[i].d1, rows);
      ConcatMultiset(rowsOf);
      assert Column(g, i) == Multisets(rowsOf);
    }
  }

  // ---------------------------------------------------------------------------
  // reshape((-1, N, K)) of a (rows, N * K) tensor

  /** The same elements seen as (d0, N, K). */
  function Reshape3<T>(t: Tensor2<T>, N: nat, K: nat): (r: Tensor3<T>)
    requires t.Valid() && t.d1 == Mul(N, K)
    ensures r.Valid() && r.d0 == t.d0 && r.d1 == N && r.d2 == K && r.data == t.data
  {
    Tensor3(t.d0, N, K, t.data)
  }

  /** Entry (n, k, j) is column k * K + j of row n. */
  lemma Reshape3At<T>(t: Tensor2<T>, N: nat, K: nat, n: nat, k: nat, j: nat)
    requires t.Valid() && t.d1 == Mul(N, K) && n < t.d0 && k < N && j < K
    ensures Flat(k, K, j) < t.d1 && Reshape3(t, N, K).At(n, k, j) == t.At(n, Flat(k, K, j))
  {
    IndexBound(k, N, j, K);
  }

  // ---------------------------------------------------------------------------
  // torch.cat((a, b), dim=2) of two tensors with equal first two axes

  /** Every length-d2 innermost vector of a 3-d tensor, in order. */
  function Vectors<T>(t: Tensor3<T>): (r: seq<seq<T>>)
    requires t.Valid()
    ensures |r| == Mul(t.d0, t.d1) && forall m :: 0 <= m < |r| ==> |r[m]| == t.d2
  {
    MulAssoc(t.d0, t.d1, t.d2);
    Chunks(t.data, t.d2, Mul(t.d0, t.d1))
  }

  /** Vector m of `a` followed by vector m of `b`, for every m. */
  function PairedVectors<T>(a: Tensor3<T>, b: Tensor3<T>): (r: seq<seq<T>>)
    requires a.Valid() && b.Valid() && a.d0 == b.d0 && a.d1 == b.d1
    ensures |r| == Mul(a.d0, a.d1)
    ensures forall m :: 0 <= m < |r| ==> r[m] == Vectors(a)[m] + Vectors(b)[m]
  {
    var va, vb := Vectors(a), Vectors(b);
    seq(Mul(a.d0, a.d1), m requires 0 <= m < Mul(a.d0, a.d1) => va[m] + vb[m])
  }

  /** `torch.cat((a, b), dim=2)`: every vector of `a` followed by the matching vector of `b`. */
  function CatDim2<T>(a: Tensor3<T>, b: Tensor3<T>): (r: Tensor3<T>)
    requires a.Valid() && b.Valid() && a.d0 == b.d0 && a.d1 == b.d1
    ensures r.Valid() && r.d0 == a.d0 && r.d1 == a.d1 && r.d2 == a.d2 + b.d2
  {
    ConcatUniformLength(PairedVectors(a, b), a.d2 + b.d2);
    MulAssoc(a.d0, a.d1, a.d2 + b.d2);
    Tensor3(a.d0, a.d1, a.d2 + b.d2, Concat(PairedVectors(a, b)))
  }

  /** Entry j of vector `n * d1 + k` is entry (n, k, j). */
  lemma VectorAt<T>(t: Tensor3<T>, n: nat, k: nat, j: nat)
    requires t.Valid() && n < t.d0 && k < t.d1 && j < t.d2
    ensures Flat(n, t.d1, k) < Mul(t.d0, t.d1)
    ensures Vectors(t)[Flat(n, t.d1, k)][j] == t.At(n, k, j)
  {
    var m := Flat(n, t.d1, k);
    IndexBound(n, t.d0, k, t.d1);
    MulAssoc(t.d0, t.d1, t.d2);
    ChunkAt(t.data, t.d2, Mul(t.d0, t.d1), m, j);
    FlatNest(n, t.d1, k, t.d2, j);
  }

  /** The first a.d2 entries of vector (n, k) come from `a`, the rest from `b`. */
  lemma CatDim2At<T>(a: Tensor3<T>, b: Tensor3<T>, n: nat, k: nat, j: nat)
    requires a.Valid() && b.Valid() && a.d0 == b.d0 && a.d1 == b.d1
    requires n < a.d0 && k < a.d1 && j < a.d2 + b.d2
    ensures CatDim2(a, b).At(n, k, j)
         == if j < a.d2 then a.At(n, k, j) else b.At(n, k, j - a.d2)
  {
    hide Vectors, Concat, Chunks;
    var m := Flat(n, a.d1, k);
    IndexBound(n, a.d0, k, a.d1);
    ConcatUniformAt(PairedVectors(a, b), a.d2 + b.d2, m, j);
    FlatNest(n, a.d1, k, a.d2 + b.d2, j);
    if j < a.d2 {
      VectorAt(a, n, k, j);
    } else {
      VectorAt(b, n, k, j - a.d2);
    }
  }

  /** Joining along the last axis keeps exactly the elements of both tensors. */
  lemma CatDim2Multiset<T>(a: Tensor3<T>, b: Tensor3<T>)
    requires a.Valid() && b.Valid() && a.d0 == b.d0 && a.d1 == b.d1
    ensures multiset(CatDim2(a, b).data) == multiset(a.data) + multiset(b.data)
  {
    var M := Mul(a.d0, a.d1);
    var va, vb := Vectors(a), Vectors(b);
    var joined := PairedVectors(a, b);
    ConcatMultiset(joined);
    ConcatMultiset(va);
    ConcatMultiset(vb);
    MulAssoc(a.d0, a.d1, a.d2);
    MulAssoc(a.d0, a.d1, b.d2);
    ChunksConcat(a.data, a.d2, M);
    ChunksConcat(b.data, b.d2, M);
    MSumAdd(Multisets(va), Multisets(vb));
    assert Multisets(joined)
        == seq(M, m requires 0 <= m < M => Multisets(va)[m] + Multisets(vb)[m]);
  }
}
