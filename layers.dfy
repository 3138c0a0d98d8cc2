/** The tensor plumbing of ssd/core/layers.py: `Flatten` and the `Predictor`
    that turns per-feature-map localization and confidence outputs into one
    (batch, total default boxes, 4 + classes) tensor.
    `Predictor.forward` is modelled on the inputs it is built for (`PredictorInput`).
    Outside them torch either raises or silently regroups elements into another
    batch; the model describes neither (see `PredictorInput`). */
module Layers {
  import opened Arith
  import opened Seqs
  import opened Tensors

  // ---------------------------------------------------------------------------
  // Flatten.forward
  // ---------------------------------------------------------------------------

  /** `x.view(batch_size, -1)`: one row per batch item, elements kept in memory order. */
  function FlattenForward<T>(x: Tensor4<T>): (r: Tensor2<T>)
    requires x.Valid() && x.d0 >= 1
    ensures r.Valid() && r.d0 == x.d0 && r.d1 == x.ItemSize()
    ensures r.data == x.data
  {
    View2(x)
  }

  /** Element (n, c, h, w) is column `(c * H + h) * W + w` of row `n`. */
  lemma FlattenForwardAt<T>(x: Tensor4<T>, n: nat, c: nat, h: nat, w: nat)
    requires x.Valid() && x.d0 >= 1
    requires n < x.d0 && c < x.d1 && h < x.d2 && w < x.d3
    ensures Flat(Flat(c, x.d2, h), x.d3, w) < FlattenForward(x).d1
    ensures FlattenForward(x).At(n, Flat(Flat(c, x.d2, h), x.d3, w)) == x.At(n, c, h, w)
  {
    View2At(x, n, c, h, w);
  }

  // ---------------------------------------------------------------------------
  // Predictor.forward, as a specification
  // ---------------------------------------------------------------------------

  /** One map, `permute((0, 2, 3, 1))` then `reshape((batch, -1))`. */
  function FlattenMap<T>(t: Tensor4<T>): (r: Tensor2<T>)
    requires t.Valid()
    ensures r.Valid() && r.d0 == t.d0 && r.d1 == t.ItemSize()
  {
    Rotate3(t.d1, t.d2, t.d3);
    View2(Permute0231(t))
  }

  /** Column of element (c, h, w) of a (C, H, W) item once its channel axis is last:
      `(h * W + w) * C + c`. */
  function CellColumn<T>(t: Tensor4<T>, c: nat, h: nat, w: nat): (q: nat)
    requires t.Valid() && c < t.d1 && h < t.d2 && w < t.d3
    ensures q < t.ItemSize()
  {
    IndexBound(h, t.d2, w, t.d3);
    IndexBound(Flat(h, t.d3, w), Mul(t.d2, t.d3), c, t.d1);
    Rotate3(t.d1, t.d2, t.d3);
    Flat(Flat(h, t.d3, w), t.d1, c)
  }

  /** Element (n, c, h, w) of a (B, C, H, W) map lands at its cell column of row `n`. */
  lemma FlattenMapAt<T>(t: Tensor4<T>, n: nat, c: nat, h: nat, w: nat)
    requires t.Valid() && n < t.d0 && c < t.d1 && h < t.d2 && w < t.d3
    ensures FlattenMap(t).At(n, CellColumn(t, c, h, w)) == t.At(n, c, h, w)
  {
    View2At(Permute0231(t), n, h, w, c);
    PermuteAt(t, n, c, h, w);
  }

  /** Flattening a map only reorders its elements. */
  lemma FlattenMapMultiset<T>(t: Tensor4<T>)
    requires t.Valid()
    ensures multiset(FlattenMap(t).data) == multiset(t.data)
  {
    PermuteMultiset(t);
  }

  /** Every map is well formed and has batch size `B`. */
  predicate SameBatch<T>(maps: seq<Tensor4<T>>, B: nat)
  {
    forall i :: 0 <= i < |maps| ==> maps[i].Valid() && maps[i].d0 == B
  }

  /** The number of (loc, conf) pairs `zip` produces. */
  function PairCount<T>(locs: seq<Tensor4<T>>, confs: seq<Tensor4<T>>): (m: nat)
    ensures m <= |locs| && m <= |confs| && (m == |locs| || m == |confs|)
  {
    if |locs| < |confs| then |locs| else |confs|
  }

  /** The per-item element count of every map. */
  function Sizes<T>(maps: seq<Tensor4<T>>): seq<nat>
  {
    seq(|maps|, i requires 0 <= i < |maps| => maps[i].ItemSize())
  }

  /** Every map flattened, in list order (`locs_reshaped` / `confs_reshaped`). */
  function FlattenAll<T>(maps: seq<Tensor4<T>>, B: nat): (r: seq<Tensor2<T>>)
    requires SameBatch(maps, B)
    ensures |r| == |maps| && forall i :: 0 <= i < |maps| ==> r[i] == FlattenMap(maps[i])
    ensures SameRows(r, B)
  {
    seq(|maps|, i requires 0 <= i < |maps| => FlattenMap(maps[i]))
  }

  /** `torch.cat(flattened maps, dim=1)`. */
  function Joined<T>(maps: seq<Tensor4<T>>, B: nat): (r: Tensor2<T>)
    requires SameBatch(maps, B)
    ensures r.Valid() && r.d0 == B && r.d1 == Sum(Sizes(maps))
  {
    WidthsOfFlattened(maps, B);
    CatDim1(FlattenAll(maps, B), B)
  }

  lemma WidthsOfFlattened<T>(maps: seq<Tensor4<T>>, B: nat)
    requires SameBatch(maps, B)
    ensures Widths(FlattenAll(maps, B)) == Sizes(maps)
  {
  }

  /** The inputs `Predictor.forward` is built for: at least one pair, one batch size `B >= 1`
      for all paired maps, `N, K >= 1`, and per-item sizes adding up to `N * 4` locations and
      `N * K` confidences. Torch raises on an empty `cat` list, on loc maps of different batch
      sizes (`cat` along dim 1), and when `B`, `N` or `K` is 0 (a `-1` reshape of an empty
      tensor is ambiguous). For a conf map whose batch differs from its loc map's (it is reshaped
      with the loc's batch size) and for totals other than `N * 4` / `N * K`, torch raises when
      a reshape does not divide evenly and otherwise regroups elements into other batch items. */
  predicate PredictorInput<T>(N: nat, K: nat, locs: seq<Tensor4<T>>, confs: seq<Tensor4<T>>)
  {
    var m := PairCount(locs, confs);
    m >= 1 && locs[0].d0 >= 1 && N >= 1 && K >= 1
    && SameBatch(locs[..m], locs[0].d0) && SameBatch(confs[..m], locs[0].d0)
    && Sum(Sizes(locs[..m])) == Mul(N, 4) && Sum(Sizes(confs[..m])) == Mul(N, K)
  }

  /** The joined location rows of the paired maps, one row per batch item. */
  function LocRows<T>(N: nat, K: nat, locs: seq<Tensor4<T>>, confs: seq<Tensor4<T>>): (r: Tensor2<T>)
    requires PredictorInput(N, K, locs, confs)
    ensures r.Valid() && r.d0 == locs[0].d0 && r.d1 == Mul(N, 4)
  {
    Joined(locs[..PairCount(locs, confs)], locs[0].d0)
  }

  /** The joined confidence rows of the paired maps, one row per batch item. */
  function ConfRows<T>(N: nat, K: nat, locs: seq<Tensor4<T>>, confs: seq<Tensor4<T>>): (r: Tensor2<T>)
    requires PredictorInput(N, K, locs, confs)
    ensures r.Valid() && r.d0 == locs[0].d0 && r.d1 == Mul(N, K)
  {
    Joined(confs[..PairCount(locs, confs)], locs[0].d0)
  }

  /** The prediction tensor: for each default box, its 4 offsets then its `K` class scores. */
  function Predict<T>(N: nat, K: nat, locs: seq<Tensor4<T>>, confs: seq<Tensor4<T>>): (r: Tensor3<T>)
    requires PredictorInput(N, K, locs, confs)
    ensures r.Valid() && r.d0 == locs[0].d0 && r.d1 == N && r.d2 == 4 + K
  {
    CatDim2(Reshape3(LocRows(N, K, locs, confs), N, 4), Reshape3(ConfRows(N, K, locs, confs), N, K))
  }

  // ---------------------------------------------------------------------------
  // Where every element goes
  // ---------------------------------------------------------------------------

  /** Column `p` of map `i` is column `Sum(sizes of maps 0..i-1) + p` of the joined rows. */
  lemma JoinedAt<T>(maps: seq<Tensor4<T>>, B: nat, i: nat, n: nat, c: nat, h: nat, w: nat)
    requires SameBatch(maps, B) && i < |maps|
    requires n < B && c < maps[i].d1 && h < maps[i].d2 && w < maps[i].d3
    ensures Sum(Sizes(maps[..i])) + CellColumn(maps[i], c, h, w) < Joined(maps, B).d1
    ensures Joined(maps, B).At(n, Sum(Sizes(maps[..i])) + CellColumn(maps[i], c, h, w))
         == maps[i].At(n, c, h, w)
  {
    hide FlattenMap, Joined;
    var t := maps[i];
    var p := CellColumn(t, c, h, w);
    JoinedColumn(maps, B, i, n, p);
    FlattenMapAt(t, n, c, h, w);
    assert FlattenMap(t).At(n, p) == t.At(n, c, h, w);
    assert Joined(maps, B).At(n, Sum(Sizes(maps[..i])) + p) == t.At(n, c, h, w);
  }

  /** Column `p` of flattened map `i` is column `Sum(sizes of maps 0..i-1) + p` of the joined rows. */
  lemma JoinedColumn<T>(maps: seq<Tensor4<T>>, B: nat, i: nat, n: nat, p: nat)
    requires SameBatch(maps, B) && i < |maps| && n < B && p < maps[i].ItemSize()
    ensures Sum(Sizes(maps[..i])) + p < Joined(maps, B).d1
    ensures Joined(maps, B).At(n, Sum(Sizes(maps[..i])) + p) == FlattenMap(maps[i]).At(n, p)
  {
    hide FlattenMap;
    PrefixWidths(maps, B, i);
    CatDim1At(FlattenAll(maps, B), B, n, i, p, Sum(Sizes(maps[..i])));
  }

  lemma PrefixWidths<T>(maps: seq<Tensor4<T>>, B: nat, i: nat)
    requires SameBatch(maps, B) && i <= |maps|
    ensures Sum(Widths(FlattenAll(maps, B)[..i])) == Sum(Sizes(maps[..i]))
  {
    assert Widths(FlattenAll(maps, B)[..i]) == Sizes(maps[..i]);
  }

  /** Entry `j < 4` of default box `k` is location entry `4k + j` of its batch item. */
  lemma PredictLocEntry<T>(N: nat, K: nat, locs: seq<Tensor4<T>>, confs: seq<Tensor4<T>>,
                           n: nat, k: nat, j: nat)
    requires PredictorInput(N, K, locs, confs)
    requires n < locs[0].d0 && k < N && j < 4
    ensures Flat(k, 4, j) < Mul(N, 4)
    ensures Predict(N, K, locs, confs).At(n, k, j) == LocRows(N, K, locs, confs).At(n, Flat(k, 4, j))
  {
    hide PredictorInput, Joined, LocRows, ConfRows, Reshape3, CatDim2;
    var a, b := Reshape3(LocRows(N, K, locs, confs), N, 4), Reshape3(ConfRows(N, K, locs, confs), N, K);
    CatDim2At(a, b, n, k, j);
    IndexBound(k, N, j, 4);
    Reshape3At(LocRows(N, K, locs, confs), N, 4, n, k, j);
  }

  /** Entry `4 + j` of default box `k` is confidence entry `kK + j` of its batch item. */
  lemma PredictConfEntry<T>(N: nat, K: nat, locs: seq<Tensor4<T>>, confs: seq<Tensor4<T>>,
                            n: nat, k: nat, j: nat)
    requires PredictorInput(N, K, locs, confs)
    requires n < locs[0].d0 && k < N && j < K
    ensures Flat(k, K, j) < Mul(N, K)
    ensures Predict(N, K, locs, confs).At(n, k, 4 + j) == ConfRows(N, K, locs, confs).At(n, Flat(k, K, j))
  {
    hide PredictorInput, Joined, LocRows, ConfRows, Reshape3, CatDim2;
    var a, b := Reshape3(LocRows(N, K, locs, confs), N, 4), Reshape3(ConfRows(N, K, locs, confs), N, K);
    CatDim2At(a, b, n, k, 4 + j);
    IndexBound(k, N, j, K);
    Reshape3At(ConfRows(N, K, locs, confs), N, K, n, k, j);
  }

  /** Location element (n, c, h, w) of map `i` is entry `j` of default box `k`, where
      `4k + j` is its position after the maps before it. */
  lemma PredictLocAt<T>(N: nat, K: nat, locs: seq<Tensor4<T>>, confs: seq<Tensor4<T>>,
                        i: nat, n: nat, c: nat, h: nat, w: nat, k: nat, j: nat)
    requires PredictorInput(N, K, locs, confs) && i < PairCount(locs, confs)
    requires n < locs[i].d0 && c < locs[i].d1 && h < locs[i].d2 && w < locs[i].d3
    requires j < 4 && Flat(k, 4, j) == Sum(Sizes(locs[..i])) + CellColumn(locs[i], c, h, w)
    ensures k < N && n < locs[0].d0
    ensures Predict(N, K, locs, confs).At(n, k, j) == locs[i].At(n, c, h, w)
  {
    hide Joined, Predict;
    var m, B := PairCount(locs, confs), locs[0].d0;
    assert locs[..m][i] == locs[i] && locs[..m][..i] == locs[..i];
    JoinedAt(locs[..m], B, i, n, c, h, w);
    RowBound(k, j, 4, N);
    PredictLocEntry(N, K, locs, confs, n, k, j);
  }

  /** Confidence element (n, c, h, w) of map `i` is class score `j` of default box `k`, where
      `kK + j` is its position after the maps before it. */
  lemma PredictConfAt<T>(N: nat, K: nat, locs: seq<Tensor4<T>>, confs: seq<Tensor4<T>>,
                         i: nat, n: nat, c: nat, h: nat, w: nat, k: nat, j: nat)
    requires PredictorInput(N, K, locs, confs) && i < PairCount(locs, confs)
    requires n < confs[i].d0 && c < confs[i].d1 && h < confs[i].d2 && w < confs[i].d3
    requires j < K && Flat(k, K, j) == Sum(Sizes(confs[..i])) + CellColumn(confs[i], c, h, w)
    ensures k < N && n < locs[0].d0
    ensures Predict(N, K, locs, confs).At(n, k, 4 + j) == confs[i].At(n, c, h, w)
  {
    hide Joined, Predict;
    var m, B := PairCount(locs, confs), locs[0].d0;
    assert confs[..m][i] == confs[i] && confs[..m][..i] == confs[..i];
    JoinedAt(confs[..m], B, i, n, c, h, w);
    RowBound(k, j, K, N);
    PredictConfEntry(N, K, locs, confs, n, k, j);
  }

  // ---------------------------------------------------------------------------
  // Nothing is lost, added or changed
  // ---------------------------------------------------------------------------

  /** The multiset of elements of every map, in list order. */
  ghost function MapMultisets<T>(maps: seq<Tensor4<T>>): (r: seq<multiset<T>>)
    ensures |r| == |maps| && forall i :: 0 <= i < |maps| ==> r[i] == multiset(maps[i].data)
  {
    seq(|maps|, i requires 0 <= i < |maps| => multiset(maps[i].data))
  }

  lemma JoinedMultiset<T>(maps: seq<Tensor4<T>>, B: nat)
    requires SameBatch(maps, B)
    ensures multiset(Joined(maps, B).data) == MSum(MapMultisets(maps))
  {
    var ts := FlattenAll(maps, B);
    CatDim1Multiset(ts, B);
    var parts := seq(|ts|, i requires 0 <= i < |ts| => multiset(ts[i].data));
    forall i | 0 <= i < |maps| ensures parts[i] == MapMultisets(maps)[i] {
      FlattenMapMultiset(maps[i]);
    }
    assert parts == MapMultisets(maps);
  }

  /** The prediction holds exactly the paired maps' elements, each as often as in the input. */
  lemma PredictMultiset<T>(N: nat, K: nat, locs: seq<Tensor4<T>>, confs: seq<Tensor4<T>>)
    requires PredictorInput(N, K, locs, confs)
    ensures var m := PairCount(locs, confs);
      multiset(Predict(N, K, locs, confs).data)
      == MSum(MapMultisets(locs[..m])) + MSum(MapMultisets(confs[..m]))
  {
    var m, B := PairCount(locs, confs), locs[0].d0;
    var a, b := Reshape3(LocRows(N, K, locs, confs), N, 4), Reshape3(ConfRows(N, K, locs, confs), N, K);
    CatDim2Multiset(a, b);
    JoinedMultiset(locs[..m], B);
    JoinedMultiset(confs[..m], B);
  }

  // ---------------------------------------------------------------------------
  // Predictor
  // ---------------------------------------------------------------------------

  /** The prediction head's reshaper, configured with the number of default boxes and classes. */
  class Predictor {
    const totalDboxNums: nat
    const classNums: nat

    constructor (totalDboxNums: nat, classNums: nat)
      ensures this.totalDboxNums == totalDboxNums && this.classNums == classNums
    {
      this.totalDboxNums := totalDboxNums;
      this.classNums := classNums;
    }

    /** Flattens each (loc, conf) pair in `zip` order, then joins and reshapes. */
    method Forward<T>(locs: seq<Tensor4<T>>, confs: seq<Tensor4<T>>) returns (r: Tensor3<T>)
      requires PredictorInput(totalDboxNums, classNums, locs, confs)
      ensures r == Predict(totalDboxNums, classNums, locs, confs)
      ensures r.d0 == locs[0].d0 && r.d1 == totalDboxNums && r.d2 == 4 + classNums
    {
      hide FlattenMap, CatDim1, CatDim2;
      var m, B := PairCount(locs, confs), locs[0].d0;
      var locsReshaped: seq<Tensor2<T>>, confsReshaped: seq<Tensor2<T>> := [], [];
      var i := 0;
      while i < m
        invariant i <= m
        invariant locsReshaped == FlattenAll(locs[..i], B)
        invariant confsReshaped == FlattenAll(confs[..i], B)
      {
        assert locs[..i + 1] == locs[..i] + [locs[i]] && confs[..i + 1] == confs[..i] + [confs[i]];
        locsReshaped := locsReshaped + [FlattenMap(locs[i])];
        confsReshaped := confsReshaped + [FlattenMap(confs[i])];
        i := i + 1;
      }
      assert locs[..m] == locs[..m][..i] && confs[..m] == confs[..m][..i];
      WidthsOfFlattened(locs[..m], B);
      WidthsOfFlattened(confs[..m], B);
      var locTable := Reshape3(CatDim1(locsReshaped, B), totalDboxNums, 4);
      var confTable := Reshape3(CatDim1(confsReshaped, B), totalDboxNums, classNums);
      r := CatDim2(locTable, confTable);
    }
  }
}
