/** The batch and label helpers of data/utils.py: `batch_ind_fn`, which tags
    every ground-truth row with the index of its image and joins the rows of
    a batch, and `_one_hot_encode`, which turns class indices into one-hot
    rows. numpy arrays are 2-d `array2<real>` buffers while they are filled
    and lists of rows once returned; numpy's exceptions are `Err` results. */
module DataUtils {
  import opened Errors
  import opened Seqs
  import opened Text

  /** A 2-d numpy array: its column count and its rows (an array with no rows still
      has a column count). */
  datatype Matrix = Matrix(cols: nat, rows: seq<seq<real>>)

  /** Every row has `cols` entries. */
  predicate WellFormed(m: Matrix)
  {
    forall r :: 0 <= r < |m.rows| ==> |m.rows[r]| == m.cols
  }

  /** The rows of a 2-d array, top to bottom. */
  function RowsOf(a: array2<real>): (rows: seq<seq<real>>)
    reads a
    ensures |rows| == a.Length0
    ensures forall i :: 0 <= i < a.Length0 ==> |rows[i]| == a.Length1
    ensures forall i, j :: 0 <= i < a.Length0 && 0 <= j < a.Length1 ==> rows[i][j] == a[i, j]
  {
    seq(a.Length0, i requires 0 <= i < a.Length0 reads a =>
      seq(a.Length1, j requires 0 <= j < a.Length1 reads a => a[i, j]))
  }

  // ---------------------------------------------------------------------------
  // batch_ind_fn
  // ---------------------------------------------------------------------------

  /** The ground-truth rows of image `ind`, each prefixed with `ind`. */
  function IndexedRows(ind: nat, gt: Matrix): (r: seq<seq<real>>)
    ensures |r| == |gt.rows|
  {
    seq(|gt.rows|, j requires 0 <= j < |gt.rows| => [ind as real] + gt.rows[j])
  }

  /** Every image's indexed rows, image by image. */
  function IndexedGroups(gts: seq<Matrix>): (r: seq<seq<seq<real>>>)
    ensures |r| == |gts| && forall i :: 0 <= i < |gts| ==> r[i] == IndexedRows(i, gts[i])
  {
    seq(|gts|, i requires 0 <= i < |gts| => IndexedRows(i, gts[i]))
  }

  /** The rows `batch_ind_fn` returns: every image's indexed rows, in batch order. */
  function BatchIndRows(gts: seq<Matrix>): seq<seq<real>>
  {
    Concat(IndexedGroups(gts))
  }

  /** The number of ground-truth rows of every image. */
  function RowCounts(gts: seq<Matrix>): seq<nat>
  {
    seq(|gts|, i requires 0 <= i < |gts| => |gts[i].rows|)
  }

  /** All images have the same column count, as `np.concatenate` demands. */
  predicate SameCols(gts: seq<Matrix>)
  {
    forall i :: 0 <= i < |gts| ==> gts[i].cols == gts[0].cols
  }

  /** The first image whose column count differs from image 0's. */
  function FirstMismatch(gts: seq<Matrix>): (k: nat)
    requires !SameCols(gts)
    ensures 0 < k < |gts| && gts[k].cols != gts[0].cols
    ensures forall i :: 0 <= i < k ==> gts[i].cols == gts[0].cols
  {
    FirstMismatchFrom(gts, 0)
  }

  function FirstMismatchFrom(gts: seq<Matrix>, from: nat): (k: nat)
    requires from <= |gts| && exists i :: from <= i < |gts| && gts[i].cols != gts[0].cols
    ensures from <= k < |gts| && gts[k].cols != gts[0].cols
    ensures forall i :: from <= i < k ==> gts[i].cols == gts[0].cols
    decreases |gts| - from
  {
    if gts[from].cols != gts[0].cols then from else FirstMismatchFrom(gts, from + 1)
  }

  /** `zip(*batch)` of an empty batch has nothing to unpack into two names. */
  const EmptyBatchMessage := "not enough values to unpack (expected 2, got 0)"

  /** numpy's complaint when the arrays to concatenate disagree in their second axis. */
  function ConcatMessage(k: nat, size: nat, size0: nat): string
  {
    "all the input array dimensions except for the concatenation axis must match exactly, "
    + "but along dimension 1, the array at index 0 has size " + Decimal(size0)
    + " and the array at index " + Decimal(k) + " has size " + Decimal(size)
  }

  /** One iteration of `batch_ind_fn`'s loop: a zero array one column wider than `gt`,
      `gt` copied into columns 1.., and `ind` written into column 0. */
  method IndexRows(ind: nat, gt: Matrix) returns (rows: seq<seq<real>>)
    requires WellFormed(gt)
    ensures rows == IndexedRows(ind, gt)
  {
    var n, w := |gt.rows|, gt.cols + 1;
    var retGt := new real[n, w]((i, j) => 0.0);
    // ret_gt[:, 1:] = gt
    var i := 0;
    while i < n
      invariant 0 <= i <= n
      invariant forall p, q :: 0 <= p < i && 1 <= q < w ==> retGt[p, q] == gt.rows[p][q - 1]
    {
      var j := 1;
      while j < w
        invariant 1 <= j <= w
        invariant forall p, q :: 0 <= p < i && 1 <= q < w ==> retGt[p, q] == gt.rows[p][q - 1]
        invariant forall q :: 1 <= q < j ==> retGt[i, q] == gt.rows[i][q - 1]
      {
        retGt[i, j] := gt.rows[i][j - 1];
        j := j + 1;
      }
      i := i + 1;
    }
    // ret_gt[:, 0] = ind
    i := 0;
    while i < n
      invariant 0 <= i <= n
      invariant forall p, q :: 0 <= p < n && 1 <= q < w ==> retGt[p, q] == gt.rows[p][q - 1]
      invariant forall p :: 0 <= p < i ==> retGt[p, 0] == ind as real
    {
      retGt[i, 0] := ind as real;
      i := i + 1;
    }
    rows := RowsOf(retGt);
    forall p | 0 <= p < n
      ensures rows[p] == IndexedRows(ind, gt)[p]
    {
      assert forall q :: 0 <= q < w ==> rows[p][q] == ([ind as real] + gt.rows[p])[q];
    }
  }

  /** `batch_ind_fn`: the images unchanged (stacked) and the indexed ground-truth rows of
      every image joined in batch order. An empty batch fails to unpack, and images whose
      ground truths differ in column count fail to concatenate; both are `ValueError`s. */
  method BatchIndFn<I>(batch: seq<(I, Matrix)>) returns (r: Result<(seq<I>, Matrix)>)
    requires forall k :: 0 <= k < |batch| ==> WellFormed(batch[k].1)
    ensures var gts := seq(|batch|, k requires 0 <= k < |batch| => batch[k].1);
      && (r.Err? <==> |batch| == 0 || !SameCols(gts))
      && (|batch| == 0 ==> r == Err(ValueError(EmptyBatchMessage)))
      && (|batch| > 0 && !SameCols(gts) ==>
            var k := FirstMismatch(gts);
            r == Err(ValueError(ConcatMessage(k, gts[k].cols + 1, gts[0].cols + 1))))
      && (r.Ok? ==> r.value.0 == seq(|batch|, k requires 0 <= k < |batch| => batch[k].0)
                    && r.value.1 == Matrix(gts[0].cols + 1, BatchIndRows(gts)))
  {
    hide IndexedRows, Concat, ConcatMessage;
    if |batch| == 0 {
      return Err(ValueError(EmptyBatchMessage));
    }
    var imgs := seq(|batch|, k requires 0 <= k < |batch| => batch[k].0);
    var gts := seq(|batch|, k requires 0 <= k < |batch| => batch[k].1);
    var retGts: seq<Matrix> := [];
    var ind := 0;
    while ind < |gts|
      invariant 0 <= ind <= |gts|
      invariant |retGts| == ind
      invariant forall k :: 0 <= k < ind ==> retGts[k] == Matrix(gts[k].cols + 1, IndexedRows(k, gts[k]))
    {
      var rows := IndexRows(ind, gts[ind]);
      retGts := retGts + [Matrix(gts[ind].cols + 1, rows)];
      ind := ind + 1;
    }
    // np.concatenate(ret_gts)
    var k := 1;
    while k < |retGts|
      invariant 1 <= k <= |retGts|
      invariant forall i :: 0 <= i < k ==> gts[i].cols == gts[0].cols
    {
      if retGts[k].cols != retGts[0].cols {
        assert FirstMismatch(gts) == k;
        return Err(ValueError(ConcatMessage(k, retGts[k].cols, retGts[0].cols)));
      }
      k := k + 1;
    }
    var joined := Concat(seq(|retGts|, i requires 0 <= i < |retGts| => retGts[i].rows));
    assert seq(|retGts|, i requires 0 <= i < |retGts| => retGts[i].rows) == IndexedGroups(gts);
    return Ok((imgs, Matrix(retGts[0].cols, joined)));
  }

  /** The output has one row per ground-truth row of the batch. */
  lemma BatchIndRowCount(gts: seq<Matrix>)
    ensures |BatchIndRows(gts)| == Sum(RowCounts(gts))
  {
    ConcatLength(IndexedGroups(gts));
    assert Lengths(IndexedGroups(gts)) == RowCounts(gts);
  }

  /** Row `j` of image `i` becomes output row `Sum(row counts of images 0..i-1) + j`, one
      column wider, with `i` in front: images keep their batch order and rows their order
      within an image. */
  lemma BatchIndRowAt(gts: seq<Matrix>, i: nat, j: nat)
    requires i < |gts| && j < |gts[i].rows|
    ensures Sum(RowCounts(gts[..i])) + j < |BatchIndRows(gts)|
    ensures BatchIndRows(gts)[Sum(RowCounts(gts[..i])) + j] == [i as real] + gts[i].rows[j]
  {
    var groups := IndexedGroups(gts);
    ConcatAt(groups, i, j);
    ConcatLength(groups[..i]);
    assert Lengths(groups[..i]) == RowCounts(gts[..i]);
  }

  /** Every output row starts with the index of an image of the batch, holds one more column
      than that image's ground truth, and the index column never decreases. */
  lemma {:induction false} BatchIndIndexColumn(gts: seq<Matrix>)
    requires forall i :: 0 <= i < |gts| ==> WellFormed(gts[i])
    ensures var out := BatchIndRows(gts);
      && (forall p :: 0 <= p < |out| ==>
            |out[p]| >= 1 && out[p][0].Floor < |gts| && out[p][0] == out[p][0].Floor as real
            && 0 <= out[p][0].Floor && |out[p]| == gts[out[p][0].Floor].cols + 1)
      && (forall p, q :: 0 <= p <= q < |out| ==> out[p][0] <= out[q][0])
  {
    if gts != [] {
      var n := |gts| - 1;
      var before := gts[..n];
      BatchIndIndexColumn(before);
      assert IndexedGroups(gts)[..n] == IndexedGroups(before);
      var a, b := BatchIndRows(before), IndexedRows(n, gts[n]);
      assert BatchIndRows(gts) == a + b;
      forall p | 0 <= p < |a| ensures a[p][0] < n as real {
      }
    }
  }

  // ---------------------------------------------------------------------------
  // _one_hot_encode
  // ---------------------------------------------------------------------------

  /** numpy's reading of an index into an axis of size `size`: a negative index counts
      from the end. */
  function Wrap(index: int, size: nat): int
  {
    if index < 0 then index + size else index
  }

  /** The indices numpy accepts on an axis of size `size`: `-size <= index < size`. */
  predicate InBounds(index: int, size: nat)
  {
    -(size as int) <= index < size
  }

  /** The one-hot rows of `indices` over `classNum` classes. */
  function OneHotRows(indices: seq<int>, classNum: nat): seq<seq<real>>
  {
    seq(|indices|, i requires 0 <= i < |indices| =>
      seq(classNum, j requires 0 <= j < classNum => if j == Wrap(indices[i], classNum) then 1.0 else 0.0))
  }

  /** The message numpy gives a negative array dimension. */
  const NegativeDimensionMessage := "negative dimensions are not allowed"

  /** The message numpy gives an index outside its axis. */
  function OutOfBoundsMessage(index: int, size: nat): string
  {
    "index " + IntText(index) + " is out of bounds for axis 1 with size " + Decimal(size)
  }

  /** The first index numpy refuses. */
  function FirstOutOfBounds(indices: seq<int>, classNum: nat, from: nat): (k: nat)
    requires from <= |indices| && exists i :: from <= i < |indices| && !InBounds(indices[i], classNum)
    ensures from <= k < |indices| && !InBounds(indices[k], classNum)
    ensures forall i :: from <= i < k ==> InBounds(indices[i], classNum)
    decreases |indices| - from
  {
    if !InBounds(indices[from], classNum) then from else FirstOutOfBounds(indices, classNum, from + 1)
  }

  /** `_one_hot_encode`: a `len(indices) x classNum` array of zeros with a 1 at
      `(i, indices[i])` for every `i`. A negative `classNum` is a `ValueError`, an index
      outside `[-classNum, classNum)` an `IndexError` naming the first such index. */
  method OneHotEncode(indices: seq<int>, classNum: int) returns (r: Result<seq<seq<real>>>)
    ensures r.Err? <==> classNum < 0 || exists i :: 0 <= i < |indices| && !InBounds(indices[i], classNum)
    ensures classNum < 0 ==> r == Err(ValueError(NegativeDimensionMessage))
    ensures classNum >= 0 && r.Err? ==>
      var k := FirstOutOfBounds(indices, classNum, 0);
      r == Err(IndexError(OutOfBoundsMessage(indices[k], classNum)))
    ensures r.Ok? ==>
      && classNum >= 0 && |r.value| == |indices|
      && (forall i :: 0 <= i < |indices| ==> |r.value[i]| == classNum)
      && (forall i, j :: 0 <= i < |indices| && 0 <= j < classNum ==>
            r.value[i][j] == if j == Wrap(indices[i], classNum) then 1.0 else 0.0)
    ensures r.Ok? ==> r.value == OneHotRows(indices, classNum)
  {
    var size := |indices|;
    if classNum < 0 {
      return Err(ValueError(NegativeDimensionMessage));
    }
    var oneHot := new real[size, classNum]((i, j) => 0.0);
    var i := 0;
    while i < size
      invariant 0 <= i <= size
      invariant forall p :: 0 <= p < i ==> InBounds(indices[p], classNum)
      invariant forall p, q :: 0 <= p < size && 0 <= q < classNum ==>
        oneHot[p, q] == if p < i && q == Wrap(indices[p], classNum) then 1.0 else 0.0
    {
      if !InBounds(indices[i], classNum) {
        assert FirstOutOfBounds(indices, classNum, 0) == i;
        return Err(IndexError(OutOfBoundsMessage(indices[i], classNum)));
      }
      oneHot[i, Wrap(indices[i], classNum)] := 1.0;
      i := i + 1;
    }
    var rows := RowsOf(oneHot);
    forall p | 0 <= p < size
      ensures rows[p] == OneHotRows(indices, classNum)[p]
    {
      assert |rows[p]| == classNum;
    }
    r := Ok(rows);
  }

  /** With every index in bounds, each row of the encoding has exactly one 1: at the column
      its index names (counted from the end when negative), which lies inside the row; every
      other entry is 0. */
  lemma OneHotSingleColumn(indices: seq<int>, classNum: nat, i: nat)
    requires forall k :: 0 <= k < |indices| ==> InBounds(indices[k], classNum)
    requires i < |indices|
    ensures var rows := OneHotRows(indices, classNum);
      && |rows| == |indices| && |rows[i]| == classNum
      && 0 <= Wrap(indices[i], classNum) < classNum
      && rows[i][Wrap(indices[i], classNum)] == 1.0
      && (forall j :: 0 <= j < classNum && j != Wrap(indices[i], classNum) ==> rows[i][j] == 0.0)
      && (0 <= indices[i] ==> Wrap(indices[i], classNum) == indices[i])
    ensures exists j :: 0 <= j < classNum && OneHotRows(indices, classNum)[i][j] == 1.0
    ensures forall j1, j2 ::
      (0 <= j1 < classNum && 0 <= j2 < classNum && OneHotRows(indices, classNum)[i][j1] == 1.0
       && OneHotRows(indices, classNum)[i][j2] == 1.0) ==> j1 == j2
  {
    var rows := OneHotRows(indices, classNum);
    assert InBounds(indices[i], classNum);
    assert rows[i][Wrap(indices[i], classNum)] == 1.0;
  }
}
