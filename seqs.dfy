/** Sequence utilities shared by the tensor model and the batch utilities:
    concatenation of a list of segments, where each segment starts, chunking,
    and multiset sums used to state that a reordering loses and adds nothing. */
module Seqs {
  import opened Arith

  /** The segments of `ss` joined in list order. */
  function Concat<T>(ss: seq<seq<T>>): seq<T>
  {
    if ss == [] then [] else Concat(ss[..|ss| - 1]) + ss[|ss| - 1]
  }

  /** The concatenation is as long as all segments together. */
  lemma {:induction false} ConcatLength<T>(ss: seq<seq<T>>)
    ensures |Concat(ss)| == Sum(Lengths(ss))
  {
    if ss != [] {
      var n := |ss| - 1;
      assert Lengths(ss)[..n] == Lengths(ss[..n]);
      ConcatLength(ss[..n]);
    }
  }

  /** The length of every segment, in order. */
  function Lengths<T>(ss: seq<seq<T>>): seq<nat>
  {
    seq(|ss|, i requires 0 <= i < |ss| => |ss[i]|)
  }

  /** Sum of a list of naturals, added from the back. */
  function Sum(xs: seq<nat>): nat
  {
    if xs == [] then 0 else Sum(xs[..|xs| - 1]) + xs[|xs| - 1]
  }

  /** Where segment `i` starts inside `Concat(ss)`: the total length of the segments before it. */
  function Offset<T>(ss: seq<seq<T>>, i: nat): nat
    requires i <= |ss|
  {
    |Concat(ss[..i])|
  }

  lemma {:induction false} SumAppend(a: seq<nat>, b: seq<nat>)
    ensures Sum(a + b) == Sum(a) + Sum(b)
  {
    if b != [] {
      var n := |b| - 1;
      assert (a + b)[..|a + b| - 1] == a + b[..n];
      SumAppend(a, b[..n]);
    } else {
      assert a + b == a;
    }
  }

  lemma {:induction false} ConcatAppend<T>(a: seq<seq<T>>, b: seq<seq<T>>)
    ensures Concat(a + b) == Concat(a) + Concat(b)
  {
    if b == [] {
      assert a + b == a;
    } else {
      var n := |b| - 1;
      var front := b[..n];
      ConcatAppend(a, front);
      assert (a + b)[..|a + b| - 1] == a + front;
      assert Concat(a + b) == Concat(a + front) + b[n];
      assert Concat(b) == Concat(front) + b[n];
    }
  }

  /** Element `j` of segment `i` sits at `Offset(ss, i) + j` of the concatenation. */
  lemma ConcatAt<T>(ss: seq<seq<T>>, i: nat, j: nat)
    requires i < |ss| && j < |ss[i]|
    ensures Offset(ss, i) + j < |Concat(ss)|
    ensures Concat(ss)[Offset(ss, i) + j] == ss[i][j]
  {
    assert ss == ss[..i] + ([ss[i]] + ss[i + 1..]);
    ConcatAppend(ss[..i], [ss[i]] + ss[i + 1..]);
    ConcatAppend([ss[i]], ss[i + 1..]);
    assert Concat([ss[i]]) == ss[i] by {
      assert [ss[i]][..0] == [];
    }
  }

  /** The offset of segment `i + 1` is the offset of segment `i` plus its length. */
  lemma OffsetStep<T>(ss: seq<seq<T>>, i: nat)
    requires i < |ss|
    ensures Offset(ss, i + 1) == Offset(ss, i) + |ss[i]|
  {
    assert ss[..i + 1][..i] == ss[..i];
  }

  /** When every segment has length k, segment i starts at i * k. */
  lemma {:induction false} OffsetUniform<T>(ss: seq<seq<T>>, k: nat, i: nat)
    requires forall m :: 0 <= m < |ss| ==> |ss[m]| == k
    requires i <= |ss|
    ensures Offset(ss, i) == Mul(i, k)
  {
    if i > 0 {
      OffsetUniform(ss, k, i - 1);
      OffsetStep(ss, i - 1);
    }
  }

  /** Concatenating `R` segments of length `k` gives `R * k` elements and
      element `j` of segment `i` sits at `i * k + j`. */
  lemma ConcatUniformAt<T>(ss: seq<seq<T>>, k: nat, i: nat, j: nat)
    requires forall m :: 0 <= m < |ss| ==> |ss[m]| == k
    requires i < |ss| && j < k
    ensures |Concat(ss)| == Mul(|ss|, k)
    ensures Flat(i, k, j) < |Concat(ss)| && Concat(ss)[Flat(i, k, j)] == ss[i][j]
  {
    ConcatUniformLength(ss, k);
    OffsetUniform(ss, k, i);
    ConcatAt(ss, i, j);
  }

  lemma ConcatUniformLength<T>(ss: seq<seq<T>>, k: nat)
    requires forall m :: 0 <= m < |ss| ==> |ss[m]| == k
    ensures |Concat(ss)| == Mul(|ss|, k)
  {
    OffsetUniform(ss, k, |ss|);
    assert ss[..|ss|] == ss;
  }

  /** Entry `q` of the slice starting at `a` is entry `a + q` of `s`. */
  lemma SliceAt<T>(s: seq<T>, a: nat, len: nat, q: nat)
    requires a + len <= |s| && q < len
    ensures a + q < |s| && s[a .. a + len][q] == s[a + q]
  {
  }

  /** `s` cut into `R` consecutive pieces of length `k`. */
  function Chunks<T>(s: seq<T>, k: nat, R: nat): (r: seq<seq<T>>)
    requires |s| == Mul(R, k)
    ensures |r| == R && forall i :: 0 <= i < R ==> |r[i]| == k
  {
    seq(R, i requires 0 <= i < R => Chunk(s, k, R, i))
  }

  /** Piece `i` of `s` cut into pieces of length `k`. */
  function Chunk<T>(s: seq<T>, k: nat, R: nat, i: nat): (r: seq<T>)
    requires |s| == Mul(R, k) && i < R
    ensures |r| == k
  {
    ChunkBound(i, R, k);
    s[Flat(i, k, 0) .. Flat(i, k, k)]
  }

  /** Entry `j` of piece `i` is entry `i * k + j` of `s`. */
  lemma ChunkAt<T>(s: seq<T>, k: nat, R: nat, i: nat, j: nat)
    requires |s| == Mul(R, k) && i < R && j < k
    ensures Flat(i, k, j) < |s| && Chunk(s, k, R, i)[j] == s[Flat(i, k, j)]
  {
    ChunkBound(i, R, k);
    SliceAt(s, Flat(i, k, 0), k, j);
  }

  /** Joining the chunks of `s` gives `s` back. */
  lemma {:induction false} ChunksConcat<T>(s: seq<T>, k: nat, R: nat)
    requires |s| == Mul(R, k)
    ensures Concat(Chunks(s, k, R)) == s
    decreases R
  {
    if R > 0 {
      var n := R - 1;
      var m := Mul(n, k);
      var p := s[..m];
      ChunksPrefix(s, k, R);
      ChunksConcat(p, k, n);
      assert Chunks(s, k, R)[n] == s[m .. m + k];
      assert s == p + s[m .. m + k];
    }
  }

  lemma ChunksPrefix<T>(s: seq<T>, k: nat, R: nat)
    requires |s| == Mul(R, k) && R > 0
    ensures Mul(R - 1, k) <= |s|
    ensures Chunks(s, k, R)[..R - 1] == Chunks(s[..Mul(R - 1, k)], k, R - 1)
  {
    var n := R - 1;
    var p := s[..Mul(n, k)];
    forall i | 0 <= i < n ensures Chunks(s, k, R)[i] == Chunks(p, k, n)[i] {
      ChunkBound(i, n, k);
    }
  }

  /** Multiset sum of a list of multisets, added from the back. */
  ghost function MSum<T>(ms: seq<multiset<T>>): multiset<T>
  {
    if ms == [] then multiset{} else MSum(ms[..|ms| - 1]) + ms[|ms| - 1]
  }

  /** The multiset of every segment, in order. */
  ghost function Multisets<T>(ss: seq<seq<T>>): (r: seq<multiset<T>>)
    ensures |r| == |ss| && forall i :: 0 <= i < |ss| ==> r[i] == multiset(ss[i])
  {
    seq(|ss|, i requires 0 <= i < |ss| => multiset(ss[i]))
  }

  /** Concatenation keeps exactly the elements of its segments. */
  lemma {:induction false} ConcatMultiset<T>(ss: seq<seq<T>>)
    ensures multiset(Concat(ss)) == MSum(Multisets(ss))
  {
    if ss != [] {
      var n := |ss| - 1;
      assert Multisets(ss)[..n] == Multisets(ss[..n]);
      ConcatMultiset(ss[..n]);
    }
  }

  /** A sequence is the multiset sum of its singletons. */
  lemma {:induction false} SingletonsMultiset<T>(s: seq<T>)
    ensures multiset(s) == MSum(seq(|s|, i requires 0 <= i < |s| => multiset{s[i]}))
  {
    var ms := seq(|s|, i requires 0 <= i < |s| => multiset{s[i]});
    if s != [] {
      var n := |s| - 1;
      assert ms[..n] == seq(n, i requires 0 <= i < n => multiset{s[..n][i]});
      SingletonsMultiset(s[..n]);
      assert s == s[..n] + [s[n]];
    }
  }

  /** Summing pointwise sums equals adding the two sums. */
  lemma {:induction false} MSumAdd<T>(a: seq<multiset<T>>, b: seq<multiset<T>>)
    requires |a| == |b|
    ensures MSum(seq(|a|, i requires 0 <= i < |a| => a[i] + b[i])) == MSum(a) + MSum(b)
  {
    if a != [] {
      var n := |a| - 1;
      var ab := seq(|a|, i requires 0 <= i < |a| => a[i] + b[i]);
      assert ab[..n] == seq(n, i requires 0 <= i < n => a[..n][i] + b[..n][i]);
      MSumAdd(a[..n], b[..n]);
    }
  }

  /** `n` empty multisets. */
  ghost function Empties<T>(n: nat): (r: seq<multiset<T>>)
    ensures |r| == n && forall i :: 0 <= i < n ==> r[i] == multiset{}
  {
    seq(n, i => multiset{})
  }

  lemma {:induction false} MSumEmpties<T>(n: nat)
    ensures MSum(Empties<T>(n)) == multiset{}
  {
    if n > 0 {
      assert Empties<T>(n)[..n - 1] == Empties<T>(n - 1);
      MSumEmpties<T>(n - 1);
    }
  }

  /** The sum of every row of a grid of multisets. */
  ghost function RowSums<T>(g: seq<seq<multiset<T>>>): seq<multiset<T>>
  {
    seq(|g|, i requires 0 <= i < |g| => MSum(g[i]))
  }

  /** Column `j` of a grid whose rows all have at least `j + 1` entries. */
  ghost function Column<T>(g: seq<seq<multiset<T>>>, j: nat): seq<multiset<T>>
    requires forall i :: 0 <= i < |g| ==> j < |g[i]|
  {
    seq(|g|, i requires 0 <= i < |g| => g[i][j])
  }

  /** The sum of every column of a grid whose rows have `C` entries. */
  ghost function ColumnSums<T>(g: seq<seq<multiset<T>>>, C: nat): seq<multiset<T>>
    requires forall i :: 0 <= i < |g| ==> |g[i]| == C
  {
    seq(C, j requires 0 <= j < C => MSum(Column(g, j)))
  }

  /** A double multiset sum may be taken row-first or column-first. */
  lemma {:induction false} MSumSwap<T>(g: seq<seq<multiset<T>>>, C: nat)
    requires forall i :: 0 <= i < |g| ==> |g[i]| == C
    ensures MSum(RowSums(g)) == MSum(ColumnSums(g, C))
  {
    var R := |g|;
    if R == 0 {
      assert ColumnSums(g, C) == Empties<T>(C);
      MSumEmpties<T>(C);
    } else {
      var n := R - 1;
      var h := g[..n];
      MSumSwap(h, C);
      var colsH := ColumnSums(h, C);
      ColumnSumsLast(g, C);
      MSumAdd(colsH, g[n]);
      calc {
        MSum(RowSums(g));
        { assert RowSums(g)[..n] == RowSums(h); }
        MSum(RowSums(h)) + MSum(g[n]);
        MSum(colsH) + MSum(g[n]);
        MSum(ColumnSums(g, C));
      }
    }
  }

  /** Adding a row to a grid adds its entries to the column sums. */
  lemma ColumnSumsLast<T>(g: seq<seq<multiset<T>>>, C: nat)
    requires g != [] && forall i :: 0 <= i < |g| ==> |g[i]| == C
    ensures var n := |g| - 1;
      ColumnSums(g, C) == seq(C, j requires 0 <= j < C => ColumnSums(g[..n], C)[j] + g[n][j])
  {
    var n := |g| - 1;
    forall j | 0 <= j < C
      ensures ColumnSums(g, C)[j] == ColumnSums(g[..n], C)[j] + g[n][j]
    {
      assert Column(g, j)[..n] == Column(g[..n], j);
    }
  }
}
