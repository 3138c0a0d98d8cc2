/** Products of naturals and row-major offsets.

    `Mul` is multiplication defined by repeated addition. The solver unfolds a
    recursive definition only a step at a time, so a proof that mentions `Mul`
    stays in linear arithmetic and uses exactly the product facts proved here,
    each of them in a context that holds nothing but naturals. */
module Arith {

  /** `a * b`. */
  function Mul(a: nat, b: nat): nat
  {
    if a == 0 then 0 else Mul(a - 1, b) + b
  }

  lemma {:induction false} MulIsProduct(a: nat, b: nat)
    ensures Mul(a, b) == a * b
  {
    if a > 0 {
      MulIsProduct(a - 1, b);
    }
  }

  /** Offset of entry `j` of row `i` when every row holds `m` entries. */
  function Flat(i: nat, m: nat, j: nat): nat
  {
    Mul(i, m) + j
  }

  lemma MulMono(a: nat, b: nat, k: nat)
    requires a <= b
    ensures Mul(a, k) <= Mul(b, k)
  {
    MulIsProduct(a, k);
    MulIsProduct(b, k);
    assert a * k <= b * k;
  }

  /** `i * m + j` is a valid flat index when `i < n` and `j < m`. */
  lemma IndexBound(i: nat, n: nat, j: nat, m: nat)
    requires i < n && j < m
    ensures Flat(i, m, j) < Mul(n, m)
  {
    MulMono(i + 1, n, m);
  }

  /** Piece `i` of `R` pieces of length `k` ends inside `R * k`. */
  lemma ChunkBound(i: nat, R: nat, k: nat)
    requires i < R
    ensures Flat(i, k, k) <= Mul(R, k)
  {
    MulMono(i + 1, R, k);
  }

  lemma MulAssoc(a: nat, b: nat, c: nat)
    ensures Mul(Mul(a, b), c) == Mul(a, Mul(b, c))
  {
    var ab, bc := Mul(a, b), Mul(b, c);
    MulIsProduct(a, b);
    MulIsProduct(b, c);
    MulIsProduct(ab, c);
    MulIsProduct(a, bc);
    ProductAssoc(a, b, c);
  }

  /** The size of a (C, H, W) item does not depend on the axis order. */
  lemma Rotate3(a: nat, b: nat, c: nat)
    ensures Mul(Mul(b, c), a) == Mul(Mul(a, b), c)
  {
    var ab, bc := Mul(a, b), Mul(b, c);
    MulIsProduct(a, b);
    MulIsProduct(b, c);
    MulIsProduct(ab, c);
    MulIsProduct(bc, a);
    ProductRotate(a, b, c);
  }

  /** Row `b` of block `a` (blocks of `B` rows of `M` entries) is row `a * B + b`. */
  lemma FlatNest(a: nat, B: nat, b: nat, M: nat, x: nat)
    ensures Flat(Flat(a, B, b), M, x) == Flat(a, Mul(B, M), Flat(b, M, x))
  {
    var row, BM := Flat(a, B, b), Mul(B, M);
    MulIsProduct(a, B);
    MulIsProduct(row, M);
    MulIsProduct(B, M);
    MulIsProduct(a, BM);
    MulIsProduct(b, M);
    ProductNest(a, B, b, M);
  }

  lemma ProductAssoc(a: int, b: int, c: int)
    ensures (a * b) * c == a * (b * c)
  {
  }

  lemma ProductRotate(a: int, b: int, c: int)
    ensures (b * c) * a == (a * b) * c
  {
  }

  lemma ProductNest(a: int, B: int, b: int, M: int)
    ensures (a * B + b) * M == a * (B * M) + b * M
  {
  }

  /** Row `k` of a row-major flat index below `N * K` is below `N`. */
  lemma RowBound(k: nat, j: nat, K: nat, N: nat)
    requires Flat(k, K, j) < Mul(N, K)
    ensures k < N
  {
    if k >= N {
      MulMono(N, k, K);
    }
  }
}
