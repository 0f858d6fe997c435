/** Dense tensors as nested sequences of reals, the reductions (sum, mean)
    the mixture model is written in, and the row-major flatten/unflatten pair
    that stands for `view`. */
module Tensors {

  type Vec = seq<real>
  type Mat = seq<Vec>
  type Tensor3 = seq<Mat>
  type Tensor4 = seq<seq<Mat>>

  /** m has `rows` rows of `cols` entries each. */
  predicate IsMat(m: Mat, rows: nat, cols: nat) {
    |m| == rows && forall i | 0 <= i < |m| :: |m[i]| == cols
  }

  /** t has shape (d0, d1, d2). */
  predicate IsTensor3(t: Tensor3, d0: nat, d1: nat, d2: nat) {
    |t| == d0 && forall b | 0 <= b < |t| :: IsMat(t[b], d1, d2)
  }

  /** t has shape (d0, d1, f, f): a d0-by-d1 grid of f-by-f matrices. */
  predicate IsTensor4(t: Tensor4, d0: nat, d1: nat, f: nat) {
    && |t| == d0
    && (forall b | 0 <= b < |t| :: |t[b]| == d1)
    && (forall b, k | 0 <= b < |t| && 0 <= k < |t[b]| :: IsMat(t[b][k], f, f))
  }

  /** `t.shape[1]` of a three-dimensional tensor (0 when there is no row). */
  function Dim1(t: Tensor3): nat {
    if |t| == 0 then 0 else |t[0]|
  }

  /** `t.shape[2]` of a three-dimensional tensor (0 when there is no entry). */
  function Dim2(t: Tensor3): nat {
    if |t| == 0 || |t[0]| == 0 then 0 else |t[0][0]|
  }

  lemma DimsOfShape(t: Tensor3, d0: nat, d1: nat, d2: nat)
    requires IsTensor3(t, d0, d1, d2) && d0 >= 1
    ensures Dim1(t) == d1
    ensures d1 >= 1 ==> Dim2(t) == d2
  {
  }

  /** Entry i of v, or 0 outside v. */
  function Get(v: Vec, i: nat): real {
    if i < |v| then v[i] else 0.0
  }

  /** Entry (i, j) of m, or 0 outside m. */
  function At(m: Mat, i: nat, j: nat): real {
    if i < |m| && j < |m[i]| then m[i][j] else 0.0
  }

  /** Column j of m. */
  function Column(m: Mat, j: nat): (c: Vec)
    ensures |c| == |m|
    ensures forall i | 0 <= i < |m| && j < |m[i]| :: c[i] == m[i][j]
  {
    seq(|m|, i requires 0 <= i < |m| => At(m, i, j))
  }

  function Max(a: real, b: real): real {
    if a >= b then a else b
  }

  function Abs(a: real): real {
    if a >= 0.0 then a else -a
  }

  function Sum(v: Vec): real {
    if |v| == 0 then 0.0 else v[0] + Sum(v[1..])
  }

  /** Arithmetic mean; the empty case never arises on the shapes used here. */
  function Mean(v: Vec): real {
    if |v| == 0 then 0.0 else Sum(v) / |v| as real
  }

  lemma {:induction false} SumScaled(u: Vec, v: Vec, c: real)
    requires |u| == |v|
    requires forall i | 0 <= i < |u| :: u[i] == c * v[i]
    ensures Sum(u) == c * Sum(v)
  {
    if |u| > 0 {
      SumScaled(u[1..], v[1..], c);
      calc {
        Sum(u);
        u[0] + Sum(u[1..]);
        c * v[0] + c * Sum(v[1..]);
        c * (v[0] + Sum(v[1..]));
      }
    }
  }

  lemma {:induction false} SumConst(v: Vec, c: real)
    requires forall i | 0 <= i < |v| :: v[i] == c
    ensures Sum(v) == |v| as real * c
  {
    if |v| > 0 {
      SumConst(v[1..], c);
    }
  }

  lemma {:induction false} SumLowerBound(v: Vec, a: real)
    requires forall i | 0 <= i < |v| :: v[i] >= a
    ensures Sum(v) >= |v| as real * a
  {
    if |v| > 0 {
      SumLowerBound(v[1..], a);
    }
  }

  /** Σ_i w_i·x_i >= a·Σ_i w_i for non-negative weights when every x_i >= a. */
  lemma {:induction false} WeightedLowerBound(w: Vec, x: Vec, wx: Vec, a: real)
    requires |w| == |x| == |wx|
    requires forall i | 0 <= i < |w| :: w[i] >= 0.0 && x[i] >= a && wx[i] == w[i] * x[i]
    ensures Sum(wx) >= a * Sum(w)
  {
    if |w| > 0 {
      WeightedLowerBound(w[1..], x[1..], wx[1..], a);
      MulMonotone(w[0], a, x[0]);
      Distribute(a, w[0], Sum(w[1..]));
    }
  }

  /** Σ_i w_i·x_i <= a·Σ_i w_i for non-negative weights when every x_i <= a. */
  lemma {:induction false} WeightedUpperBound(w: Vec, x: Vec, wx: Vec, a: real)
    requires |w| == |x| == |wx|
    requires forall i | 0 <= i < |w| :: w[i] >= 0.0 && x[i] <= a && wx[i] == w[i] * x[i]
    ensures Sum(wx) <= a * Sum(w)
  {
    if |w| > 0 {
      WeightedUpperBound(w[1..], x[1..], wx[1..], a);
      MulMonotone(w[0], x[0], a);
      Distribute(a, w[0], Sum(w[1..]));
    }
  }

  lemma MulMonotone(w: real, lo: real, hi: real)
    requires w >= 0.0 && lo <= hi
    ensures w * lo <= w * hi && lo * w <= hi * w
  {
  }

  lemma Distribute(a: real, x: real, y: real)
    ensures a * (x + y) == a * x + a * y
  {
  }

  lemma {:induction false} SumPositive(v: Vec)
    requires |v| > 0
    requires forall i | 0 <= i < |v| :: v[i] > 0.0
    ensures Sum(v) > 0.0
  {
    if |v| > 1 {
      SumPositive(v[1..]);
    }
  }

  /** A vector that is zero except at index i sums to its entry at i. */
  lemma {:induction false} SumOneHot(v: Vec, i: nat)
    requires i < |v|
    requires forall j | 0 <= j < |v| && j != i :: v[j] == 0.0
    ensures Sum(v) == v[i]
  {
    if i == 0 {
      SumConst(v[1..], 0.0);
    } else {
      SumOneHot(v[1..], i - 1);
    }
  }

  lemma {:induction false} SumAdd(u: Vec, v: Vec, w: Vec)
    requires |u| == |v| == |w|
    requires forall i | 0 <= i < |w| :: w[i] == u[i] + v[i]
    ensures Sum(w) == Sum(u) + Sum(v)
  {
    if |w| > 0 {
      SumAdd(u[1..], v[1..], w[1..]);
    }
  }

  /** The sums of the rows of m, one per row. */
  function RowSums(m: Mat): (v: Vec)
    ensures |v| == |m|
    ensures forall s | 0 <= s < |m| :: v[s] == Sum(m[s])
  {
    seq(|m|, s requires 0 <= s < |m| => Sum(m[s]))
  }

  /** The sums of the n columns of m, one per column. */
  function ColumnSums(m: Mat, n: nat): (v: Vec)
    ensures |v| == n
    ensures forall j | 0 <= j < n :: v[j] == Sum(Column(m, j))
  {
    seq(n, j requires 0 <= j < n => Sum(Column(m, j)))
  }

  /** Summing a matrix column by column or row by row gives the same total. */
  lemma {:induction false} SumByColumnsOrRows(m: Mat, n: nat)
    requires IsMat(m, |m|, n)
    ensures Sum(ColumnSums(m, n)) == Sum(RowSums(m))
  {
    if |m| == 0 {
      SumConst(ColumnSums(m, n), 0.0);
    } else {
      var rest := m[1..];
      forall j | 0 <= j < n ensures Sum(Column(m, j)) == m[0][j] + Sum(Column(rest, j)) {
        assert Column(m, j)[1..] == Column(rest, j);
      }
      SumAdd(m[0], ColumnSums(rest, n), ColumnSums(m, n));
      SumByColumnsOrRows(rest, n);
      assert RowSums(m)[1..] == RowSums(rest);
    }
  }

  lemma MeanConst(v: Vec, c: real)
    requires |v| > 0
    requires forall i | 0 <= i < |v| :: v[i] == c
    ensures Mean(v) == c
  {
    SumConst(v, c);
  }

  lemma MeanLowerBound(v: Vec, a: real)
    requires |v| > 0
    requires forall i | 0 <= i < |v| :: v[i] >= a
    ensures Mean(v) >= a
  {
    SumLowerBound(v, a);
  }

  lemma DivLowerBound(a: real, c: real, lo: real)
    requires c > 0.0 && a >= lo * c
    ensures a / c >= lo
  {
  }

  lemma DivUpperBound(a: real, c: real, hi: real)
    requires c > 0.0 && a <= hi * c
    ensures a / c <= hi
  {
  }

  /** Row-major flattening of a sequence of rows (`view(-1, ...)`). */
  function Concat<T>(xss: seq<seq<T>>): seq<T> {
    if |xss| == 0 then [] else xss[0] + Concat(xss[1..])
  }

  lemma {:induction false} ConcatLength<T>(xss: seq<seq<T>>, n: nat)
    requires forall r | 0 <= r < |xss| :: |xss[r]| == n
    ensures |Concat(xss)| == |xss| * n
  {
    if |xss| > 0 {
      ConcatLength(xss[1..], n);
    }
  }

  /** Row i, entry j of the rows sits at flat index i * n + j. */
  lemma {:induction false} ConcatIndex<T>(xss: seq<seq<T>>, n: nat, i: nat, j: nat)
    requires forall r | 0 <= r < |xss| :: |xss[r]| == n
    requires i < |xss| && j < n
    ensures |Concat(xss)| == |xss| * n
    ensures i * n + j < |Concat(xss)| && Concat(xss)[i * n + j] == xss[i][j]
  {
    ConcatLength(xss, n);
    if i > 0 {
      ConcatIndex(xss[1..], n, i - 1, j);
      assert i * n + j == n + ((i - 1) * n + j);
    }
  }

  /** Splits v into `count` consecutive rows of n entries (`view(count, n)`). */
  function Chunk<T>(v: seq<T>, count: nat, n: nat): (r: seq<seq<T>>)
    requires |v| == count * n
    ensures |r| == count
    ensures forall i | 0 <= i < count :: |r[i]| == n
    decreases count
  {
    if count == 0 then []
    else
      assert count * n == (count - 1) * n + n;
      [v[..n]] + Chunk(v[n..], count - 1, n)
  }

  lemma {:induction false} ChunkIndex<T>(v: seq<T>, count: nat, n: nat, i: nat, j: nat)
    requires |v| == count * n
    requires i < count && j < n
    ensures i * n + j < |v| && Chunk(v, count, n)[i][j] == v[i * n + j]
    decreases count
  {
    MulPred(count, n);
    var rest := v[n..];
    var tail := Chunk(rest, count - 1, n);
    assert Chunk(v, count, n) == [v[..n]] + tail;
    if i == 0 {
      assert i * n + j == j;
    } else {
      ChunkIndex(rest, count - 1, n, i - 1, j);
      MulPred(i, n);
      var at := (i - 1) * n + j;
      assert i * n + j == n + at;
      assert Chunk(v, count, n)[i] == tail[i - 1];
      assert tail[i - 1][j] == rest[at] == v[n + at];
    }
  }

  lemma MulPred(a: nat, n: nat)
    requires a >= 1
    ensures a * n == (a - 1) * n + n && (a - 1) * n >= 0
  {
  }

  /** Flattening undoes chunking. */
  lemma {:induction false} ConcatChunk<T>(v: seq<T>, count: nat, n: nat)
    requires |v| == count * n
    ensures Concat(Chunk(v, count, n)) == v
    decreases count
  {
    if count > 0 {
      assert count * n == (count - 1) * n + n;
      var rest := Chunk(v[n..], count - 1, n);
      ConcatChunk(v[n..], count - 1, n);
      assert Chunk(v, count, n)[1..] == rest;
      assert v == v[..n] + v[n..];
    }
  }

  /** Chunking undoes flattening of rows of equal length. */
  lemma {:induction false} ChunkConcat<T>(xss: seq<seq<T>>, n: nat)
    requires forall r | 0 <= r < |xss| :: |xss[r]| == n
    ensures |Concat(xss)| == |xss| * n
    ensures Chunk(Concat(xss), |xss|, n) == xss
  {
    ConcatLength(xss, n);
    if |xss| > 0 {
      ChunkConcat(xss[1..], n);
      var flat := Concat(xss);
      assert flat[..n] == xss[0];
      assert flat[n..] == Concat(xss[1..]);
    }
  }
}
