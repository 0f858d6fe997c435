/** The covariance-structure constraint of `GaussianMixture._enforce_covariance_type`:
    three independent substring tests on the configured type string, applied
    one after the other to a (batch, components, features, features) tensor. */
module Covariance {
  import opened Tensors

  const SphericalKey: string := "spherical"
  const DiagKey: string := "diag"
  const TiedKey: string := "tied"

  /** sub occurs in s starting at index i. */
  predicate OccursAt(s: string, sub: string, i: int) {
    0 <= i && i + |sub| <= |s| && s[i..i + |sub|] == sub
  }

  /** Python's `sub in s` on strings. */
  function Contains(s: string, sub: string): (r: bool)
    ensures |sub| == 0 ==> r
    ensures r ==> |sub| <= |s|
    decreases |s|
  {
    if |sub| > |s| then false
    else if s[..|sub|] == sub then true
    else Contains(s[1..], sub)
  }

  /** Contains agrees with the positional definition of a substring. */
  lemma {:induction false} ContainsIffOccurs(s: string, sub: string)
    ensures Contains(s, sub) <==> exists i :: OccursAt(s, sub, i)
    decreases |s|
  {
    if |sub| > |s| {
      forall i ensures !OccursAt(s, sub, i) { }
    } else if s[..|sub|] == sub {
      assert OccursAt(s, sub, 0);
    } else {
      ContainsIffOccurs(s[1..], sub);
      if exists i :: OccursAt(s[1..], sub, i) {
        var i :| OccursAt(s[1..], sub, i);
        assert s[i + 1..i + 1 + |sub|] == s[1..][i..i + |sub|];
        assert OccursAt(s, sub, i + 1);
      }
      if exists i :: OccursAt(s, sub, i) {
        var i :| OccursAt(s, sub, i);
        assert i != 0;
        assert s[1..][i - 1..i - 1 + |sub|] == s[i..i + |sub|];
        assert OccursAt(s[1..], sub, i - 1);
      }
    }
  }

  /** A non-empty pattern whose first character never appears in s does not occur in it. */
  lemma NotContainsFirstChar(s: string, sub: string)
    requires |sub| > 0 && sub[0] !in s
    ensures !Contains(s, sub)
  {
    ContainsIffOccurs(s, sub);
    forall i ensures !OccursAt(s, sub, i) {
      if 0 <= i && i + |sub| <= |s| {
        assert s[i..i + |sub|][0] == s[i] != sub[0];
      }
    }
  }

  /** Entry (i, j) of the identity matrix used as `diag_mask`. */
  function Eye(i: nat, j: nat): real {
    if i == j then 1.0 else 0.0
  }

  /** Multiplication by the diagonal mask: keeps the diagonal, zeroes every other entry. */
  function DiagMask(m: Mat): (r: Mat)
    ensures |r| == |m| && forall i | 0 <= i < |m| :: |r[i]| == |m[i]|
  {
    seq(|m|, i requires 0 <= i < |m| =>
      seq(|m[i]|, j requires 0 <= j < |m[i]| => m[i][j] * Eye(i, j)))
  }

  /** The mean over rows, then over columns: the mean of the column means. */
  function MatMean(m: Mat): real {
    var cols := if |m| == 0 then 0 else |m[0]|;
    Mean(ColumnMeans(m, cols))
  }

  /** The mean of the column means of a square F×F matrix is the plain mean
      of all its F·F entries. */
  lemma MatMeanAllEntries(m: Mat, nf: nat)
    requires IsMat(m, nf, nf) && nf >= 1
    ensures MatMean(m) == Sum(RowSums(m)) / (nf * nf) as real
  {
    var n := nf as real;
    var means := ColumnMeans(m, nf);
    ColumnMeansTotal(m, nf);
    SumByColumnsOrRows(m, nf);
    assert MatMean(m) == Sum(means) / n;
    ScaledTwice(Sum(ColumnSums(m, nf)), n);
    assert (nf * nf) as real == n * n;
  }

  function ColumnMeans(m: Mat, nf: nat): (v: Vec)
    ensures |v| == nf
  {
    seq(nf, j requires 0 <= j < nf => Mean(Column(m, j)))
  }

  /** The column means add up to the column totals over F. */
  lemma ColumnMeansTotal(m: Mat, nf: nat)
    requires IsMat(m, nf, nf) && nf >= 1
    ensures Sum(ColumnMeans(m, nf)) == (1.0 / nf as real) * Sum(ColumnSums(m, nf))
  {
    var n := nf as real;
    var means := ColumnMeans(m, nf);
    var sums := ColumnSums(m, nf);
    forall j | 0 <= j < nf ensures means[j] == (1.0 / n) * sums[j] {
      assert |Column(m, j)| == nf;
    }
    SumScaled(means, sums, 1.0 / n);
  }

  lemma ScaledTwice(x: real, n: real)
    requires n > 0.0
    ensures ((1.0 / n) * x) / n == x / (n * n)
  {
  }

  /** The matrix mean of entries that are all at least a is at least a. */
  lemma MatMeanLowerBound(m: Mat, nf: nat, a: real)
    requires IsMat(m, nf, nf) && nf >= 1
    requires forall i, j | 0 <= i < nf && 0 <= j < nf :: m[i][j] >= a
    ensures MatMean(m) >= a
  {
    var colMeans := seq(nf, j requires 0 <= j < nf => Mean(Column(m, j)));
    forall j | 0 <= j < nf ensures colMeans[j] >= a {
      MeanLowerBound(Column(m, j), a);
    }
    MeanLowerBound(colMeans, a);
  }

  /** Every entry replaced by the matrix mean. */
  function FillMean(m: Mat): (r: Mat)
    ensures |r| == |m| && forall i | 0 <= i < |m| :: |r[i]| == |m[i]|
  {
    var mean := MatMean(m);
    seq(|m|, i requires 0 <= i < |m| => seq(|m[i]|, _ => mean))
  }

  /** The spherical constraint on one component's matrix. */
  function Spherical(m: Mat): Mat {
    DiagMask(FillMean(m))
  }

  /** The (i, j) entries of the matrices cs, one per component. */
  function Across(cs: seq<Mat>, i: nat, j: nat): (v: Vec)
    ensures |v| == |cs|
    ensures forall k | 0 <= k < |cs| && i < |cs[k]| && j < |cs[k][i]| :: v[k] == cs[k][i][j]
  {
    seq(|cs|, k requires 0 <= k < |cs| => At(cs[k], i, j))
  }

  /** The mean over the component axis, for the components cs of one batch element. */
  function ComponentMean(cs: seq<Mat>): Mat {
    var rows := if |cs| == 0 then [] else cs[0];
    seq(|rows|, i requires 0 <= i < |rows| =>
      seq(|rows[i]|, j requires 0 <= j < |rows[i]| => Mean(Across(cs, i, j))))
  }

  /** Entry (i, j) of the component mean is the mean of the components' (i, j) entries. */
  lemma ComponentMeanEntries(cs: seq<Mat>, nk: nat, nf: nat)
    requires |cs| == nk >= 1
    requires forall k | 0 <= k < nk :: IsMat(cs[k], nf, nf)
    ensures IsMat(ComponentMean(cs), nf, nf)
    ensures forall i, j | 0 <= i < nf && 0 <= j < nf :: ComponentMean(cs)[i][j] == Mean(Across(cs, i, j))
  {
  }

  /** K times entry (i, j) of the component mean is the total of the K
      components' (i, j) entries. */
  lemma ComponentMeanTotal(cs: seq<Mat>, nk: nat, nf: nat, i: nat, j: nat)
    requires |cs| == nk >= 1
    requires forall k | 0 <= k < nk :: IsMat(cs[k], nf, nf)
    requires i < nf && j < nf
    ensures IsMat(ComponentMean(cs), nf, nf)
    ensures ComponentMean(cs)[i][j] * nk as real == Sum(Across(cs, i, j))
  {
    ComponentMeanEntries(cs, nk, nf);
    DivTimes(Sum(Across(cs, i, j)), nk as real);
  }

  lemma DivTimes(x: real, n: real)
    requires n > 0.0
    ensures (x / n) * n == x
  {
  }

  /** The component mean of matrices whose entries are all at least a has entries at least a. */
  lemma ComponentMeanLowerBound(cs: seq<Mat>, nk: nat, nf: nat, a: real)
    requires |cs| == nk >= 1
    requires forall k | 0 <= k < nk :: IsMat(cs[k], nf, nf)
    requires forall k, i, j | 0 <= k < nk && 0 <= i < nf && 0 <= j < nf :: At(cs[k], i, j) >= a
    ensures IsMat(ComponentMean(cs), nf, nf)
    ensures forall i, j | 0 <= i < nf && 0 <= j < nf :: ComponentMean(cs)[i][j] >= a
  {
    ComponentMeanEntries(cs, nk, nf);
    forall i, j | 0 <= i < nf && 0 <= j < nf ensures ComponentMean(cs)[i][j] >= a {
      MeanLowerBound(Across(cs, i, j), a);
    }
  }

  /** The tied constraint on the components of one batch element. */
  function Tied(cs: seq<Mat>): seq<Mat> {
    var mean := ComponentMean(cs);
    seq(|cs|, _ => mean)
  }

  /** The tied constraint on every batch element. */
  function TiedAll(c: Tensor4): (r: Tensor4)
    ensures |r| == |c| && forall b | 0 <= b < |c| :: |r[b]| == |c[b]|
  {
    seq(|c|, b requires 0 <= b < |c| => Tied(c[b]))
  }

  /** Applies f to every matrix of the tensor. */
  function MapMats(f: Mat -> Mat, c: Tensor4): (r: Tensor4)
    ensures |r| == |c| && forall b | 0 <= b < |c| :: |r[b]| == |c[b]|
  {
    seq(|c|, b requires 0 <= b < |c| =>
      seq(|c[b]|, k requires 0 <= k < |c[b]| => f(c[b][k])))
  }

  /** The three independent, cascading tests of `_enforce_covariance_type`. */
  function Enforce(ctype: string, c: Tensor4): (r: Tensor4)
    ensures |r| == |c| && forall b | 0 <= b < |c| :: |r[b]| == |c[b]|
  {
    var c1 := if Contains(ctype, SphericalKey) then MapMats(Spherical, c) else c;
    var c2 := if Contains(ctype, DiagKey) then MapMats(DiagMask, c1) else c1;
    if Contains(ctype, TiedKey) then TiedAll(c2) else c2
  }

  /** Which of the three tests fire for the four documented type names. */
  lemma DispatchOfDocumentedNames()
    ensures Contains("spherical", SphericalKey) && !Contains("spherical", DiagKey) && !Contains("spherical", TiedKey)
    ensures !Contains("diag", SphericalKey) && Contains("diag", DiagKey) && !Contains("diag", TiedKey)
    ensures !Contains("tied", SphericalKey) && !Contains("tied", DiagKey) && Contains("tied", TiedKey)
    ensures !Contains("full", SphericalKey) && !Contains("full", DiagKey) && !Contains("full", TiedKey)
  {
    NotContainsFirstChar("spherical", DiagKey);
    NotContainsFirstChar("spherical", TiedKey);
    NotContainsFirstChar("diag", TiedKey);
    assert "tied"[..4] != DiagKey by { assert "tied"[0] != DiagKey[0]; }
    NotContainsFirstChar("full", DiagKey);
    NotContainsFirstChar("full", TiedKey);
  }

  /** The tests are not exclusive: a name holding two keys gets both
      constraints, diagonal masking first and tying after. */
  lemma EnforceCascades(c: Tensor4)
    ensures Enforce("diag_tied", c) == TiedAll(MapMats(DiagMask, c))
  {
    var s := "diag_tied";
    assert s[..|DiagKey|] == DiagKey;
    assert OccursAt(s, TiedKey, 5);
    ContainsIffOccurs(s, TiedKey);
    NotContainsFirstChar(s, SphericalKey);
  }

  lemma MapSphericalShape(c: Tensor4, nb: nat, nk: nat, nf: nat)
    requires IsTensor4(c, nb, nk, nf)
    ensures IsTensor4(MapMats(Spherical, c), nb, nk, nf)
  {
    forall b, k | 0 <= b < nb && 0 <= k < nk ensures IsMat(MapMats(Spherical, c)[b][k], nf, nf) {
      SphericalEntries(c[b][k], nf);
    }
  }

  lemma MapDiagMaskShape(c: Tensor4, nb: nat, nk: nat, nf: nat)
    requires IsTensor4(c, nb, nk, nf)
    ensures IsTensor4(MapMats(DiagMask, c), nb, nk, nf)
  {
    forall b, k | 0 <= b < nb && 0 <= k < nk ensures IsMat(MapMats(DiagMask, c)[b][k], nf, nf) {
      assert MapMats(DiagMask, c)[b][k] == DiagMask(c[b][k]);
    }
  }

  lemma TiedAllShape(c: Tensor4, nb: nat, nk: nat, nf: nat)
    requires IsTensor4(c, nb, nk, nf)
    ensures IsTensor4(TiedAll(c), nb, nk, nf)
  {
    forall b, k | 0 <= b < nb && 0 <= k < nk ensures IsMat(TiedAll(c)[b][k], nf, nf) {
      ComponentMeanEntries(c[b], nk, nf);
      assert TiedAll(c)[b][k] == ComponentMean(c[b]);
    }
  }

  lemma EnforceShape(ctype: string, c: Tensor4, nb: nat, nk: nat, nf: nat)
    requires IsTensor4(c, nb, nk, nf)
    ensures IsTensor4(Enforce(ctype, c), nb, nk, nf)
  {
    MapSphericalShape(c, nb, nk, nf);
    var c1 := if Contains(ctype, SphericalKey) then MapMats(Spherical, c) else c;
    MapDiagMaskShape(c1, nb, nk, nf);
    var c2 := if Contains(ctype, DiagKey) then MapMats(DiagMask, c1) else c1;
    TiedAllShape(c2, nb, nk, nf);
  }

  /** 'diag' zeroes every off-diagonal entry and keeps the diagonal. */
  lemma EnforceDiag(c: Tensor4, nb: nat, nk: nat, nf: nat)
    requires IsTensor4(c, nb, nk, nf)
    ensures IsTensor4(Enforce("diag", c), nb, nk, nf)
    ensures forall b, k, i, j | 0 <= b < nb && 0 <= k < nk && 0 <= i < nf && 0 <= j < nf ::
      Enforce("diag", c)[b][k][i][j] == if i == j then c[b][k][i][i] else 0.0
  {
    DispatchOfDocumentedNames();
    var r := Enforce("diag", c);
    assert r == MapMats(DiagMask, c);
    MapDiagMaskShape(c, nb, nk, nf);
    forall b, k | 0 <= b < nb && 0 <= k < nk
      ensures forall i, j | 0 <= i < nf && 0 <= j < nf :: r[b][k][i][j] == if i == j then c[b][k][i][i] else 0.0
    {
      assert r[b][k] == DiagMask(c[b][k]);
      DiagMaskEntries(c[b][k], nf);
    }
  }

  /** The masked matrix keeps the diagonal and zeroes the rest. */
  lemma DiagMaskEntries(m: Mat, nf: nat)
    requires IsMat(m, nf, nf)
    ensures forall i, j | 0 <= i < nf && 0 <= j < nf :: DiagMask(m)[i][j] == if i == j then m[i][i] else 0.0
  {
  }

  /** Every entry of the spherical matrix's diagonal is the mean of all entries. */
  lemma SphericalEntries(m: Mat, nf: nat)
    requires IsMat(m, nf, nf)
    ensures IsMat(Spherical(m), nf, nf)
    ensures forall i, j | 0 <= i < nf && 0 <= j < nf ::
      Spherical(m)[i][j] == if i == j then MatMean(m) else 0.0
  {
  }

  /** 'spherical' puts the mean of all F×F entries of each matrix on its diagonal. */
  lemma EnforceSpherical(c: Tensor4, nb: nat, nk: nat, nf: nat)
    requires IsTensor4(c, nb, nk, nf)
    ensures IsTensor4(Enforce("spherical", c), nb, nk, nf)
    ensures forall b, k, i, j | 0 <= b < nb && 0 <= k < nk && 0 <= i < nf && 0 <= j < nf ::
      Enforce("spherical", c)[b][k][i][j] == if i == j then MatMean(c[b][k]) else 0.0
  {
    DispatchOfDocumentedNames();
    assert Enforce("spherical", c) == MapMats(Spherical, c);
    MapSphericalShape(c, nb, nk, nf);
    forall b, k | 0 <= b < nb && 0 <= k < nk {
      SphericalEntries(c[b][k], nf);
    }
  }

  /** 'tied' gives every component of a batch element the component-wise mean. */
  lemma EnforceTied(c: Tensor4, nb: nat, nk: nat, nf: nat)
    requires IsTensor4(c, nb, nk, nf)
    ensures IsTensor4(Enforce("tied", c), nb, nk, nf)
    ensures forall b, k | 0 <= b < nb && 0 <= k < nk :: Enforce("tied", c)[b][k] == ComponentMean(c[b])
    ensures forall b, k, i, j | 0 <= b < nb && 0 <= k < nk && 0 <= i < nf && 0 <= j < nf ::
      Enforce("tied", c)[b][k][i][j] == Mean(Across(c[b], i, j))
  {
    DispatchOfDocumentedNames();
    assert Enforce("tied", c) == TiedAll(c);
    TiedAllShape(c, nb, nk, nf);
    forall b | 0 <= b < nb && nk >= 1 {
      ComponentMeanEntries(c[b], nk, nf);
    }
  }

  /** A type string that contains none of the three keys leaves the tensor as it is. */
  lemma EnforceUnrecognised(ctype: string, c: Tensor4)
    requires !Contains(ctype, SphericalKey) && !Contains(ctype, DiagKey) && !Contains(ctype, TiedKey)
    ensures Enforce(ctype, c) == c
  {
  }

  /** In particular 'full' is the identity. */
  lemma EnforceFull(c: Tensor4)
    ensures Enforce("full", c) == c
  {
    DispatchOfDocumentedNames();
  }
}
