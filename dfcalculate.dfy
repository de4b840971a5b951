/** Model of ibar/dfcalculate.py: geometric means, the two kinds of per-sample
    scaling factors and the rule that chooses between them, the closed-form
    (weighted) least-squares fit, the clamped dispersion parameters (k, b) and the
    model variance `mean + 2^b * mean^k`.

    A table slice `dat[label]` is a sequence of columns (one per label, in label
    order), each holding `n` rows. IEEE infinities and NaN are not real numbers; where
    the source would produce one, the model returns `None`. */
module DfCalculate {
  import opened Common

  /** Every selected column has `n` entries, as in a DataFrame. */
  ghost predicate Rectangular(cols: seq<Column>, n: nat) {
    forall j :: 0 <= j < |cols| ==> |cols[j]| == n
  }

  ghost predicate AllNonNegative(cols: seq<Column>) {
    forall j, i :: 0 <= j < |cols| && 0 <= i < |cols[j]| ==> cols[j][i] >= 0.0
  }

  ghost predicate AllPositive(cols: seq<Column>) {
    forall j, i :: 0 <= j < |cols| && 0 <= i < |cols[j]| ==> cols[j][i] > 0.0
  }

  ghost predicate ColumnSumsPositive(cols: seq<Column>) {
    forall j :: 0 <= j < |cols| ==> Sum(cols[j]) > 0.0
  }

  /** Row `i` across the selected columns. */
  function RowOf(cols: seq<Column>, n: nat, i: nat): (r: seq<real>)
    requires Rectangular(cols, n) && i < n
    ensures |r| == |cols| && forall j :: 0 <= j < |cols| ==> r[j] == cols[j][i]
  {
    seq(|cols|, j requires 0 <= j < |cols| => cols[j][i])
  }

  /** The mean of `log(x + 1)` over a row. */
  function MeanLog1p(m: Math, row: seq<real>): real
    requires |row| > 0
  {
    Sum(seq(|row|, j requires 0 <= j < |row| => m.ln(row[j] + 1.0))) / (|row| as real)
  }

  lemma {:induction false} MeanLog1pPositive(m: Math, row: seq<real>)
    requires Sane(m) && |row| > 0 && forall j :: 0 <= j < |row| ==> row[j] > 0.0
    ensures MeanLog1p(m, row) > 0.0
  {
    SumPositive(seq(|row|, j requires 0 <= j < |row| => m.ln(row[j] + 1.0)));
  }

  // ------------------------------------------------------------------
  // df_geomean
  // ------------------------------------------------------------------

  /** `df_geomean`: an empty label list is an error, a single label gives that column
      back unchanged, and otherwise each row's `exp(mean(log(x + 1))) - 1`. */
  function GeoMean(m: Math, cols: seq<Column>, n: nat): (r: Result<Column>)
    requires Rectangular(cols, n)
    ensures r.Err? <==> |cols| == 0
    ensures |cols| == 1 ==> r == Ok(cols[0])
    ensures r.Ok? ==> |r.value| == n
  {
    if |cols| == 0 then Err("Length of label should be at least 1.")
    else if |cols| == 1 then Ok(cols[0])
    else Ok(seq(n, i requires 0 <= i < n => m.exp(MeanLog1p(m, RowOf(cols, n, i))) - 1.0))
  }

  /** Rows of positive counts have a positive geometric mean. */
  lemma {:induction false} GeoMeanPositive(m: Math, cols: seq<Column>, n: nat)
    requires Sane(m) && Rectangular(cols, n) && |cols| > 0 && AllPositive(cols)
    ensures GeoMean(m, cols, n).Ok?
    ensures forall i :: 0 <= i < n ==> GeoMean(m, cols, n).value[i] > 0.0
  {
    if |cols| >= 2 {
      forall i | 0 <= i < n
        ensures m.exp(MeanLog1p(m, RowOf(cols, n, i))) > 1.0
      {
        MeanLog1pPositive(m, RowOf(cols, n, i));
      }
    }
  }

  // ------------------------------------------------------------------
  // df_median_ratio_normfactor
  // ------------------------------------------------------------------

  /** `exp(mean(log(x + 1)))` of row `i`: the row mean used by median-ratio scaling
      (without the `- 1` of `df_geomean`). */
  function RowGeoMean1p(m: Math, cols: seq<Column>, n: nat, i: nat): real
    requires Rectangular(cols, n) && |cols| > 0 && i < n
  {
    m.exp(MeanLog1p(m, RowOf(cols, n, i)))
  }

  /** The row means after `datgm[datgm <= 0] = 1`. */
  function ClampedGeoMeans(m: Math, cols: seq<Column>, n: nat): (r: Column)
    requires Rectangular(cols, n) && |cols| > 0
    ensures |r| == n && forall i :: 0 <= i < n ==> r[i] > 0.0
  {
    seq(n, i requires 0 <= i < n =>
      var g := RowGeoMean1p(m, cols, n, i); if g <= 0.0 then 1.0 else g)
  }

  /** `dat[label].div(datgm, axis=0)` for one column. */
  function Ratios(col: Column, gm: Column): (r: Column)
    requires |col| == |gm| && forall i :: 0 <= i < |gm| ==> gm[i] > 0.0
    ensures |r| == |col|
  {
    seq(|col|, i requires 0 <= i < |col| => col[i] / gm[i])
  }

  /** pandas' median: the middle of the sorted values, or the mean of the two middle
      values for an even count. */
  function Median(s: seq<real>): real
    requires |s| > 0
  {
    var t := SortBy(s, Ident);
    if |t| % 2 == 1 then t[|t| / 2] else (t[|t| / 2 - 1] + t[|t| / 2]) / 2.0
  }

  /** `1 / meanfactor.median(axis=0)`, column by column, for given row means; `None`
      where the median ratio is 0, so that the factor is not a finite number. */
  function MedianFactorsFrom(cols: seq<Column>, n: nat, gm: Column): (r: seq<Option<real>>)
    requires Rectangular(cols, n) && n > 0 && |gm| == n
    requires forall i :: 0 <= i < n ==> gm[i] > 0.0
    ensures |r| == |cols|
    ensures forall j :: 0 <= j < |r| ==> r[j] != Some(0.0)
  {
    seq(|cols|, j requires 0 <= j < |cols| =>
      var med := Median(Ratios(cols[j], gm));
      if med == 0.0 then None else Some(1.0 / med))
  }

  /** The median-ratio factors of the selected columns. No factor is ever 0, so the
      pipeline's first fallback test (`medianfactor == 0`) never fires. */
  function MedianRatioFactors(m: Math, cols: seq<Column>, n: nat): (r: seq<Option<real>>)
    requires Rectangular(cols, n) && n > 0 && |cols| > 0
    ensures |r| == |cols|
    ensures forall j :: 0 <= j < |r| ==> r[j] != Some(0.0)
  {
    MedianFactorsFrom(cols, n, ClampedGeoMeans(m, cols, n))
  }

  /** `df_median_ratio_normfactor`: the row means are computed into a buffer that is
      then clamped in place, and the factors are taken from the clamped means. */
  method MedianRatioNormFactor(m: Math, cols: seq<Column>, n: nat) returns (factors: seq<Option<real>>)
    requires Rectangular(cols, n) && n > 0 && |cols| > 0
    ensures factors == MedianRatioFactors(m, cols, n)
  {
    var datgm := new real[n](i requires 0 <= i < n => RowGeoMean1p(m, cols, n, i));
    forall i | 0 <= i < n && datgm[i] <= 0.0 {
      datgm[i] := 1.0;
    }
    assert datgm[..] == ClampedGeoMeans(m, cols, n);
    factors := MedianFactorsFrom(cols, n, datgm[..]);
  }

  function IsZero(x: real): bool {
    x == 0.0
  }

  /** `(dat[label] == 0).sum(axis=0) / dat.shape[0] > 0.45` for one column. */
  predicate TooManyZeros(col: Column, n: nat)
    requires n > 0
  {
    (Count(col, IsZero) as real) / (n as real) > 0.45
  }

  lemma {:induction false} SquareNonNegative(d: real)
    ensures d * d >= 0.0
  {
  }

  /** More than half of the entries being zero is more than 45%. */
  lemma {:induction false} ZeroShare(c: nat, len: nat)
    requires len > 0 && c >= len / 2 + 1
    ensures (c as real) / (len as real) > 0.45
  {
    assert 2 * (len / 2) >= len - 1;
    assert (c as real) > 0.45 * (len as real);
    DivAbove(c as real, len as real);
  }

  lemma {:induction false} DivAbove(c: real, len: real)
    requires len > 0.0 && c > 0.45 * len
    ensures c / len > 0.45
  {
  }

  /** In a sorted non-negative sequence whose entry `h` is not positive, the first
      `h + 1` entries are zeros. */
  lemma {:induction false} ZeroPrefix(t: seq<real>, h: nat)
    requires h < |t| && forall i, j :: 0 <= i < j < |t| ==> t[i] <= t[j]
    requires forall i :: 0 <= i < |t| ==> t[i] >= 0.0
    requires t[h] <= 0.0
    ensures Count(t, IsZero) >= h + 1
  {
    var prefix := t[..h + 1];
    assert forall i :: 0 <= i < |prefix| ==> prefix[i] == t[i] && t[i] <= t[h];
    CountAll(prefix, IsZero);
    assert t == prefix + t[h + 1..];
    CountConcat(prefix, t[h + 1..], IsZero);
  }

  /** The median of a sorted non-negative sequence is positive unless more than 45%
      of its entries are zero. */
  lemma {:induction false} SortedMedianPositive(t: seq<real>)
    requires |t| > 0 && forall i, j :: 0 <= i < j < |t| ==> t[i] <= t[j]
    requires forall i :: 0 <= i < |t| ==> t[i] >= 0.0
    requires (Count(t, IsZero) as real) / (|t| as real) <= 0.45
    ensures t[|t| / 2] > 0.0
    ensures |t| % 2 == 0 ==> (t[|t| / 2 - 1] + t[|t| / 2]) / 2.0 > 0.0
  {
    var h := |t| / 2;
    if t[h] <= 0.0 {
      ZeroPrefix(t, h);
      ZeroShare(Count(t, IsZero), |t|);
      assert false;
    }
  }

  /** Dividing by positive row means keeps which entries are zero and that all
      entries are non-negative. */
  lemma {:induction false} RatiosZeros(col: Column, gm: Column)
    requires |col| == |gm| && forall i :: 0 <= i < |gm| ==> gm[i] > 0.0
    requires forall i :: 0 <= i < |col| ==> col[i] >= 0.0
    ensures forall i :: 0 <= i < |col| ==> Ratios(col, gm)[i] >= 0.0
    ensures Count(Ratios(col, gm), IsZero) == Count(col, IsZero)
  {
    var r := Ratios(col, gm);
    forall i | 0 <= i < |col| ensures r[i] >= 0.0 && (IsZero(r[i]) == IsZero(col[i])) {
      assert r[i] * gm[i] == col[i];
    }
    CountPointwise(r, IsZero, col, IsZero);
  }

  /** One column: non-negative counts with at most 45% zeros have a positive median
      ratio to positive row means. */
  lemma {:induction false} MedianRatioPositive(col: Column, gm: Column)
    requires |col| == |gm| > 0 && forall i :: 0 <= i < |gm| ==> gm[i] > 0.0
    requires forall i :: 0 <= i < |col| ==> col[i] >= 0.0
    requires !TooManyZeros(col, |col|)
    ensures Median(Ratios(col, gm)) > 0.0
  {
    var r := Ratios(col, gm);
    RatiosZeros(col, gm);
    var t := SortBy(r, Ident);
    CountIsMultiplicity(t, 0.0, IsZero);
    CountIsMultiplicity(r, 0.0, IsZero);
    forall i | 0 <= i < |t| ensures t[i] >= 0.0 {
      assert t[i] in multiset(r);
    }
    forall i, j | 0 <= i < j < |t| ensures t[i] <= t[j] {
      assert Ident(t[i]) <= Ident(t[j]);
    }
    SortedMedianPositive(t);
  }

  /** With non-negative counts and no column of more than 45% zeros, every median
      factor is finite and positive. */
  lemma {:induction false} MedianFactorsFinite(m: Math, cols: seq<Column>, n: nat)
    requires Rectangular(cols, n) && n > 0 && |cols| > 0 && AllNonNegative(cols)
    requires forall j :: 0 <= j < |cols| ==> !TooManyZeros(cols[j], n)
    ensures forall j :: 0 <= j < |cols| ==>
      MedianRatioFactors(m, cols, n)[j].Some? && MedianRatioFactors(m, cols, n)[j].value > 0.0
  {
    var gm := ClampedGeoMeans(m, cols, n);
    var r := MedianRatioFactors(m, cols, n);
    forall j | 0 <= j < |cols| ensures r[j].Some? && r[j].value > 0.0 {
      var med := Median(Ratios(cols[j], gm));
      assert med > 0.0 by {
        MedianRatioPositive(cols[j], gm);
      }
      assert r[j] == Some(1.0 / med);
      ReciprocalPositive(med);
    }
  }

  lemma {:induction false} ReciprocalPositive(x: real)
    requires x > 0.0
    ensures 1.0 / x > 0.0
  {
  }

  // ------------------------------------------------------------------
  // df_total_count_normfactor and df_normalization
  // ------------------------------------------------------------------

  function ColSums(cols: seq<Column>): (r: seq<real>)
    ensures |r| == |cols| && forall j :: 0 <= j < |cols| ==> r[j] == Sum(cols[j])
  {
    seq(|cols|, j requires 0 <= j < |cols| => Sum(cols[j]))
  }

  /** `colsum.sum() / len(label)`: the mean column sum. */
  function MeanColSum(cols: seq<Column>): real
    requires |cols| > 0
  {
    Sum(ColSums(cols)) / (|cols| as real)
  }

  /** `df_total_count_normfactor`: the factor that brings column j's sum to the mean
      column sum. */
  function TotalCountNormFactor(cols: seq<Column>): (r: seq<real>)
    requires |cols| > 0 && forall j :: 0 <= j < |cols| ==> Sum(cols[j]) != 0.0
    ensures |r| == |cols|
    ensures forall j :: 0 <= j < |cols| ==> r[j] * Sum(cols[j]) == MeanColSum(cols)
  {
    var mean := MeanColSum(cols);
    seq(|cols|, j requires 0 <= j < |cols| => mean / Sum(cols[j]))
  }

  /** `dat[label].mul(normfactor, axis=1)`: column j scaled by factor j. */
  function Scale(cols: seq<Column>, f: seq<real>): (r: seq<Column>)
    requires |f| == |cols|
    ensures |r| == |cols|
    ensures forall j :: 0 <= j < |cols| ==>
      |r[j]| == |cols[j]| && forall i :: 0 <= i < |cols[j]| ==> r[j][i] == cols[j][i] * f[j]
  {
    seq(|cols|, j requires 0 <= j < |cols| =>
      seq(|cols[j]|, i requires 0 <= i < |cols[j]| => cols[j][i] * f[j]))
  }

  /** Positive factors keep positive counts positive. */
  lemma {:induction false} ScalePositive(cols: seq<Column>, f: seq<real>)
    requires |f| == |cols| && AllPositive(cols) && forall j :: 0 <= j < |f| ==> f[j] > 0.0
    ensures AllPositive(Scale(cols, f))
  {
    var r := Scale(cols, f);
    forall j, i | 0 <= j < |r| && 0 <= i < |r[j]|
      ensures r[j][i] > 0.0
    {
      ProductPositive(cols[j][i], f[j]);
    }
  }

  lemma {:induction false} ProductPositive(a: real, b: real)
    requires a > 0.0 && b > 0.0
    ensures a * b > 0.0
  {
  }

  lemma {:induction false} SumScaled(r: seq<real>, s: seq<real>, f: real)
    requires |r| == |s| && forall i :: 0 <= i < |s| ==> r[i] == s[i] * f
    ensures Sum(r) == Sum(s) * f
  {
    if s != [] {
      SumScaled(r[1..], s[1..], f);
    }
  }

  /** Positive counts over at least one row have positive column sums. */
  lemma {:induction false} PositiveColumns(cols: seq<Column>, n: nat)
    requires Rectangular(cols, n) && n > 0 && AllPositive(cols)
    ensures AllNonNegative(cols) && ColumnSumsPositive(cols)
  {
    forall j | 0 <= j < |cols| ensures Sum(cols[j]) > 0.0 {
      SumPositive(cols[j]);
    }
  }

  /** A column with a positive sum has rows. */
  lemma {:induction false} RowsExist(cols: seq<Column>, n: nat)
    requires Rectangular(cols, n) && |cols| > 0 && ColumnSumsPositive(cols)
    ensures n > 0
  {
    var first := cols[0];
    assert Sum(first) > 0.0;
    if n == 0 {
      assert false;
    }
  }

  /** The factors `df_normalization` multiplies by, as a function of its inputs:
      1 for 'none'; for 'median' the median-ratio factors unless a factor is 0 or a
      column has more than 45% zeros; the total-count factors otherwise. */
  function NormFactors(m: Math, cols: seq<Column>, n: nat, normMethod: string): (r: seq<real>)
    requires Rectangular(cols, n) && |cols| > 0 && AllNonNegative(cols) && ColumnSumsPositive(cols)
    ensures |r| == |cols|
  {
    RowsExist(cols, n);
    var total := TotalCountNormFactor(cols);
    if normMethod == "none" then seq(|cols|, _ => 1.0)
    else if normMethod == "median" then
      var med := MedianRatioFactors(m, cols, n);
      if exists j :: 0 <= j < |med| && med[j] == Some(0.0) then total
      else if exists j :: 0 <= j < |cols| && TooManyZeros(cols[j], n) then total
      else
        MedianFactorsFinite(m, cols, n);
        seq(|med|, j requires 0 <= j < |med| => med[j].value)
    else total
  }

  /** `df_normalization`: starts from the total-count factors and reassigns them by
      method, then scales each column by its factor. */
  method Normalization(m: Math, cols: seq<Column>, n: nat, normMethod: string) returns (result: seq<Column>)
    requires Rectangular(cols, n) && |cols| > 0 && AllNonNegative(cols) && ColumnSumsPositive(cols)
    ensures result == Scale(cols, NormFactors(m, cols, n, normMethod))
  {
    RowsExist(cols, n);
    var normfactor := TotalCountNormFactor(cols);
    if normMethod == "none" {
      normfactor := seq(|normfactor|, _ => 1.0);
    } else if normMethod == "median" {
      var medianfactor := MedianRatioNormFactor(m, cols, n);
      if exists j :: 0 <= j < |medianfactor| && medianfactor[j] == Some(0.0) {
        // warning: median factor is zero; the total-count factors stay
      } else if exists j :: 0 <= j < |cols| && TooManyZeros(cols[j], n) {
        // warning: too many zeros in counts; the total-count factors stay
      } else {
        MedianFactorsFinite(m, cols, n);
        normfactor := seq(|medianfactor|, j requires 0 <= j < |medianfactor| => medianfactor[j].value);
      }
    }
    result := Scale(cols, normfactor);
  }

  /** Method 'none' leaves the counts as they are. */
  lemma {:induction false} NormalizationNoneIsIdentity(m: Math, cols: seq<Column>, n: nat)
    requires Rectangular(cols, n) && |cols| > 0 && AllNonNegative(cols) && ColumnSumsPositive(cols)
    ensures Scale(cols, NormFactors(m, cols, n, "none")) == cols
  {
    var r := Scale(cols, NormFactors(m, cols, n, "none"));
    forall j | 0 <= j < |cols| ensures r[j] == cols[j] {
      assert |r[j]| == |cols[j]|;
    }
  }

  /** A method name other than 'none' and 'median' keeps the total-count factors. */
  lemma {:induction false} NormalizationOtherIsTotalCount(m: Math, cols: seq<Column>, n: nat, normMethod: string)
    requires Rectangular(cols, n) && |cols| > 0 && AllNonNegative(cols) && ColumnSumsPositive(cols)
    requires normMethod != "none" && normMethod != "median"
    ensures NormFactors(m, cols, n, normMethod) == TotalCountNormFactor(cols)
  {
  }

  /** Method 'median' keeps the total-count factors when some column has more than
      45% zeros. */
  lemma {:induction false} NormalizationMedianFallback(m: Math, cols: seq<Column>, n: nat, j: nat)
    requires Rectangular(cols, n) && |cols| > 0 && AllNonNegative(cols) && ColumnSumsPositive(cols)
    requires n > 0 && j < |cols| && TooManyZeros(cols[j], n)
    ensures NormFactors(m, cols, n, "median") == TotalCountNormFactor(cols)
  {
  }

  /** Otherwise each factor is the reciprocal of the column's median ratio to the
      clamped row means, which is positive. */
  lemma {:induction false} NormalizationMedianRatio(m: Math, cols: seq<Column>, n: nat, j: nat)
    requires Rectangular(cols, n) && |cols| > 0 && AllNonNegative(cols) && ColumnSumsPositive(cols)
    requires n > 0 && forall k :: 0 <= k < |cols| ==> !TooManyZeros(cols[k], n)
    requires j < |cols|
    ensures Median(Ratios(cols[j], ClampedGeoMeans(m, cols, n))) > 0.0
    ensures NormFactors(m, cols, n, "median")[j] == 1.0 / Median(Ratios(cols[j], ClampedGeoMeans(m, cols, n)))
  {
    var gm := ClampedGeoMeans(m, cols, n);
    MedianRatioPositive(cols[j], gm);
    MedianFactorsFinite(m, cols, n);
    var med := MedianRatioFactors(m, cols, n);
    assert med[j] == MedianFactorsFrom(cols, n, gm)[j];
  }

  /** After total-count scaling every column sums to the mean column sum. */
  lemma {:induction false} TotalCountEqualizesSums(cols: seq<Column>)
    requires |cols| > 0 && ColumnSumsPositive(cols)
    ensures forall j :: 0 <= j < |cols| ==>
      Sum(Scale(cols, TotalCountNormFactor(cols))[j]) == MeanColSum(cols)
  {
    var f := TotalCountNormFactor(cols);
    var r := Scale(cols, f);
    forall j | 0 <= j < |cols| ensures Sum(r[j]) == MeanColSum(cols) {
      SumScaled(r[j], cols[j], f[j]);
    }
  }

  /** Every chosen factor is positive, so scaling keeps positive counts positive. */
  lemma {:induction false} NormFactorsPositive(m: Math, cols: seq<Column>, n: nat, normMethod: string)
    requires Rectangular(cols, n) && |cols| > 0 && AllNonNegative(cols) && ColumnSumsPositive(cols)
    ensures forall j :: 0 <= j < |cols| ==> NormFactors(m, cols, n, normMethod)[j] > 0.0
  {
    var sums := ColSums(cols);
    SumPositive(sums);
    var mean := MeanColSum(cols);
    assert mean > 0.0;
    var total := TotalCountNormFactor(cols);
    forall j | 0 <= j < |cols| ensures total[j] > 0.0 {
      assert total[j] == mean / Sum(cols[j]);
    }
    RowsExist(cols, n);
    if normMethod == "median" && forall j :: 0 <= j < |cols| ==> !TooManyZeros(cols[j], n) {
      MedianFactorsFinite(m, cols, n);
    }
  }

  // ------------------------------------------------------------------
  // df_leastsquare
  // ------------------------------------------------------------------

  /** `a.mul(b).sum()`. */
  function Dot(a: seq<real>, b: seq<real>): real
    requires |a| == |b|
  {
    if a == [] then 0.0 else a[0] * b[0] + Dot(a[1..], b[1..])
  }

  /** `a.mul(b).mul(c).sum()`. */
  function Dot3(a: seq<real>, b: seq<real>, c: seq<real>): real
    requires |a| == |b| == |c|
  {
    if a == [] then 0.0 else a[0] * b[0] * c[0] + Dot3(a[1..], b[1..], c[1..])
  }

  /** `(p / d, q / d)`, or `None` when `d` is 0. */
  function Fraction(p: real, q: real, d: real): Option<(real, real)> {
    if d == 0.0 then None else Some((p / d, q / d))
  }

  /** The parts of the closed-form solution from the five sums: the count (or total
      weight) `n`, `sum x`, `sum y`, `sum x^2` and `sum x*y`. */
  function SlopeNumerator(n: real, sx: real, sy: real, sx2: real, sxy: real): real {
    n * sxy - sx * sy
  }

  function InterceptNumerator(n: real, sx: real, sy: real, sx2: real, sxy: real): real {
    sy * sx2 - sx * sxy
  }

  function Denominator(n: real, sx: real, sy: real, sx2: real, sxy: real): real {
    n * sx2 - sx * sx
  }

  /** The closed-form least-squares solution `(slope, intercept)`, or `None` when the
      denominator `n * sum x^2 - (sum x)^2` is 0 (the source then divides by zero and
      gets NaN or infinity). */
  function ClosedForm(n: real, sx: real, sy: real, sx2: real, sxy: real): Option<(real, real)> {
    Fraction(SlopeNumerator(n, sx, sy, sx2, sxy), InterceptNumerator(n, sx, sy, sx2, sxy),
             Denominator(n, sx, sy, sx2, sxy))
  }

  /** `df_leastsquare`: the fit of `y = a + b*x`, returned as `(b, a)`, weighted when
      weights are given (each sum is then weighted). */
  function LeastSquare(x: seq<real>, y: seq<real>, w: Option<seq<real>>): (r: Option<(real, real)>)
    requires |x| == |y| && (w.Some? ==> |w.value| == |x|)
    ensures w.None? ==> (r.None? <==> (|x| as real) * Dot(x, x) - Sum(x) * Sum(x) == 0.0)
    ensures w.Some? ==> (r.None? <==> WeightedDenominator(x, w.value) == 0.0)
  {
    if w.None? then ClosedForm(|x| as real, Sum(x), Sum(y), Dot(x, x), Dot(x, y))
    else
      var wv := w.value;
      ClosedForm(Sum(wv), Dot(x, wv), Dot(y, wv), Dot3(x, x, wv), Dot3(x, y, wv))
  }

  lemma {:induction false} Quotient(p: real, q: real, d: real)
    requires d != 0.0 && p == q * d
    ensures p / d == q
  {
  }

  lemma {:induction false} ExactFraction(p: real, q: real, d: real, a: real, b: real)
    requires d != 0.0 && p == b * d && q == a * d
    ensures Fraction(p, q, d) == Some((b, a))
  {
    Quotient(p, b, d);
    Quotient(q, a, d);
  }

  /** The numerators of the fit of points on `y = a + b*x` are `b` and `a` times the
      denominator. */
  lemma {:induction false} LineNumerators(n: real, sx: real, sy: real, sx2: real, sxy: real, a: real, b: real)
    requires sy == a * n + b * sx && sxy == a * sx + b * sx2
    ensures SlopeNumerator(n, sx, sy, sx2, sxy) == b * Denominator(n, sx, sy, sx2, sxy)
    ensures InterceptNumerator(n, sx, sy, sx2, sxy) == a * Denominator(n, sx, sy, sx2, sxy)
  {
  }

  /** Sums of points on the line `y = a + b*x` give back slope `b` and intercept `a`. */
  lemma {:induction false} LineAlgebra(n: real, sx: real, sy: real, sx2: real, sxy: real, a: real, b: real)
    requires Denominator(n, sx, sy, sx2, sxy) != 0.0
    requires sy == a * n + b * sx && sxy == a * sx + b * sx2
    ensures ClosedForm(n, sx, sy, sx2, sxy) == Some((b, a))
  {
    LineNumerators(n, sx, sy, sx2, sxy, a, b);
    ExactFraction(SlopeNumerator(n, sx, sy, sx2, sxy), InterceptNumerator(n, sx, sy, sx2, sxy),
                  Denominator(n, sx, sy, sx2, sxy), a, b);
  }

  /** The denominator of the weighted fit. */
  function WeightedDenominator(x: seq<real>, w: seq<real>): real
    requires |x| == |w|
  {
    Denominator(Sum(w), Dot(x, w), 0.0, Dot3(x, x, w), 0.0)
  }

  /** Every point `(x[i], y[i])` lies on the line `y = a + b*x`. */
  ghost predicate OnLine(x: seq<real>, y: seq<real>, a: real, b: real)
    requires |x| == |y|
  {
    forall i :: 0 <= i < |x| ==> y[i] == a + b * x[i]
  }

  lemma {:induction false} DotLine(x: seq<real>, y: seq<real>, w: seq<real>, a: real, b: real)
    requires |x| == |y| == |w| && OnLine(x, y, a, b)
    ensures Dot(y, w) == a * Sum(w) + b * Dot(x, w)
  {
    if x != [] {
      DotLine(x[1..], y[1..], w[1..], a, b);
      var sw, dxw := Sum(w[1..]), Dot(x[1..], w[1..]);
      assert y[0] * w[0] == a * w[0] + b * (x[0] * w[0]);
      assert a * Sum(w) == a * w[0] + a * sw;
      assert b * Dot(x, w) == b * (x[0] * w[0]) + b * dxw;
    }
  }

  /** The elementwise product `a.mul(b)`. */
  function Times(a: seq<real>, b: seq<real>): (r: seq<real>)
    requires |a| == |b|
    ensures |r| == |a|
  {
    if a == [] then [] else [a[0] * b[0]] + Times(a[1..], b[1..])
  }

  lemma {:induction false} Dot3AsDot(a: seq<real>, b: seq<real>, c: seq<real>)
    requires |a| == |b| == |c|
    ensures Dot3(a, b, c) == Dot(b, Times(a, c))
  {
    if a != [] {
      Dot3AsDot(a[1..], b[1..], c[1..]);
      assert a[0] * b[0] * c[0] == b[0] * (a[0] * c[0]);
    }
  }

  lemma {:induction false} DotAsSum(a: seq<real>, b: seq<real>)
    requires |a| == |b|
    ensures Dot(a, b) == Sum(Times(a, b))
  {
    if a != [] {
      DotAsSum(a[1..], b[1..]);
    }
  }

  lemma {:induction false} Dot3Line(x: seq<real>, y: seq<real>, w: seq<real>, a: real, b: real)
    requires |x| == |y| == |w| && OnLine(x, y, a, b)
    ensures Dot3(x, y, w) == a * Dot(x, w) + b * Dot3(x, x, w)
  {
    var xw := Times(x, w);
    DotLine(x, y, xw, a, b);
    Dot3AsDot(x, y, w);
    Dot3AsDot(x, x, w);
    DotAsSum(x, w);
  }

  /** Points lying exactly on `y = a + b*x` are fitted exactly by the weighted fit. */
  lemma {:induction false} WeightedExactFit(x: seq<real>, y: seq<real>, w: seq<real>, a: real, b: real)
    requires |x| == |y| == |w| && OnLine(x, y, a, b)
    requires WeightedDenominator(x, w) != 0.0
    ensures LeastSquare(x, y, Some(w)) == Some((b, a))
  {
    DotLine(x, y, w, a, b);
    Dot3Line(x, y, w, a, b);
    assert Denominator(Sum(w), Dot(x, w), Dot(y, w), Dot3(x, x, w), Dot3(x, y, w)) == WeightedDenominator(x, w);
    LineAlgebra(Sum(w), Dot(x, w), Dot(y, w), Dot3(x, x, w), Dot3(x, y, w), a, b);
  }

  lemma {:induction false} SumConstant(w: seq<real>, c: real, len: nat)
    requires |w| == len && forall i :: 0 <= i < |w| ==> w[i] == c
    ensures Sum(w) == c * (len as real)
  {
    if w != [] {
      SumConstant(w[1..], c, len - 1);
    }
  }

  lemma {:induction false} DotConstant(x: seq<real>, w: seq<real>, c: real)
    requires |x| == |w| && forall i :: 0 <= i < |w| ==> w[i] == c
    ensures Dot(x, w) == c * Sum(x)
  {
    if x != [] {
      DotConstant(x[1..], w[1..], c);
    }
  }

  lemma {:induction false} Dot3Constant(x: seq<real>, y: seq<real>, w: seq<real>, c: real)
    requires |x| == |y| == |w| && forall i :: 0 <= i < |w| ==> w[i] == c
    ensures Dot3(x, y, w) == c * Dot(x, y)
  {
    if x != [] {
      Dot3Constant(x[1..], y[1..], w[1..], c);
      assert x[0] * y[0] * w[0] == c * (x[0] * y[0]);
    }
  }

  /** Weighting every point by 1 gives the same fit as no weight. */
  lemma {:induction false} UnitWeightIsUnweighted(x: seq<real>, y: seq<real>, w: seq<real>)
    requires |x| == |y| == |w| && forall i :: 0 <= i < |w| ==> w[i] == 1.0
    ensures LeastSquare(x, y, Some(w)) == LeastSquare(x, y, None)
  {
    SumConstant(w, 1.0, |x|);
    DotConstant(x, w, 1.0);
    DotConstant(y, w, 1.0);
    Dot3Constant(x, x, w, 1.0);
    Dot3Constant(x, y, w, 1.0);
  }

  /** The exact-line fit also holds for the unweighted path. */
  lemma {:induction false} UnweightedExactFit(x: seq<real>, y: seq<real>, a: real, b: real)
    requires |x| == |y| && OnLine(x, y, a, b)
    requires (|x| as real) * Dot(x, x) - Sum(x) * Sum(x) != 0.0
    ensures LeastSquare(x, y, None) == Some((b, a))
  {
    var ones := seq(|x|, _ => 1.0);
    assert WeightedDenominator(x, ones) != 0.0 by {
      SumConstant(ones, 1.0, |x|);
      DotConstant(x, ones, 1.0);
      Dot3Constant(x, x, ones, 1.0);
    }
    assert LeastSquare(x, y, Some(ones)) == Some((b, a)) by {
      WeightedExactFit(x, y, ones, a, b);
    }
    UnitWeightIsUnweighted(x, y, ones);
  }

  // ------------------------------------------------------------------
  // df_modelmeanvar
  // ------------------------------------------------------------------

  function SumSquares(row: seq<real>, mean: real): (r: real)
    ensures r >= 0.0
  {
    if row == [] then 0.0
    else
      var d := row[0] - mean;
      SquareNonNegative(d);
      d * d + SumSquares(row[1..], mean)
  }

  /** pandas' `var` across a row (one degree of freedom removed); `None` (NaN) for
      fewer than two values. */
  function RowVariance(row: seq<real>): (r: Option<real>)
    ensures r.Some? <==> |row| >= 2
    ensures r.Some? ==> r.value >= 0.0
  {
    if |row| < 2 then None
    else Some(SumSquares(row, Sum(row) / (|row| as real)) / ((|row| - 1) as real))
  }

  /** `dat[label].var(axis=1)`. */
  function Variances(cols: seq<Column>, n: nat): (r: seq<Option<real>>)
    requires Rectangular(cols, n)
    ensures |r| == n
    ensures forall i :: 0 <= i < n ==> r[i] == RowVariance(RowOf(cols, n, i))
  {
    seq(n, i requires 0 <= i < n => RowVariance(RowOf(cols, n, i)))
  }

  /** `dat[label].var(axis=1)` for two or more labels, where no row is NaN. */
  function VarianceValues(cols: seq<Column>, n: nat): (r: Column)
    requires Rectangular(cols, n) && |cols| >= 2
    ensures |r| == n
    ensures forall i :: 0 <= i < n ==> Variances(cols, n)[i] == Some(r[i]) && r[i] >= 0.0
  {
    seq(n, i requires 0 <= i < n => RowVariance(RowOf(cols, n, i)).value)
  }

  /** `datgm < datvar` for one row; a NaN variance compares false. */
  predicate Good(gm: real, v: Option<real>) {
    v.Some? && gm < v.value
  }

  /** The rows selected by `goodidx`, in table order. */
  function GoodRows(gm: Column, vs: seq<Option<real>>): (idx: seq<nat>)
    requires |gm| == |vs|
    ensures forall k :: 0 <= k < |idx| ==> idx[k] < |gm| && Good(gm[idx[k]], vs[idx[k]])
    ensures forall i :: 0 <= i < |gm| && Good(gm[i], vs[i]) ==> i in idx
    ensures forall k, l :: 0 <= k < l < |idx| ==> idx[k] < idx[l]
  {
    if |gm| == 0 then []
    else
      var last := |gm| - 1;
      GoodRows(gm[..last], vs[..last]) + (if Good(gm[last], vs[last]) then [last] else [])
  }

  /** The regression data: `log2(gm + 1)`, `log2(var - gm + 1)` and weight `gm` of
      the good rows. */
  function FitX(m: Math, gm: Column, idx: seq<nat>): (r: seq<real>)
    requires forall k :: 0 <= k < |idx| ==> idx[k] < |gm|
    ensures |r| == |idx|
  {
    seq(|idx|, k requires 0 <= k < |idx| => m.log2(gm[idx[k]] + 1.0))
  }

  function FitY(m: Math, gm: Column, vs: seq<Option<real>>, idx: seq<nat>): (r: seq<real>)
    requires |gm| == |vs|
    requires forall k :: 0 <= k < |idx| ==> idx[k] < |gm| && vs[idx[k]].Some?
    ensures |r| == |idx|
  {
    seq(|idx|, k requires 0 <= k < |idx| => m.log2(vs[idx[k]].value - gm[idx[k]] + 1.0))
  }

  function FitW(gm: Column, idx: seq<nat>): (r: seq<real>)
    requires forall k :: 0 <= k < |idx| ==> idx[k] < |gm|
    ensures |r| == |idx|
  {
    seq(|idx|, k requires 0 <= k < |idx| => gm[idx[k]])
  }

  /** The weighted fit of the good rows, before clamping: `None` when its
      denominator is 0. */
  function DispersionFit(m: Math, cols: seq<Column>, n: nat): (r: Option<(real, real)>)
    requires Rectangular(cols, n) && |cols| > 0
    ensures |GoodRows(GeoMean(m, cols, n).value, Variances(cols, n))| <= 1 ==> r.None?
  {
    var gm := GeoMean(m, cols, n).value;
    var vs := Variances(cols, n);
    var idx := GoodRows(gm, vs);
    FewGoodRowsDegenerate(FitX(m, gm, idx), FitY(m, gm, vs, idx), FitW(gm, idx));
    LeastSquare(FitX(m, gm, idx), FitY(m, gm, vs, idx), Some(FitW(gm, idx)))
  }

  /** `df_modelmeanvar` as written: `max(k, 1)` and `max(b, 0)` of the fit; a fit
      that divided by zero stays NaN (`None`), because Python's `max(nan, 1)` is
      `nan`. */
  function ModelMeanVarAsWritten(m: Math, cols: seq<Column>, n: nat): (r: Result<Option<(real, real)>>)
    requires Rectangular(cols, n)
    ensures r.Err? <==> |cols| == 0
    ensures r.Ok? && r.value.Some? ==> r.value.value.0 >= 1.0 && r.value.value.1 >= 0.0
  {
    if |cols| == 0 then Err("Length of label should be at least 1.")
    else
      match DispersionFit(m, cols, n)
      case None => Ok(None)
      case Some((k, b)) => Ok(Some((Max(k, 1.0), Max(b, 0.0))))
  }

  /** `df_modelmeanvar` with the clamps `max(k, 1)` and `max(b, 0)` holding for every
      input: k >= 1 and b >= 0, falling back to (1, 0) when the fit is degenerate. */
  function ModelMeanVar(m: Math, cols: seq<Column>, n: nat): (r: Result<(real, real)>)
    requires Rectangular(cols, n)
    ensures r.Err? <==> |cols| == 0
    ensures r.Ok? ==> r.value.0 >= 1.0 && r.value.1 >= 0.0
  {
    if |cols| == 0 then Err("Length of label should be at least 1.")
    else
      match DispersionFit(m, cols, n)
      case None => Ok((1.0, 0.0))
      case Some((k, b)) => Ok((Max(k, 1.0), Max(b, 0.0)))
  }

  /** Whenever the source's fit is finite, the corrected estimator agrees with it. */
  lemma {:induction false} ModelMeanVarAgrees(m: Math, cols: seq<Column>, n: nat)
    requires Rectangular(cols, n)
    requires ModelMeanVarAsWritten(m, cols, n).Ok? && ModelMeanVarAsWritten(m, cols, n).value.Some?
    ensures ModelMeanVar(m, cols, n) == Ok(ModelMeanVarAsWritten(m, cols, n).value.value)
  {
  }

  /** With fewer than two good rows the weighted denominator is 0. */
  lemma {:induction false} FewGoodRowsDegenerate(x: seq<real>, y: seq<real>, w: seq<real>)
    requires |x| == |y| == |w|
    ensures |x| <= 1 ==> LeastSquare(x, y, Some(w)) == None
  {
    if |x| == 1 {
      assert Sum(w) == w[0];
      assert Dot(x, w) == x[0] * w[0];
      assert Dot3(x, x, w) == x[0] * x[0] * w[0];
      assert w[0] * (x[0] * x[0] * w[0]) - (x[0] * w[0]) * (x[0] * w[0]) == 0.0;
    }
  }

  /** Two sets of row statistics (geometric means and variances) that agree on every
      row good in either of them. */
  ghost predicate AgreeOnGood(gm1: Column, vs1: seq<Option<real>>, gm2: Column, vs2: seq<Option<real>>)
    requires |gm1| == |vs1| == |gm2| == |vs2|
  {
    forall i :: 0 <= i < |gm1| && (Good(gm1[i], vs1[i]) || Good(gm2[i], vs2[i])) ==>
      gm1[i] == gm2[i] && vs1[i] == vs2[i]
  }

  /** Statistics that agree on the good rows select the same rows. */
  lemma {:induction false} GoodRowsAgree(gm1: Column, vs1: seq<Option<real>>, gm2: Column, vs2: seq<Option<real>>)
    requires |gm1| == |vs1| == |gm2| == |vs2| && AgreeOnGood(gm1, vs1, gm2, vs2)
    ensures GoodRows(gm1, vs1) == GoodRows(gm2, vs2)
    decreases |gm1|
  {
    if |gm1| > 0 {
      var last := |gm1| - 1;
      GoodRowsAgree(gm1[..last], vs1[..last], gm2[..last], vs2[..last]);
    }
  }

  /** Statistics that agree on the good rows give the same regression data. */
  lemma {:induction false} FitDataAgree(m: Math, gm1: Column, vs1: seq<Option<real>>, gm2: Column, vs2: seq<Option<real>>)
    requires |gm1| == |vs1| == |gm2| == |vs2| && AgreeOnGood(gm1, vs1, gm2, vs2)
    ensures GoodRows(gm1, vs1) == GoodRows(gm2, vs2)
    ensures var idx := GoodRows(gm1, vs1);
      FitX(m, gm1, idx) == FitX(m, gm2, idx) && FitY(m, gm1, vs1, idx) == FitY(m, gm2, vs2, idx) && FitW(gm1, idx) == FitW(gm2, idx)
  {
    GoodRowsAgree(gm1, vs1, gm2, vs2);
    var idx := GoodRows(gm1, vs1);
    assert FitX(m, gm1, idx) == FitX(m, gm2, idx);
    assert FitY(m, gm1, vs1, idx) == FitY(m, gm2, vs2, idx);
  }

  /** Only rows whose geometric mean is strictly below their variance enter the fit:
      two tables whose geometric means and variances agree on every row that is good
      in either of them have the same fit, whatever their other rows hold. */
  lemma {:induction false} FitUsesOnlyGoodRows(m: Math, cols1: seq<Column>, cols2: seq<Column>, n: nat)
    requires Rectangular(cols1, n) && |cols1| > 0 && Rectangular(cols2, n) && |cols2| > 0
    requires AgreeOnGood(GeoMean(m, cols1, n).value, Variances(cols1, n), GeoMean(m, cols2, n).value, Variances(cols2, n))
    ensures DispersionFit(m, cols1, n) == DispersionFit(m, cols2, n)
  {
    FitDataAgree(m, GeoMean(m, cols1, n).value, Variances(cols1, n), GeoMean(m, cols2, n).value, Variances(cols2, n));
  }

  /** Two identical control replicates (counts 5 and 5): the variance 0 is below no
      positive geometric mean, no row enters the fit, its denominator is 0, and the
      source's k and b come out NaN rather than k >= 1, b >= 0. */
  lemma {:induction false} ConstantControlsGiveNaN(m: Math)
    requires Sane(m)
    ensures ModelMeanVarAsWritten(m, [[5.0], [5.0]], 1) == Ok(None)
    ensures ModelMeanVar(m, [[5.0], [5.0]], 1) == Ok((1.0, 0.0))
  {
    var cols: seq<Column> := [[5.0], [5.0]];
    var row := RowOf(cols, 1, 0);
    assert row == [5.0, 5.0];
    assert Sum(row) == 10.0;
    assert SumSquares(row, 5.0) == 0.0;
    assert RowVariance(row) == Some(0.0);
    MeanLog1pPositive(m, row);
    var gm := GeoMean(m, cols, 1).value;
    assert gm[0] > 0.0;
    var vs := Variances(cols, 1);
    assert !Good(gm[0], vs[0]);
    var idx := GoodRows(gm, vs);
    assert GoodRows(gm[..0], vs[..0]) == [];
    assert idx == [];
    FewGoodRowsDegenerate(FitX(m, gm, idx), FitY(m, gm, vs, idx), FitW(gm, idx));
  }

  // ------------------------------------------------------------------
  // df_estvar
  // ------------------------------------------------------------------

  /** `df_estvar`: the model variance `mean^k * 2^b + mean` of each row; never below a
      non-negative mean. */
  function EstVar(m: Math, mean: Column, k: real, b: real): (r: Column)
    ensures |r| == |mean|
    ensures Sane(m) ==> forall i :: 0 <= i < |mean| && mean[i] >= 0.0 ==> r[i] >= mean[i]
  {
    seq(|mean|, i requires 0 <= i < |mean| => m.pow(mean[i], k) * m.exp2(b) + mean[i])
  }
}
