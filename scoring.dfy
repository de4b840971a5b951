/** The per-row scoring rules shared by mibar/analysis.py and ibar/analysis.py: the
    labels the dispersion model is fitted on, the three-way fold-change bin, the
    reliability flag and the direction, the per-guide variance adjustment, the
    p-values, the adaptive percentile cutoff, the input lists of the rank
    aggregation and the inner merge of its two outputs. */
module Scoring {
  import opened Common
  import opened Strings
  import opened DfCalculate

  // ------------------------------------------------------------------
  // Labels
  // ------------------------------------------------------------------

  /** `conlabels`: the controls when there are several, otherwise controls and
      treatments together. It always starts with every control, and has at least two
      labels as soon as there is one control and one treatment. */
  function ConLabels(controls: seq<string>, treats: seq<string>): (r: seq<string>)
    ensures r <= controls + treats
    ensures controls <= r
    ensures |controls| >= 1 && |treats| >= 1 ==> |r| >= 2
    ensures |r| == |controls| || |r| == |controls| + |treats|
  {
    if |controls| > 1 then controls else controls + treats
  }

  // ------------------------------------------------------------------
  // Fold-change bin, reliability and direction
  // ------------------------------------------------------------------

  /** `lfc_bin`: the sum of `1 if x > -0.1 else 0` and `-1 if x < 0.1 else 0`. */
  function LfcBin(lfc: real): (r: int)
    ensures -1 <= r <= 1
    ensures r == -1 <==> lfc <= -0.1
    ensures r == 0 <==> -0.1 < lfc < 0.1
    ensures r == 1 <==> lfc >= 0.1
  {
    (if lfc > -0.1 then 1 else 0) + (if lfc < 0.1 then -1 else 0)
  }

  /** The bin never decreases as the fold change grows. */
  lemma {:induction false} LfcBinMonotone(x: real, y: real)
    requires x <= y
    ensures LfcBin(x) <= LfcBin(y)
  {
  }

  /** `log2(treatmean + 1) - log2(controlmean + 1)` of every row. */
  function Lfc(m: Math, treatmean: Column, controlmean: Column): (r: Column)
    requires |treatmean| == |controlmean|
    ensures |r| == |treatmean|
  {
    seq(|treatmean|, i requires 0 <= i < |treatmean| =>
      m.log2(treatmean[i] + 1.0) - m.log2(controlmean[i] + 1.0))
  }

  function Above(threshold: real): real -> bool {
    x => x > threshold
  }

  /** `large`: more of the row's values lie strictly above the threshold than there
      are controls. */
  function Large(row: seq<real>, threshold: real, controls: nat): (r: bool)
    ensures r ==> |row| > controls
  {
    Count(row, Above(threshold)) > controls
  }

  /** A row that is large for a threshold is large for every lower one. */
  lemma {:induction false} LargeMonotone(row: seq<real>, lower: real, higher: real, controls: nat)
    requires lower <= higher && Large(row, higher, controls)
    ensures Large(row, lower, controls)
  {
    CountImplies(row, Above(higher), Above(lower));
  }

  /** `lfc_bin.mul(large)`: the bin on large rows, 0 elsewhere. */
  function Direction(bin: int, large: bool): (r: int)
    requires -1 <= bin <= 1
    ensures -1 <= r <= 1
    ensures !large ==> r == 0
    ensures large ==> r == bin
  {
    bin * (if large then 1 else 0)
  }

  // ------------------------------------------------------------------
  // Group by guide
  // ------------------------------------------------------------------

  /** The rows of guide `g`, in table order. */
  function RowsOf(guides: seq<string>, g: string): (idx: seq<nat>)
    ensures forall k :: 0 <= k < |idx| ==> idx[k] < |guides| && guides[idx[k]] == g
    ensures forall i :: 0 <= i < |guides| && guides[i] == g ==> i in idx
  {
    if |guides| == 0 then []
    else
      var last := |guides| - 1;
      RowsOf(guides[..last], g) + (if guides[last] == g then [last] else [])
  }

  /** A guide that occurs has rows. */
  lemma {:induction false} RowsOfPresent(guides: seq<string>, g: string)
    requires g in guides
    ensures |RowsOf(guides, g)| > 0
  {
    var i :| 0 <= i < |guides| && guides[i] == g;
    assert i in RowsOf(guides, g);
  }

  /** The entries of `s` at `idx`. */
  function Pick<T>(s: seq<T>, idx: seq<nat>): (r: seq<T>)
    requires forall k :: 0 <= k < |idx| ==> idx[k] < |s|
    ensures |r| == |idx| && forall k :: 0 <= k < |idx| ==> r[k] == s[idx[k]]
  {
    seq(|idx|, k requires 0 <= k < |idx| => s[idx[k]])
  }

  function MaxOf(s: seq<int>): (r: int)
    requires |s| > 0
    ensures forall i :: 0 <= i < |s| ==> s[i] <= r
    ensures exists i :: 0 <= i < |s| && s[i] == r
  {
    if |s| == 1 then s[0]
    else
      var t := MaxOf(s[1..]);
      assert forall i :: 1 <= i < |s| ==> s[i] == s[1..][i - 1];
      if s[0] >= t then s[0] else t
  }

  function MinOf(s: seq<int>): (r: int)
    requires |s| > 0
    ensures forall i :: 0 <= i < |s| ==> r <= s[i]
    ensures exists i :: 0 <= i < |s| && s[i] == r
  {
    if |s| == 1 then s[0]
    else
      var t := MinOf(s[1..]);
      assert forall i :: 1 <= i < |s| ==> s[i] == s[1..][i - 1];
      if s[0] <= t then s[0] else t
  }

  /** The directions of guide `g`'s rows. */
  function GuideDirections(guides: seq<string>, dirs: seq<int>, g: string): (r: seq<int>)
    requires |guides| == |dirs| && g in guides
    ensures |r| > 0
  {
    RowsOfPresent(guides, g);
    Pick(dirs, RowsOf(guides, g))
  }

  /** `samedirection`: `max(direction) * min(direction) != -1` over the guide's rows.
      A guide none of whose rows points down, or none up, is of one direction. */
  function SameDirection(guides: seq<string>, dirs: seq<int>, g: string): (r: bool)
    requires |guides| == |dirs| && g in guides
    ensures (forall i :: 0 <= i < |guides| && guides[i] == g ==> dirs[i] >= 0) ==> r
    ensures (forall i :: 0 <= i < |guides| && guides[i] == g ==> dirs[i] <= 0) ==> r
  {
    var d := GuideDirections(guides, dirs, g);
    var hi, lo := MaxOf(d), MinOf(d);
    SignedProduct(hi, lo);
    hi * lo != -1
  }

  lemma {:induction false} SignedProduct(a: int, b: int)
    requires a >= b
    ensures (b >= 0 || a <= 0) ==> a * b >= 0
  {
    if b >= 0 {
      assert a >= 0;
    } else if a <= 0 {
      assert b <= 0;
    }
  }

  ghost predicate UnitDirections(dirs: seq<int>) {
    forall i :: 0 <= i < |dirs| ==> -1 <= dirs[i] <= 1
  }

  /** With directions in {-1, 0, 1}, a guide is not of one direction exactly when
      one of its rows points up and another points down. */
  lemma {:induction false} DisagreeIff(guides: seq<string>, dirs: seq<int>, g: string)
    requires |guides| == |dirs| && g in guides && UnitDirections(dirs)
    ensures !SameDirection(guides, dirs, g) <==>
      exists i, j :: 0 <= i < |guides| && 0 <= j < |guides| &&
        guides[i] == g && guides[j] == g && dirs[i] == 1 && dirs[j] == -1
  {
    if !SameDirection(guides, dirs, g) {
      DisagreeHasBoth(guides, dirs, g);
    }
    if exists i, j :: 0 <= i < |guides| && 0 <= j < |guides| &&
        guides[i] == g && guides[j] == g && dirs[i] == 1 && dirs[j] == -1 {
      var i, j :| 0 <= i < |guides| && 0 <= j < |guides| &&
        guides[i] == g && guides[j] == g && dirs[i] == 1 && dirs[j] == -1;
      BothDisagree(guides, dirs, g, i, j);
    }
  }

  /** A guide not of one direction has a row pointing up and one pointing down. */
  lemma {:induction false} DisagreeHasBoth(guides: seq<string>, dirs: seq<int>, g: string)
    requires |guides| == |dirs| && g in guides && UnitDirections(dirs)
    requires !SameDirection(guides, dirs, g)
    ensures exists i, j :: 0 <= i < |guides| && 0 <= j < |guides| &&
                           guides[i] == g && guides[j] == g && dirs[i] == 1 && dirs[j] == -1
  {
    var idx := RowsOf(guides, g);
    var d := GuideDirections(guides, dirs, g);
    var hi, lo := MaxOf(d), MinOf(d);
    var a :| 0 <= a < |d| && d[a] == hi;
    var c :| 0 <= c < |d| && d[c] == lo;
    assert -1 <= hi <= 1 && -1 <= lo <= 1;
    assert hi * lo == -1;
    assert hi == 1 && lo == -1;
    assert guides[idx[a]] == g && dirs[idx[a]] == 1;
    assert guides[idx[c]] == g && dirs[idx[c]] == -1;
  }

  /** A guide with a row pointing up and one pointing down is not of one direction. */
  lemma {:induction false} BothDisagree(guides: seq<string>, dirs: seq<int>, g: string, i: nat, j: nat)
    requires |guides| == |dirs| && g in guides && UnitDirections(dirs)
    requires i < |guides| && j < |guides| && guides[i] == g && guides[j] == g && dirs[i] == 1 && dirs[j] == -1
    ensures !SameDirection(guides, dirs, g)
  {
    var idx := RowsOf(guides, g);
    var d := GuideDirections(guides, dirs, g);
    assert i in idx && j in idx;
    var ki :| 0 <= ki < |idx| && idx[ki] == i;
    var kj :| 0 <= kj < |idx| && idx[kj] == j;
    assert d[ki] == 1 && d[kj] == -1;
    assert MaxOf(d) == 1 && MinOf(d) == -1;
  }

  /** `groupby('guide').mean()` of the control variance. */
  function GuideMeanVar(guides: seq<string>, cv: seq<real>, g: string): (r: real)
    requires |guides| == |cv| && g in guides
    ensures (forall i :: 0 <= i < |cv| ==> cv[i] >= 0.0) ==> r >= 0.0
  {
    RowsOfPresent(guides, g);
    var vals := Pick(cv, RowsOf(guides, g));
    SumNonNegativeIf(vals);
    QuotientNonNegative(Sum(vals), |vals| as real);
    Sum(vals) / (|vals| as real)
  }

  lemma {:induction false} QuotientNonNegative(a: real, b: real)
    requires b > 0.0
    ensures a >= 0.0 ==> a / b >= 0.0
  {
  }

  lemma {:induction false} SumNonNegativeIf(s: seq<real>)
    ensures (forall i :: 0 <= i < |s| ==> s[i] >= 0.0) ==> Sum(s) >= 0.0
  {
    if forall i :: 0 <= i < |s| ==> s[i] >= 0.0 {
      SumNonNegative(s);
    }
  }

  /** `adjvar`: without adjustment the model variance; with it, the model variance
      plus the guide's mean control variance times `1 - samedirection`. */
  function AdjVar(estvar: seq<real>, guides: seq<string>, dirs: seq<int>, cv: seq<real>, adjust: bool): (r: seq<real>)
    requires |estvar| == |guides| == |dirs| == |cv|
    ensures |r| == |estvar|
  {
    if !adjust then estvar
    else
      seq(|estvar|, i requires 0 <= i < |estvar| =>
        var g := guides[i];
        estvar[i] + GuideMeanVar(guides, cv, g) * (1.0 - (if SameDirection(guides, dirs, g) then 1.0 else 0.0)))
  }

  /** Without adjustment the variance is the model variance exactly; with it, rows of
      a guide of one direction keep the model variance and rows of any other guide gain
      the guide's mean control variance. */
  lemma {:induction false} AdjVarRows(estvar: seq<real>, guides: seq<string>, dirs: seq<int>, cv: seq<real>, adjust: bool, i: nat)
    requires |estvar| == |guides| == |dirs| == |cv| && i < |estvar|
    ensures !adjust ==> AdjVar(estvar, guides, dirs, cv, adjust)[i] == estvar[i]
    ensures adjust && SameDirection(guides, dirs, guides[i]) ==>
      AdjVar(estvar, guides, dirs, cv, adjust)[i] == estvar[i]
    ensures adjust && !SameDirection(guides, dirs, guides[i]) ==>
      AdjVar(estvar, guides, dirs, cv, adjust)[i] == estvar[i] + GuideMeanVar(guides, cv, guides[i])
  {
  }

  /** Variances are never adjusted downwards. */
  lemma {:induction false} AdjVarAtLeastEstVar(estvar: seq<real>, guides: seq<string>, dirs: seq<int>, cv: seq<real>, adjust: bool)
    requires |estvar| == |guides| == |dirs| == |cv|
    requires forall i :: 0 <= i < |cv| ==> cv[i] >= 0.0
    ensures forall i :: 0 <= i < |estvar| ==> AdjVar(estvar, guides, dirs, cv, adjust)[i] >= estvar[i]
  {
    forall i | 0 <= i < |estvar|
      ensures AdjVar(estvar, guides, dirs, cv, adjust)[i] >= estvar[i]
    {
      AdjVarRows(estvar, guides, dirs, cv, adjust, i);
    }
  }

  /** Only rows of a guide with both an up and a down row are adjusted. */
  lemma {:induction false} AdjVarOnlyDisagreeing(estvar: seq<real>, guides: seq<string>, dirs: seq<int>, cv: seq<real>, i: nat)
    requires |estvar| == |guides| == |dirs| == |cv| && i < |estvar| && UnitDirections(dirs)
    requires AdjVar(estvar, guides, dirs, cv, true)[i] != estvar[i]
    ensures exists a, b ::
      0 <= a < |guides| && 0 <= b < |guides| &&
      guides[a] == guides[i] && guides[b] == guides[i] && dirs[a] == 1 && dirs[b] == -1
  {
    AdjVarRows(estvar, guides, dirs, cv, true, i);
    DisagreeIff(guides, dirs, guides[i]);
  }

  // ------------------------------------------------------------------
  // Scores and p-values
  // ------------------------------------------------------------------

  /** `(treatmean - controlmean) / sqrt(adjvar)` of every row. */
  function ZScores(m: Math, treatmean: Column, controlmean: Column, adjvar: Column): (r: Column)
    requires |treatmean| == |controlmean| == |adjvar|
    requires forall i :: 0 <= i < |adjvar| ==> m.sqrt(adjvar[i]) > 0.0
    ensures |r| == |treatmean|
  {
    seq(|treatmean|, i requires 0 <= i < |treatmean| =>
      (treatmean[i] - controlmean[i]) / m.sqrt(adjvar[i]))
  }

  /** A row's score has the sign of its mean difference. */
  lemma {:induction false} ZScoreSign(m: Math, treatmean: Column, controlmean: Column, adjvar: Column, i: nat)
    requires |treatmean| == |controlmean| == |adjvar| && i < |treatmean|
    requires forall i :: 0 <= i < |adjvar| ==> m.sqrt(adjvar[i]) > 0.0
    ensures ZScores(m, treatmean, controlmean, adjvar)[i] > 0.0 <==> treatmean[i] > controlmean[i]
    ensures ZScores(m, treatmean, controlmean, adjvar)[i] < 0.0 <==> treatmean[i] < controlmean[i]
  {
    var s := m.sqrt(adjvar[i]);
    var d := treatmean[i] - controlmean[i];
    QuotientSign(d, s);
  }

  lemma {:induction false} QuotientSign(d: real, s: real)
    requires s > 0.0
    ensures d / s > 0.0 <==> d > 0.0
    ensures d / s < 0.0 <==> d < 0.0
  {
    assert (d / s) * s == d;
  }

  /** `p.twoside`: twice the smaller one-sided p-value. */
  function PTwoSide(low: real, high: real): (r: real)
    ensures r == 2.0 * Min(low, high)
    ensures r <= 2.0 * low && r <= 2.0 * high
  {
    if low < high then 2.0 * low else 2.0 * high
  }

  /** With `p.low = cdf(z)` and `p.high = sf(z)` the two-sided p-value lies in [0, 1]. */
  lemma {:induction false} PTwoSideInUnit(m: Math, z: real)
    requires Sane(m)
    ensures 0.0 <= PTwoSide(m.cdf(z), m.sf(z)) <= 1.0
  {
    assert 0.0 <= m.cdf(z) <= 1.0;
    assert m.cdf(z) + m.sf(z) == 1.0;
  }

  /** `p.low = norm.cdf(z)` of every row. */
  function PLow(m: Math, z: Column): (r: Column)
    ensures |r| == |z| && forall i :: 0 <= i < |z| ==> r[i] == m.cdf(z[i])
  {
    seq(|z|, i requires 0 <= i < |z| => m.cdf(z[i]))
  }

  /** `p.high = norm.sf(z)` of every row. */
  function PHigh(m: Math, z: Column): (r: Column)
    ensures |r| == |z| && forall i :: 0 <= i < |z| ==> r[i] == m.sf(z[i])
  {
    seq(|z|, i requires 0 <= i < |z| => m.sf(z[i]))
  }

  /** The `p.twoside` column; every entry lies in [0, 1]. */
  function PTwoSides(m: Math, z: Column): (r: Column)
    ensures |r| == |z|
    ensures forall i :: 0 <= i < |z| ==> r[i] == PTwoSide(m.cdf(z[i]), m.sf(z[i]))
    ensures Sane(m) ==> forall i :: 0 <= i < |z| ==> 0.0 <= r[i] <= 1.0
  {
    var r := seq(|z|, i requires 0 <= i < |z| => PTwoSide(m.cdf(z[i]), m.sf(z[i])));
    assert Sane(m) ==> forall i :: 0 <= i < |z| ==> 0.0 <= r[i] <= 1.0 by {
      if Sane(m) {
        forall i | 0 <= i < |z| ensures 0.0 <= r[i] <= 1.0 {
          PTwoSideInUnit(m, z[i]);
        }
      }
    }
    r
  }

  function Below(threshold: real): real -> bool {
    x => x < threshold
  }

  /** `(p < threshold).sum() / p.size`: the share of values below the threshold;
      `None` (NaN) for no values. */
  function Percentile(ps: seq<real>, threshold: real): (r: Option<real>)
    ensures r.None? <==> |ps| == 0
    ensures r.Some? ==> 0.0 <= r.value <= 1.0
  {
    if |ps| == 0 then None
    else
      var c := Count(ps, Below(threshold));
      ShareInUnit(c, |ps|);
      Some((c as real) / (|ps| as real))
  }

  lemma {:induction false} ShareInUnit(c: nat, len: nat)
    requires 0 < len && c <= len
    ensures 0.0 <= (c as real) / (len as real) <= 1.0
  {
    var q := (c as real) / (len as real);
    assert q * (len as real) == c as real;
  }

  /** A higher threshold counts at least as many values. */
  lemma {:induction false} PercentileMonotone(ps: seq<real>, lower: real, higher: real)
    requires |ps| > 0 && lower <= higher
    ensures Percentile(ps, lower).value <= Percentile(ps, higher).value
  {
    CountImplies(ps, Below(lower), Below(higher));
    var a, b := Count(ps, Below(lower)) as real, Count(ps, Below(higher)) as real;
    DivideMonotone(a, b, |ps| as real);
  }

  lemma {:induction false} DivideMonotone(a: real, b: real, d: real)
    requires a <= b && d > 0.0
    ensures a / d <= b / d
  {
    assert (b / d - a / d) * d == b - a;
  }

  // ------------------------------------------------------------------
  // Rank aggregation input lists
  // ------------------------------------------------------------------

  /** One line of a rank aggregation input file (columns sgrna, symbol, pool, p,
      prob, chosen). */
  datatype RankRecord = RankRecord(sgrna: string, symbol: string, pool: string, p: real, prob: int, chosen: int)

  function RecordP(r: RankRecord): real {
    r.p
  }

  /** The records before sorting: one per row, with constant pool, prob and chosen. */
  function RankInput(sgrna: seq<string>, symbol: seq<string>, p: seq<real>): (r: seq<RankRecord>)
    requires |sgrna| == |symbol| == |p|
    ensures |r| == |sgrna|
    ensures forall i :: 0 <= i < |r| ==> r[i] == RankRecord(sgrna[i], symbol[i], "list", p[i], 1, 1)
  {
    seq(|sgrna|, i requires 0 <= i < |sgrna| => RankRecord(sgrna[i], symbol[i], "list", p[i], 1, 1))
  }

  /** `df[pcolnm].sort_values('p')`: the records in ascending order of `p`. */
  function RankedList(sgrna: seq<string>, symbol: seq<string>, p: seq<real>): (r: seq<RankRecord>)
    requires |sgrna| == |symbol| == |p|
    ensures |r| == |sgrna|
    ensures SortedBy(r, RecordP)
    ensures multiset(r) == multiset(RankInput(sgrna, symbol, p))
  {
    SortBy(RankInput(sgrna, symbol, p), RecordP)
  }

  /** Every record of a ranked list is the record of some row, so its pool, prob and
      chosen columns are the constants "list", 1 and 1. */
  lemma {:induction false} RankedListRecords(sgrna: seq<string>, symbol: seq<string>, p: seq<real>)
    requires |sgrna| == |symbol| == |p|
    ensures forall k :: 0 <= k < |sgrna| ==>
      exists i :: 0 <= i < |sgrna| && RankedList(sgrna, symbol, p)[k] == RankRecord(sgrna[i], symbol[i], "list", p[i], 1, 1)
    ensures forall k :: 0 <= k < |sgrna| ==>
      RankedList(sgrna, symbol, p)[k].pool == "list" &&
      RankedList(sgrna, symbol, p)[k].prob == 1 && RankedList(sgrna, symbol, p)[k].chosen == 1
  {
    var r := RankedList(sgrna, symbol, p);
    var input := RankInput(sgrna, symbol, p);
    forall k | 0 <= k < |sgrna|
      ensures exists i :: 0 <= i < |sgrna| && r[k] == RankRecord(sgrna[i], symbol[i], "list", p[i], 1, 1)
    {
      assert r[k] in multiset(r);
      assert r[k] in input;
      var i :| 0 <= i < |input| && input[i] == r[k];
    }
  }

  /** Each row appears in a ranked list as many times as in the table. */
  lemma {:induction false} RankedListKeepsRows(sgrna: seq<string>, symbol: seq<string>, p: seq<real>, i: nat)
    requires |sgrna| == |symbol| == |p| && i < |sgrna|
    ensures RankRecord(sgrna[i], symbol[i], "list", p[i], 1, 1) in RankedList(sgrna, symbol, p)
  {
    var input := RankInput(sgrna, symbol, p);
    assert input[i] in multiset(input);
  }

  /** Every row has its record in the ranked list. */
  lemma {:induction false} RankedListHasRows(sgrna: seq<string>, symbol: seq<string>, p: seq<real>)
    requires |sgrna| == |symbol| == |p|
    ensures forall i :: 0 <= i < |sgrna| ==> RankRecord(sgrna[i], symbol[i], "list", p[i], 1, 1) in RankedList(sgrna, symbol, p)
  {
    forall i | 0 <= i < |sgrna| ensures RankRecord(sgrna[i], symbol[i], "list", p[i], 1, 1) in RankedList(sgrna, symbol, p) {
      RankedListKeepsRows(sgrna, symbol, p, i);
    }
  }


  function Negated(z: seq<real>): (r: seq<real>)
    ensures |r| == |z| && forall i :: 0 <= i < |z| ==> r[i] == -z[i]
  {
    seq(|z|, i requires 0 <= i < |z| => -z[i])
  }

  /** The low-direction list of a pipeline: keyed by `bid`, ranked by the score. */
  function LowList(info: seq<Info>, symbol: seq<string>, z: seq<real>): (r: seq<RankRecord>)
    requires |info| == |symbol| == |z|
    ensures |r| == |info| && SortedBy(r, RecordP)
    ensures forall i :: 0 <= i < |info| ==> RankRecord(info[i].bid, symbol[i], "list", z[i], 1, 1) in r
  {
    RankedListHasRows(Bids(info), symbol, z);
    RankedList(Bids(info), symbol, z)
  }

  /** The high-direction list of a pipeline: keyed by `bid`, ranked by the negated
      score, so that it runs from the largest score down. */
  function HighList(info: seq<Info>, symbol: seq<string>, z: seq<real>): (r: seq<RankRecord>)
    requires |info| == |symbol| == |z|
    ensures |r| == |info| && SortedBy(r, RecordP)
    ensures forall i :: 0 <= i < |info| ==> RankRecord(info[i].bid, symbol[i], "list", -z[i], 1, 1) in r
  {
    RankedListHasRows(Bids(info), symbol, Negated(z));
    RankedList(Bids(info), symbol, Negated(z))
  }

  /** The list for the high direction, ranked by `-z`, runs from the largest score to
      the smallest. */
  lemma {:induction false} HighListDescending(sgrna: seq<string>, symbol: seq<string>, z: seq<real>)
    requires |sgrna| == |symbol| == |z|
    ensures var r := RankedList(sgrna, symbol, Negated(z));
      forall a, b :: 0 <= a < b < |r| ==> -r[a].p >= -r[b].p
  {
    var r := RankedList(sgrna, symbol, Negated(z));
    forall a, b | 0 <= a < b < |r| ensures -r[a].p >= -r[b].p {
      assert RecordP(r[a]) <= RecordP(r[b]);
    }
  }

  // ------------------------------------------------------------------
  // Rank aggregation output and its second stage
  // ------------------------------------------------------------------

  /** One line of a rank aggregation output file (columns group_id, items_in_group,
      beta, p, FDR, goodsgrna). */
  datatype RraRow = RraRow(groupId: string, items: int, beta: real, p: real, fdr: real, goodsgrna: int)

  function GroupIds(rows: seq<RraRow>): (r: seq<string>)
    ensures |r| == |rows| && forall i :: 0 <= i < |rows| ==> r[i] == rows[i].groupId
  {
    seq(|rows|, i requires 0 <= i < |rows| => rows[i].groupId)
  }

  /** `group_id.str.split('.').map(lambda x: x[0])`. */
  function GroupSymbols(rows: seq<RraRow>): (r: seq<string>)
    ensures |r| == |rows| && forall i :: 0 <= i < |rows| ==> r[i] == FirstSegment(rows[i].groupId, '.')
  {
    seq(|rows|, i requires 0 <= i < |rows| => FirstSegment(rows[i].groupId, '.'))
  }

  function Betas(rows: seq<RraRow>): (r: seq<real>)
    ensures |r| == |rows| && forall i :: 0 <= i < |rows| ==> r[i] == rows[i].beta
  {
    seq(|rows|, i requires 0 <= i < |rows| => rows[i].beta)
  }

  function Fdrs(rows: seq<RraRow>): (r: seq<real>)
    ensures |r| == |rows| && forall i :: 0 <= i < |rows| ==> r[i] == rows[i].fdr
  {
    seq(|rows|, i requires 0 <= i < |rows| => rows[i].fdr)
  }

  /** The second-stage input built from first-stage output: each group re-keyed by
      the text of its id before the first '.', ranked by beta. */
  function StageTwoList(rows: seq<RraRow>): (r: seq<RankRecord>)
    ensures |r| == |rows| && SortedBy(r, RecordP)
  {
    RankedList(GroupIds(rows), GroupSymbols(rows), Betas(rows))
  }

  /** A first-stage group `gene.guide` is aggregated under `gene` in the second stage. */
  lemma {:induction false} StageTwoSymbol(rows: seq<RraRow>, i: nat, gene: string, guide: string)
    requires i < |rows| && rows[i].groupId == gene + "." + guide && '.' !in gene
    ensures GroupSymbols(rows)[i] == gene
    ensures RankRecord(gene + "." + guide, gene, "list", rows[i].beta, 1, 1) in StageTwoList(rows)
  {
    FirstSegmentOfJoin(gene, '.', guide);
    RankedListKeepsRows(GroupIds(rows), GroupSymbols(rows), Betas(rows), i);
  }

  /** The rows of `high` whose group id is that of `row`, each paired with `row`: one
      pair per such high row. */
  function MatchesOf(row: RraRow, high: seq<RraRow>): (r: seq<(RraRow, RraRow)>)
    ensures forall k :: 0 <= k < |r| ==> r[k].0 == row && r[k].1 in high && r[k].1.groupId == row.groupId
    ensures forall h :: h in high && h.groupId == row.groupId ==> (row, h) in r
    ensures |r| == Count(high, (h: RraRow) => h.groupId == row.groupId)
  {
    if high == [] then []
    else
      (if high[0].groupId == row.groupId then [(row, high[0])] else []) + MatchesOf(row, high[1..])
  }

  /** `pd.merge(low, high, how='inner', on=['group_id'])`: every pair of a low row and a
      high row with the same group id, in the order of the low rows. */
  function InnerJoin(low: seq<RraRow>, high: seq<RraRow>): (r: seq<(RraRow, RraRow)>)
    ensures forall k :: 0 <= k < |r| ==> r[k].0 in low && r[k].1 in high && r[k].0.groupId == r[k].1.groupId
    ensures forall a, b :: a in low && b in high && a.groupId == b.groupId ==> (a, b) in r
  {
    if low == [] then []
    else
      var rest := InnerJoin(low[1..], high);
      assert forall a :: a in low[1..] ==> a in low;
      MatchesOf(low[0], high) + rest
  }

  /** The merge keeps the order of the low rows: each low row in turn contributes its
      matches among the high rows. */
  lemma {:induction false} InnerJoinOrder(low: seq<RraRow>, high: seq<RraRow>)
    ensures InnerJoin(low, high) == Flatten(seq(|low|, i requires 0 <= i < |low| => MatchesOf(low[i], high)))
    decreases |low|
  {
    if low != [] {
      var ss := seq(|low|, i requires 0 <= i < |low| => MatchesOf(low[i], high));
      var tail := seq(|low| - 1, i requires 0 <= i < |low| - 1 => MatchesOf(low[1..][i], high));
      assert ss[1..] == tail;
      InnerJoinOrder(low[1..], high);
      assert InnerJoin(low, high) == ss[0] + InnerJoin(low[1..], high);
    }
  }

  /** A group that only one direction reports is dropped by the merge. */
  lemma {:induction false} InnerJoinDropsUnmatched(low: seq<RraRow>, high: seq<RraRow>, id: string)
    requires forall b :: b in high ==> b.groupId != id
    ensures forall k :: 0 <= k < |InnerJoin(low, high)| ==> InnerJoin(low, high)[k].0.groupId != id
  {
  }

  // ------------------------------------------------------------------
  // What a pipeline writes
  // ------------------------------------------------------------------

  /** The effects of a pipeline, in order: the scored table written to a file
      (with the p-value columns that exist at that point), a ranked list written to
      a file, and a run of the rank aggregation program from an input file to an
      output file with a percentile. */
  datatype Output =
    | ScoreTable(file: string, data: Scored, pcols: seq<Column>)
    | RankFile(file: string, records: seq<RankRecord>)
    | RunRra(infile: string, outfile: string, percentile: Option<real>)

  /** The rank aggregation program: the records of its input file and a percentile
      give the rows of its output file as `read_rra` reads them. */
  type Rra = (seq<RankRecord>, Option<real>) -> seq<RraRow>

  // ------------------------------------------------------------------
  // The scoring steps both pipelines run on a count table
  // ------------------------------------------------------------------

  /** The columns the scoring adds to the table, in the order it adds them, after the
      normalised counts (one column per label, in label order). */
  datatype Scored = Scored(
    norm: seq<Column>, k: real, b: real,
    controlmean: Column, treatmean: Column, controlvar: Column, estvar: Column,
    lfc: Column, lfcBin: seq<int>, large: seq<bool>, direction: seq<int>,
    adjvar: Column, z: Column)

  /** What the scoring needs: a table with at least one row whose controls and
      treatments are present, distinct and positive (as `readdata` leaves them), at
      least one of each, and the usual facts about the numeric functions. */
  ghost predicate ScoringInput(m: Math, t: Table, controls: seq<string>, treats: seq<string>) {
    && Sane(m) && WellFormed(t) && |t.info| > 0
    && |controls| > 0 && |treats| > 0
    && HasLabels(t, controls + treats) && Distinct(controls + treats)
    && AllPositive(Select(t, controls + treats))
  }

  /** What a pipeline demands of its inputs beyond the checks it fails on: the numeric
      functions behave, the table has rows, the labels are distinct, and the counts of
      the labels that are present are positive. */
  ghost predicate TableInput(m: Math, t: Table, controls: seq<string>, treats: seq<string>) {
    && Sane(m) && WellFormed(t) && |t.info| > 0 && Distinct(controls + treats)
    && (HasLabels(t, controls + treats) ==> AllPositive(Select(t, controls + treats)))
  }

  lemma {:induction false} InputColumns(m: Math, t: Table, controls: seq<string>, treats: seq<string>)
    requires ScoringInput(m, t, controls, treats)
    ensures Rectangular(Select(t, controls + treats), |t.info|)
    ensures AllNonNegative(Select(t, controls + treats)) && ColumnSumsPositive(Select(t, controls + treats))
  {
    PositiveColumns(Select(t, controls + treats), |t.info|);
  }

  /** The normalised table, its columns named by the labels again. */
  function NormTable(t: Table, labels: seq<string>, norm: seq<Column>): (r: Table)
    requires |labels| == |norm| && Distinct(labels)
  {
    Table(t.info, Relabel(labels, norm))
  }

  /** Any labels among the relabelled ones select relabelled columns. */
  lemma {:induction false} SelectRelabelled(t: Table, labels: seq<string>, norm: seq<Column>, sub: seq<string>)
    requires |labels| == |norm| && Distinct(labels)
    requires forall j :: 0 <= j < |sub| ==> sub[j] in labels
    ensures HasLabels(NormTable(t, labels, norm), sub)
    ensures forall j :: 0 <= j < |sub| ==>
      exists k :: 0 <= k < |norm| && Select(NormTable(t, labels, norm), sub)[j] == norm[k]
  {
    var r := Relabel(labels, norm);
    forall j | 0 <= j < |sub| ensures sub[j] in r {
      var k :| 0 <= k < |labels| && labels[k] == sub[j];
    }
    assert HasLabels(NormTable(t, labels, norm), sub);
    forall j | 0 <= j < |sub|
      ensures exists k :: 0 <= k < |norm| && Select(NormTable(t, labels, norm), sub)[j] == norm[k]
    {
      var k :| 0 <= k < |labels| && labels[k] == sub[j];
      assert Select(NormTable(t, labels, norm), sub)[j] == r[labels[k]];
    }
  }

  lemma {:induction false} SelectedShape(t: Table, labels: seq<string>, norm: seq<Column>, sub: seq<string>, n: nat)
    requires |labels| == |norm| && Distinct(labels) && Rectangular(norm, n)
    requires forall j :: 0 <= j < |sub| ==> sub[j] in labels
    ensures HasLabels(NormTable(t, labels, norm), sub)
    ensures Rectangular(Select(NormTable(t, labels, norm), sub), n)
  {
    SelectRelabelled(t, labels, norm, sub);
  }

  lemma {:induction false} SelectedPositive(t: Table, labels: seq<string>, norm: seq<Column>, sub: seq<string>, n: nat)
    requires |labels| == |norm| && Distinct(labels) && Rectangular(norm, n) && AllPositive(norm)
    requires forall j :: 0 <= j < |sub| ==> sub[j] in labels
    ensures HasLabels(NormTable(t, labels, norm), sub)
    ensures AllPositive(Select(NormTable(t, labels, norm), sub))
  {
    SelectRelabelled(t, labels, norm, sub);
  }

  /** The controls, the treatments and `conlabels` are all among the labels. */
  lemma {:induction false} LabelParts(controls: seq<string>, treats: seq<string>)
    ensures forall j :: 0 <= j < |controls| ==> controls[j] in controls + treats
    ensures forall j :: 0 <= j < |treats| ==> treats[j] in controls + treats
    ensures forall j :: 0 <= j < |ConLabels(controls, treats)| ==> ConLabels(controls, treats)[j] in controls + treats
  {
    var labels := controls + treats;
    forall j | 0 <= j < |treats| ensures treats[j] in labels {
      assert labels[|controls| + j] == treats[j];
    }
    forall j | 0 <= j < |controls| ensures controls[j] in labels {
      assert labels[j] == controls[j];
    }
  }

  /** Normalised positive counts have positive geometric means. */
  lemma {:induction false} MeansPositive(m: Math, t: Table, controls: seq<string>, treats: seq<string>, norm: seq<Column>)
    requires ScoringInput(m, t, controls, treats)
    requires Rectangular(Select(t, controls + treats), |t.info|)
    requires AllNonNegative(Select(t, controls + treats)) && ColumnSumsPositive(Select(t, controls + treats))
    requires norm == Scale(Select(t, controls + treats), NormFactors(m, Select(t, controls + treats), |t.info|, "median"))
    ensures forall j :: 0 <= j < |controls| ==> controls[j] in Relabel(controls + treats, norm)
    ensures forall j :: 0 <= j < |treats| ==> treats[j] in Relabel(controls + treats, norm)
    ensures var nt := NormTable(t, controls + treats, norm);
      Rectangular(Select(nt, controls), |t.info|) && Rectangular(Select(nt, treats), |t.info|) &&
      (forall i :: 0 <= i < |t.info| ==> GeoMean(m, Select(nt, controls), |t.info|).value[i] > 0.0) &&
      (forall i :: 0 <= i < |t.info| ==> GeoMean(m, Select(nt, treats), |t.info|).value[i] > 0.0)
  {
    var n := |t.info|;
    var labels := controls + treats;
    var raw := Select(t, labels);
    NormFactorsPositive(m, raw, n, "median");
    ScalePositive(raw, NormFactors(m, raw, n, "median"));
    LabelParts(controls, treats);
    var nt := NormTable(t, labels, norm);
    SelectedShape(t, labels, norm, controls, n);
    SelectedShape(t, labels, norm, treats, n);
    SelectedPositive(t, labels, norm, controls, n);
    SelectedPositive(t, labels, norm, treats, n);
    GeoMeanPositive(m, Select(nt, controls), n);
    GeoMeanPositive(m, Select(nt, treats), n);
  }

  /** Positive means give model variances at least the mean, and adjusted variances
      at least the model variance, so every square root is positive. */
  lemma {:induction false} VariancesPositive(m: Math, mean: Column, k: real, b: real, estvar: Column,
                          guides: seq<string>, dirs: seq<int>, cv: Column, adjust: bool, adjvar: Column)
    requires Sane(m) && (forall i :: 0 <= i < |mean| ==> mean[i] > 0.0)
    requires estvar == EstVar(m, mean, k, b)
    requires |guides| == |dirs| == |cv| == |mean| && forall i :: 0 <= i < |cv| ==> cv[i] >= 0.0
    requires adjvar == AdjVar(estvar, guides, dirs, cv, adjust)
    ensures forall i :: 0 <= i < |mean| ==> adjvar[i] >= estvar[i] >= mean[i]
    ensures forall i :: 0 <= i < |mean| ==> m.sqrt(adjvar[i]) > 0.0
  {
    AdjVarAtLeastEstVar(estvar, guides, dirs, cv, adjust);
  }

  /** The statistics of the normalised table the scoring builds on: the normalised
      counts, the dispersion parameters fitted on `conlabels`, the geometric means of
      controls and treatments, and the variance of the controls. */
  datatype Fitted = Fitted(
    norm: seq<Column>, k: real, b: real,
    controlmean: Column, treatmean: Column, controlvar: Column)

  /** Normalisation by median ratio, the dispersion fit on `conlabels`, the geometric
      means and the control variance (lines 112-139 of mibar/analysis.py). */
  function Fit(m: Math, t: Table, controls: seq<string>, treats: seq<string>): (f: Fitted)
    requires ScoringInput(m, t, controls, treats)
    ensures |f.norm| == |controls| + |treats| && Rectangular(f.norm, |t.info|)
    ensures |f.controlmean| == |f.treatmean| == |f.controlvar| == |t.info|
    ensures f.k >= 1.0 && f.b >= 0.0
    ensures forall i :: 0 <= i < |t.info| ==> f.controlmean[i] > 0.0 && f.treatmean[i] > 0.0 && f.controlvar[i] >= 0.0
  {
    var n := |t.info|;
    var norm := NormCounts(m, t, controls, treats);
    var nt := NormTable(t, controls + treats, norm);
    var con := ConLabels(controls, treats);
    var kb := ModelMeanVar(m, Select(nt, con), n).value;
    Fitted(norm, kb.0, kb.1, GeoMean(m, Select(nt, controls), n).value, GeoMean(m, Select(nt, treats), n).value,
           VarianceValues(Select(nt, con), n))
  }

  /** The columns derived from the fitted statistics: the model variance, the fold
      change, its bin, the reliability flag, the direction, the variance adjusted by
      guide, and the score. Every variance is at least the positive control mean and
      the adjusted one at least the model variance, equal to it without adjustment. */
  function Derive(m: Math, f: Fitted, guides: seq<string>, threshold: real, adjust: bool, controls: nat): (d: Scored)
    requires Sane(m) && Rectangular(f.norm, |guides|)
    requires |f.controlmean| == |f.treatmean| == |f.controlvar| == |guides|
    requires forall i :: 0 <= i < |guides| ==> f.controlmean[i] > 0.0 && f.controlvar[i] >= 0.0
    ensures d.norm == f.norm && d.k == f.k && d.b == f.b
    ensures d.controlmean == f.controlmean && d.treatmean == f.treatmean && d.controlvar == f.controlvar
    ensures |d.estvar| == |d.lfc| == |d.lfcBin| == |d.large| == |d.direction| == |d.adjvar| == |d.z| == |guides|
    ensures forall i :: 0 <= i < |guides| ==> d.adjvar[i] >= d.estvar[i] >= d.controlmean[i] > 0.0
    ensures !adjust ==> d.adjvar == d.estvar
  {
    var n := |guides|;
    var estvar := EstVar(m, f.controlmean, f.k, f.b);
    var lfc := Lfc(m, f.treatmean, f.controlmean);
    var lfcBin := Bins(lfc);
    var large := LargeFlags(f.norm, n, threshold, controls);
    var direction := Directions(lfcBin, large);
    var adjvar := AdjVar(estvar, guides, direction, f.controlvar, adjust);
    VariancesPositive(m, f.controlmean, f.k, f.b, estvar, guides, direction, f.controlvar, adjust, adjvar);
    var z := ZScores(m, f.treatmean, f.controlmean, adjvar);
    Scored(f.norm, f.k, f.b, f.controlmean, f.treatmean, f.controlvar, estvar, lfc, lfcBin, large, direction, adjvar, z)
  }

  /** The scoring both pipelines run (lines 105-219 of mibar/analysis.py), as a
      function of its inputs. */
  function Scores(m: Math, t: Table, controls: seq<string>, treats: seq<string>, threshold: real, adjust: bool): (d: Scored)
    requires ScoringInput(m, t, controls, treats)
    ensures |d.norm| == |controls| + |treats| && Rectangular(d.norm, |t.info|)
    ensures |d.controlmean| == |d.treatmean| == |d.controlvar| == |d.estvar| == |d.lfc| == |t.info|
    ensures |d.lfcBin| == |d.large| == |d.direction| == |d.adjvar| == |d.z| == |t.info|
  {
    Derive(m, Fit(m, t, controls, treats), Guides(t.info), threshold, adjust, |controls|)
  }

  /** `df_normalization(inputdata, controlids + treatids, 'median')`. */
  function NormCounts(m: Math, t: Table, controls: seq<string>, treats: seq<string>): (norm: seq<Column>)
    requires ScoringInput(m, t, controls, treats)
    ensures |norm| == |controls| + |treats| && Rectangular(norm, |t.info|)
    ensures var nt := NormTable(t, controls + treats, norm);
      && HasLabels(nt, controls) && HasLabels(nt, treats) && HasLabels(nt, ConLabels(controls, treats))
      && Rectangular(Select(nt, controls), |t.info|) && Rectangular(Select(nt, treats), |t.info|)
      && Rectangular(Select(nt, ConLabels(controls, treats)), |t.info|)
      && (forall i :: 0 <= i < |t.info| ==> GeoMean(m, Select(nt, controls), |t.info|).value[i] > 0.0)
      && (forall i :: 0 <= i < |t.info| ==> GeoMean(m, Select(nt, treats), |t.info|).value[i] > 0.0)
  {
    var n := |t.info|;
    var labels := controls + treats;
    InputColumns(m, t, controls, treats);
    var raw := Select(t, labels);
    var norm := Scale(raw, NormFactors(m, raw, n, "median"));
    LabelParts(controls, treats);
    SelectedShape(t, labels, norm, ConLabels(controls, treats), n);
    MeansPositive(m, t, controls, treats, norm);
    norm
  }

  /** The `lfc_bin` column. */
  function Bins(lfc: Column): (r: seq<int>)
    ensures |r| == |lfc| && forall i :: 0 <= i < |lfc| ==> r[i] == LfcBin(lfc[i])
  {
    seq(|lfc|, i requires 0 <= i < |lfc| => LfcBin(lfc[i]))
  }

  /** The `large` column: row `i` of the normalised counts, controls then treatments. */
  function LargeFlags(norm: seq<Column>, n: nat, threshold: real, controls: nat): (r: seq<bool>)
    requires Rectangular(norm, n)
    ensures |r| == n && forall i :: 0 <= i < n ==> r[i] == Large(RowOf(norm, n, i), threshold, controls)
  {
    seq(n, i requires 0 <= i < n => Large(RowOf(norm, n, i), threshold, controls))
  }

  /** The `direction` column. */
  function Directions(bins: seq<int>, large: seq<bool>): (r: seq<int>)
    requires |bins| == |large| && forall i :: 0 <= i < |bins| ==> -1 <= bins[i] <= 1
    ensures |r| == |bins| && forall i :: 0 <= i < |bins| ==> r[i] == Direction(bins[i], large[i])
  {
    seq(|bins|, i requires 0 <= i < |bins| => Direction(bins[i], large[i]))
  }

  /** The scoring as the pipeline runs it: the table is normalised and then gains one
      derived column after another. */
  method ScoreData(m: Math, t: Table, controls: seq<string>, treats: seq<string>, threshold: real, adjust: bool)
    returns (d: Scored)
    requires ScoringInput(m, t, controls, treats)
    ensures d == Scores(m, t, controls, treats, threshold, adjust)
  {
    var f := FitData(m, t, controls, treats);
    d := DeriveData(m, f, Guides(t.info), threshold, adjust, |controls|);
  }

  /** The second part of the scoring: one derived column after another. */
  method DeriveData(m: Math, f: Fitted, guides: seq<string>, threshold: real, adjust: bool, controls: nat)
    returns (d: Scored)
    requires Sane(m) && Rectangular(f.norm, |guides|)
    requires |f.controlmean| == |f.treatmean| == |f.controlvar| == |guides|
    requires forall i :: 0 <= i < |guides| ==> f.controlmean[i] > 0.0 && f.controlvar[i] >= 0.0
    ensures d == Derive(m, f, guides, threshold, adjust, controls)
  {
    var n := |guides|;
    var estvar := EstVar(m, f.controlmean, f.k, f.b);
    var lfc := Lfc(m, f.treatmean, f.controlmean);
    var lfcBin := Bins(lfc);
    var large := LargeFlags(f.norm, n, threshold, controls);
    var direction := Directions(lfcBin, large);
    var adjvar := AdjVar(estvar, guides, direction, f.controlvar, adjust);
    VariancesPositive(m, f.controlmean, f.k, f.b, estvar, guides, direction, f.controlvar, adjust, adjvar);
    var z := ZScores(m, f.treatmean, f.controlmean, adjvar);
    d := Scored(f.norm, f.k, f.b, f.controlmean, f.treatmean, f.controlvar, estvar, lfc, lfcBin, large, direction, adjvar, z);
  }

  /** The first part of the scoring: normalisation, dispersion fit, means and variance. */
  method FitData(m: Math, t: Table, controls: seq<string>, treats: seq<string>) returns (f: Fitted)
    requires ScoringInput(m, t, controls, treats)
    ensures f == Fit(m, t, controls, treats)
  {
    var n := |t.info|;
    var labels := controls + treats;
    InputColumns(m, t, controls, treats);
    var raw := Select(t, labels);
    var norm := Normalization(m, raw, n, "median");
    assert norm == NormCounts(m, t, controls, treats);
    var data := NormTable(t, labels, norm);
    var conlabels := ConLabels(controls, treats);
    var kb := ModelMeanVar(m, Select(data, conlabels), n);
    var controlmean := GeoMean(m, Select(data, controls), n).value;
    var treatmean := GeoMean(m, Select(data, treats), n).value;
    var controlvar := VarianceValues(Select(data, conlabels), n);
    f := Fitted(norm, kb.value.0, kb.value.1, controlmean, treatmean, controlvar);
  }

  /** The dispersion parameters of the scoring satisfy k >= 1 and b >= 0. */
  lemma {:induction false} ScoresDispersion(m: Math, t: Table, controls: seq<string>, treats: seq<string>, threshold: real, adjust: bool)
    requires ScoringInput(m, t, controls, treats)
    ensures Scores(m, t, controls, treats, threshold, adjust).k >= 1.0
    ensures Scores(m, t, controls, treats, threshold, adjust).b >= 0.0
  {
  }

  /** Every bin, reliability flag and direction of the scoring follows its rule. */
  lemma {:induction false} ScoresRules(m: Math, t: Table, controls: seq<string>, treats: seq<string>, threshold: real, adjust: bool, i: nat)
    requires ScoringInput(m, t, controls, treats) && i < |t.info|
    ensures var d := Scores(m, t, controls, treats, threshold, adjust);
      && (d.lfcBin[i] == -1 <==> d.lfc[i] <= -0.1)
      && (d.lfcBin[i] == 0 <==> -0.1 < d.lfc[i] < 0.1)
      && (d.lfcBin[i] == 1 <==> d.lfc[i] >= 0.1)
      && (d.large[i] <==> Count(RowOf(d.norm, |t.info|, i), Above(threshold)) > |controls|)
      && -1 <= d.direction[i] <= 1
      && (d.large[i] ==> d.direction[i] == d.lfcBin[i])
      && (!d.large[i] ==> d.direction[i] == 0)
  {
  }

  /** The model variance is at least the (positive) control mean, and the adjusted
      variance at least the model variance; without adjustment the two are equal. */
  lemma {:induction false} ScoresVariance(m: Math, t: Table, controls: seq<string>, treats: seq<string>, threshold: real, adjust: bool)
    requires ScoringInput(m, t, controls, treats)
    ensures var d := Scores(m, t, controls, treats, threshold, adjust);
      forall i :: 0 <= i < |t.info| ==> d.adjvar[i] >= d.estvar[i] >= d.controlmean[i] > 0.0
    ensures !adjust ==> Scores(m, t, controls, treats, threshold, adjust).adjvar ==
                        Scores(m, t, controls, treats, threshold, adjust).estvar
  {
  }

  /** A row's score is positive exactly when its treatment mean exceeds its control
      mean, and negative exactly when it falls below. */
  lemma {:induction false} ScoresSign(m: Math, t: Table, controls: seq<string>, treats: seq<string>, threshold: real, adjust: bool, i: nat)
    requires ScoringInput(m, t, controls, treats) && i < |t.info|
    ensures var d := Scores(m, t, controls, treats, threshold, adjust);
      && (d.z[i] > 0.0 <==> d.treatmean[i] > d.controlmean[i])
      && (d.z[i] < 0.0 <==> d.treatmean[i] < d.controlmean[i])
  {
    var d := Scores(m, t, controls, treats, threshold, adjust);
    ScoresVariance(m, t, controls, treats, threshold, adjust);
    assert forall k :: 0 <= k < |d.adjvar| ==> m.sqrt(d.adjvar[k]) > 0.0;
    assert d.z == ZScores(m, d.treatmean, d.controlmean, d.adjvar);
    ZScoreSign(m, d.treatmean, d.controlmean, d.adjvar, i);
  }
}
