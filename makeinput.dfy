/** Model of analysis_pipeline/analysis/step2_map_rawcount_to_library/makeinput.py:
    the reads of each sample are matched to the library by (guide, bar1), else by
    (guide, stripped bar2); unmatched reads are dropped; the counts are summed per
    (gene, guide, barcode); the samples are outer-joined with 0 for a missing entry and
    the table is sorted by gene and guide. Reading the files and writing the table are
    left to the caller: the reference and the reads of each file come in as values. */
module MakeInput {
  import opened Common

  /** A row of the reference library. */
  datatype RefRow = RefRow(gene: string, guide: string, barcode: string)

  /** A row of a raw count file: `guide bar1 bar2 count`. */
  datatype ReadRow = ReadRow(guide: string, bar1: string, bar2: string, count: int)

  /** The key counts are grouped and joined by. */
  datatype Key = Key(gene: string, guide: string, barcode: string)

  /** A row of the output table: the key, then one count per label in label order. */
  datatype OutRow = OutRow(key: Key, counts: seq<int>)

  // ------------------------------------------------------------------
  // Stripping bar2
  // ------------------------------------------------------------------

  /** The ASCII whitespace `str.strip()` removes. */
  predicate IsSpace(c: char) {
    c == ' ' || c == '\t' || c == '\n' || c == '\r' || c == '\U{000B}' || c == '\U{000C}'
  }

  /** The text after the leading whitespace. */
  function StripLeft(s: string): (r: string)
    ensures |r| <= |s| && r == s[|s| - |r|..]
    ensures forall i :: 0 <= i < |s| - |r| ==> IsSpace(s[i])
    ensures r != [] ==> !IsSpace(r[0])
  {
    if s != [] && IsSpace(s[0]) then StripLeft(s[1..]) else s
  }

  /** The text before the trailing whitespace. */
  function StripRight(s: string): (r: string)
    ensures |r| <= |s| && r == s[..|r|]
    ensures forall i :: |r| <= i < |s| ==> IsSpace(s[i])
    ensures r != [] ==> !IsSpace(r[|r| - 1])
  {
    if s != [] && IsSpace(s[|s| - 1]) then StripRight(s[..|s| - 1]) else s
  }

  /** `str.strip()`: no whitespace is left at either end. */
  function Strip(s: string): (r: string)
    ensures |r| <= |s|
    ensures r != [] ==> !IsSpace(r[0]) && !IsSpace(r[|r| - 1])
  {
    var l := StripLeft(s);
    var r := StripRight(l);
    assert r != [] ==> r[0] == l[0];
    r
  }

  /** The stripped text is the slice `s[i..j]` of `s` between whitespace only. */
  lemma {:induction false} StripSlice(s: string) returns (i: nat, j: nat)
    ensures i <= j <= |s| && Strip(s) == s[i..j]
    ensures forall k :: 0 <= k < i ==> IsSpace(s[k])
    ensures forall k :: j <= k < |s| ==> IsSpace(s[k])
  {
    var l := StripLeft(s);
    var r := StripRight(l);
    i := |s| - |l|;
    j := i + |r|;
    assert l == s[i..];
    assert r == l[..|r|];
    assert s[i..j] == s[i..][..|r|];
    assert Strip(s) == r;
    forall k | j <= k < |s| ensures IsSpace(s[k]) {
      assert s[k] == l[k - i];
    }
  }

  /** Stripping a stripped text again changes nothing. */
  lemma {:induction false} StripIdempotent(s: string)
    ensures Strip(Strip(s)) == Strip(s)
  {
    var l := StripLeft(s);
    var r := StripRight(l);
    if r != [] {
      assert r[0] == l[0];
      assert StripLeft(r) == r;
    }
  }

  // ------------------------------------------------------------------
  // Matching a read against the library
  // ------------------------------------------------------------------

  /** The reference rows, in order, whose guide and barcode are `guide` and `bar`: what
      a left merge on (guide, barcode) pairs a read with. */
  function Matches(reference: seq<RefRow>, guide: string, bar: string): (r: seq<RefRow>)
    ensures forall x :: x in r <==> x in reference && x.guide == guide && x.barcode == bar
    ensures (forall x :: x in reference ==> x.guide != guide || x.barcode != bar) ==> r == []
    ensures |r| <= |reference|
  {
    if reference == [] then []
    else
      (if reference[0].guide == guide && reference[0].barcode == bar then [reference[0]] else [])
      + Matches(reference[1..], guide, bar)
  }

  /** `n` copies of `k`. */
  function Copies(k: Key, n: nat): (r: seq<Key>)
    ensures |r| == n && forall i :: 0 <= i < n ==> r[i] == k
  {
    seq(n, i => k)
  }

  /** The rows a read becomes when its first match repeats once per row of the second
      merge: each reference row matching bar1, `n` times. */
  function FirstMatchRows(xs: seq<RefRow>, guide: string, n: nat): (r: seq<Key>)
    ensures |r| == |xs| * n
    ensures n > 0 ==> forall k :: k in r <==> exists x :: x in xs && k == Key(x.gene, guide, x.barcode)
  {
    if xs == [] then []
    else
      var c := Copies(Key(xs[0].gene, guide, xs[0].barcode), n);
      var rest := FirstMatchRows(xs[1..], guide, n);
      assert forall x :: x in xs <==> x == xs[0] || x in xs[1..];
      assert n > 0 ==> c[0] in c;
      c + rest
  }

  /** Rows `j * n` up to `j * n + n` of the first-match rows are `n` copies of the key
      of the `j`-th match: the matches come in order, each repeated `n` times. */
  lemma {:induction false} FirstMatchRowsBlock(xs: seq<RefRow>, guide: string, n: nat, j: nat)
    requires j < |xs|
    ensures j * n + n <= |FirstMatchRows(xs, guide, n)|
    ensures FirstMatchRows(xs, guide, n)[j * n..j * n + n] == Copies(Key(xs[j].gene, guide, xs[j].barcode), n)
    decreases j
  {
    var c := Copies(Key(xs[0].gene, guide, xs[0].barcode), n);
    var rest := FirstMatchRows(xs[1..], guide, n);
    assert FirstMatchRows(xs, guide, n) == c + rest;
    if j == 0 {
      assert (c + rest)[0..n] == c;
    } else {
      FirstMatchRowsBlock(xs[1..], guide, n, j - 1);
      assert xs[1..][j - 1] == xs[j];
      assert j * n == n + (j - 1) * n;
      assert (c + rest)[j * n..j * n + n] == rest[(j - 1) * n..(j - 1) * n + n];
    }
  }

  /** The (gene, guide, barcode) rows one read becomes after the two left merges and
      the coalescing of their gene and barcode columns: the bar1 match wins, else the
      bar2 match, else an empty gene and barcode. A left merge keeps a row per match,
      so a read matching several reference rows becomes several rows. This holds for any
      library, with or without repeated (guide, barcode) pairs. */
  function MergedRows(reference: seq<RefRow>, read: ReadRow): (r: seq<Key>)
    ensures |r| >= 1
    ensures var xs := Matches(reference, read.guide, read.bar1);
      var ys := Matches(reference, read.guide, Strip(read.bar2));
      forall k :: k in r <==>
        if xs != [] then exists x :: x in xs && k == Key(x.gene, read.guide, x.barcode)
        else if ys != [] then exists y :: y in ys && k == Key(y.gene, read.guide, y.barcode)
        else k == Key("", read.guide, "")
  {
    var xs := Matches(reference, read.guide, read.bar1);
    var ys := Matches(reference, read.guide, Strip(read.bar2));
    if xs != [] then FirstMatchRows(xs, read.guide, if ys == [] then 1 else |ys|)
    else if ys == [] then [Key("", read.guide, "")]
    else SecondMatchRows(ys, read.guide)
  }

  /** The rows a read with no bar1 match becomes: one per reference row matching the
      stripped bar2, with that row's gene and barcode. */
  function SecondMatchRows(ys: seq<RefRow>, guide: string): (r: seq<Key>)
    ensures |r| == |ys| && forall i :: 0 <= i < |ys| ==> r[i] == Key(ys[i].gene, guide, ys[i].barcode)
    ensures forall k :: k in r <==> exists y :: y in ys && k == Key(y.gene, guide, y.barcode)
  {
    var r := seq(|ys|, i requires 0 <= i < |ys| => Key(ys[i].gene, guide, ys[i].barcode));
    assert forall k :: k in r ==> exists i :: 0 <= i < |ys| && k == r[i];
    assert forall i :: 0 <= i < |ys| ==> r[i] in r;
    r
  }

  /** A read becomes as many rows as the product of its two numbers of matches, each
      counted as 1 when there is none. */
  lemma {:induction false} MergedRowsCount(reference: seq<RefRow>, read: ReadRow)
    ensures var nx := |Matches(reference, read.guide, read.bar1)|;
      var ny := |Matches(reference, read.guide, Strip(read.bar2))|;
      |MergedRows(reference, read)| == (if nx == 0 then 1 else nx) * (if ny == 0 then 1 else ny)
  {
  }

  /** No two reference rows share a guide and a barcode. */
  ghost predicate UniqueKeys(reference: seq<RefRow>) {
    forall i, j :: 0 <= i < j < |reference| ==>
      reference[i].guide != reference[j].guide || reference[i].barcode != reference[j].barcode
  }

  /** With unique library keys a read has at most one match per barcode. */
  lemma {:induction false} MatchesUnique(reference: seq<RefRow>, guide: string, bar: string)
    requires UniqueKeys(reference)
    ensures |Matches(reference, guide, bar)| <= 1
    decreases |reference|
  {
    if reference != [] {
      var rest := reference[1..];
      assert UniqueKeys(rest) by {
        forall i, j | 0 <= i < j < |rest| ensures rest[i].guide != rest[j].guide || rest[i].barcode != rest[j].barcode {
          assert rest[i] == reference[i + 1] && rest[j] == reference[j + 1];
        }
      }
      MatchesUnique(rest, guide, bar);
      if reference[0].guide == guide && reference[0].barcode == bar {
        forall x | x in rest ensures x.guide != guide || x.barcode != bar {
          var k :| 0 <= k < |rest| && rest[k] == x;
          assert reference[k + 1] == x;
        }
      }
    }
  }

  /** With unique library keys, a read matching the reference row `x` by (guide,
      bar1) becomes exactly one row, with the gene and barcode of `x`. */
  lemma {:induction false} MatchFirstBarcode(reference: seq<RefRow>, read: ReadRow, x: RefRow)
    requires UniqueKeys(reference)
    requires x in reference && x.guide == read.guide && x.barcode == read.bar1
    ensures MergedRows(reference, read) == [Key(x.gene, read.guide, x.barcode)]
  {
    OnlyMatch(reference, read.guide, read.bar1, x);
    MatchesUnique(reference, read.guide, Strip(read.bar2));
    OneFirstMatchRow(x, read.guide);
  }

  /** With unique library keys, a reference row that matches is the only match. */
  lemma OnlyMatch(reference: seq<RefRow>, guide: string, bar: string, x: RefRow)
    requires UniqueKeys(reference)
    requires x in reference && x.guide == guide && x.barcode == bar
    ensures Matches(reference, guide, bar) == [x]
  {
    var xs := Matches(reference, guide, bar);
    MatchesUnique(reference, guide, bar);
    assert x in xs;
    assert xs[0] == x;
  }

  /** A single first match repeated once is a single row. */
  lemma OneFirstMatchRow(x: RefRow, guide: string)
    ensures FirstMatchRows([x], guide, 1) == [Key(x.gene, guide, x.barcode)]
  {
    var c := Copies(Key(x.gene, guide, x.barcode), 1);
    assert [x][1..] == [];
    assert c == [Key(x.gene, guide, x.barcode)];
    assert FirstMatchRows([x], guide, 1) == c + [];
  }

  /** With unique library keys, a read with no (guide, bar1) match that matches the
      reference row `y` by (guide, stripped bar2) becomes exactly one row, with the gene
      and barcode of `y`. */
  lemma {:induction false} MatchSecondBarcode(reference: seq<RefRow>, read: ReadRow, y: RefRow)
    requires UniqueKeys(reference)
    requires forall x :: x in reference ==> x.guide != read.guide || x.barcode != read.bar1
    requires y in reference && y.guide == read.guide && y.barcode == Strip(read.bar2)
    ensures MergedRows(reference, read) == [Key(y.gene, read.guide, y.barcode)]
  {
    OnlyMatch(reference, read.guide, Strip(read.bar2), y);
  }

  /** A read that matches no reference row by either barcode becomes one row with an
      empty gene and barcode, which the group sum drops. */
  lemma {:induction false} MatchNeither(reference: seq<RefRow>, read: ReadRow)
    requires forall x :: x in reference ==> x.guide != read.guide || (x.barcode != read.bar1 && x.barcode != Strip(read.bar2))
    ensures MergedRows(reference, read) == [Key("", read.guide, "")]
  {
  }

  // ------------------------------------------------------------------
  // Group sums of one sample
  // ------------------------------------------------------------------

  /** `m.get(k, 0)`. */
  function Get(m: map<Key, int>, k: Key): int {
    if k in m then m[k] else 0
  }

  /** `c` for every occurrence of `k` in `rows`. */
  function RowTotal(rows: seq<Key>, k: Key, c: int): int {
    if rows == [] then 0 else (if rows[0] == k then c else 0) + RowTotal(rows[1..], k, c)
  }

  /** Adds `c` to the sum of every row with a gene; rows without a gene are dropped. */
  function AddRows(m: map<Key, int>, rows: seq<Key>, c: int): (r: map<Key, int>)
    ensures (forall k :: k in m ==> k.gene != "") ==> forall k :: k in r ==> k.gene != ""
    decreases |rows|
  {
    if rows == [] then m
    else AddRows(if rows[0].gene == "" then m else m[rows[0] := Get(m, rows[0]) + c], rows[1..], c)
  }

  /** A key is summed exactly when it was already or is a row with a gene, and its sum
      grows by `c` per such row. */
  lemma {:induction false} AddRowsGet(m: map<Key, int>, rows: seq<Key>, c: int, k: Key)
    ensures k in AddRows(m, rows, c) <==> k in m || (k.gene != "" && k in rows)
    ensures Get(AddRows(m, rows, c), k) == Get(m, k) + (if k.gene == "" then 0 else RowTotal(rows, k, c))
    decreases |rows|
  {
    if rows != [] {
      var m' := if rows[0].gene == "" then m else m[rows[0] := Get(m, rows[0]) + c];
      AddRowsGet(m', rows[1..], c, k);
      assert k in rows <==> k == rows[0] || k in rows[1..];
    }
  }

  /** The merged rows of every read of a sample, each with the read's count. */
  function Merged(reference: seq<RefRow>, sample: seq<ReadRow>): seq<(seq<Key>, int)> {
    seq(|sample|, i requires 0 <= i < |sample| => (MergedRows(reference, sample[i]), sample[i].count))
  }

  /** The group sums of a sequence of merged reads. */
  function Sums(merged: seq<(seq<Key>, int)>): (r: map<Key, int>)
    ensures forall k :: k in r ==> k.gene != ""
  {
    if merged == [] then map[]
    else
      var last := merged[|merged| - 1];
      AddRows(Sums(merged[..|merged| - 1]), last.0, last.1)
  }

  /** The count of `k` over a sequence of merged reads: a read adds its count once per
      merged row equal to `k`. */
  function ReadsTotal(merged: seq<(seq<Key>, int)>, k: Key): int {
    if merged == [] then 0
    else
      var last := merged[|merged| - 1];
      ReadsTotal(merged[..|merged| - 1], k) + RowTotal(last.0, k, last.1)
  }

  /** The sums hold exactly the keys with a gene that occur in some read, each with its
      total over the reads. */
  lemma {:induction false} SumsTotal(merged: seq<(seq<Key>, int)>, k: Key)
    ensures k in Sums(merged) <==> k.gene != "" && exists i :: 0 <= i < |merged| && k in merged[i].0
    ensures k.gene != "" ==> Get(Sums(merged), k) == ReadsTotal(merged, k)
    decreases |merged|
  {
    if merged != [] {
      var init := merged[..|merged| - 1];
      var last := merged[|merged| - 1];
      SumsTotal(init, k);
      AddRowsGet(Sums(init), last.0, last.1, k);
      if k in Sums(merged) && k !in last.0 {
        var i :| 0 <= i < |init| && k in init[i].0;
        assert init[i] == merged[i];
      }
      if k.gene != "" && (exists i :: 0 <= i < |merged| && k in merged[i].0) {
        var i :| 0 <= i < |merged| && k in merged[i].0;
        if i < |init| {
          assert init[i] == merged[i];
        }
      }
    }
  }

  /** `data.loc[data['gene'] != ''].groupby(['gene', 'guide', 'barcode']).sum()`: the
      count of each key over the merged rows of the sample's reads. Rows without a gene
      are dropped. */
  function GroupSum(reference: seq<RefRow>, sample: seq<ReadRow>): (r: map<Key, int>)
    ensures forall k :: k in r ==> k.gene != ""
  {
    Sums(Merged(reference, sample))
  }

  /** The count of key `k` in a sample: every read adds its count once per merged row
      equal to `k`. */
  function Total(reference: seq<RefRow>, sample: seq<ReadRow>, k: Key): int {
    ReadsTotal(Merged(reference, sample), k)
  }

  /** The group sum holds exactly the keys with a gene that some read becomes, each with
      its total count. */
  lemma {:induction false} GroupSumTotal(reference: seq<RefRow>, sample: seq<ReadRow>, k: Key)
    ensures k in GroupSum(reference, sample) <==>
      k.gene != "" && exists i :: 0 <= i < |sample| && k in MergedRows(reference, sample[i])
    ensures k.gene != "" ==> Get(GroupSum(reference, sample), k) == Total(reference, sample, k)
  {
    var merged := Merged(reference, sample);
    SumsTotal(merged, k);
    assert forall i :: 0 <= i < |sample| ==> merged[i].0 == MergedRows(reference, sample[i]);
  }

  // ------------------------------------------------------------------
  // Samples
  // ------------------------------------------------------------------

  /** `zip(labels, files)` pairs as many labels as there are files, and no more. */
  function Paired(labels: seq<string>, files: nat): (n: nat)
    ensures n <= |labels| && n <= files
    ensures n == |labels| || n == files
  {
    if |labels| <= files then |labels| else files
  }

  /** The group sums of every file. */
  function SampleSums(reference: seq<RefRow>, inputs: seq<seq<ReadRow>>): (r: seq<map<Key, int>>)
    ensures |r| == |inputs| && forall i :: 0 <= i < |inputs| ==> r[i] == GroupSum(reference, inputs[i])
  {
    seq(|inputs|, i requires 0 <= i < |inputs| => GroupSum(reference, inputs[i]))
  }

  /** `bestdict` after the first `n` samples, given the group sums of each file: each
      label maps to the sums of its file, a later file of the same label replacing an
      earlier one. */
  function Best(labels: seq<string>, sums: seq<map<Key, int>>, n: nat): (r: map<string, map<Key, int>>)
    requires n <= |labels| && n <= |sums|
    ensures forall l :: l in r <==> exists i :: 0 <= i < n && labels[i] == l
  {
    if n == 0 then map[]
    else Best(labels, sums, n - 1)[labels[n - 1] := sums[n - 1]]
  }

  /** A label that is not repeated later holds the sums of its own file. */
  lemma {:induction false} BestLabels(labels: seq<string>, sums: seq<map<Key, int>>, n: nat, j: nat)
    requires n <= |labels| && n <= |sums|
    ensures j < n && (forall m :: j < m < n ==> labels[m] != labels[j]) ==>
      labels[j] in Best(labels, sums, n) && Best(labels, sums, n)[labels[j]] == sums[j]
    decreases n
  {
    if n > 0 {
      BestLabels(labels, sums, n - 1, j);
    }
  }

  // ------------------------------------------------------------------
  // Outer join and sort
  // ------------------------------------------------------------------

  /** Python's comparison of strings: code point by code point, a prefix first. */
  predicate StrLe(a: string, b: string) {
    a == [] || (b != [] && (a[0] < b[0] || (a[0] == b[0] && StrLe(a[1..], b[1..]))))
  }

  lemma {:induction false} StrLeTotal(a: string, b: string)
    ensures StrLe(a, b) || StrLe(b, a)
  {
    if a != [] && b != [] && a[0] == b[0] {
      StrLeTotal(a[1..], b[1..]);
    }
  }

  lemma {:induction false} StrLeTrans(a: string, b: string, c: string)
    requires StrLe(a, b) && StrLe(b, c)
    ensures StrLe(a, c)
  {
    if a != [] && a[0] == b[0] && b[0] == c[0] {
      StrLeTrans(a[1..], b[1..], c[1..]);
    }
  }

  lemma {:induction false} StrLeAntisym(a: string, b: string)
    requires StrLe(a, b) && StrLe(b, a)
    ensures a == b
  {
    if a != [] {
      StrLeAntisym(a[1..], b[1..]);
      assert a == [a[0]] + a[1..] && b == [b[0]] + b[1..];
    }
  }

  /** `sort_values(['gene', 'guide'])` of the merged table. `groupby` and the outer
      merges leave that table ordered by all three keys, and pandas sorts on several
      columns stably, so rows come out by gene, then guide, then barcode. */
  predicate KeyLe(x: Key, y: Key) {
    if x.gene != y.gene then StrLe(x.gene, y.gene)
    else if x.guide != y.guide then StrLe(x.guide, y.guide)
    else StrLe(x.barcode, y.barcode)
  }

  lemma {:induction false} KeyLeTotal(x: Key, y: Key)
    ensures KeyLe(x, y) || KeyLe(y, x)
  {
    StrLeTotal(x.gene, y.gene);
    StrLeTotal(x.guide, y.guide);
    StrLeTotal(x.barcode, y.barcode);
  }

  /** Transitivity of one level of the order: strings that differ are ordered by
      `StrLe`. */
  lemma {:induction false} StrLtTrans(a: string, b: string, c: string)
    requires a != b && StrLe(a, b) && b != c && StrLe(b, c)
    ensures a != c && StrLe(a, c)
  {
    StrLeTrans(a, b, c);
    if a == c {
      StrLeAntisym(a, b);
    }
  }

  lemma {:induction false} KeyLeTrans(x: Key, y: Key, z: Key)
    requires KeyLe(x, y) && KeyLe(y, z)
    ensures KeyLe(x, z)
  {
    if x.gene != y.gene && y.gene != z.gene {
      StrLtTrans(x.gene, y.gene, z.gene);
    } else if x.gene == y.gene && y.gene == z.gene {
      if x.guide != y.guide && y.guide != z.guide {
        StrLtTrans(x.guide, y.guide, z.guide);
      } else if x.guide == y.guide && y.guide == z.guide {
        StrLeTrans(x.barcode, y.barcode, z.barcode);
      }
    }
  }

  /** Two keys ordered both ways are the same key. */
  lemma {:induction false} KeyLeAntisym(x: Key, y: Key)
    requires KeyLe(x, y) && KeyLe(y, x)
    ensures x == y
  {
    if x.gene != y.gene {
      StrLeAntisym(x.gene, y.gene);
    } else if x.guide != y.guide {
      StrLeAntisym(x.guide, y.guide);
    } else {
      StrLeAntisym(x.barcode, y.barcode);
    }
  }

  ghost predicate KeysSorted(s: seq<Key>) {
    forall i, j :: 0 <= i < j < |s| ==> KeyLe(s[i], s[j])
  }

  /** A sorted sequence of keys without repeats is fixed by the keys it holds, so the
      order of the output rows is fully determined. */
  lemma {:induction false} SortedKeysUnique(s: seq<Key>, t: seq<Key>)
    requires KeysSorted(s) && Distinct(s) && KeysSorted(t) && Distinct(t)
    requires forall k :: k in s <==> k in t
    ensures s == t
    decreases |s|
  {
    assert s != [] ==> s[0] in t;
    assert t != [] ==> t[0] in s;
    if s != [] && t != [] {
      var i :| 0 <= i < |t| && t[i] == s[0];
      var j :| 0 <= j < |s| && s[j] == t[0];
      if i > 0 && j > 0 {
        assert KeyLe(t[0], t[i]) && KeyLe(s[0], s[j]);
        KeyLeAntisym(s[0], t[0]);
      }
      forall k ensures k in s[1..] <==> k in t[1..] {
        if k in s[1..] {
          var m :| 0 <= m < |s| - 1 && s[1..][m] == k;
          assert s[m + 1] == k && k in t && k != t[0];
          var q :| 0 <= q < |t| && t[q] == k;
          assert t[1..][q - 1] == k;
        }
        if k in t[1..] {
          var m :| 0 <= m < |t| - 1 && t[1..][m] == k;
          assert t[m + 1] == k && k in s && k != s[0];
          var q :| 0 <= q < |s| && s[q] == k;
          assert s[1..][q - 1] == k;
        }
      }
      SortedKeysUnique(s[1..], t[1..]);
      assert s == [s[0]] + s[1..] && t == [t[0]] + t[1..];
    }
  }

  /** `k` put into a sequence of keys before the first key it does not follow. */
  function InsertKey(k: Key, s: seq<Key>): (r: seq<Key>)
    ensures |r| == |s| + 1
    ensures forall x :: x in r <==> x == k || x in s
  {
    if s == [] then [k]
    else if KeyLe(k, s[0]) then [k] + s
    else [s[0]] + InsertKey(k, s[1..])
  }

  /** Inserting into a sorted sequence keeps it sorted. */
  lemma {:induction false} InsertKeySorted(k: Key, s: seq<Key>)
    requires KeysSorted(s)
    ensures KeysSorted(InsertKey(k, s))
    decreases |s|
  {
    if s != [] {
      if KeyLe(k, s[0]) {
        forall j | 0 < j < |s| ensures KeyLe(k, s[j]) {
          KeyLeTrans(k, s[0], s[j]);
        }
        assert forall j :: 0 < j < |s| + 1 ==> ([k] + s)[j] == s[j - 1];
      } else {
        var t := InsertKey(k, s[1..]);
        InsertKeySorted(k, s[1..]);
        KeyLeTotal(k, s[0]);
        forall j | 0 <= j < |t| ensures KeyLe(s[0], t[j]) {
          if t[j] != k {
            assert t[j] in s[1..];
            var m :| 0 <= m < |s[1..]| && s[1..][m] == t[j];
            assert s[m + 1] == t[j];
          }
        }
        assert forall j :: 0 < j < |t| + 1 ==> ([s[0]] + t)[j] == t[j - 1];
      }
    }
  }

  /** Inserting a new key into a sequence without repeats gives one without repeats. */
  lemma {:induction false} InsertKeyDistinct(k: Key, s: seq<Key>)
    requires k !in s && Distinct(s)
    ensures Distinct(InsertKey(k, s))
    decreases |s|
  {
    if s != [] && !KeyLe(k, s[0]) {
      var t := InsertKey(k, s[1..]);
      assert Distinct(s[1..]);
      InsertKeyDistinct(k, s[1..]);
      forall m | 0 <= m < |t| ensures t[m] != s[0] {
        if t[m] != k {
          assert t[m] in s[1..];
          var q :| 0 <= q < |s[1..]| && s[1..][q] == t[m];
          assert s[q + 1] == t[m];
        }
      }
      assert forall a :: 0 < a < |t| + 1 ==> ([s[0]] + t)[a] == t[a - 1];
    }
  }

  /** The keys of the outer join, in the order of the sort: sorted by gene and guide,
      each once. */
  method SortKeys(keys: set<Key>) returns (s: seq<Key>)
    ensures KeysSorted(s) && Distinct(s)
    ensures forall k :: k in s <==> k in keys
  {
    s := [];
    var rest := keys;
    while rest != {}
      invariant rest <= keys
      invariant KeysSorted(s) && Distinct(s)
      invariant forall k :: k in s <==> k in keys && k !in rest
      decreases |rest|
    {
      var k :| k in rest;
      InsertKeySorted(k, s);
      InsertKeyDistinct(k, s);
      s := InsertKey(k, s);
      rest := rest - {k};
    }
  }

  /** The loop over `zip(labels, files)`, given the group sums of each file: the sums
      put into `bestdict` under the file's label. */
  method CollectSamples(labels: seq<string>, sums: seq<map<Key, int>>) returns (bestdict: map<string, map<Key, int>>)
    ensures bestdict == Best(labels, sums, Paired(labels, |sums|))
  {
    var n := Paired(labels, |sums|);
    bestdict := map[];
    var j := 0;
    while j < n
      invariant 0 <= j <= n
      invariant bestdict == Best(labels, sums, j)
    {
      bestdict := bestdict[labels[j] := sums[j]];
      j := j + 1;
    }
  }

  /** `reduce(mapmerge, [bestdict[i] for i in labels])`, sorted, with `fillna(0)`: one
      row per key of any label's sums, sorted by gene and guide, and the label's sum of
      the key in each label's column, 0 where the label has none. */
  method JoinSamples(labels: seq<string>, bestdict: map<string, map<Key, int>>) returns (rows: seq<OutRow>)
    requires forall j :: 0 <= j < |labels| ==> labels[j] in bestdict
    ensures KeysSorted(Keys(rows)) && Distinct(Keys(rows))
    ensures forall k :: k in Keys(rows) <==> exists j :: 0 <= j < |labels| && k in bestdict[labels[j]]
    ensures forall i :: 0 <= i < |rows| ==> |rows[i].counts| == |labels|
    ensures forall i, j :: 0 <= i < |rows| && 0 <= j < |labels| ==> rows[i].counts[j] == Get(bestdict[labels[j]], rows[i].key)
  {
    var cols := seq(|labels|, j requires 0 <= j < |labels| => bestdict[labels[j]]);
    var all := set j, k | 0 <= j < |labels| && k in cols[j] :: k;
    forall k | exists j :: 0 <= j < |labels| && k in bestdict[labels[j]] ensures k in all {
      var j :| 0 <= j < |labels| && k in bestdict[labels[j]];
      assert k in cols[j];
    }
    var keys := SortKeys(all);
    rows := seq(|keys|, i requires 0 <= i < |keys| =>
      OutRow(keys[i], seq(|labels|, j requires 0 <= j < |labels| => Get(cols[j], keys[i]))));
    assert Keys(rows) == keys;
  }

  /** The script: the samples collected, then every label's sums joined. A label
      without a file of its own, when there are more labels than files, is a
      `KeyError`; no labels at all leave `reduce` an empty list, a `TypeError`. */
  method MakeInput(reference: seq<RefRow>, labels: seq<string>, inputs: seq<seq<ReadRow>>) returns (r: Result<seq<OutRow>>)
    ensures r.Err? <==>
      (|labels| == 0 || exists j :: 0 <= j < |labels| && forall i :: 0 <= i < Paired(labels, |inputs|) ==> labels[i] != labels[j])
    ensures r.Ok? ==> forall j :: 0 <= j < |labels| ==> labels[j] in Best(labels, SampleSums(reference, inputs), Paired(labels, |inputs|))
    ensures r.Ok? ==> KeysSorted(Keys(r.value)) && Distinct(Keys(r.value))
    ensures r.Ok? ==> forall k :: k in Keys(r.value) <==>
      exists j :: 0 <= j < |labels| && k in Best(labels, SampleSums(reference, inputs), Paired(labels, |inputs|))[labels[j]]
    ensures r.Ok? ==> forall i :: 0 <= i < |r.value| ==> |r.value[i].counts| == |labels|
    ensures r.Ok? ==> forall i, j :: 0 <= i < |r.value| && 0 <= j < |labels| ==>
      r.value[i].counts[j] == Get(Best(labels, SampleSums(reference, inputs), Paired(labels, |inputs|))[labels[j]], r.value[i].key)
  {
    var sums := SampleSums(reference, inputs);
    var bestdict := CollectSamples(labels, sums);
    var n := Paired(labels, |inputs|);
    assert bestdict == Best(labels, SampleSums(reference, inputs), n);
    if exists j :: 0 <= j < |labels| && labels[j] !in bestdict {
      var j :| 0 <= j < |labels| && labels[j] !in bestdict;
      assert forall i :: 0 <= i < n ==> labels[i] != labels[j];
      return Err("KeyError: label without an input file");
    }
    if |labels| == 0 {
      return Err("TypeError: reduce() of empty iterable with no initial value");
    }
    forall j | 0 <= j < |labels|
      ensures exists i :: 0 <= i < n && labels[i] == labels[j]
    {
      assert labels[j] in bestdict;
    }
    var rows := JoinSamples(labels, bestdict);
    r := Ok(rows);
  }

  /** The keys of the output rows, in order. */
  function Keys(rows: seq<OutRow>): (r: seq<Key>)
    ensures |r| == |rows| && forall i :: 0 <= i < |rows| ==> r[i] == rows[i].key
  {
    seq(|rows|, i requires 0 <= i < |rows| => rows[i].key)
  }

  /** With labels that are all distinct and a file for each, the table has no `KeyError`,
      and a label's count of a key is the key's total in that label's own file: 0 where
      the file has no read of it. */
  lemma {:induction false} OwnFileCounts(reference: seq<RefRow>, labels: seq<string>, inputs: seq<seq<ReadRow>>, j: nat, k: Key)
    requires Distinct(labels) && |labels| <= |inputs| && j < |labels| && k.gene != ""
    ensures Paired(labels, |inputs|) == |labels|
    ensures var best := Best(labels, SampleSums(reference, inputs), |labels|);
      labels[j] in best && Get(best[labels[j]], k) == Total(reference, inputs[j], k)
  {
    BestLabels(labels, SampleSums(reference, inputs), |labels|, j);
    GroupSumTotal(reference, inputs[j], k);
  }
}
