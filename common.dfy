/** Shared vocabulary of the model: failure-carrying results, the opaque numeric
    functions the pipeline takes from numpy and scipy, sums and counts over columns,
    and a sort by a real-valued key. */
module Common {

  datatype Option<T> = None | Some(value: T)

  /** A computation that either yields a value or raises `ValueError` (or `KeyError`)
      with a message. */
  datatype Result<T> = Ok(value: T) | Err(msg: string)

  /** The transcendental and statistical functions the pipeline calls (`np.log`,
      `np.exp`, `np.log2`, `np.sqrt`, `x ** k`, `2 ** b`, `norm.cdf`, `norm.sf`).
      They are not modelled: a caller passes them in, and only the facts collected in
      `Sane` are taken as given about them. */
  datatype Math = Math(
    ln: real -> real,
    exp: real -> real,
    log2: real -> real,
    sqrt: real -> real,
    pow: (real, real) -> real,
    exp2: real -> real,
    cdf: real -> real,
    sf: real -> real)

  /** The minimal facts about the opaque functions that the proofs use: positivity,
      the sign of `exp`/`ln` away from 0 and 1, and the complement law of the normal
      distribution's CDF and survival function. */
  ghost predicate Sane(m: Math) {
    && (forall x :: m.exp(x) > 0.0)
    && (forall x :: x > 0.0 ==> m.exp(x) > 1.0)
    && (forall x :: x > 1.0 ==> m.ln(x) > 0.0)
    && (forall x :: x > 0.0 ==> m.sqrt(x) > 0.0)
    && (forall x, k :: x >= 0.0 ==> m.pow(x, k) >= 0.0)
    && (forall b :: m.exp2(b) > 0.0)
    && (forall z :: 0.0 <= m.cdf(z) <= 1.0)
    && (forall z :: m.cdf(z) + m.sf(z) == 1.0)
  }

  /** One numeric column of a table, top row first. */
  type Column = seq<real>

  /** The id columns of one row of a count table. */
  datatype Info = Info(gene: string, guide: string, gid: string, barcode: string, bid: string)

  /** A count table as `readdata` returns it: the id columns of every row and one
      count column per sample label. */
  datatype Table = Table(info: seq<Info>, counts: map<string, Column>)

  /** Every count column has one entry per row. */
  ghost predicate WellFormed(t: Table) {
    forall l :: l in t.counts ==> |t.counts[l]| == |t.info|
  }

  predicate HasLabels(t: Table, labels: seq<string>) {
    forall j :: 0 <= j < |labels| ==> labels[j] in t.counts
  }

  ghost predicate Distinct<T>(s: seq<T>) {
    forall i, j :: 0 <= i < j < |s| ==> s[i] != s[j]
  }

  /** `t[labels]`: the count columns of the labels, in label order. */
  function Select(t: Table, labels: seq<string>): (r: seq<Column>)
    requires HasLabels(t, labels)
    ensures |r| == |labels| && forall j :: 0 <= j < |labels| ==> r[j] == t.counts[labels[j]]
  {
    seq(|labels|, j requires 0 <= j < |labels| => t.counts[labels[j]])
  }

  /** Columns given back their labels, as `df.columns = labels` does. */
  function Relabel(labels: seq<string>, cols: seq<Column>): (r: map<string, Column>)
    requires |labels| == |cols| && Distinct(labels)
    ensures forall j :: 0 <= j < |labels| ==> labels[j] in r && r[labels[j]] == cols[j]
    ensures forall l :: l in r ==> l in labels
  {
    map j | 0 <= j < |labels| :: labels[j] := cols[j]
  }

  function Genes(info: seq<Info>): (r: seq<string>)
    ensures |r| == |info| && forall i :: 0 <= i < |info| ==> r[i] == info[i].gene
  {
    seq(|info|, i requires 0 <= i < |info| => info[i].gene)
  }

  function Guides(info: seq<Info>): (r: seq<string>)
    ensures |r| == |info| && forall i :: 0 <= i < |info| ==> r[i] == info[i].guide
  {
    seq(|info|, i requires 0 <= i < |info| => info[i].guide)
  }

  function Gids(info: seq<Info>): (r: seq<string>)
    ensures |r| == |info| && forall i :: 0 <= i < |info| ==> r[i] == info[i].gid
  {
    seq(|info|, i requires 0 <= i < |info| => info[i].gid)
  }

  function Bids(info: seq<Info>): (r: seq<string>)
    ensures |r| == |info| && forall i :: 0 <= i < |info| ==> r[i] == info[i].bid
  {
    seq(|info|, i requires 0 <= i < |info| => info[i].bid)
  }

  function Sum(s: seq<real>): real {
    if s == [] then 0.0 else s[0] + Sum(s[1..])
  }

  /** The number of elements satisfying `p`: pandas' `(cond).sum()`. */
  function Count<T>(s: seq<T>, p: T -> bool): (c: nat)
    ensures c <= |s|
  {
    if s == [] then 0 else (if p(s[0]) then 1 else 0) + Count(s[1..], p)
  }

  /** The sequences of `ss`, one after another. */
  function Flatten<T>(ss: seq<seq<T>>): seq<T> {
    if ss == [] then [] else ss[0] + Flatten(ss[1..])
  }

  function Min(x: real, y: real): real {
    if x <= y then x else y
  }

  function Max(x: real, y: real): real {
    if x >= y then x else y
  }

  lemma {:induction false} SumConcat(a: seq<real>, b: seq<real>)
    ensures Sum(a + b) == Sum(a) + Sum(b)
  {
    if a == [] {
      assert a + b == b;
    } else {
      assert (a + b)[0] == a[0] && (a + b)[1..] == a[1..] + b;
      SumConcat(a[1..], b);
    }
  }

  lemma {:induction false} SumPositive(s: seq<real>)
    requires |s| > 0 && forall i :: 0 <= i < |s| ==> s[i] > 0.0
    ensures Sum(s) > 0.0
  {
    if |s| > 1 {
      SumPositive(s[1..]);
    }
  }

  lemma {:induction false} SumNonNegative(s: seq<real>)
    requires forall i :: 0 <= i < |s| ==> s[i] >= 0.0
    ensures Sum(s) >= 0.0
  {
    if s != [] {
      SumNonNegative(s[1..]);
    }
  }

  lemma {:induction false} CountConcat<T>(a: seq<T>, b: seq<T>, p: T -> bool)
    ensures Count(a + b, p) == Count(a, p) + Count(b, p)
  {
    if a == [] {
      assert a + b == b;
    } else {
      assert (a + b)[0] == a[0] && (a + b)[1..] == a[1..] + b;
      CountConcat(a[1..], b, p);
    }
  }

  /** Counting a predicate only depends on where it holds. */
  lemma {:induction false} CountPointwise<T, U>(a: seq<T>, p: T -> bool, b: seq<U>, q: U -> bool)
    requires |a| == |b| && forall i :: 0 <= i < |a| ==> p(a[i]) == q(b[i])
    ensures Count(a, p) == Count(b, q)
  {
    if a != [] {
      CountPointwise(a[1..], p, b[1..], q);
    }
  }

  /** A weaker predicate counts at least as many elements. */
  lemma {:induction false} CountImplies<T>(s: seq<T>, p: T -> bool, q: T -> bool)
    requires forall i :: 0 <= i < |s| && p(s[i]) ==> q(s[i])
    ensures Count(s, p) <= Count(s, q)
  {
    if s != [] {
      CountImplies(s[1..], p, q);
    }
  }

  lemma {:induction false} CountAll<T>(s: seq<T>, p: T -> bool)
    requires forall i :: 0 <= i < |s| ==> p(s[i])
    ensures Count(s, p) == |s|
  {
    if s != [] {
      CountAll(s[1..], p);
    }
  }

  /** A count over a sequence is the count over its multiset of the elements that
      satisfy the predicate; here for an equality predicate. */
  lemma {:induction false} CountIsMultiplicity<T>(s: seq<T>, x: T, p: T -> bool)
    requires forall y :: p(y) <==> y == x
    ensures Count(s, p) == multiset(s)[x]
  {
    if s != [] {
      CountIsMultiplicity(s[1..], x, p);
      assert s == [s[0]] + s[1..];
      assert multiset(s) == multiset{s[0]} + multiset(s[1..]);
    }
  }

  ghost predicate SortedBy<T>(s: seq<T>, key: T -> real) {
    forall i, j :: 0 <= i < j < |s| ==> key(s[i]) <= key(s[j])
  }

  function InsertBy<T(==)>(x: T, s: seq<T>, key: T -> real): (r: seq<T>)
    requires SortedBy(s, key)
    ensures |r| == |s| + 1
    ensures SortedBy(r, key)
    ensures multiset(r) == multiset{x} + multiset(s)
  {
    if s == [] then [x]
    else if key(x) <= key(s[0]) then [x] + s
    else
      var t := InsertBy(x, s[1..], key);
      assert s == [s[0]] + s[1..];
      LowerBound(s[0], x, s[1..], t, key);
      [s[0]] + t
  }

  /** A lower bound of `x` and of every element of `s` bounds every element of a
      sequence holding `x` and the elements of `s`. */
  lemma {:induction false} LowerBound<T>(h: T, x: T, s: seq<T>, t: seq<T>, key: T -> real)
    requires key(h) <= key(x) && (forall i :: 0 <= i < |s| ==> key(h) <= key(s[i]))
    requires multiset(t) == multiset{x} + multiset(s)
    ensures forall i :: 0 <= i < |t| ==> key(h) <= key(t[i])
  {
    forall i | 0 <= i < |t| ensures key(h) <= key(t[i]) {
      assert t[i] in multiset(t);
      if t[i] != x {
        assert t[i] in multiset(s);
        var j :| 0 <= j < |s| && s[j] == t[i];
      }
    }
  }

  /** Sorts ascending by `key`: the model of pandas' `sort_values`, whose order
      among equal keys is not fixed (this one keeps the input order). */
  function SortBy<T(==)>(s: seq<T>, key: T -> real): (r: seq<T>)
    ensures SortedBy(r, key)
    ensures multiset(r) == multiset(s)
    ensures |r| == |s|
  {
    if s == [] then []
    else
      assert s == [s[0]] + s[1..];
      InsertBy(s[0], SortBy(s[1..], key), key)
  }

  function Ident(x: real): real {
    x
  }
}
