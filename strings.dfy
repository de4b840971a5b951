/** Python's `str.split(c)` on a one-character separator and `sep.join(parts)`, with
    the round trips between them that the string helpers of the pipeline rely on. */
module Strings {

  /** `s.split(c)`: the maximal runs between occurrences of `c`; never empty. */
  function Split(s: string, c: char): (r: seq<string>)
    ensures |r| >= 1
    ensures forall i :: 0 <= i < |r| ==> c !in r[i]
  {
    if s == [] then [""]
    else
      var rest := Split(s[1..], c);
      if s[0] == c then [""] + rest else [[s[0]] + rest[0]] + rest[1..]
  }

  /** `sep.join(parts)`. */
  function Join(parts: seq<string>, sep: string): string {
    if |parts| == 0 then ""
    else if |parts| == 1 then parts[0]
    else parts[0] + sep + Join(parts[1..], sep)
  }

  /** `s.split(c)[0]`: the text before the first `c`. */
  function FirstSegment(s: string, c: char): string {
    Split(s, c)[0]
  }

  /** `s.split(c)[-1]`: the text after the last `c`. */
  function LastSegment(s: string, c: char): string {
    var parts := Split(s, c);
    parts[|parts| - 1]
  }

  /** Every occurrence of `c` in `s` replaced by `rep`. */
  function ReplaceChar(s: string, c: char, rep: string): string {
    if s == [] then ""
    else (if s[0] == c then rep else [s[0]]) + ReplaceChar(s[1..], c, rep)
  }

  function CountChar(s: string, c: char): nat {
    if s == [] then 0 else (if s[0] == c then 1 else 0) + CountChar(s[1..], c)
  }

  /** A run of `n` copies of `c`. */
  function Repeat(c: char, n: nat): (r: string)
    ensures |r| == n && forall i :: 0 <= i < n ==> r[i] == c
  {
    if n == 0 then "" else [c] + Repeat(c, n - 1)
  }

  lemma {:induction false} JoinSplit(s: string, c: char)
    ensures Join(Split(s, c), [c]) == s
  {
    if s != [] {
      JoinSplit(s[1..], c);
      var rest := Split(s[1..], c);
      if s[0] == c {
        assert Split(s, c) == [""] + rest;
      } else {
        var r := Split(s, c);
        assert r == [[s[0]] + rest[0]] + rest[1..];
        if |rest| == 1 {
          assert Join(r, [c]) == [s[0]] + rest[0];
        } else {
          assert r[1..] == rest[1..];
          assert Join(r, [c]) == [s[0]] + rest[0] + [c] + Join(rest[1..], [c]);
        }
        assert Join(rest, [c]) == s[1..];
      }
    }
  }

  /** Splitting text that has no separator gives the text back. */
  lemma {:induction false} SplitNoSeparator(p: string, c: char)
    requires c !in p
    ensures Split(p, c) == [p]
  {
    if p != [] {
      SplitNoSeparator(p[1..], c);
      assert p[0] != c && p == [p[0]] + p[1..];
    }
  }

  /** Splitting stops at the first separator. */
  lemma {:induction false} SplitAtFirst(p: string, c: char, t: string)
    requires c !in p
    ensures Split(p + [c] + t, c) == [p] + Split(t, c)
  {
    if p == [] {
      assert p + [c] + t == [c] + t;
      assert ([c] + t)[1..] == t;
    } else {
      assert (p + [c] + t)[1..] == p[1..] + [c] + t;
      SplitAtFirst(p[1..], c, t);
      assert p == [p[0]] + p[1..];
    }
  }

  /** Joining parts that hold no separator, then splitting, gives the parts back. */
  lemma {:induction false} SplitJoin(parts: seq<string>, c: char)
    requires |parts| >= 1 && forall i :: 0 <= i < |parts| ==> c !in parts[i]
    ensures Split(Join(parts, [c]), c) == parts
  {
    if |parts| == 1 {
      SplitNoSeparator(parts[0], c);
    } else {
      SplitJoin(parts[1..], c);
      SplitAtFirst(parts[0], c, Join(parts[1..], [c]));
      assert parts == [parts[0]] + parts[1..];
    }
  }

  /** Joining with a one-character separator is replacing the separator. */
  lemma {:induction false} JoinSplitIsReplace(s: string, c: char, rep: string)
    ensures Join(Split(s, c), rep) == ReplaceChar(s, c, rep)
  {
    if s != [] {
      JoinSplitIsReplace(s[1..], c, rep);
      var rest := Split(s[1..], c);
      if s[0] == c {
        assert Split(s, c) == [""] + rest;
      } else {
        var r := Split(s, c);
        assert r == [[s[0]] + rest[0]] + rest[1..];
        if |rest| == 1 {
          assert Join(r, rep) == [s[0]] + rest[0];
        } else {
          assert r[1..] == rest[1..];
          assert Join(r, rep) == [s[0]] + rest[0] + rep + Join(rest[1..], rep);
        }
      }
    }
  }

  lemma {:induction false} CountCharConcat(a: string, b: string, c: char)
    ensures CountChar(a + b, c) == CountChar(a, c) + CountChar(b, c)
  {
    if a == [] {
      assert a + b == b;
    } else {
      assert (a + b)[1..] == a[1..] + b;
      CountCharConcat(a[1..], b, c);
    }
  }

  lemma {:induction false} CountCharAbsent(s: string, c: char)
    requires c !in s
    ensures CountChar(s, c) == 0
  {
    if s != [] {
      CountCharAbsent(s[1..], c);
    }
  }

  /** Replacing `c` by a text that starts with `c` and holds no other `c` keeps the
      number of occurrences of `c`. */
  lemma {:induction false} ReplaceKeepsCount(s: string, c: char, rep: string)
    requires |rep| >= 1 && rep[0] == c && c !in rep[1..]
    ensures CountChar(ReplaceChar(s, c, rep), c) == CountChar(s, c)
  {
    if s != [] {
      ReplaceKeepsCount(s[1..], c, rep);
      var head := if s[0] == c then rep else [s[0]];
      CountCharConcat(head, ReplaceChar(s[1..], c, rep), c);
      if s[0] == c {
        assert rep == [c] + rep[1..];
        CountCharAbsent(rep[1..], c);
        CountCharConcat([c], rep[1..], c);
      }
    }
  }

  lemma {:induction false} ReplaceAbsent(s: string, c: char, rep: string)
    requires c !in s
    ensures ReplaceChar(s, c, rep) == s
  {
    if s != [] {
      ReplaceAbsent(s[1..], c, rep);
      assert s == [s[0]] + s[1..];
    }
  }

  /** The last segment holds no separator, and `s` ends with it, right after a
      separator unless it is all of `s`. */
  lemma {:induction false} LastSegmentIsSuffix(s: string, c: char)
    ensures c !in LastSegment(s, c)
    ensures |LastSegment(s, c)| <= |s|
    ensures s[|s| - |LastSegment(s, c)|..] == LastSegment(s, c)
    ensures |LastSegment(s, c)| < |s| ==> s[|s| - |LastSegment(s, c)| - 1] == c
  {
    if s != [] {
      LastSegmentIsSuffix(s[1..], c);
      var rest := Split(s[1..], c);
      if s[0] == c {
        assert Split(s, c) == [""] + rest;
      } else if |rest| > 1 {
        assert Split(s, c)[|Split(s, c)| - 1] == rest[|rest| - 1];
        assert LastSegment(s, c) == LastSegment(s[1..], c);
        if |LastSegment(s, c)| == |s| - 1 {
          var last := LastSegment(s[1..], c);
          assert c !in last;
          assert last == s[1..];
          SplitNoSeparator(last, c);
        }
      } else {
        assert Split(s, c) == [[s[0]] + rest[0]];
        JoinSplit(s[1..], c);
        assert rest[0] == s[1..];
        assert s == [s[0]] + s[1..];
      }
    }
  }

  /** Conversely, a separator-free suffix that follows a separator (or is all of `s`)
      is the last segment. */
  lemma {:induction false} SuffixIsLastSegment(s: string, c: char, t: string)
    requires c !in t && |t| <= |s| && s[|s| - |t|..] == t
    requires |t| < |s| ==> s[|s| - |t| - 1] == c
    ensures LastSegment(s, c) == t
  {
    if |t| == |s| {
      assert s == t;
      SplitNoSeparator(s, c);
    } else {
      var p := s[..|s| - |t| - 1];
      assert s == p + [c] + t;
      if c in p {
        SuffixIsLastSegment(s[1..], c, t);
        var rest := Split(s[1..], c);
        assert s[1..][|p| - 1] == c;
        SplitAtSeparator(s[1..], c);
        if s[0] == c {
          assert Split(s, c) == [""] + rest;
        } else {
          assert Split(s, c) == [[s[0]] + rest[0]] + rest[1..];
        }
      } else {
        SplitAtFirst(p, c, t);
        SplitNoSeparator(t, c);
      }
    }
  }

  lemma {:induction false} SplitAtSeparator(x: string, c: char)
    requires c in x
    ensures |Split(x, c)| > 1
  {
    JoinSplit(x, c);
  }

  lemma {:induction false} FirstSegmentOfJoin(a: string, c: char, b: string)
    requires c !in a
    ensures FirstSegment(a + [c] + b, c) == a
  {
    SplitAtFirst(a, c, b);
  }
}
