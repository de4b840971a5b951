/** Model of ibar/decorator.py: the builders of the numpy-style help texts (indented
    blocks, `>>> ` code lines, underlined headers, `key : text` descriptions, the
    assembled help string) and the decorator that appends a help text to a function's
    docstring. */
module Decorator {
  import opened Common
  import opened Strings

  // ------------------------------------------------------------------
  // Line helpers
  // ------------------------------------------------------------------

  /** Every part with `p` in front. */
  function Prefixed(parts: seq<string>, p: string): (r: seq<string>)
    ensures |r| == |parts| && forall i :: 0 <= i < |parts| ==> r[i] == p + parts[i]
  {
    seq(|parts|, i requires 0 <= i < |parts| => p + parts[i])
  }

  /** A prefix in front of a newline-joined text lands on its first line. */
  lemma {:induction false} PrefixFirstLine(p: string, x: string, rest: seq<string>, c: char)
    ensures p + Join([x] + rest, [c]) == Join([p + x] + rest, [c])
  {
    assert ([x] + rest)[1..] == rest;
    assert ([p + x] + rest)[1..] == rest;
    if |rest| > 0 {
      assert p + (x + [c] + Join(rest, [c])) == (p + x) + [c] + Join(rest, [c]);
    }
  }

  /** Joining by a newline followed by `p` is joining by a newline after putting `p`
      in front of every part but the first. */
  lemma {:induction false} JoinWithPrefix(parts: seq<string>, c: char, p: string)
    requires |parts| >= 1
    ensures Join(parts, [c] + p) == Join([parts[0]] + Prefixed(parts[1..], p), [c])
    decreases |parts|
  {
    if |parts| == 1 {
      assert [parts[0]] + Prefixed(parts[1..], p) == [parts[0]];
    } else {
      var tail := parts[1..];
      JoinWithPrefix(tail, c, p);
      assert tail[1..] == parts[2..];
      PrefixFirstLine(p, tail[0], Prefixed(tail[1..], p), c);
      assert Prefixed(tail, p) == [p + tail[0]] + Prefixed(tail[1..], p);
      var whole := [parts[0]] + Prefixed(tail, p);
      assert whole[1..] == Prefixed(tail, p);
      calc {
        Join(parts, [c] + p);
        parts[0] + ([c] + p) + Join(tail, [c] + p);
        parts[0] + [c] + (p + Join([tail[0]] + Prefixed(tail[1..], p), [c]));
        parts[0] + [c] + Join(Prefixed(tail, p), [c]);
        Join(whole, [c]);
      }
    }
  }

  /** A run of the character `c` holds no newline. */
  lemma {:induction false} RepeatNoNewline(c: char, n: nat)
    requires c != '\n'
    ensures '\n' !in Repeat(c, n)
  {
  }

  // ------------------------------------------------------------------
  // textindent, textcode, textheader
  // ------------------------------------------------------------------

  /** The text placed after every newline by `textindent`: four spaces per indent, and
      none for a count of 0 or less. */
  function Indentation(indents: int): (r: string)
    ensures '\n' !in r
  {
    Repeat(' ', 4 * (if indents > 0 then indents else 0))
  }

  /** `textindent`: `text` is `None` when it is not a string. A non-string text gives
      "", a string has each newline followed by the indentation. */
  function TextIndent(text: Option<string>, indents: int): (r: string)
    ensures text.None? ==> r == ""
    ensures text.Some? ==> r == ReplaceChar(text.value, '\n', ['\n'] + Indentation(indents))
  {
    if text.None? || text.value == "" then ""
    else
      JoinSplitIsReplace(text.value, '\n', ['\n'] + Indentation(indents));
      Join(Split(text.value, '\n'), ['\n'] + Indentation(indents))
  }

  /** `textindent` keeps the number of lines, leaves a one-line text unchanged, and
      gives back the lines of the text each after the first preceded by the
      indentation. */
  lemma {:induction false} TextIndentLines(s: string, indents: int)
    requires s != ""
    ensures CountChar(TextIndent(Some(s), indents), '\n') == CountChar(s, '\n')
    ensures '\n' !in s ==> TextIndent(Some(s), indents) == s
    ensures var lines := Split(s, '\n');
      Split(TextIndent(Some(s), indents), '\n') == [lines[0]] + Prefixed(lines[1..], Indentation(indents))
  {
    var lines := Split(s, '\n');
    var sep := ['\n'] + Indentation(indents);
    JoinSplitIsReplace(s, '\n', sep);
    assert sep[1..] == Indentation(indents);
    ReplaceKeepsCount(s, '\n', sep);
    if '\n' !in s {
      SplitNoSeparator(s, '\n');
    }
    JoinWithPrefix(lines, '\n', Indentation(indents));
    var parts := [lines[0]] + Prefixed(lines[1..], Indentation(indents));
    forall i | 0 <= i < |parts| ensures '\n' !in parts[i] {
      if i > 0 {
        assert parts[i] == Indentation(indents) + lines[i];
      }
    }
    SplitJoin(parts, '\n');
  }

  /** The prompt `textcode` puts in front of each line of code. */
  const Prompt: string := ">>> "

  /** `textcode`: the code lines joined by a newline and a prompt, after a first
      prompt. For lines without newlines, that is the lines joined by newlines with
      the prompt in front of each. */
  function TextCode(codelist: seq<string>): (r: string)
    ensures (forall i :: 0 <= i < |codelist| ==> '\n' !in codelist[i]) ==>
      r == Prompt + ReplaceChar(Join(codelist, "\n"), '\n', "\n" + Prompt)
  {
    if codelist != [] && forall i :: 0 <= i < |codelist| ==> '\n' !in codelist[i] then
      SplitJoin(codelist, '\n');
      JoinSplitIsReplace(Join(codelist, "\n"), '\n', "\n" + Prompt);
      Prompt + Join(codelist, "\n" + Prompt)
    else
      Prompt + Join(codelist, "\n" + Prompt)
  }

  /** No code gives a bare prompt; otherwise every code line becomes one prompted line
      of the text. */
  lemma {:induction false} TextCodeLines(codelist: seq<string>)
    requires forall i :: 0 <= i < |codelist| ==> '\n' !in codelist[i]
    ensures codelist == [] ==> TextCode(codelist) == Prompt
    ensures codelist != [] ==> Split(TextCode(codelist), '\n') == Prefixed(codelist, Prompt)
  {
    if codelist != [] {
      assert "\n" + Prompt == ['\n'] + Prompt;
      JoinWithPrefix(codelist, '\n', Prompt);
      var rest := Prefixed(codelist[1..], Prompt);
      PrefixFirstLine(Prompt, codelist[0], rest, '\n');
      assert [Prompt + codelist[0]] + rest == Prefixed(codelist, Prompt);
      assert forall i :: 0 <= i < |codelist| ==> Prefixed(codelist, Prompt)[i] == Prompt + codelist[i];
      SplitJoin(Prefixed(codelist, Prompt), '\n');
    }
  }

  /** `textheader`: the header over a line of dashes as long as it. */
  function TextHeader(header: string): (r: string)
    ensures r == header + "\n" + Repeat('-', |header|)
  {
    var parts := [header, Repeat('-', |header|)];
    assert parts[1..] == [Repeat('-', |header|)];
    assert Join(parts[1..], "\n") == Repeat('-', |header|);
    Join(parts, "\n")
  }

  /** A one-line header gives exactly two lines: the header and as many dashes as it
      has characters. */
  lemma {:induction false} TextHeaderLines(header: string)
    requires '\n' !in header
    ensures var lines := Split(TextHeader(header), '\n');
      && |lines| == 2 && lines[0] == header && |lines[1]| == |header|
      && forall i :: 0 <= i < |header| ==> lines[1][i] == '-'
  {
    var parts := [header, Repeat('-', |header|)];
    assert parts[1..] == [parts[1]];
    RepeatNoNewline('-', |header|);
    SplitJoin(parts, '\n');
  }

  // ------------------------------------------------------------------
  // textdescription
  // ------------------------------------------------------------------

  /** A value of the description dictionary: a list of lines, a string, or anything
      else. */
  datatype Describe = Lines(lines: seq<string>) | Text(text: string) | Other

  /** The `describetext` one value gives: a list joined by newlines and indented, a
      string as it is, and for anything else the one left by the previous value
      (`None` before any). */
  function DescribeText(d: Describe, prev: Option<string>): (r: Option<string>)
    ensures !d.Other? ==> r.Some?
  {
    match d
    case Lines(lines) => Some(TextIndent(Some(Join(lines, "\n")), 1))
    case Text(s) => Some(s)
    case Other => prev
  }

  /** The `describetext` in force after the first items of the dictionary. */
  function Carry(items: seq<(string, Describe)>): Option<string> {
    if items == [] then None
    else DescribeText(items[|items| - 1].1, Carry(items[..|items| - 1]))
  }

  /** The `key : text` entries of the dictionary's items, in order, or the unbound-name
      error of a first value that is neither a list nor a string. */
  function Entries(items: seq<(string, Describe)>): (r: Result<seq<string>>)
    ensures r.Ok? ==> |r.value| == |items|
  {
    if items == [] then Ok([])
    else
      match Entries(items[..|items| - 1])
      case Err(msg) => Err(msg)
      case Ok(es) =>
        var t := Carry(items);
        if t.None? then Err("UnboundLocalError: describetext")
        else Ok(es + [Join([items[|items| - 1].0, t.value], " : ")])
  }

  /** What `textdescription` returns: the entries joined by newlines. It fails exactly
      when the first value is neither a list nor a string. */
  function Description(items: seq<(string, Describe)>): (r: Result<string>)
    ensures r.Err? <==> |items| > 0 && items[0].1.Other?
  {
    EntriesErr(items);
    match Entries(items)
    case Err(msg) => Err(msg)
    case Ok(es) => Ok(Join(es, "\n"))
  }

  /** The `describetext` is unbound exactly until the first list or string. */
  lemma {:induction false} CarryNone(items: seq<(string, Describe)>)
    ensures Carry(items).None? <==> forall i :: 0 <= i < |items| ==> items[i].1.Other?
    decreases |items|
  {
    if items != [] {
      var init := items[..|items| - 1];
      CarryNone(init);
      assert forall i :: 0 <= i < |init| ==> init[i] == items[i];
    }
  }

  /** The entries fail exactly when the first value is neither a list nor a string. */
  lemma {:induction false} EntriesErr(items: seq<(string, Describe)>)
    ensures Entries(items).Err? <==> |items| > 0 && items[0].1.Other?
    decreases |items|
  {
    if items != [] {
      var init := items[..|items| - 1];
      EntriesErr(init);
      CarryNone(items);
      if init != [] {
        assert init[0] == items[0];
      }
    }
  }

  /** Entry `i` is key `i`, " : " and the text its value leaves: a string as it is, a
      list joined and indented, and for any other value the text of the value before
      it. */
  lemma {:induction false} EntriesText(items: seq<(string, Describe)>, i: nat)
    requires Entries(items).Ok? && i < |items|
    ensures Carry(items[..i + 1]).Some?
    ensures Entries(items).value[i] == items[i].0 + " : " + Carry(items[..i + 1]).value
    ensures items[i].1.Text? ==> Carry(items[..i + 1]).value == items[i].1.text
    ensures items[i].1.Lines? ==> Carry(items[..i + 1]).value == TextIndent(Some(Join(items[i].1.lines, "\n")), 1)
    ensures items[i].1.Other? ==> i > 0 && Carry(items[..i + 1]) == Carry(items[..i])
    decreases |items|
  {
    var init := items[..|items| - 1];
    assert items[..|items|] == items;
    assert items[..i + 1][..i] == items[..i];
    assert items[..i + 1][i] == items[i];
    if i < |items| - 1 {
      assert init[..i + 1] == items[..i + 1];
      assert init[i] == items[i];
      EntriesText(init, i);
    } else {
      assert Join([items[i].0, Carry(items).value], " : ") == items[i].0 + " : " + Carry(items).value by {
        assert [items[i].0, Carry(items).value][1..] == [Carry(items).value];
      }
      if items[i].1.Other? && i == 0 {
        EntriesErr(items);
      }
    }
  }

  /** `textdescription`: one entry per item of the dictionary, in order, appended to a
      list that is then joined by newlines. */
  method TextDescription(items: seq<(string, Describe)>) returns (r: Result<string>)
    ensures r == Description(items)
  {
    var text: seq<string> := [];
    var describetext: Option<string> := None;
    var k := 0;
    while k < |items|
      invariant 0 <= k <= |items|
      invariant Entries(items[..k]) == Ok(text)
      invariant describetext == Carry(items[..k])
    {
      var (key, describe) := items[k];
      assert items[..k + 1][..k] == items[..k];
      assert items[..k + 1][k] == items[k];
      describetext := DescribeText(describe, describetext);
      if describetext.None? {
        EntriesErrExtends(items, k + 1);
        return Err("UnboundLocalError: describetext");
      }
      text := text + [Join([key, describetext.value], " : ")];
      k := k + 1;
    }
    assert items[..k] == items;
    r := Ok(Join(text, "\n"));
  }

  /** A failure in the first items is a failure of the whole dictionary. */
  lemma {:induction false} EntriesErrExtends(items: seq<(string, Describe)>, n: nat)
    requires n <= |items| && Entries(items[..n]).Err?
    ensures Entries(items) == Entries(items[..n])
    decreases |items| - n
  {
    if n < |items| {
      var init := items[..|items| - 1];
      assert init[..n] == items[..n];
      EntriesErrExtends(init, n);
    } else {
      assert items[..n] == items;
    }
  }

  // ------------------------------------------------------------------
  // helpstring
  // ------------------------------------------------------------------

  /** A section: its header, a newline, then its body. */
  function Section(header: string, body: string): string {
    Join([TextHeader(header), body], "\n")
  }

  /** The sections `helpstring` collects in `ds`: the description, then the
      Parameters, Returns and Examples sections of the arguments that are given, in
      that order. */
  function Sections(describe: string, parameterdicts: Option<seq<(string, Describe)>>, returnsText: Option<string>,
                    examplecodelists: Option<seq<string>>): (r: Result<seq<string>>)
    ensures r.Err? <==> parameterdicts.Some? && Description(parameterdicts.value).Err?
    ensures r.Ok? ==>
      var p, q := Given(parameterdicts), Given(returnsText);
      && |r.value| == 1 + p + q + Given(examplecodelists)
      && r.value[0] == describe
      && (parameterdicts.Some? ==> r.value[1] == Section("Parameters", Description(parameterdicts.value).value))
      && (returnsText.Some? ==> r.value[1 + p] == Section("Returns", returnsText.value))
      && (examplecodelists.Some? ==> r.value[1 + p + q] == Section("Examples", TextCode(examplecodelists.value)))
  {
    var params :=
      if parameterdicts.None? then Ok([])
      else match Description(parameterdicts.value)
        case Err(msg) => Err(msg)
        case Ok(d) => Ok([Section("Parameters", d)]);
    match params
    case Err(msg) => Err(msg)
    case Ok(ps) =>
      Ok([describe] + ps
         + (if returnsText.None? then [] else [Section("Returns", returnsText.value)])
         + (if examplecodelists.None? then [] else [Section("Examples", TextCode(examplecodelists.value))]))
  }

  /** `helpstring`: the sections joined by `sep`. It fails only on a parameter
      dictionary that fails, and otherwise begins with the description. */
  function HelpString(describe: string, parameterdicts: Option<seq<(string, Describe)>>, returnsText: Option<string>,
                      examplecodelists: Option<seq<string>>, sep: string): (r: Result<string>)
    ensures r.Err? <==> parameterdicts.Some? && Description(parameterdicts.value).Err?
    ensures r.Ok? ==> |describe| <= |r.value| && r.value[..|describe|] == describe
  {
    match Sections(describe, parameterdicts, returnsText, examplecodelists)
    case Err(msg) => Err(msg)
    case Ok(ds) =>
      JoinStartsWithFirst(ds, sep);
      Ok(Join(ds, sep))
  }

  function Given<T>(o: Option<T>): nat {
    if o.Some? then 1 else 0
  }

  /** A joined text begins with its first part. */
  lemma {:induction false} JoinStartsWithFirst(parts: seq<string>, sep: string)
    requires |parts| >= 1
    ensures |parts[0]| <= |Join(parts, sep)| && Join(parts, sep)[..|parts[0]|] == parts[0]
  {
    if |parts| > 1 {
      assert Join(parts, sep) == parts[0] + (sep + Join(parts[1..], sep));
    }
  }

  // ------------------------------------------------------------------
  // AppendHelp
  // ------------------------------------------------------------------

  /** A decorated function, down to its docstring (`None` when it has none). */
  class Function {
    var doc: Option<string>

    constructor(doc: Option<string>)
      ensures this.doc == doc
    {
      this.doc := doc;
    }
  }

  /** The docstring after appending: the old docstring, or "" without one, then
      `join`, then the help text. */
  function Appended(doc: Option<string>, join: string, help: string): (r: string)
    ensures |r| == (if doc.Some? then |doc.value| else 0) + |join| + |help|
    ensures doc.Some? ==> r[..|doc.value|] == doc.value
    ensures r[|r| - |help|..] == help
  {
    var d := if doc.Some? then doc.value else "";
    assert [d, help][1..] == [help];
    assert Join([d, help], join) == d + (join + help);
    assert (d + (join + help))[|d| + |join|..] == help;
    Join([d, help], join)
  }

  /** With a one-character `join` absent from the help text, the help text is what
      follows the last `join`: the appended text can be told apart again. */
  lemma {:induction false} AppendedHelpIsLast(doc: Option<string>, c: char, help: string)
    requires c !in help
    ensures LastSegment(Appended(doc, [c], help), c) == help
  {
    var r := Appended(doc, [c], help);
    assert r[|r| - |help| - 1] == c;
    SuffixIsLastSegment(r, c, help);
  }

  /** The decorator `AppendHelp(helpstr, join)`. */
  class AppendHelp {
    var help: string
    var join: string

    constructor(helpstr: string, join: string)
      ensures this.help == helpstr && this.join == join
    {
      this.help := helpstr;
      this.join := join;
    }

    /** `__call__`: the function's docstring gets the help text appended; the same
        function is returned. */
    method Call(func: Function) returns (r: Function)
      modifies func
      ensures r == func
      ensures func.doc == Some(Appended(old(func.doc), join, help))
    {
      if func.doc.None? {
        func.doc := Some("");
      }
      func.doc := Some(Join([func.doc.value, help], join));
      r := func;
    }
  }
}
