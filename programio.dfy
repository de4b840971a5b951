/** Model of ibar/programio.py: the file-extension tests, the choice of reader, and
    `readdata`'s shaping of a parsed input file into the count table the pipelines
    take (the id columns, the dot-joined guide and barcode ids, and the clamp of zero
    counts to 1). Parsing itself is a parameter: `parse` gives the frame the chosen
    reader produces. */
module ProgramIo {
  import opened Common
  import opened Strings

  // ------------------------------------------------------------------
  // Extension tests
  // ------------------------------------------------------------------

  /** `iscsv`: the text after the last dot is `csv`. */
  predicate IsCsv(path: string) {
    LastSegment(path, '.') == "csv"
  }

  /** `istsv`: the text after the last dot is `tsv`. */
  predicate IsTsv(path: string) {
    LastSegment(path, '.') == "tsv"
  }

  /** `istxt`: the text after the last dot is `txt`. */
  predicate IsTxt(path: string) {
    LastSegment(path, '.') == "txt"
  }

  /** A path has a dot-free extension `ext` exactly when it is `ext` itself or ends
      with a dot followed by `ext`. */
  lemma {:induction false} ExtensionIff(path: string, ext: string)
    requires '.' !in ext
    ensures LastSegment(path, '.') == ext <==>
      path == ext || (|path| > |ext| && path[|path| - |ext| - 1..] == ['.'] + ext)
  {
    if LastSegment(path, '.') == ext {
      LastSegmentIsSuffix(path, '.');
      if |ext| < |path| {
        assert path[|path| - |ext| - 1..] == [path[|path| - |ext| - 1]] + path[|path| - |ext|..];
      } else {
        assert path == path[|path| - |ext|..];
      }
    }
    if path == ext {
      SuffixIsLastSegment(path, '.', ext);
    } else if |path| > |ext| && path[|path| - |ext| - 1..] == ['.'] + ext {
      assert path[|path| - |ext|..] == path[|path| - |ext| - 1..][1..];
      assert path[|path| - |ext| - 1] == path[|path| - |ext| - 1..][0];
      SuffixIsLastSegment(path, '.', ext);
    }
  }

  /** `iscsv` holds exactly for `csv` and for paths ending in `.csv`. */
  lemma {:induction false} IsCsvIff(path: string)
    ensures IsCsv(path) <==> path == "csv" || (|path| > 3 && path[|path| - 4..] == ".csv")
  {
    ExtensionIff(path, "csv");
    assert ['.'] + "csv" == ".csv";
  }

  /** The two readers of `readdata`. */
  datatype Format = CommaSeparated | TabSeparated

  /** The reader `readdata` picks: the comma reader for `csv`, the tab reader for `tsv`
      and `txt`, and `ValueError` for any other extension. At most one test holds, so
      the choice is never ambiguous. */
  function Reader(path: string): (r: Result<Format>)
    ensures !(IsCsv(path) && IsTsv(path)) && !(IsCsv(path) && IsTxt(path)) && !(IsTsv(path) && IsTxt(path))
    ensures r == Ok(CommaSeparated) <==> IsCsv(path)
    ensures r == Ok(TabSeparated) <==> IsTsv(path) || IsTxt(path)
    ensures r.Err? <==> !IsCsv(path) && !IsTsv(path) && !IsTxt(path)
  {
    if IsCsv(path) then Ok(CommaSeparated)
    else if IsTsv(path) || IsTxt(path) then Ok(TabSeparated)
    else Err("Wrong input file type.")
  }

  // ------------------------------------------------------------------
  // readdata
  // ------------------------------------------------------------------

  /** A parsed input file: its text columns and its numeric columns by header. */
  datatype Frame = Frame(rows: nat, text: map<string, seq<string>>, numbers: map<string, Column>)

  /** Every column of the frame has one entry per row. */
  ghost predicate FrameOk(f: Frame) {
    && (forall l :: l in f.text ==> |f.text[l]| == f.rows)
    && (forall l :: l in f.numbers ==> |f.numbers[l]| == f.rows)
  }

  /** `inputdata[colnm1]` finds the three id columns. */
  predicate HasIds(f: Frame, ids: seq<string>)
    requires |ids| == 3
  {
    ids[0] in f.text && ids[1] in f.text && ids[2] in f.text
  }

  /** `inputdata[colnm1]` finds every sample column. */
  predicate HasNumbers(f: Frame, labels: seq<string>) {
    forall l :: l in labels ==> l in f.numbers
  }

  /** The three id columns selected before renaming: the guide column stands in for the
      barcode when there is no barcode. */
  function IdLabels(genelab: string, guidelab: string, barcodelab: string, hasbarcode: bool): (r: seq<string>)
    ensures |r| == 3 && r[0] == genelab && r[1] == guidelab
    ensures r[2] == if hasbarcode then barcodelab else guidelab
  {
    [genelab, guidelab, if hasbarcode then barcodelab else guidelab]
  }

  /** `'.'.join(parts)`. */
  function DotJoin(parts: seq<string>): string {
    Join(parts, ".")
  }

  /** Joining two or three ids puts one dot between neighbours. */
  lemma {:induction false} DotJoinParts(a: string, b: string, c: string)
    ensures DotJoin([a, b]) == a + "." + b
    ensures DotJoin([a, b, c]) == a + "." + b + "." + c
  {
    assert [a, b][1..] == [b];
    assert Join([a, b], ".") == a + "." + Join([b], ".");
    assert [a, b, c][1..] == [b, c];
    assert Join([a, b, c], ".") == a + "." + Join([b, c], ".");
    assert Join([b, c], ".") == b + "." + Join([c], ".");
  }

  /** The id columns of one row: its gene, guide and barcode, the guide id
      `gene.guide`, and the barcode id `gene.guide.barcode`, or the guide id when there
      is no barcode. */
  function RowInfo(gene: string, guide: string, barcode: string, hasbarcode: bool): (r: Info)
    ensures r.gene == gene && r.guide == guide && r.barcode == barcode
  {
    var gid := DotJoin([gene, guide]);
    Info(gene, guide, gid, barcode, if hasbarcode then DotJoin([gene, guide, barcode]) else gid)
  }

  /** The id columns of every row, from the gene, guide and barcode columns. */
  function Infos(gene: seq<string>, guide: seq<string>, barcode: seq<string>, hasbarcode: bool): (r: seq<Info>)
    requires |gene| == |guide| == |barcode|
    ensures |r| == |gene| && forall i :: 0 <= i < |gene| ==> r[i] == RowInfo(gene[i], guide[i], barcode[i], hasbarcode)
  {
    seq(|gene|, i requires 0 <= i < |gene| => RowInfo(gene[i], guide[i], barcode[i], hasbarcode))
  }

  /** `data.loc[data[x] == 0, x] = 1` on one count column. */
  function ClampZero(col: Column): (r: Column)
    ensures |r| == |col|
    ensures forall i :: 0 <= i < |col| ==> r[i] == (if col[i] == 0.0 then 1.0 else col[i])
  {
    seq(|col|, i requires 0 <= i < |col| => if col[i] == 0.0 then 1.0 else col[i])
  }

  /** After the clamp no count is 0, the non-negative counts are positive, and a second
      clamp changes nothing. */
  lemma {:induction false} ClampZeroProperties(col: Column)
    ensures forall i :: 0 <= i < |col| ==> ClampZero(col)[i] != 0.0
    ensures (forall i :: 0 <= i < |col| ==> col[i] >= 0.0) ==> forall i :: 0 <= i < |col| ==> ClampZero(col)[i] > 0.0
    ensures ClampZero(ClampZero(col)) == ClampZero(col)
  {
    var c := ClampZero(col);
    assert |ClampZero(c)| == |c|;
    forall i | 0 <= i < |c| ensures ClampZero(c)[i] == c[i] {
      assert c[i] != 0.0;
    }
  }

  /** The `bid` id as `readdata` writes it: from the input's own `gene`, `guide` and
      `barcode` columns, which the input need not have, since the selected columns were
      only renamed to those names in the copy. */
  function AsWrittenBids(input: Frame, hasbarcode: bool, gid: seq<string>): (r: Result<seq<string>>)
    requires FrameOk(input) && |gid| == input.rows
    ensures r.Ok? ==> |r.value| == input.rows
  {
    if !hasbarcode then Ok(gid)
    else if !HasIds(input, ["gene", "guide", "barcode"]) then Err("KeyError: \"['gene', 'guide', 'barcode'] not in index\"")
    else
      var g, u, b := input.text["gene"], input.text["guide"], input.text["barcode"];
      Ok(seq(input.rows, i requires 0 <= i < input.rows => DotJoin([g[i], u[i], b[i]])))
  }

  /** `readdata` as written, up to the `bid` column, which comes from the input's own
      columns: with barcodes, an input without columns literally named `gene`, `guide`
      and `barcode` fails whatever labels were selected; otherwise one `bid` per row. */
  function ReadAsWritten(path: string, parse: Format -> Frame, genelab: string, guidelab: string, barcodelab: string,
                         controlids: seq<string>, treatids: seq<string>, hasbarcode: bool): (r: Result<seq<string>>)
    requires forall fmt :: FrameOk(parse(fmt))
    ensures Reader(path).Err? ==> r == Err("Wrong input file type.")
    ensures Reader(path).Ok? && hasbarcode && !HasIds(parse(Reader(path).value), ["gene", "guide", "barcode"]) ==> r.Err?
    ensures Reader(path).Ok? && r.Ok? ==> |r.value| == parse(Reader(path).value).rows
  {
    if Reader(path).Err? then Err(Reader(path).msg)
    else
      var input := parse(Reader(path).value);
      assert FrameOk(input);
      var ids := IdLabels(genelab, guidelab, barcodelab, hasbarcode);
      if !HasIds(input, ids) || !HasNumbers(input, controlids + treatids) then Err("KeyError: column not in index")
      else
        var gid := seq(input.rows, i requires 0 <= i < input.rows => DotJoin([input.text[genelab][i], input.text[guidelab][i]]));
        AsWrittenBids(input, hasbarcode, gid)
  }

  /** `readdata` with the `bid` column built from the renamed copy, as the `gid`
      column is: the table of id columns and clamped count columns. It fails exactly on
      a wrong extension or a missing column, and only with the wrong extension's
      `ValueError` when the extension is not csv, tsv or txt. */
  function Read(path: string, parse: Format -> Frame, genelab: string, guidelab: string, barcodelab: string,
                controlids: seq<string>, treatids: seq<string>, hasbarcode: bool): (r: Result<Table>)
    requires forall fmt :: FrameOk(parse(fmt))
    ensures Reader(path).Err? ==> r == Err("Wrong input file type.")
    ensures Reader(path).Ok? ==>
      var input := parse(Reader(path).value);
      (r.Err? <==> !HasIds(input, IdLabels(genelab, guidelab, barcodelab, hasbarcode)) || !HasNumbers(input, controlids + treatids))
  {
    if Reader(path).Err? then Err(Reader(path).msg)
    else
      var input := parse(Reader(path).value);
      assert FrameOk(input);
      var ids := IdLabels(genelab, guidelab, barcodelab, hasbarcode);
      var labels := controlids + treatids;
      if !HasIds(input, ids) || !HasNumbers(input, labels) then Err("KeyError: column not in index")
      else
        Ok(Table(Infos(input.text[ids[0]], input.text[ids[1]], input.text[ids[2]], hasbarcode),
                 map l | l in labels :: ClampZero(input.numbers[l])))
  }

  /** The loop of `readdata` over the sample columns: every column named in `labels`
      has its zero counts set to 1. */
  method ClampZeroCounts(numbers: map<string, Column>, labels: seq<string>) returns (counts: map<string, Column>)
    requires forall l :: l in labels ==> l in numbers
    ensures counts == map l | l in labels :: ClampZero(numbers[l])
  {
    counts := map l | l in labels :: numbers[l];
    var k := 0;
    while k < |labels|
      invariant 0 <= k <= |labels|
      invariant ClampedUpTo(numbers, labels, counts, k)
    {
      ClampStep(numbers, labels, counts, k);
      counts := counts[labels[k] := ClampZero(counts[labels[k]])];
      k := k + 1;
    }
    assert labels[..k] == labels;
  }

  /** The state of that loop after `k` labels: the keys are the labels, and the columns
      of the first `k` labels are clamped. */
  ghost predicate ClampedUpTo(numbers: map<string, Column>, labels: seq<string>, counts: map<string, Column>, k: nat)
    requires k <= |labels| && forall l :: l in labels ==> l in numbers
  {
    && (forall l :: l in counts <==> l in labels)
    && forall l :: l in counts ==> counts[l] == if l in labels[..k] then ClampZero(numbers[l]) else numbers[l]
  }

  /** Clamping the column of label `k` extends the clamped prefix by one. */
  lemma {:induction false} ClampStep(numbers: map<string, Column>, labels: seq<string>, counts: map<string, Column>, k: nat)
    requires k < |labels| && forall l :: l in labels ==> l in numbers
    requires ClampedUpTo(numbers, labels, counts, k)
    ensures labels[k] in counts
    ensures ClampedUpTo(numbers, labels, counts[labels[k] := ClampZero(counts[labels[k]])], k + 1)
  {
    var x := labels[k];
    ClampZeroProperties(numbers[x]);
    assert labels[..k + 1] == labels[..k] + [x];
    var next := counts[x := ClampZero(counts[x])];
    forall l | l in next
      ensures next[l] == if l in labels[..k + 1] then ClampZero(numbers[l]) else numbers[l]
    {
      if l != x {
        assert l in labels[..k + 1] <==> l in labels[..k];
      }
    }
  }

  /** `readdata`: the reader chosen by the extension, the column selection, the ids,
      then the clamp of zero counts, one sample column at a time. */
  method ReadData(path: string, parse: Format -> Frame, genelab: string, guidelab: string, barcodelab: string,
                  controlids: seq<string>, treatids: seq<string>, hasbarcode: bool)
    returns (r: Result<Table>)
    requires forall fmt :: FrameOk(parse(fmt))
    ensures r == Read(path, parse, genelab, guidelab, barcodelab, controlids, treatids, hasbarcode)
  {
    var reader := Reader(path);
    if reader.Err? {
      return Err(reader.msg);
    }
    var input := parse(reader.value);
    assert FrameOk(input);
    var ids := IdLabels(genelab, guidelab, barcodelab, hasbarcode);
    var labels := controlids + treatids;
    if !HasIds(input, ids) || !HasNumbers(input, labels) {
      return Err("KeyError: column not in index");
    }
    var info := Infos(input.text[ids[0]], input.text[ids[1]], input.text[ids[2]], hasbarcode);
    var counts := ClampZeroCounts(input.numbers, labels);
    r := Ok(Table(info, counts));
  }

  // ------------------------------------------------------------------
  // What readdata promises
  // ------------------------------------------------------------------

  /** A table `readdata` returns has one entry per row in every count column, a column
      for every sample label, and no zero count; every count that was not 0 is kept. */
  lemma {:induction false} ReadCounts(path: string, parse: Format -> Frame, genelab: string, guidelab: string, barcodelab: string,
                                      controlids: seq<string>, treatids: seq<string>, hasbarcode: bool)
    requires forall fmt :: FrameOk(parse(fmt))
    requires Read(path, parse, genelab, guidelab, barcodelab, controlids, treatids, hasbarcode).Ok?
    ensures var t := Read(path, parse, genelab, guidelab, barcodelab, controlids, treatids, hasbarcode).value;
      var input := parse(Reader(path).value);
      && WellFormed(t) && HasLabels(t, controlids + treatids)
      && (forall l :: l in t.counts <==> l in controlids + treatids)
      && (forall l, i :: l in t.counts && 0 <= i < |t.counts[l]| ==>
            t.counts[l][i] != 0.0 && (input.numbers[l][i] != 0.0 ==> t.counts[l][i] == input.numbers[l][i]))
  {
    var t := Read(path, parse, genelab, guidelab, barcodelab, controlids, treatids, hasbarcode).value;
    var input := parse(Reader(path).value);
    var labels := controlids + treatids;
    assert t.counts == map l | l in labels :: ClampZero(input.numbers[l]);
    forall l | l in t.counts ensures |t.counts[l]| == |t.info| {
      assert |input.numbers[l]| == input.rows;
    }
  }

  /** Each row of the table carries the selected gene and guide, the barcode (the
      guide again without barcodes), the guide id `gene.guide`, and the barcode id
      `gene.guide.barcode`, or the guide id without barcodes. */
  lemma {:induction false} ReadIds(path: string, parse: Format -> Frame, genelab: string, guidelab: string, barcodelab: string,
                                   controlids: seq<string>, treatids: seq<string>, hasbarcode: bool)
    requires forall fmt :: FrameOk(parse(fmt))
    requires Read(path, parse, genelab, guidelab, barcodelab, controlids, treatids, hasbarcode).Ok?
    ensures var t := Read(path, parse, genelab, guidelab, barcodelab, controlids, treatids, hasbarcode).value;
      var input := parse(Reader(path).value);
      && |t.info| == input.rows
      && forall i :: 0 <= i < |t.info| ==>
        && t.info[i].gene == input.text[genelab][i] && t.info[i].guide == input.text[guidelab][i]
        && t.info[i].barcode == (if hasbarcode then input.text[barcodelab][i] else t.info[i].guide)
        && t.info[i].gid == t.info[i].gene + "." + t.info[i].guide
        && t.info[i].bid == (if hasbarcode then t.info[i].gid + "." + t.info[i].barcode else t.info[i].gid)
  {
    var t := Read(path, parse, genelab, guidelab, barcodelab, controlids, treatids, hasbarcode).value;
    forall i | 0 <= i < |t.info|
      ensures t.info[i].gid == t.info[i].gene + "." + t.info[i].guide
      ensures t.info[i].bid == (if hasbarcode then t.info[i].gid + "." + t.info[i].barcode else t.info[i].gid)
    {
      DotJoinParts(t.info[i].gene, t.info[i].guide, t.info[i].barcode);
    }
  }

  /** The text before the first dot of a guide id is the gene, when the gene has no dot:
      the key the two-stage aggregation recovers genes by. */
  lemma {:induction false} GuideIdGene(gene: string, guide: string, barcode: string, hasbarcode: bool)
    requires '.' !in gene
    ensures FirstSegment(RowInfo(gene, guide, barcode, hasbarcode).gid, '.') == gene
  {
    DotJoinParts(gene, guide, barcode);
    assert gene + "." + guide == gene + ['.'] + guide;
    FirstSegmentOfJoin(gene, '.', guide);
  }

  /** With barcodes, the table as written takes `bid` from the input's own `gene`
      column: here an input whose gene column is named `Gene` fails with a `KeyError`,
      while the same input read with the renamed copy succeeds. */
  lemma {:induction false} BidFromRawColumns()
    ensures var input := Frame(1, map["Gene" := ["g"], "guide" := ["s"], "barcode" := ["b"]], map["c" := [5.0], "t" := [0.0]]);
      var parse := (fmt: Format) => input;
      && ReadAsWritten("x.csv", parse, "Gene", "guide", "barcode", ["c"], ["t"], true).Err?
      && Read("x.csv", parse, "Gene", "guide", "barcode", ["c"], ["t"], true).Ok?
  {
    var input := Frame(1, map["Gene" := ["g"], "guide" := ["s"], "barcode" := ["b"]], map["c" := [5.0], "t" := [0.0]]);
    var parse := (fmt: Format) => input;
    assert LastSegment("x.csv", '.') == "csv" by {
      IsCsvIff("x.csv");
      assert "x.csv"[1..] == ".csv";
    }
    assert "gene" !in input.text;
    assert ["c"] + ["t"] == ["c", "t"];
  }
}
