/** Model of `analysis` in ibar/analysis.py, the single-stage pipeline of the earlier
    package: the scoring of every row, the low and high p-values, and the two ranked
    lists handed to the rank aggregation program with the share of rows below the
    fixed threshold 0.25. Nothing is read back and nothing is returned. */
module IbarAnalysis {
  import opened Common
  import opened Scoring

  // ------------------------------------------------------------------
  // Output files
  // ------------------------------------------------------------------

  /** The keys of the `files` dictionary. */
  datatype Role = SgrnaOut | PlowOut | PhighOut | GeneLow | GeneHigh

  /** What each role's file name appends to the output prefix. */
  function Suffix(role: Role): string {
    match role
    case SgrnaOut => ".sgrna.txt"
    case PlowOut => ".plow.txt"
    case PhighOut => ".phigh.txt"
    case GeneLow => ".gene.low.txt"
    case GeneHigh => ".gene.high.txt"
  }

  /** The `files` dictionary: one name per role, from the prefix. */
  method OutputFiles(prefix: string) returns (files: map<Role, string>)
    ensures forall r :: r in files && files[r] == prefix + Suffix(r)
  {
    files := map[
      SgrnaOut := prefix + Suffix(SgrnaOut),
      PlowOut := prefix + Suffix(PlowOut),
      PhighOut := prefix + Suffix(PhighOut),
      GeneLow := prefix + Suffix(GeneLow),
      GeneHigh := prefix + Suffix(GeneHigh)];
    forall r ensures r in files && files[r] == prefix + Suffix(r) {
      match r
      case SgrnaOut => case PlowOut => case PhighOut => case GeneLow => case GeneHigh =>
    }
  }

  /** The five files are pairwise different. */
  lemma {:induction false} FileNamesDistinct(prefix: string, r1: Role, r2: Role)
    requires r1 != r2
    ensures prefix + Suffix(r1) != prefix + Suffix(r2)
  {
    assert (prefix + Suffix(r1))[|prefix|..] == Suffix(r1);
    assert (prefix + Suffix(r2))[|prefix|..] == Suffix(r2);
  }

  // ------------------------------------------------------------------
  // The pipeline
  // ------------------------------------------------------------------

  /** The significance threshold of the percentiles, fixed in this package. */
  const GeneTestThreshold: real := 0.25

  /** The outputs after the scoring. The scored table carries the p-value columns
      only for the "norm" test; the low list is written next, and only then does the
      percentile of any other test fail with a `KeyError` on `p.low`. */
  function Stages(m: Math, d: Scored, info: seq<Info>, prefix: string, test: string): (r: (Result<()>, seq<Output>))
    requires |d.z| == |info|
    ensures r.0.Ok? <==> test == "norm"
    ensures |r.1| == if test == "norm" then 5 else 2
    ensures r.1[0].ScoreTable? && r.1[0].data == d && (r.1[0].pcols == [] <==> test != "norm")
    ensures r.1[1] == RankFile(prefix + Suffix(PlowOut), LowList(info, Genes(info), d.z))
  {
    var plow, phigh := PLow(m, d.z), PHigh(m, d.z);
    var table := ScoreTable(prefix + Suffix(SgrnaOut), d, if test == "norm" then [plow, phigh] else []);
    var lowIn := LowList(info, Genes(info), d.z);
    var lowFile := RankFile(prefix + Suffix(PlowOut), lowIn);
    if test != "norm" then (Err("KeyError: 'p.low'"), [table, lowFile])
    else
      var highIn := HighList(info, Genes(info), d.z);
      (Ok(()),
       [table, lowFile,
        RunRra(prefix + Suffix(PlowOut), prefix + Suffix(GeneLow), Percentile(plow, GeneTestThreshold)),
        RankFile(prefix + Suffix(PhighOut), highIn),
        RunRra(prefix + Suffix(PhighOut), prefix + Suffix(GeneHigh), Percentile(phigh, GeneTestThreshold))])
  }

  /** What `analysis` does, as a function of its inputs. A missing label is a
      `KeyError` and an empty control or treatment list the `ValueError` of
      `df_geomean`, both before anything is written; a test other than "norm" fails
      too, after some files are written. */
  function Pipeline(m: Math, input: Table, controlids: seq<string>, treatids: seq<string>, outprefix: string,
                    hasbarcode: bool, normthreshold: real, test: string): (r: (Result<()>, seq<Output>))
    requires TableInput(m, input, controlids, treatids)
    ensures r.0.Err? <==> !HasLabels(input, controlids + treatids) || |controlids| == 0 || |treatids| == 0 || test != "norm"
    ensures !HasLabels(input, controlids + treatids) || |controlids| == 0 || |treatids| == 0 ==> r.1 == []
  {
    if !HasLabels(input, controlids + treatids) then (Err("KeyError: count label not in table"), [])
    else if |controlids| == 0 || |treatids| == 0 then (Err("Length of label should be at least 1."), [])
    else
      var d := Scores(m, input, controlids, treatids, normthreshold, hasbarcode);
      Stages(m, d, input.info, outprefix, test)
  }

  /** `analysis`: the file names, the checks that can fail, the scoring with the
      guide-level adjustment when barcodes are used, then the files. */
  method Analysis(m: Math, input: Table, controlids: seq<string>, treatids: seq<string>, outprefix: string,
                  hasbarcode: bool, normthreshold: real, test: string)
    returns (result: Result<()>, outputs: seq<Output>)
    requires TableInput(m, input, controlids, treatids)
    ensures (result, outputs) == Pipeline(m, input, controlids, treatids, outprefix, hasbarcode, normthreshold, test)
  {
    var files := OutputFiles(outprefix);
    if !HasLabels(input, controlids + treatids) {
      return Err("KeyError: count label not in table"), [];
    }
    if |controlids| == 0 || |treatids| == 0 {
      return Err("Length of label should be at least 1."), [];
    }
    var data := ScoreData(m, input, controlids, treatids, normthreshold, hasbarcode);
    result, outputs := WriteRanks(m, data, input.info, outprefix, test, files);
  }

  /** The part of `analysis` after the scoring: the scored table, then each direction's
      ranked list and its aggregation run. */
  method WriteRanks(m: Math, data: Scored, info: seq<Info>, prefix: string, test: string, files: map<Role, string>)
    returns (result: Result<()>, outputs: seq<Output>)
    requires |data.z| == |info|
    requires forall r :: r in files && files[r] == prefix + Suffix(r)
    ensures result == Stages(m, data, info, prefix, test).0
    ensures outputs == Stages(m, data, info, prefix, test).1
  {
    var pcols := [];
    if test == "norm" {
      pcols := [PLow(m, data.z), PHigh(m, data.z)];
    }
    outputs := [ScoreTable(files[SgrnaOut], data, pcols)];
    var plowout := LowList(info, Genes(info), data.z);
    outputs := outputs + [RankFile(files[PlowOut], plowout)];
    if test != "norm" {
      return Err("KeyError: 'p.low'"), outputs;
    }
    var percentilelow := Percentile(pcols[0], GeneTestThreshold);
    outputs := outputs + [RunRra(files[PlowOut], files[GeneLow], percentilelow)];
    var phighout := HighList(info, Genes(info), data.z);
    outputs := outputs + [RankFile(files[PhighOut], phighout)];
    var percentilehigh := Percentile(pcols[1], GeneTestThreshold);
    outputs := outputs + [RunRra(files[PhighOut], files[GeneHigh], percentilehigh)];
    result := Ok(());
  }

  // ------------------------------------------------------------------
  // What the pipeline promises
  // ------------------------------------------------------------------

  /** A test other than "norm" fails after the scored table, without p-values, and the
      low list are written; success writes five outputs. */
  lemma {:induction false} PipelineErrors(m: Math, input: Table, controlids: seq<string>, treatids: seq<string>, outprefix: string,
                       hasbarcode: bool, normthreshold: real, test: string)
    requires TableInput(m, input, controlids, treatids)
    ensures HasLabels(input, controlids + treatids) && |controlids| > 0 && |treatids| > 0 && test != "norm" ==>
      var outs := Pipeline(m, input, controlids, treatids, outprefix, hasbarcode, normthreshold, test).1;
      |outs| == 2 && outs[0].ScoreTable? && outs[0].pcols == [] && outs[1].RankFile?
    ensures Pipeline(m, input, controlids, treatids, outprefix, hasbarcode, normthreshold, test).0.Ok? ==>
      |Pipeline(m, input, controlids, treatids, outprefix, hasbarcode, normthreshold, test).1| == 5
  {
    if HasLabels(input, controlids + treatids) && |controlids| > 0 && |treatids| > 0 {
      var d := Scores(m, input, controlids, treatids, normthreshold, hasbarcode);
      assert Pipeline(m, input, controlids, treatids, outprefix, hasbarcode, normthreshold, test) ==
        Stages(m, d, input.info, outprefix, test);
    }
  }

  /** With the "norm" test the scored table gains the columns `cdf(z)` and `sf(z)`, and
      each aggregation reads the list written just before it into its gene file, with
      a percentile in [0, 1]. */
  lemma {:induction false} StagesWrites(m: Math, d: Scored, info: seq<Info>, prefix: string)
    requires Sane(m) && |d.z| == |info| > 0
    ensures var outs := Stages(m, d, info, prefix, "norm").1;
      && |outs| == 5 && outs[0].ScoreTable? && outs[0].file == prefix + ".sgrna.txt" && outs[0].data == d
      && |outs[0].pcols| == 2 && |outs[0].pcols[0]| == |outs[0].pcols[1]| == |info|
      && (forall i :: 0 <= i < |info| ==> outs[0].pcols[0][i] == m.cdf(d.z[i]) && outs[0].pcols[1][i] == m.sf(d.z[i]))
      && outs[1].RankFile? && outs[2].RunRra? && outs[3].RankFile? && outs[4].RunRra?
      && outs[2].infile == outs[1].file && outs[2].outfile == prefix + ".gene.low.txt"
      && outs[4].infile == outs[3].file && outs[4].outfile == prefix + ".gene.high.txt"
      && outs[2].percentile.Some? && 0.0 <= outs[2].percentile.value <= 1.0
      && outs[4].percentile.Some? && 0.0 <= outs[4].percentile.value <= 1.0
  {
  }

  /** With the "norm" test the fourth output is the high list, at its own file. */
  lemma {:induction false} StagesLists(m: Math, d: Scored, info: seq<Info>, prefix: string)
    requires |d.z| == |info|
    ensures |Stages(m, d, info, prefix, "norm").1| == 5
    ensures Stages(m, d, info, prefix, "norm").1[3].RankFile?
    ensures Stages(m, d, info, prefix, "norm").1[3].file == prefix + Suffix(PhighOut)
    ensures Stages(m, d, info, prefix, "norm").1[3].records == HighList(info, Genes(info), d.z)
  {
  }

  /** The low list holds a record for every row, keyed by `bid` with the gene as
      symbol and the score as `p`, in ascending order of `p`. */
  lemma {:induction false} LowListRows(info: seq<Info>, z: Column)
    requires |z| == |info|
    ensures var r := LowList(info, Genes(info), z);
      |r| == |info| && SortedBy(r, RecordP) &&
      forall i :: 0 <= i < |info| ==> RankRecord(info[i].bid, info[i].gene, "list", z[i], 1, 1) in r
  {
    var r := LowList(info, Genes(info), z);
    forall i | 0 <= i < |info| ensures RankRecord(info[i].bid, info[i].gene, "list", z[i], 1, 1) in r {
      assert Genes(info)[i] == info[i].gene;
    }
  }

  /** The high list holds a record for every row with the negated score as `p`, in
      ascending order of `p`, so from the largest score down. */
  lemma {:induction false} HighListRows(info: seq<Info>, z: Column)
    requires |z| == |info|
    ensures var r := HighList(info, Genes(info), z);
      |r| == |info| && SortedBy(r, RecordP) &&
      forall i :: 0 <= i < |info| ==> RankRecord(info[i].bid, info[i].gene, "list", -z[i], 1, 1) in r
  {
    var r := HighList(info, Genes(info), z);
    forall i | 0 <= i < |info| ensures RankRecord(info[i].bid, info[i].gene, "list", -z[i], 1, 1) in r {
      assert Genes(info)[i] == info[i].gene;
    }
  }
}
