/** Model of `analysis` in mibar/analysis.py: the output-file roles, the scoring of
    every row, the two-sided p-values and their false discovery rate, the ranked
    lists of both directions, the rank aggregation runs, and, in two-stage mode, the
    aggregation of the first-stage groups by gene. The rank aggregation program and
    `array_fdr` are parameters. */
module MibarAnalysis {
  import opened Common
  import opened Strings
  import opened DfCalculate
  import opened Scoring

  /** The keyword arguments of `analysis` other than the data, the labels and the
      path of the rank aggregation program. */
  datatype Options = Options(
    outprefix: string,
    hasbarcode: bool,
    normthreshold: real,
    geneTestThreshold: real,
    test: string,
    tworra: bool)

  // ------------------------------------------------------------------
  // Output files
  // ------------------------------------------------------------------

  /** The keys of the `files` dictionary. */
  datatype Role =
    | BarcodeOut | SgrnaOut | GeneOut | PlowOut | PhighOut | SgrnaLow | SgrnaHigh | GeneLow | GeneHigh
    | FirstLevel | RraLowIn | RraLowOut | RraHighIn | RraHighOut
    | Rra2LowIn | Rra2LowOut | Rra2HighIn | Rra2HighOut

  /** The roles present in the dictionary: the second-stage ones only with two stages. */
  predicate InDictionary(tworra: bool, role: Role) {
    tworra || !(role.Rra2LowIn? || role.Rra2LowOut? || role.Rra2HighIn? || role.Rra2HighOut?)
  }

  /** The file name endings of the outputs. */
  const BarcodeTxt: string := ".barcode.txt"
  const SgrnaLowTxt: string := ".sgrna.low.txt"
  const SgrnaHighTxt: string := ".sgrna.high.txt"
  const GeneLowTxt: string := ".gene.low.txt"
  const GeneHighTxt: string := ".gene.high.txt"
  const SgrnaTxt: string := ".sgrna.txt"
  const GeneTxt: string := ".gene.txt"
  const PlowTxt: string := ".plow.txt"
  const PhighTxt: string := ".phigh.txt"

  /** What each role's file name appends to the output prefix, by what the file holds:
      the first-level table is the barcode table when barcodes are used or with two
      stages; with one stage the aggregation writes the gene files, with two the first
      stage writes the sgRNA files and the second reads those and writes the gene files. */
  function Suffix(hasbarcode: bool, tworra: bool, role: Role): string {
    match role
    case BarcodeOut => BarcodeTxt
    case SgrnaOut => SgrnaTxt
    case GeneOut => GeneTxt
    case PlowOut => PlowTxt
    case PhighOut => PhighTxt
    case SgrnaLow => SgrnaLowTxt
    case SgrnaHigh => SgrnaHighTxt
    case GeneLow => GeneLowTxt
    case GeneHigh => GeneHighTxt
    case FirstLevel => if hasbarcode || tworra then BarcodeTxt else SgrnaTxt
    case RraLowIn => PlowTxt
    case RraLowOut => if tworra then SgrnaLowTxt else GeneLowTxt
    case RraHighIn => PhighTxt
    case RraHighOut => if tworra then SgrnaHighTxt else GeneHighTxt
    case Rra2LowIn => SgrnaLowTxt
    case Rra2LowOut => GeneLowTxt
    case Rra2HighIn => SgrnaHighTxt
    case Rra2HighOut => GeneHighTxt
  }

  function FileOf(opt: Options, role: Role): string {
    opt.outprefix + Suffix(opt.hasbarcode, opt.tworra, role)
  }

  /** The `files` dictionary: one entry per key, `None` where the key is absent. */
  datatype Files = Files(
    barcodeOut: Option<string>, sgrnaOut: Option<string>, geneOut: Option<string>,
    plowOut: Option<string>, phighOut: Option<string>,
    sgrnaLow: Option<string>, sgrnaHigh: Option<string>, geneLow: Option<string>, geneHigh: Option<string>,
    firstLevel: Option<string>,
    rraLowIn: Option<string>, rraLowOut: Option<string>, rraHighIn: Option<string>, rraHighOut: Option<string>,
    rra2LowIn: Option<string>, rra2LowOut: Option<string>, rra2HighIn: Option<string>, rra2HighOut: Option<string>)

  /** `files[key]`, or `None` for a key not in the dictionary. */
  function Get(files: Files, role: Role): Option<string> {
    match role
    case BarcodeOut => files.barcodeOut
    case SgrnaOut => files.sgrnaOut
    case GeneOut => files.geneOut
    case PlowOut => files.plowOut
    case PhighOut => files.phighOut
    case SgrnaLow => files.sgrnaLow
    case SgrnaHigh => files.sgrnaHigh
    case GeneLow => files.geneLow
    case GeneHigh => files.geneHigh
    case FirstLevel => files.firstLevel
    case RraLowIn => files.rraLowIn
    case RraLowOut => files.rraLowOut
    case RraHighIn => files.rraHighIn
    case RraHighOut => files.rraHighOut
    case Rra2LowIn => files.rra2LowIn
    case Rra2LowOut => files.rra2LowOut
    case Rra2HighIn => files.rra2HighIn
    case Rra2HighOut => files.rra2HighOut
  }

  /** The dictionary holds exactly the roles of `opt`'s mode, each with its file. */
  ghost predicate Named(files: Files, opt: Options) {
    forall r :: Get(files, r) == if InDictionary(opt.tworra, r) then Some(FileOf(opt, r)) else None
  }

  /** The `files` dictionary as `analysis` builds it: nine names from the prefix, then
      the first-level file and the aggregation files, overwritten in two-stage mode. */
  method OutputFiles(opt: Options) returns (files: Files)
    ensures Named(files, opt)
  {
    var prefix := opt.outprefix;
    files := Files(
      Some(prefix + BarcodeTxt), Some(prefix + SgrnaTxt), Some(prefix + GeneTxt),
      Some(prefix + PlowTxt), Some(prefix + PhighTxt),
      Some(prefix + SgrnaLowTxt), Some(prefix + SgrnaHighTxt), Some(prefix + GeneLowTxt), Some(prefix + GeneHighTxt),
      None, None, None, None, None, None, None, None, None);
    files := files.(firstLevel := files.sgrnaOut);
    if opt.hasbarcode || opt.tworra {
      files := files.(firstLevel := files.barcodeOut);
    }
    files := files.(rraLowIn := files.plowOut);
    files := files.(rraLowOut := files.geneLow);
    files := files.(rraHighIn := files.phighOut);
    files := files.(rraHighOut := files.geneHigh);
    if opt.tworra {
      files := files.(rraLowIn := files.plowOut);
      files := files.(rraLowOut := files.sgrnaLow);
      files := files.(rraHighIn := files.phighOut);
      files := files.(rraHighOut := files.sgrnaHigh);
      files := files.(rra2LowIn := files.sgrnaLow);
      files := files.(rra2LowOut := files.geneLow);
      files := files.(rra2HighIn := files.sgrnaHigh);
      files := files.(rra2HighOut := files.geneHigh);
    }
    forall r ensures Get(files, r) == if InDictionary(opt.tworra, r) then Some(FileOf(opt, r)) else None {
      match r
      case BarcodeOut => case SgrnaOut => case GeneOut => case PlowOut => case PhighOut =>
      case SgrnaLow => case SgrnaHigh => case GeneLow => case GeneHigh =>
      case FirstLevel => case RraLowIn => case RraLowOut => case RraHighIn => case RraHighOut =>
      case Rra2LowIn => case Rra2LowOut => case Rra2HighIn => case Rra2HighOut =>
    }
  }

  /** The first-level table is the barcode file exactly when barcodes are used or the
      aggregation has two stages, and the sgRNA file otherwise. */
  lemma {:induction false} FirstLevelRole(opt: Options)
    ensures FileOf(opt, FirstLevel) == FileOf(opt, BarcodeOut) <==> opt.hasbarcode || opt.tworra
    ensures FileOf(opt, FirstLevel) == FileOf(opt, SgrnaOut) <==> !(opt.hasbarcode || opt.tworra)
  {
    SuffixesDiffer(opt.outprefix, BarcodeTxt, SgrnaTxt);
  }

  /** One stage reads plow/phigh and writes gene.low/gene.high. Two stages write
      sgrna.low/high first, and the second stage reads exactly those and writes
      gene.low/gene.high. */
  lemma {:induction false} AggregationRoles(opt: Options)
    ensures FileOf(opt, RraLowIn) == FileOf(opt, PlowOut) && FileOf(opt, RraHighIn) == FileOf(opt, PhighOut)
    ensures !opt.tworra ==> FileOf(opt, RraLowOut) == FileOf(opt, GeneLow) && FileOf(opt, RraHighOut) == FileOf(opt, GeneHigh)
    ensures opt.tworra ==> FileOf(opt, RraLowOut) == FileOf(opt, SgrnaLow) && FileOf(opt, RraHighOut) == FileOf(opt, SgrnaHigh)
    ensures opt.tworra ==> FileOf(opt, Rra2LowIn) == FileOf(opt, RraLowOut) && FileOf(opt, Rra2HighIn) == FileOf(opt, RraHighOut)
    ensures opt.tworra ==> FileOf(opt, Rra2LowOut) == FileOf(opt, GeneLow) && FileOf(opt, Rra2HighOut) == FileOf(opt, GeneHigh)
  {
  }

  /** The nine roles the dictionary starts with. */
  function BaseRoles(): (r: seq<Role>) {
    [BarcodeOut, SgrnaOut, GeneOut, PlowOut, PhighOut, SgrnaLow, SgrnaHigh, GeneLow, GeneHigh]
  }

  /** The nine named files are pairwise different, so no output overwrites another
      within one stage. */
  lemma {:induction false} FileNamesDistinct(opt: Options)
    ensures forall i, j :: 0 <= i < j < |BaseRoles()| ==> FileOf(opt, BaseRoles()[i]) != FileOf(opt, BaseRoles()[j])
  {
    var roles := BaseRoles();
    forall i, j | 0 <= i < j < |roles| ensures FileOf(opt, roles[i]) != FileOf(opt, roles[j]) {
      SuffixesDiffer(opt.outprefix, Suffix(opt.hasbarcode, opt.tworra, roles[i]), Suffix(opt.hasbarcode, opt.tworra, roles[j]));
    }
  }

  lemma {:induction false} SuffixesDiffer(prefix: string, s: string, t: string)
    requires s != t
    ensures prefix + s != prefix + t
  {
    assert (prefix + s)[|prefix|..] == s;
    assert (prefix + t)[|prefix|..] == t;
  }

  // ------------------------------------------------------------------
  // The pipeline
  // ------------------------------------------------------------------

  /** `analysis` gets past its first three statements that can fail. */
  predicate Proceeds(input: Table, controlids: seq<string>, treatids: seq<string>, test: string) {
    HasLabels(input, controlids + treatids) && |controlids| > 0 && |treatids| > 0 && test == "norm"
  }

  lemma {:induction false} ProceedsScores(m: Math, input: Table, controlids: seq<string>, treatids: seq<string>, test: string)
    requires TableInput(m, input, controlids, treatids) && Proceeds(input, controlids, treatids, test)
    ensures ScoringInput(m, input, controlids, treatids)
  {
  }

  /** The aggregation key of a row: its gene with one stage, its guide id with two. */
  function Symbols(info: seq<Info>, tworra: bool): (r: seq<string>)
    ensures |r| == |info|
    ensures forall i :: 0 <= i < |info| ==> r[i] == (if tworra then info[i].gid else info[i].gene)
  {
    if tworra then Gids(info) else Genes(info)
  }

  /** What the first stage computes before any aggregation: the scored rows, the
      p-value columns written next to them, the two ranked lists and the share of rows
      below the significance threshold in each direction. */
  datatype Ranks = Ranks(
    data: Scored,
    pcols: seq<Column>,
    lowIn: seq<RankRecord>,
    highIn: seq<RankRecord>,
    pl: Option<real>,
    ph: Option<real>)

  function FirstStage(m: Math, fdr: seq<real> -> seq<real>, d: Scored, info: seq<Info>, opt: Options): (s: Ranks)
    requires |d.z| == |info|
    ensures s.data == d && |s.pcols| == 4
    ensures |s.lowIn| == |s.highIn| == |info|
  {
    var pcols := PColumns(m, fdr, d.z);
    var symbol := Symbols(info, opt.tworra);
    Ranks(d, pcols, LowList(info, symbol, d.z), HighList(info, symbol, d.z),
          Percentile(pcols[0], opt.geneTestThreshold), Percentile(pcols[1], opt.geneTestThreshold))
  }

  /** The first stage keeps the scored rows; its p-value columns are `cdf(z)`, `sf(z)`,
      a two-sided p-value in [0, 1] and that column's FDR; with at least one row the
      share of significant rows of each direction lies in [0, 1]; and both lists hold
      one record per row in ascending order of `p`. */
  lemma {:induction false} FirstStageShape(m: Math, fdr: seq<real> -> seq<real>, d: Scored, info: seq<Info>, opt: Options)
    requires |d.z| == |info|
    ensures var s := FirstStage(m, fdr, d, info, opt);
      && s.data == d && |s.pcols| == 4
      && |s.pcols[0]| == |s.pcols[1]| == |s.pcols[2]| == |info|
      && (forall i :: 0 <= i < |info| ==> s.pcols[0][i] == m.cdf(d.z[i]) && s.pcols[1][i] == m.sf(d.z[i]))
      && (Sane(m) ==> forall i :: 0 <= i < |info| ==> 0.0 <= s.pcols[2][i] <= 1.0)
      && s.pcols[3] == fdr(s.pcols[2])
      && (|info| > 0 ==> s.pl.Some? && 0.0 <= s.pl.value <= 1.0 && s.ph.Some? && 0.0 <= s.ph.value <= 1.0)
      && |s.lowIn| == |s.highIn| == |info| && SortedBy(s.lowIn, RecordP) && SortedBy(s.highIn, RecordP)
  {
    var pcols := PColumns(m, fdr, d.z);
    assert FirstStage(m, fdr, d, info, opt).pcols == pcols;
  }

  /** The p-value columns of the first-level file: `p.low`, `p.high`, `p.twoside` and
      its FDR. */
  function PColumns(m: Math, fdr: seq<real> -> seq<real>, z: Column): (p: seq<Column>)
    ensures |p| == 4 && |p[0]| == |p[1]| == |p[2]| == |z|
    ensures forall i :: 0 <= i < |z| ==> p[0][i] == m.cdf(z[i]) && p[1][i] == m.sf(z[i])
    ensures Sane(m) ==> forall i :: 0 <= i < |z| ==> 0.0 <= p[2][i] <= 1.0
    ensures p[3] == fdr(p[2])
  {
    var ptwo := PTwoSides(m, z);
    [PLow(m, z), PHigh(m, z), ptwo, fdr(ptwo)]
  }

  /** The result and the outputs of the stages after scoring, from the scored rows: the
      first-stage outputs in the order `analysis` writes them, the merge of the two
      first-stage aggregations, and with two stages the second-stage outputs, whose
      high list is the one built from the LOW first-stage aggregation, as `analysis`
      writes it, and the merge of the two second-stage aggregations. */
  function Aggregate(m: Math, fdr: seq<real> -> seq<real>, rra: Rra, d: Scored, info: seq<Info>, opt: Options):
    (r: (seq<(RraRow, RraRow)>, seq<Output>))
    requires |d.z| == |info|
    ensures |r.1| == if opt.tworra then 9 else 5
    ensures r.1[0].ScoreTable? && r.1[0].data == d
  {
    var s := FirstStage(m, fdr, d, info, opt);
    var first := FirstOutputs(s, opt);
    var rralow, rrahigh := rra(s.lowIn, s.pl), rra(s.highIn, s.ph);
    if !opt.tworra then (InnerJoin(rralow, rrahigh), first)
    else
      var (merged, second) := SecondStage(rra, rralow, rrahigh, opt);
      (merged, first + second)
  }

  /** The first-stage outputs in the order `analysis` writes them: the first-level
      table, then for each direction its ranked list and the aggregation run reading
      that list. */
  function FirstOutputs(s: Ranks, opt: Options): (o: seq<Output>)
    ensures |o| == 5
    ensures o[0] == ScoreTable(FileOf(opt, FirstLevel), s.data, s.pcols)
    ensures o[1] == RankFile(FileOf(opt, RraLowIn), s.lowIn)
    ensures o[2] == RunRra(FileOf(opt, RraLowIn), FileOf(opt, RraLowOut), s.pl)
    ensures o[3] == RankFile(FileOf(opt, RraHighIn), s.highIn)
    ensures o[4] == RunRra(FileOf(opt, RraHighIn), FileOf(opt, RraHighOut), s.ph)
  {
    [ScoreTable(FileOf(opt, FirstLevel), s.data, s.pcols),
     RankFile(FileOf(opt, RraLowIn), s.lowIn),
     RunRra(FileOf(opt, RraLowIn), FileOf(opt, RraLowOut), s.pl),
     RankFile(FileOf(opt, RraHighIn), s.highIn),
     RunRra(FileOf(opt, RraHighIn), FileOf(opt, RraHighOut), s.ph)]
  }

  /** The second stage from the two first-stage aggregations: each is re-ranked by its
      `beta` with the gene as symbol, and aggregated with the share of its groups whose
      FDR is below the threshold. The high input written is the one built from the LOW
      first-stage aggregation, as `analysis` writes it. */
  function SecondStage(rra: Rra, rralow: seq<RraRow>, rrahigh: seq<RraRow>, opt: Options):
    (r: (seq<(RraRow, RraRow)>, seq<Output>))
    ensures |r.1| == 4 && r.1[0].RankFile? && r.1[1].RunRra? && r.1[2].RankFile? && r.1[3].RunRra?
    ensures r.1[0].records == StageTwoList(rralow) && r.1[2].records == r.1[0].records
    ensures r.1[1].infile == r.1[0].file && r.1[3].infile == r.1[2].file
  {
    var low2 := StageTwoList(rralow);
    var pl2, ph2 := Percentile(Fdrs(rralow), opt.geneTestThreshold), Percentile(Fdrs(rrahigh), opt.geneTestThreshold);
    (InnerJoin(rra(low2, pl2), rra(low2, ph2)),
     [RankFile(FileOf(opt, Rra2LowIn), low2),
      RunRra(FileOf(opt, Rra2LowIn), FileOf(opt, Rra2LowOut), pl2),
      RankFile(FileOf(opt, Rra2HighIn), low2),
      RunRra(FileOf(opt, Rra2HighIn), FileOf(opt, Rra2HighOut), ph2)])
  }

  /** The result and the outputs of `analysis`, as a function of its inputs. A missing
      label is a `KeyError`, an empty control or treatment list the `ValueError` of
      `df_geomean`, and a test other than "norm" the `KeyError` on `p.low`; each
      fails before any file is written. A run that succeeds writes five outputs, or
      nine with two stages. */
  function Pipeline(m: Math, fdr: seq<real> -> seq<real>, rra: Rra, input: Table, controlids: seq<string>,
                    treatids: seq<string>, opt: Options): (r: (Result<seq<(RraRow, RraRow)>>, seq<Output>))
    requires TableInput(m, input, controlids, treatids)
    ensures r.0.Err? <==> !Proceeds(input, controlids, treatids, opt.test)
    ensures r.0.Err? ==> r.1 == []
    ensures r.0.Ok? ==> |r.1| == if opt.tworra then 9 else 5
  {
    if !HasLabels(input, controlids + treatids) then (Err("KeyError: count label not in table"), [])
    else if |controlids| == 0 || |treatids| == 0 then (Err("Length of label should be at least 1."), [])
    else if opt.test != "norm" then (Err("KeyError: 'p.low'"), [])
    else
      var d := Scores(m, input, controlids, treatids, opt.normthreshold, opt.hasbarcode && !opt.tworra);
      var (merged, outputs) := Aggregate(m, fdr, rra, d, input.info, opt);
      (Ok(merged), outputs)
  }

  /** `analysis`: the file roles, the checks that can fail, the scoring of the rows
      (two-stage mode switches the guide-level variance adjustment off), then the
      stages that write files. */
  method Analysis(m: Math, fdr: seq<real> -> seq<real>, rra: Rra, input: Table, controlids: seq<string>,
                  treatids: seq<string>, opt: Options)
    returns (result: Result<seq<(RraRow, RraRow)>>, outputs: seq<Output>)
    requires TableInput(m, input, controlids, treatids)
    ensures (result, outputs) == Pipeline(m, fdr, rra, input, controlids, treatids, opt)
  {
    var files := OutputFiles(opt);
    outputs := [];
    if !HasLabels(input, controlids + treatids) {
      return Err("KeyError: count label not in table"), outputs;
    }
    if |controlids| == 0 || |treatids| == 0 {
      return Err("Length of label should be at least 1."), outputs;
    }
    var hasbarcode := opt.hasbarcode;
    if opt.tworra {
      hasbarcode := false;
    }
    var data := ScoreData(m, input, controlids, treatids, opt.normthreshold, hasbarcode);
    if opt.test != "norm" {
      return Err("KeyError: 'p.low'"), outputs;
    }
    var mresult;
    mresult, outputs := RankAndAggregate(m, fdr, rra, data, input.info, opt, files);
    result := Ok(mresult);
  }

  /** The part of `analysis` after the scoring: the p-value columns and the
      first-level table, the ranked list and the aggregation of each direction, their
      merge, and in two-stage mode the same again on the first-stage groups. */
  method RankAndAggregate(m: Math, fdr: seq<real> -> seq<real>, rra: Rra, data: Scored, info: seq<Info>,
                          opt: Options, files: Files)
    returns (mresult: seq<(RraRow, RraRow)>, outputs: seq<Output>)
    requires |data.z| == |info|
    requires Named(files, opt)
    ensures mresult == Aggregate(m, fdr, rra, data, info, opt).0
    ensures outputs == Aggregate(m, fdr, rra, data, info, opt).1
  {
    var s := RankFirstStage(m, fdr, data, info, opt);
    var rralow, rrahigh;
    rralow, rrahigh, outputs := AggregateFirstStage(rra, s, opt, files);
    mresult := InnerJoin(rralow, rrahigh);
    if opt.tworra {
      var second;
      mresult, second := Regroup(rra, rralow, rrahigh, opt, files);
      outputs := outputs + second;
    }
  }

  /** The files of the first stage: the first-level table, then for each direction its
      ranked list and the rank aggregation run on it. */
  method AggregateFirstStage(rra: Rra, s: Ranks, opt: Options, files: Files)
    returns (rralow: seq<RraRow>, rrahigh: seq<RraRow>, outputs: seq<Output>)
    requires Named(files, opt)
    ensures rralow == rra(s.lowIn, s.pl) && rrahigh == rra(s.highIn, s.ph)
    ensures outputs == FirstOutputs(s, opt)
  {
    var table, lowIn, lowOut, highIn, highOut :=
      Get(files, FirstLevel).value, Get(files, RraLowIn).value, Get(files, RraLowOut).value,
      Get(files, RraHighIn).value, Get(files, RraHighOut).value;
    outputs := [ScoreTable(table, s.data, s.pcols), RankFile(lowIn, s.lowIn), RunRra(lowIn, lowOut, s.pl)];
    rralow := rra(s.lowIn, s.pl);
    outputs := outputs + [RankFile(highIn, s.highIn), RunRra(highIn, highOut, s.ph)];
    rrahigh := rra(s.highIn, s.ph);
  }

  /** The values of the first stage of `analysis`: the p-value columns, the aggregation
      key of each row, the two ranked lists and the share of rows below the threshold
      in each direction. */
  method RankFirstStage(m: Math, fdr: seq<real> -> seq<real>, data: Scored, info: seq<Info>, opt: Options)
    returns (s: Ranks)
    requires |data.z| == |info|
    ensures s == FirstStage(m, fdr, data, info, opt)
  {
    var plow := PLow(m, data.z);
    var phigh := PHigh(m, data.z);
    var ptwo := PTwoSides(m, data.z);
    var pcols := [plow, phigh, ptwo, fdr(ptwo)];
    var symbol := Genes(info);
    if opt.tworra {
      symbol := Gids(info);
    }
    var plowout := LowList(info, symbol, data.z);
    var percentilelow := Percentile(plow, opt.geneTestThreshold);
    var phighout := HighList(info, symbol, data.z);
    var percentilehigh := Percentile(phigh, opt.geneTestThreshold);
    assert symbol == Symbols(info, opt.tworra);
    assert pcols == PColumns(m, fdr, data.z);
    s := Ranks(data, pcols, plowout, phighout, percentilelow, percentilehigh);
  }

  /** The two-stage part of `analysis`: the first-stage groups re-ranked and aggregated
      by gene, and the merge of the two second-stage aggregations. */
  method Regroup(rra: Rra, rralow: seq<RraRow>, rrahigh: seq<RraRow>, opt: Options, files: Files)
    returns (mresult: seq<(RraRow, RraRow)>, outputs: seq<Output>)
    requires opt.tworra
    requires Named(files, opt)
    ensures mresult == SecondStage(rra, rralow, rrahigh, opt).0
    ensures outputs == SecondStage(rra, rralow, rrahigh, opt).1
  {
    var plowout2 := StageTwoList(rralow);
    outputs := [RankFile(Get(files, Rra2LowIn).value, plowout2)];
    var rra2percentilelow := Percentile(Fdrs(rralow), opt.geneTestThreshold);
    outputs := outputs + [RunRra(Get(files, Rra2LowIn).value, Get(files, Rra2LowOut).value, rra2percentilelow)];
    var rralow2 := rra(plowout2, rra2percentilelow);
    outputs := outputs + [RankFile(Get(files, Rra2HighIn).value, plowout2)];
    var rra2percentilehigh := Percentile(Fdrs(rrahigh), opt.geneTestThreshold);
    outputs := outputs + [RunRra(Get(files, Rra2HighIn).value, Get(files, Rra2HighOut).value, rra2percentilehigh)];
    var rrahigh2 := rra(plowout2, rra2percentilehigh);
    mresult := InnerJoin(rralow2, rrahigh2);
  }

  // ------------------------------------------------------------------
  // What the pipeline promises
  // ------------------------------------------------------------------

  /** On success the outputs and the result are those of the stages run on the scored
      rows, scored with the guide-level adjustment exactly when barcodes are used with
      one stage. */
  lemma {:induction false} PipelineScores(m: Math, fdr: seq<real> -> seq<real>, rra: Rra, input: Table, controlids: seq<string>,
                       treatids: seq<string>, opt: Options)
    requires TableInput(m, input, controlids, treatids) && Proceeds(input, controlids, treatids, opt.test)
    ensures ScoringInput(m, input, controlids, treatids)
    ensures var d := Scores(m, input, controlids, treatids, opt.normthreshold, opt.hasbarcode && !opt.tworra);
      var r := Pipeline(m, fdr, rra, input, controlids, treatids, opt);
      r.0 == Ok(Aggregate(m, fdr, rra, d, input.info, opt).0) && r.1 == Aggregate(m, fdr, rra, d, input.info, opt).1
  {
  }

  /** In two-stage mode the variance is never adjusted by guide. */
  lemma {:induction false} TwoStageNoAdjustment(m: Math, fdr: seq<real> -> seq<real>, rra: Rra, input: Table, controlids: seq<string>,
                             treatids: seq<string>, opt: Options)
    requires TableInput(m, input, controlids, treatids) && Proceeds(input, controlids, treatids, opt.test)
    requires opt.tworra
    ensures var outs := Pipeline(m, fdr, rra, input, controlids, treatids, opt).1;
      |outs| > 0 && outs[0].ScoreTable? && outs[0].data.adjvar == outs[0].data.estvar
  {
    PipelineScores(m, fdr, rra, input, controlids, treatids, opt);
    ScoresVariance(m, input, controlids, treatids, opt.normthreshold, false);
  }

  /** The first output is the scored table at the first-level file, with p-values
      `cdf(z)` and `sf(z)`, a two-sided p-value in [0, 1] and its FDR for every row; the
      share of significant rows passed to each aggregation lies in [0, 1]. */
  lemma {:induction false} AggregateTable(m: Math, fdr: seq<real> -> seq<real>, rra: Rra, d: Scored, info: seq<Info>, opt: Options)
    requires Sane(m) && |d.z| == |info| > 0
    ensures var outs := Aggregate(m, fdr, rra, d, info, opt).1;
      && |outs| >= 5 && outs[0].ScoreTable? && outs[0].file == FileOf(opt, FirstLevel)
      && outs[0].data == d && |outs[0].pcols| == 4
      && |outs[0].pcols[0]| == |outs[0].pcols[1]| == |outs[0].pcols[2]| == |info|
      && (forall i :: 0 <= i < |info| ==>
            outs[0].pcols[0][i] == m.cdf(d.z[i]) && outs[0].pcols[1][i] == m.sf(d.z[i]) &&
            0.0 <= outs[0].pcols[2][i] <= 1.0)
      && outs[0].pcols[3] == fdr(outs[0].pcols[2])
      && outs[2].RunRra? && outs[2].percentile.Some? && 0.0 <= outs[2].percentile.value <= 1.0
      && outs[4].RunRra? && outs[4].percentile.Some? && 0.0 <= outs[4].percentile.value <= 1.0
  {
    AggregateWritesFirstStage(m, fdr, rra, d, info, opt);
    FirstStageShape(m, fdr, d, info, opt);
  }

  /** The files a run writes before any aggregation are the scored table and the two
      ranked lists of the first stage. */
  lemma {:induction false} AggregateWritesFirstStage(m: Math, fdr: seq<real> -> seq<real>, rra: Rra, d: Scored, info: seq<Info>, opt: Options)
    requires |d.z| == |info|
    ensures var outs := Aggregate(m, fdr, rra, d, info, opt).1;
      var s := FirstStage(m, fdr, d, info, opt);
      && |outs| >= 5 && outs[0] == ScoreTable(FileOf(opt, FirstLevel), d, s.pcols)
      && outs[1] == RankFile(FileOf(opt, RraLowIn), s.lowIn) && outs[3] == RankFile(FileOf(opt, RraHighIn), s.highIn)
  {
    var s := FirstStage(m, fdr, d, info, opt);
    var outs := Aggregate(m, fdr, rra, d, info, opt).1;
    if opt.tworra {
      var rralow, rrahigh := rra(s.lowIn, s.pl), rra(s.highIn, s.ph);
      assert outs == FirstOutputs(s, opt) + SecondStage(rra, rralow, rrahigh, opt).1;
    } else {
      assert outs == FirstOutputs(s, opt);
    }
  }

  /** Each aggregation reads the list written just before it. With one stage the
      result merges the aggregations of the two first-stage lists. */
  lemma {:induction false} OneStageChaining(m: Math, fdr: seq<real> -> seq<real>, rra: Rra, d: Scored, info: seq<Info>, opt: Options)
    requires |d.z| == |info| && !opt.tworra
    ensures var (merged, outs) := Aggregate(m, fdr, rra, d, info, opt);
      && |outs| == 5 && outs[1].RankFile? && outs[2].RunRra? && outs[3].RankFile? && outs[4].RunRra?
      && outs[2].infile == outs[1].file && outs[4].infile == outs[3].file
      && merged == InnerJoin(rra(outs[1].records, outs[2].percentile), rra(outs[3].records, outs[4].percentile))
  {
  }

  /** The second stage first overwrites the files the first-stage aggregations wrote
      (the sgrna low and high files) with its re-keyed low list, and then aggregates
      each of them; each percentile is missing exactly when its first-stage
      aggregation found no group, and the result merges the two second-stage
      aggregations. */
  lemma {:induction false} SecondStageChaining(rra: Rra, rralow: seq<RraRow>, rrahigh: seq<RraRow>, opt: Options)
    requires opt.tworra
    ensures var (merged, outs) := SecondStage(rra, rralow, rrahigh, opt);
      && outs[0].file == FileOf(opt, RraLowOut) && outs[2].file == FileOf(opt, RraHighOut)
      && (outs[1].percentile.None? <==> |rralow| == 0)
      && (outs[3].percentile.None? <==> |rrahigh| == 0)
      && merged == InnerJoin(rra(outs[0].records, outs[1].percentile), rra(outs[2].records, outs[3].percentile))
  {
    AggregationRoles(opt);
  }

  /** With two stages a run writes the first-stage outputs, then the second stage run
      on the aggregations of the two first-stage lists, whose merge is the result. */
  lemma {:induction false} TwoStageChaining(m: Math, fdr: seq<real> -> seq<real>, rra: Rra, d: Scored, info: seq<Info>, opt: Options)
    requires |d.z| == |info| && opt.tworra
    ensures var (merged, outs) := Aggregate(m, fdr, rra, d, info, opt);
      && |outs| == 9 && outs[1].RankFile? && outs[2].RunRra? && outs[3].RankFile? && outs[4].RunRra?
      && var second := SecondStage(rra, rra(outs[1].records, outs[2].percentile), rra(outs[3].records, outs[4].percentile), opt);
         outs[5..] == second.1 && merged == second.0
  {
    var s := FirstStage(m, fdr, d, info, opt);
    var second := SecondStage(rra, rra(s.lowIn, s.pl), rra(s.highIn, s.ph), opt);
    var outs := Aggregate(m, fdr, rra, d, info, opt).1;
    assert outs == FirstOutputs(s, opt) + second.1;
    assert outs[5..] == second.1;
  }
}
