# MAGeCK-iBAR core, modelled in Dafny

This project models the core of MAGeCK-iBAR, which analyses CRISPR/Cas9 knockout screens that use internal barcodes (iBARs). Each guide RNA is carried by several barcodes, and the counts of every barcode are compared between control and treatment samples. The modelled parts are:

- `readdata` (ibar/programio.py): picks a reader by file extension, selects and renames the id and count columns, builds the guide id `gene.guide` and the barcode id `gene.guide.barcode`, and sets zero counts to 1.
- The table calculations of ibar/dfcalculate.py:
  - the geometric mean;
  - normalisation by median ratio, with a fallback to total count when a column has more than 45% zeros;
  - the weighted least-squares fit of a line;
  - the negative-binomial mean-variance model, with `k >= 1` and `b >= 0`;
  - the modelled variance.
- The two `analysis` pipelines.
  - They share their scoring:
    - `conlabels`;
    - the three-way fold-change bin;
    - the `large` flag;
    - the direction;
    - the guide-level variance adjustment for guides whose barcodes disagree in direction;
    - the z-score and the one- and two-sided p-values.
  - ibar/analysis.py writes the scored table and the two ranked lists for the rank aggregation program.
  - mibar/analysis.py adds the FDR column and the choice of output files. In two-stage mode it aggregates per guide id and then, a second time, per gene.
  - Every file a pipeline writes and every run of the rank aggregation program is one step in an output sequence, in the order the source performs them.
- The help-text builders and the `AppendHelp` decorator of ibar/decorator.py:
  - `textindent`, `textcode`, `textheader`, `textdescription` and `helpstring`;
  - `AppendHelp`, a class whose call appends the help text to a function's docstring in place.
- The library-mapping script makeinput.py (analysis_pipeline/analysis/step2_map_rawcount_to_library):
  - each read is matched to the library by `(guide, bar1)`, else by `(guide, stripped bar2)`, and unmatched reads are dropped;
  - counts are summed per `(gene, guide, barcode)`;
  - the samples are outer-joined, with 0 for a missing count;
  - the table is sorted by gene, guide and barcode: the sort is by gene and guide, the outer merges leave the table ordered by all three keys, and pandas sorts on several columns stably.

There is one module per source file: `DfCalculate`, `ProgramIo`, `Decorator`, `MakeInput`, `IbarAnalysis` and `MibarAnalysis`. The scoring both pipelines share is defined once, in `Scoring`. `Common` holds the shared table types and numeric helpers, and `Strings` models Python's `split` and `join`.

Methods model code that works step by step: the loops of `readdata`, `textdescription` and makeinput.py, the pipelines, and the decorator class. Each method is proved equal to a function of its inputs, and the properties are proved about those functions.

The mibar two-stage code writes the list built from the LOW first-stage aggregation to the second stage's high input file (mibar/analysis.py:341). The list it builds for the high direction (lines 331-340) is never used. The model follows the code, and `MibarAnalysis.SecondStage` states that the two second-stage inputs are the same list.

## Model

| member | source | states |
|---|---|---|
| Strings.Split | ibar/decorator.py:12 | splitting gives at least one part, and no part holds the separator |
| Strings.JoinSplit | ibar/decorator.py:12 | joining the parts of a split with the separator gives the text back |
| Strings.SplitJoin | ibar/decorator.py:18-24 | splitting a join of separator-free parts gives the parts back |
| Strings.JoinSplitIsReplace | ibar/decorator.py:11-12 | joining the parts of a split with another text replaces every separator by that text |
| Strings.LastSegmentIsSuffix | ibar/programio.py:18-19 | the last part of a split holds no separator and ends the text, right after a separator unless it is the whole text |
| Strings.SuffixIsLastSegment | ibar/programio.py:18-19 | a separator-free ending that follows a separator, or is the whole text, is the last part of the split |
| Strings.FirstSegmentOfJoin | mibar/analysis.py:309 | the first part of `a.b` split at dots is `a` when `a` has no dot |
| DfCalculate.GeoMean | ibar/dfcalculate.py:37-46 | an empty label list is an error; a single label gives its column back unchanged; otherwise one value per row |
| DfCalculate.GeoMeanPositive | ibar/dfcalculate.py:43-45 | rows of positive counts have a positive geometric mean |
| DfCalculate.ClampedGeoMeans | ibar/dfcalculate.py:68-69 | after the clamp of non-positive row means to 1, every row mean is positive |
| DfCalculate.MedianRatioFactors | ibar/dfcalculate.py:68-71 | one factor per column, and no factor is ever exactly 0, so the `medianfactor == 0` fallback cannot fire |
| DfCalculate.MedianRatioNormFactor | ibar/dfcalculate.py:63-72 | the buffer of row means clamped in place gives exactly the median-ratio factors |
| DfCalculate.SortedMedianPositive | ibar/dfcalculate.py:71 | the median of sorted non-negative values with at most 45% zeros is positive, for odd and even counts |
| DfCalculate.RatiosZeros | ibar/dfcalculate.py:70 | dividing by positive row means keeps non-negativity and the number of zeros |
| DfCalculate.MedianRatioPositive | ibar/dfcalculate.py:70-71 | a column of non-negative counts with at most 45% zeros has a positive median ratio |
| DfCalculate.MedianFactorsFinite | ibar/dfcalculate.py:68-72 | with non-negative counts and no column over 45% zeros every median factor is finite and positive |
| DfCalculate.TotalCountNormFactor | ibar/dfcalculate.py:76-80 | factor j times column j's sum is the mean column sum |
| DfCalculate.Scale | ibar/dfcalculate.py:96 | column j of the result is column j of the input times factor j |
| DfCalculate.ScalePositive | ibar/dfcalculate.py:96 | positive factors keep positive counts positive |
| DfCalculate.TotalCountEqualizesSums | ibar/dfcalculate.py:76-80 | after total-count scaling every column sums to the mean column sum |
| DfCalculate.NormFactors | ibar/dfcalculate.py:84-95 | one factor per column |
| DfCalculate.Normalization | ibar/dfcalculate.py:84-97 | the counts are scaled column by column by the factors the method name selects |
| DfCalculate.NormalizationNoneIsIdentity | ibar/dfcalculate.py:86-87 | method 'none' leaves the counts unchanged |
| DfCalculate.NormalizationOtherIsTotalCount | ibar/dfcalculate.py:85-88 | any method other than 'none' and 'median' uses the total-count factors |
| DfCalculate.NormalizationMedianFallback | ibar/dfcalculate.py:92-93 | method 'median' falls back to the total-count factors when some column has more than 45% zeros |
| DfCalculate.NormalizationMedianRatio | ibar/dfcalculate.py:89-95 | otherwise factor j is the reciprocal of column j's positive median ratio to the clamped row means |
| DfCalculate.NormFactorsPositive | ibar/dfcalculate.py:84-96 | every chosen factor is positive, whatever the method |
| DfCalculate.LineAlgebra | ibar/dfcalculate.py:129-130 | the closed-form slope and intercept recover b and a from the sums of points on y = a + b*x |
| DfCalculate.WeightedExactFit | ibar/dfcalculate.py:133-148 | points lying exactly on y = a + b*x are fitted exactly by the weighted fit, returned as (b, a) |
| DfCalculate.UnweightedExactFit | ibar/dfcalculate.py:123-131 | points lying exactly on y = a + b*x are fitted exactly by the unweighted fit, returned as (b, a) |
| DfCalculate.LeastSquare | ibar/dfcalculate.py:123-148 | there is no fit exactly when the denominator is 0: n times the sum of x squared minus the squared sum of x without weights, and the weighted denominator with weights |
| DfCalculate.UnitWeightIsUnweighted | ibar/dfcalculate.py:124-148 | weighting every point by 1 gives the same fit as no weight |
| DfCalculate.FewGoodRowsDegenerate | ibar/dfcalculate.py:146-147 | with at most one point the weighted denominator is 0, so there is no finite fit |
| DfCalculate.RowVariance | ibar/dfcalculate.py:174 | a row variance exists exactly when the row has at least two values, and is non-negative |
| DfCalculate.Variances | ibar/dfcalculate.py:174 | one variance per row, each the variance of that row across the labels |
| DfCalculate.GoodRows | ibar/dfcalculate.py:175 | exactly the rows whose geometric mean is below their variance, in increasing table order |
| DfCalculate.DispersionFit | ibar/dfcalculate.py:173-184 | with at most one row whose geometric mean is below its variance there is no finite fit |
| DfCalculate.GoodRowsAgree | ibar/dfcalculate.py:175 | two tables whose means and variances agree on every row that is good in either select the same rows |
| DfCalculate.FitDataAgree | ibar/dfcalculate.py:175-184 | two such tables give the same good rows and the same fit points and weights |
| DfCalculate.FitUsesOnlyGoodRows | ibar/dfcalculate.py:175-185 | the rows that are not good do not affect the fit: two tables agreeing on every row that is good in either give the same fit |
| DfCalculate.ModelMeanVarAsWritten | ibar/dfcalculate.py:173-188 | no labels is an error; a finite fit gives k >= 1 and b >= 0 |
| DfCalculate.ModelMeanVar | ibar/dfcalculate.py:173-188 | no labels is an error; otherwise always k >= 1 and b >= 0, with (1, 0) for a degenerate fit |
| DfCalculate.ModelMeanVarAgrees | ibar/dfcalculate.py:185-188 | whenever the fit is finite the corrected estimator returns the same (k, b) |
| DfCalculate.ConstantControlsGiveNaN | ibar/dfcalculate.py:173-188 | two identical replicates give no good row, so the as-written k and b are NaN while the corrected ones are (1, 0) |
| DfCalculate.EstVar | ibar/dfcalculate.py:215-218 | one variance per row, never below a non-negative mean |
| ProgramIo.ExtensionIff | ibar/programio.py:18-31 | a path's text after its last dot is a dot-free extension exactly when the path is that extension or ends with a dot followed by it |
| ProgramIo.IsCsvIff | ibar/programio.py:18-19 | `iscsv` holds exactly for "csv" and for paths ending in ".csv" |
| ProgramIo.Reader | ibar/programio.py:83-89 | the three tests never hold together; the comma reader exactly for csv, the tab reader exactly for tsv or txt, and otherwise the error "Wrong input file type." |
| ProgramIo.IdLabels | ibar/programio.py:98-105 | the selected id columns are gene, guide and barcode, with the guide column standing in for the barcode when there is no barcode |
| ProgramIo.DotJoinParts | ibar/programio.py:119-126 | joining two or three ids puts exactly one dot between neighbours |
| ProgramIo.RowInfo | ibar/programio.py:114-128 | a row keeps its gene, guide and barcode |
| ProgramIo.Infos | ibar/programio.py:114-128 | one id record per row, built from that row's gene, guide and barcode |
| ProgramIo.ClampZero | ibar/programio.py:131-132 | zero counts become 1 and every other count is kept |
| ProgramIo.ClampZeroProperties | ibar/programio.py:131-132 | after the clamp no count is 0, non-negative counts are positive, and clamping again changes nothing |
| ProgramIo.AsWrittenBids | ibar/programio.py:123-128 | the bid column as written has one entry per row when it exists |
| ProgramIo.ClampZeroCounts | ibar/programio.py:131-132 | the loop leaves exactly one clamped column per sample label |
| ProgramIo.ReadData | ibar/programio.py:63-134 | reading step by step gives the table of the corrected reader |
| ProgramIo.Read | ibar/programio.py:63-134 | a wrong extension fails with "Wrong input file type."; otherwise reading fails exactly when an id column or a sample column is missing |
| ProgramIo.ReadAsWritten | ibar/programio.py:63-134 | a wrong extension fails with "Wrong input file type."; with barcodes, an input without raw columns named gene, guide and barcode fails; a success gives one bid per row |
| ProgramIo.ReadCounts | ibar/programio.py:114-134 | the table has one entry per row in every count column, exactly one column per sample label, no zero count, and every non-zero count kept |
| ProgramIo.ReadIds | ibar/programio.py:114-128 | each row carries the selected gene, guide and barcode, gid is gene.guide, and bid is gene.guide.barcode, or gid without barcodes |
| ProgramIo.GuideIdGene | ibar/programio.py:119-121 | the text before the first dot of gid is the gene, when the gene has no dot |
| ProgramIo.BidFromRawColumns | ibar/programio.py:123-126 | with barcodes and a gene column not named "gene", reading as written fails, while the corrected reader succeeds on the same input |
| Decorator.Indentation | ibar/decorator.py:11 | the text after each newline holds no newline |
| Decorator.TextIndent | ibar/decorator.py:6-12 | a non-string gives ""; a string has every newline replaced by a newline followed by the indentation |
| Decorator.TextIndentLines | ibar/decorator.py:6-12 | indenting keeps the number of newlines and leaves a one-line text unchanged; the lines of the result are the first line followed by every other line with the indentation in front |
| Decorator.TextCode | ibar/decorator.py:18-24 | for code lines without newlines, the lines joined by newlines, a prompt after every newline, and a first prompt in front |
| Decorator.TextCodeLines | ibar/decorator.py:18-24 | no code gives a bare prompt; otherwise the lines of the text are exactly the code lines, each with the prompt in front |
| Decorator.TextHeader | ibar/decorator.py:30-33 | the header, a newline, and as many dashes as the header has characters |
| Decorator.TextHeaderLines | ibar/decorator.py:30-33 | a one-line header gives exactly two lines: the header, then as many dashes as the header has characters |
| Decorator.DescribeText | ibar/decorator.py:44-49 | a list or a string always yields a text; any other value keeps the previous one |
| Decorator.Entries | ibar/decorator.py:42-50 | on success there is one entry per item of the dictionary |
| Decorator.CarryNone | ibar/decorator.py:43-49 | the text is unbound exactly while every value so far is neither a list nor a string |
| Decorator.EntriesErr | ibar/decorator.py:43-50 | the entries fail exactly when the first value is neither a list nor a string |
| Decorator.EntriesText | ibar/decorator.py:43-50 | entry i is key i, " : ", and the text in force: a string as it is, a list joined by newlines and indented once, and for any other value the previous item's text |
| Decorator.EntriesErrExtends | ibar/decorator.py:43-50 | a failure in the first items is the failure of the whole dictionary |
| Decorator.TextDescription | ibar/decorator.py:39-51 | the loop's result is the entries joined by newlines, or the failure of an unbound text |
| Decorator.Description | ibar/decorator.py:39-51 | the description fails exactly when the first value is neither a list nor a string |
| Decorator.Sections | ibar/decorator.py:64-97 | the description comes first and each given argument adds one section, parameters, returns and examples in that order; only a failing parameter description fails |
| Decorator.JoinStartsWithFirst | ibar/decorator.py:98 | a joined text begins with its first part |
| Decorator.HelpString | ibar/decorator.py:57-98 | the help string fails exactly when the parameter description fails, and otherwise begins with the description |
| Decorator.Function.constructor | ibar/decorator.py:110-111 | a function starts with the docstring it is given |
| Decorator.Appended | ibar/decorator.py:111-115 | the new docstring is the old one, or "" without one, then the separator, then the help text: its length adds up, it starts with the old docstring and ends with the help text |
| Decorator.AppendedHelpIsLast | ibar/decorator.py:115 | with a one-character separator absent from the help text, the help text is what follows the last separator |
| Decorator.AppendHelp.constructor | ibar/decorator.py:107-109 | the decorator keeps its help text and its separator |
| Decorator.AppendHelp.Call | ibar/decorator.py:110-116 | the same function is returned with the help text appended to its docstring |
| Scoring.ConLabels | mibar/analysis.py:105-107 | the labels are the controls, or the controls followed by the treatments; with at least one of each there are always two or more |
| Scoring.LfcBin | mibar/analysis.py:155-159 | the additive bin is -1 exactly when lfc <= -0.1, 0 exactly when -0.1 < lfc < 0.1, and 1 exactly when lfc >= 0.1 |
| Scoring.LfcBinMonotone | mibar/analysis.py:155-159 | the bin never decreases as the fold change grows |
| Scoring.Lfc | mibar/analysis.py:148-152 | one log2 fold change per row |
| Scoring.LargeMonotone | mibar/analysis.py:162-164 | a row that is large for a threshold is large for every lower threshold |
| Scoring.Large | mibar/analysis.py:162-164 | a large row has more values than there are controls |
| Scoring.Direction | mibar/analysis.py:167-169 | the direction is the bin on large rows and 0 on the others |
| Scoring.RowsOf | mibar/analysis.py:178-188 | exactly the rows of a guide, with their positions in the table |
| Scoring.SameDirection | mibar/analysis.py:182-194 | a guide none of whose rows points down, or none up, has `samedirection` |
| Scoring.DisagreeIff | mibar/analysis.py:182-194 | with directions in {-1, 0, 1}, a guide lacks `samedirection` exactly when one of its rows points up and another points down |
| Scoring.DisagreeHasBoth | mibar/analysis.py:182-194 | a guide without `samedirection` has a row with direction 1 and a row with direction -1 |
| Scoring.BothDisagree | mibar/analysis.py:182-194 | a guide with an up row and a down row lacks `samedirection` |
| Scoring.GuideMeanVar | mibar/analysis.py:178-180 | the per-guide mean of non-negative control variances is non-negative |
| Scoring.AdjVar | mibar/analysis.py:175-208 | one adjusted variance per row |
| Scoring.AdjVarRows | mibar/analysis.py:175-208 | without adjustment each variance is the model variance; with it, rows of a guide with one direction keep the model variance and the others add the guide's mean control variance |
| Scoring.AdjVarAtLeastEstVar | mibar/analysis.py:199-206 | the adjusted variance is never below the model variance |
| Scoring.AdjVarOnlyDisagreeing | mibar/analysis.py:199-206 | only rows of a guide with both an up row and a down row have a changed variance |
| Scoring.ZScores | mibar/analysis.py:213-215 | one score per row |
| Scoring.ZScoreSign | mibar/analysis.py:213-215 | a row's score is positive exactly when the treatment mean exceeds the control mean, and negative exactly when it falls below |
| Scoring.PTwoSide | mibar/analysis.py:225-228 | the two-sided p-value is twice the smaller one-sided p-value |
| Scoring.PTwoSideInUnit | mibar/analysis.py:221-228 | with p.low = cdf(z) and p.high = sf(z), the two-sided p-value lies in [0, 1] |
| Scoring.PTwoSides | mibar/analysis.py:221-228 | one two-sided p-value per row, each in [0, 1] |
| Scoring.Percentile | mibar/analysis.py:258-260 | no values gives NaN; otherwise the share of values below the threshold, in [0, 1] |
| Scoring.PercentileMonotone | mibar/analysis.py:258-260 | a higher threshold never gives a smaller share |
| Scoring.RankInput | mibar/analysis.py:243-252 | one record per row, with pool "list", prob 1 and chosen 1 |
| Scoring.RankedList | mibar/analysis.py:254-256 | the records sorted by ascending p, as a permutation of the unsorted records |
| Scoring.RankedListRecords | mibar/analysis.py:243-256 | every ranked record has pool "list", prob 1 and chosen 1 |
| Scoring.RankedListHasRows | mibar/analysis.py:243-256 | every row of the table has its record in the ranked list |
| Scoring.LowList | mibar/analysis.py:243-256 | the low-direction list keyed by bid, sorted by score, holding every row's record |
| Scoring.HighList | mibar/analysis.py:272-285 | the high-direction list keyed by bid, sorted by negated score, holding every row's record |
| Scoring.HighListDescending | mibar/analysis.py:277-285 | the high-direction list runs from the largest score down to the smallest |
| Scoring.GroupSymbols | mibar/analysis.py:309 | each symbol is the group id's text before its first '.' |
| Scoring.StageTwoList | mibar/analysis.py:306-318 | one record per first-stage group, sorted by beta |
| Scoring.StageTwoSymbol | mibar/analysis.py:306-318 | a first-stage group gene.guide is listed under gene in the second stage |
| Scoring.MatchesOf | mibar/analysis.py:299-302 | the pairs of a low row with the high rows of its group id: every such high row appears, and there are as many pairs as such rows |
| Scoring.InnerJoin | mibar/analysis.py:299-302 | exactly the pairs of a low row and a high row with the same group id |
| Scoring.InnerJoinOrder | mibar/analysis.py:299-302 | the merge keeps the order of the low rows, each followed by its matches in the order of the high rows |
| Scoring.InnerJoinDropsUnmatched | mibar/analysis.py:299-302 | a group that only the low direction reports is left out of the merge |
| Scoring.InputColumns | mibar/analysis.py:112-118 | the selected count columns are rectangular and non-negative with positive sums |
| Scoring.SelectRelabelled | mibar/analysis.py:112-120 | after relabelling, every label selects its normalised column |
| Scoring.MeansPositive | mibar/analysis.py:140-141 | normalised positive counts give positive control and treatment means |
| Scoring.VariancesPositive | mibar/analysis.py:143-215 | positive means give model variances at least the mean and adjusted variances at least the model variance, so every square root is positive |
| Scoring.Fit | mibar/analysis.py:112-142 | normalised columns of the table's shape, k >= 1 and b >= 0, positive means and non-negative control variances |
| Scoring.Derive | mibar/analysis.py:143-219 | each variance at least the model variance, which is at least the positive control mean; without adjustment they are equal |
| Scoring.Scores | mibar/analysis.py:105-219 | every column the scoring adds has one entry per row |
| Scoring.NormCounts | mibar/analysis.py:112-120 | one normalised column per label, each selectable by its label |
| Scoring.Bins | mibar/analysis.py:155-159 | the bin column applies the bin rule to every row |
| Scoring.LargeFlags | mibar/analysis.py:162-164 | the large column applies the threshold rule to every row |
| Scoring.Directions | mibar/analysis.py:167-169 | the direction column applies the direction rule to every row |
| Scoring.ScoreData | mibar/analysis.py:105-219 | the table built one column at a time is the scoring function's result |
| Scoring.DeriveData | mibar/analysis.py:143-219 | the derived columns built one at a time are the derivation function's result |
| Scoring.FitData | mibar/analysis.py:112-142 | the fitted statistics built step by step are the fit function's result |
| Scoring.ScoresDispersion | mibar/analysis.py:127-130 | the scoring's dispersion parameters satisfy k >= 1 and b >= 0 |
| Scoring.ScoresRules | mibar/analysis.py:155-169 | every bin, large flag and direction of the scoring follows its rule |
| Scoring.ScoresVariance | mibar/analysis.py:143-208 | the model variance is at least the positive control mean and the adjusted variance at least the model variance; without adjustment they are equal |
| Scoring.ScoresSign | mibar/analysis.py:213-219 | a row's score is positive exactly when its treatment mean exceeds its control mean, and negative exactly when it falls below |
| IbarAnalysis.OutputFiles | ibar/analysis.py:70-76 | every role's file name is the prefix followed by that role's suffix |
| IbarAnalysis.FileNamesDistinct | ibar/analysis.py:70-76 | the five output files are pairwise different |
| IbarAnalysis.Pipeline | ibar/analysis.py:56-252 | the pipeline fails exactly on a missing label, an empty control or treatment list, or a test other than "norm"; the first two write nothing |
| IbarAnalysis.Stages | ibar/analysis.py:195-252 | the stages succeed exactly with the "norm" test and then write five outputs, otherwise two; the first is the scored table, without p-values exactly when the test is not "norm", and the second the low list at the plow file |
| IbarAnalysis.Analysis | ibar/analysis.py:56-252 | the scored table and the ranked lists written step by step are the pipeline function's result and effects |
| IbarAnalysis.WriteRanks | ibar/analysis.py:195-252 | the outputs written step by step after the scoring are those of the stage function, and so is the failure |
| IbarAnalysis.PipelineErrors | ibar/analysis.py:82-252 | a test other than "norm" fails after writing the table without p-values and the low list; success writes five outputs |
| IbarAnalysis.StagesWrites | ibar/analysis.py:195-252 | with the "norm" test the table gains cdf(z) and sf(z), and each aggregation reads the list written just before it into its gene file, with a percentile in [0, 1] |
| IbarAnalysis.StagesLists | ibar/analysis.py:230-243 | with the "norm" test the fourth output is the high list, at the phigh file |
| IbarAnalysis.LowListRows | ibar/analysis.py:205-218 | the low list holds each row's record keyed by bid, with the gene as symbol and the score as p, in ascending order of p |
| IbarAnalysis.HighListRows | ibar/analysis.py:230-243 | the high list holds each row's record with the negated score as p, in ascending order of p |
| MibarAnalysis.OutputFiles | mibar/analysis.py:73-99 | the dictionary holds exactly the keys of the run's mode, each with the prefix followed by its suffix; the second-stage keys only with two stages |
| MibarAnalysis.FirstLevelRole | mibar/analysis.py:84-86 | the first-level table is the barcode file exactly when barcodes are used or there are two stages, and the sgRNA file otherwise |
| MibarAnalysis.AggregationRoles | mibar/analysis.py:87-99 | one stage reads plow/phigh and writes gene.low/gene.high; two stages write sgrna.low/high, which the second stage reads before writing gene.low/gene.high |
| MibarAnalysis.FileNamesDistinct | mibar/analysis.py:73-83 | the nine named files are pairwise different |
| MibarAnalysis.Symbols | mibar/analysis.py:234-237 | a row's aggregation key is its gene with one stage and its guide id with two |
| MibarAnalysis.FirstStage | mibar/analysis.py:221-289 | the scored table is kept with four p-value columns, and both first-stage lists hold one record per row |
| MibarAnalysis.FirstStageShape | mibar/analysis.py:221-289 | the p-value columns are cdf(z), sf(z), a two-sided p-value in [0, 1] and its FDR; each direction's share of significant rows lies in [0, 1]; both lists hold one record per row in ascending order of p |
| MibarAnalysis.PColumns | mibar/analysis.py:221-229 | the four p-value columns: cdf(z), sf(z), a two-sided p-value in [0, 1], and the FDR of that column |
| MibarAnalysis.FirstOutputs | mibar/analysis.py:230-297 | the first-level table, then for each direction its ranked list and the aggregation run reading that list, in the order written |
| MibarAnalysis.Aggregate | mibar/analysis.py:221-358 | the outputs after the scoring number five, or nine with two stages, and the first is the scored table |
| MibarAnalysis.SecondStage | mibar/analysis.py:304-357 | four outputs: the re-keyed list of the low first-stage groups, the aggregation reading it, the same list again, and the aggregation reading that |
| MibarAnalysis.Analysis | mibar/analysis.py:57-358 | the result and the outputs built step by step are those of the pipeline function |
| MibarAnalysis.RankAndAggregate | mibar/analysis.py:221-358 | the merge and the outputs after the scoring are those of the aggregation function |
| MibarAnalysis.AggregateFirstStage | mibar/analysis.py:230-297 | the two first-stage aggregations and the five first-stage outputs, in the order written |
| MibarAnalysis.RankFirstStage | mibar/analysis.py:221-289 | the p-value columns, the two ranked lists and the two percentiles are those of the first-stage function |
| MibarAnalysis.Regroup | mibar/analysis.py:304-357 | the second-stage merge and outputs are those of the second-stage function |
| MibarAnalysis.Pipeline | mibar/analysis.py:57-358 | the pipeline fails exactly on a missing label, an empty control or treatment list, or a test other than "norm", and then writes nothing; otherwise it writes five outputs, or nine with two stages |
| MibarAnalysis.PipelineScores | mibar/analysis.py:171-208 | on success the result and the outputs come from rows scored with the guide-level adjustment exactly when barcodes are used with one stage |
| MibarAnalysis.TwoStageNoAdjustment | mibar/analysis.py:171-172 | with two stages the written table's adjusted variance is the model variance |
| MibarAnalysis.AggregateTable | mibar/analysis.py:221-297 | the first output is the scored table at the first-level file with cdf(z), sf(z), a two-sided p-value in [0, 1] and its FDR; each aggregation's percentile lies in [0, 1] |
| MibarAnalysis.AggregateWritesFirstStage | mibar/analysis.py:230-285 | the first files written are the scored table and the two first-stage ranked lists |
| MibarAnalysis.OneStageChaining | mibar/analysis.py:254-302 | each aggregation reads the list written just before it; with one stage the result merges the two first-stage aggregations |
| MibarAnalysis.SecondStageChaining | mibar/analysis.py:304-357 | the second stage writes its two lists over the first-stage sgrna low and high files; a percentile is missing exactly when its first-stage aggregation found no group; the result merges the two second-stage aggregations |
| MibarAnalysis.TwoStageChaining | mibar/analysis.py:299-358 | with two stages the first-stage outputs are followed by the second stage run on the two first-stage aggregations, whose merge is the result |
| MakeInput.StripLeft | analysis_pipeline/analysis/step2_map_rawcount_to_library/makeinput.py:50 | the result is a suffix of the text, everything cut off is whitespace, and it does not start with whitespace |
| MakeInput.StripRight | analysis_pipeline/analysis/step2_map_rawcount_to_library/makeinput.py:50 | the result is a prefix of the text, everything cut off is whitespace, and it does not end with whitespace |
| MakeInput.Strip | analysis_pipeline/analysis/step2_map_rawcount_to_library/makeinput.py:50 | the stripped text is no longer than the text and has no whitespace at either end |
| MakeInput.StripSlice | analysis_pipeline/analysis/step2_map_rawcount_to_library/makeinput.py:50 | the stripped text is a slice of the text with only whitespace before and after it |
| MakeInput.StripIdempotent | analysis_pipeline/analysis/step2_map_rawcount_to_library/makeinput.py:50 | stripping a stripped text again changes nothing |
| MakeInput.Matches | analysis_pipeline/analysis/step2_map_rawcount_to_library/makeinput.py:56-72 | exactly the reference rows with the read's guide and the given barcode |
| MakeInput.FirstMatchRows | analysis_pipeline/analysis/step2_map_rawcount_to_library/makeinput.py:66-90 | as many rows as the bar1 matches times the rows of the second merge; when that number is positive, the keys are exactly those of the bar1 matches |
| MakeInput.FirstMatchRowsBlock | analysis_pipeline/analysis/step2_map_rawcount_to_library/makeinput.py:66-90 | the bar1 matches come in order, each as a block of copies of its key, one per row of the second merge |
| MakeInput.SecondMatchRows | analysis_pipeline/analysis/step2_map_rawcount_to_library/makeinput.py:76-90 | one row per stripped-bar2 match, in order, with that match's gene and barcode |
| MakeInput.MergedRows | analysis_pipeline/analysis/step2_map_rawcount_to_library/makeinput.py:56-98 | for any library, a read always becomes at least one row, and its keys are those of its bar1 matches when there are any, else those of its stripped-bar2 matches, else the single key with an empty gene and barcode |
| MakeInput.MergedRowsCount | analysis_pipeline/analysis/step2_map_rawcount_to_library/makeinput.py:56-72 | a read becomes as many rows as the product of its numbers of matches by bar1 and by stripped bar2, each counted as 1 when there is none |
| MakeInput.MatchesUnique | analysis_pipeline/analysis/step2_map_rawcount_to_library/makeinput.py:56-72 | with no two library rows sharing guide and barcode, a read has at most one match per barcode |
| MakeInput.OnlyMatch | analysis_pipeline/analysis/step2_map_rawcount_to_library/makeinput.py:56-72 | with unique library keys, a matching library row is the only match |
| MakeInput.MatchFirstBarcode | analysis_pipeline/analysis/step2_map_rawcount_to_library/makeinput.py:56-90 | with unique library keys, a read matching by (guide, bar1) becomes one row with that match's gene and barcode, whatever bar2 matches |
| MakeInput.MatchSecondBarcode | analysis_pipeline/analysis/step2_map_rawcount_to_library/makeinput.py:66-90 | with unique library keys, a read with no bar1 match that matches by (guide, stripped bar2) becomes one row with that match's gene and barcode |
| MakeInput.MatchNeither | analysis_pipeline/analysis/step2_map_rawcount_to_library/makeinput.py:76-90 | a read matching by neither barcode becomes one row with an empty gene and barcode |
| MakeInput.AddRowsGet | analysis_pipeline/analysis/step2_map_rawcount_to_library/makeinput.py:100-102 | a key is summed exactly when it already was or is a row with a gene, and its sum grows by the count for each such row |
| MakeInput.SumsTotal | analysis_pipeline/analysis/step2_map_rawcount_to_library/makeinput.py:100-102 | the sums hold exactly the keys with a gene that some read becomes, each with its total over the reads |
| MakeInput.GroupSum | analysis_pipeline/analysis/step2_map_rawcount_to_library/makeinput.py:100-102 | no key of a group sum has an empty gene |
| MakeInput.GroupSumTotal | analysis_pipeline/analysis/step2_map_rawcount_to_library/makeinput.py:47-104 | a sample's group sum holds exactly the keys with a gene that some read becomes, each with its read count once per merged row equal to the key |
| MakeInput.Paired | analysis_pipeline/analysis/step2_map_rawcount_to_library/makeinput.py:47 | labels and files are paired up to the shorter of the two lists |
| MakeInput.SampleSums | analysis_pipeline/analysis/step2_map_rawcount_to_library/makeinput.py:47-104 | one group sum per file, each that file's group sum |
| MakeInput.Best | analysis_pipeline/analysis/step2_map_rawcount_to_library/makeinput.py:47-104 | the labels of the dictionary are exactly those of the paired files |
| MakeInput.BestLabels | analysis_pipeline/analysis/step2_map_rawcount_to_library/makeinput.py:47-104 | a label not repeated by a later file holds the sums of its own file |
| MakeInput.StrLeTotal | analysis_pipeline/analysis/step2_map_rawcount_to_library/makeinput.py:123 | any two strings are ordered one way or the other |
| MakeInput.StrLeTrans | analysis_pipeline/analysis/step2_map_rawcount_to_library/makeinput.py:123 | the string order is transitive |
| MakeInput.StrLeAntisym | analysis_pipeline/analysis/step2_map_rawcount_to_library/makeinput.py:123 | two strings ordered both ways are equal |
| MakeInput.KeyLeTotal | analysis_pipeline/analysis/step2_map_rawcount_to_library/makeinput.py:123 | any two keys are ordered by gene, then guide, then barcode, one way or the other |
| MakeInput.KeyLeTrans | analysis_pipeline/analysis/step2_map_rawcount_to_library/makeinput.py:123 | the order by gene, then guide, then barcode, is transitive |
| MakeInput.StrLtTrans | analysis_pipeline/analysis/step2_map_rawcount_to_library/makeinput.py:123 | two strict steps of the string order give a strict step |
| MakeInput.KeyLeAntisym | analysis_pipeline/analysis/step2_map_rawcount_to_library/makeinput.py:123 | two keys ordered both ways are equal |
| MakeInput.InsertKey | analysis_pipeline/analysis/step2_map_rawcount_to_library/makeinput.py:123 | one more key, and exactly the old keys and the new one |
| MakeInput.InsertKeySorted | analysis_pipeline/analysis/step2_map_rawcount_to_library/makeinput.py:123 | inserting into a sorted sequence keeps it sorted |
| MakeInput.InsertKeyDistinct | analysis_pipeline/analysis/step2_map_rawcount_to_library/makeinput.py:123 | inserting a new key into a sequence without repeats gives one without repeats |
| MakeInput.SortKeys | analysis_pipeline/analysis/step2_map_rawcount_to_library/makeinput.py:112-123 | the keys of the join sorted by gene, then guide, then barcode, each exactly once |
| MakeInput.SortedKeysUnique | analysis_pipeline/analysis/step2_map_rawcount_to_library/makeinput.py:123 | two sorted sequences without repeats holding the same keys are equal, so the sorted order is unique |
| MakeInput.CollectSamples | analysis_pipeline/analysis/step2_map_rawcount_to_library/makeinput.py:43-104 | the loop leaves the dictionary of each paired label's sums, a later file of the same label replacing an earlier one |
| MakeInput.JoinSamples | analysis_pipeline/analysis/step2_map_rawcount_to_library/makeinput.py:112-128 | sorted rows, one per key that any label's sums hold, with each label's sum of the key in its column and 0 where the label has none |
| MakeInput.MakeInput | analysis_pipeline/analysis/step2_map_rawcount_to_library/makeinput.py:39-128 | fails exactly when there are no labels or some label has no file; otherwise sorted rows, one per key of any label's sums, with a column per label holding that label's sum of the key or 0 |
| MakeInput.Keys | analysis_pipeline/analysis/step2_map_rawcount_to_library/makeinput.py:122-123 | the keys of the rows, in order |
| MakeInput.OwnFileCounts | analysis_pipeline/analysis/step2_map_rawcount_to_library/makeinput.py:47-128 | with distinct labels and a file for each, every label is present and its count of a key is the key's total in that label's own file |

## Left out

- Reading and writing files, CSV/TSV parsing, logging, argument parsing and the closing message on standard output. A parsed file is a parameter of `ProgramIo.Read` (`parse`), and makeinput.py's reference and reads come in as values. A written file is an output record naming the file and its content. The text formatting of written numbers is not modelled.
- The rank aggregation program (`robustrank`, `read_rra`) is an external executable. It is a function parameter `rra` from ranked records and a percentile to output rows. `array_fdr` is a function parameter `fdr`.
- Floating-point arithmetic: numbers are exact reals. `np.log`, `np.exp`, `np.log2`, `np.sqrt`, `x ** k`, `2 ** b`, `norm.cdf` and `norm.sf` are opaque functions passed in a record. Only a few facts about them are taken as given: positivity, `exp > 1` for positive arguments, `ln > 0` above 1, `0 <= cdf <= 1`, and `cdf + sf == 1`. A NaN appears as `None` in the table calculations where the source's result depends on it: a median of 0, a fit with denominator 0 (`DfCalculate.LeastSquare`, `DfCalculate.DispersionFit`, `DfCalculate.ModelMeanVarAsWritten`), a variance of fewer than two values, and a percentile of no values. The pipelines do not carry the NaN fit through (see `Scoring.Fit` below).
- DfCalculate.TotalCountNormFactor: requires non-zero column sums. For a column summing to 0 the source gives an infinite factor, which is not modelled. `readdata` leaves every count at least 1, so the pipelines never see such a column.
- Scoring.Fit: both pipelines, `IbarAnalysis.Pipeline` and `MibarAnalysis.Pipeline`, fit the dispersion with the corrected estimator `DfCalculate.ModelMeanVar`, not with the source's `df_modelmeanvar`. On a degenerate fit the model uses k = 1 and b = 0. This happens with a one-row table, or with controls equal in every row. The source instead writes NaN for k, b, estvar, adjvar, the z-scores and the p-values there, and percentiles of 0. The contracts of `Scoring.ScoresDispersion`, `Scoring.ScoresVariance`, `Scoring.ScoresSign`, `Scoring.Scores`, `Scoring.ScoreData`, `Scoring.FitData`, `IbarAnalysis.Analysis`, `MibarAnalysis.Analysis` and `MibarAnalysis.PipelineScores` are about those corrected values. The as-written estimator and its NaN are stated under Findings.
- DfCalculate.NormFactors / DfCalculate.Normalization: require every column to sum to more than 0 (`ColumnSumsPositive`), and so do the lemmas that share their requires. The source accepts a zero-sum column: method 'none' leaves it unchanged, and the other methods scale it by an infinite factor. Infinite values are not modelled. `readdata` leaves every count at least 1, so the pipelines never see such a column.
- IbarAnalysis.Pipeline: requires distinct sample labels, one row or more, and positive counts for the labels present, as `readdata` leaves them. A repeated label makes pandas select duplicate columns, and that is not modelled.
- MibarAnalysis.Pipeline: the same requirements as the single-stage pipeline, for the same reason.
- Pandas details beyond the values: the index, column names and column order of intermediate frames. `df_geomean` of a single label returns a one-column frame, modelled as that column. Pandas' NaN-skipping in `median` and `var` does not arise, because inputs carry no NaN.
- The concrete help texts built for each documented function (the `_helpdoc` entries) and their attachment at import time. The builders and the decorator are modelled; the entries themselves are data.
- Decorator.Entries: keys and list items are strings. A non-string key or list item makes the source's `' : '.join` raise a `TypeError`, which is not modelled. A value of any other type is modelled (`Describe.Other`), including the unbound-name error it causes as the first value.
- Decorator.Function: a function object is modelled as its docstring only.
- MakeInput.Strip: only ASCII whitespace is stripped. Python's `str.strip()` also strips Unicode whitespace.
- MakeInput.ReadRow: every field of a count file is present. A short line gives NaN in `bar2`, which never matches, and that is not modelled.
- MakeInput.JoinSamples: output column headers are not modelled. A label given twice is merged twice under suffixed headers; the model gives both columns that label's sums.
- MakeInput.CollectSamples: takes the group sums of the files already computed. The merge and sum done in the source's loop body are the function `MakeInput.GroupSum`, which `MakeInput.MakeInput` evaluates for every file before the loop. This does not change the result, because the sums of one file do not depend on the others.

## Findings

| source | as written | input that shows it | evidently intended | confidence | as-written member | corrected member |
|---|---|---|---|---|---|---|
| ibar/dfcalculate.py:185-187 | `max(k, 1)` and `max(b, 0)` of a fit whose denominator is 0 stay NaN, because Python's `max(nan, 1)` is `nan` | control replicates equal in every row (counts 5 and 5): every variance is 0, below the positive geometric mean, so no row is "good" and the weighted fit divides by zero | `k >= 1` and `b >= 0` for every input, as the two clamps promise; the corrected member falls back to `(1, 0)` | not executed; medium | DfCalculate.ModelMeanVarAsWritten, DfCalculate.ConstantControlsGiveNaN | DfCalculate.ModelMeanVar |
| ibar/programio.py:123-126 | `bid` is built from `inputdata[['gene', 'guide', 'barcode']]`, the input's own headers, not from the renamed copy `data` | a file whose gene column is headed `Gene`, read with `genelab='Gene'` and barcodes: the lookup of `gene` raises `KeyError` | `bid` built from the renamed columns, like `gid` two lines before | not executed; high | ProgramIo.ReadAsWritten, ProgramIo.BidFromRawColumns | ProgramIo.Read, ProgramIo.ReadIds |
