# TMM pipeline core in Dafny

A model of the data-processing core of TMM, a Cytoscape plugin that classifies
tumour samples by their telomere maintenance mechanism (ALT, Telomerase,
Normal, or ALT+/Telomerase+). The plugin reads an expression matrix and a node
table, turns them into a fold-change matrix, reads the PSF summary file
produced by pathway flow analysis, labels samples from a TMM labels file and
user-defined group files, separates the samples with a one-dimensional linear
classifier, and draws box plots with rank-sum statistics. The model follows the
Java classes one module per class:

- `Common` (common.dfy): Java `double` division, `String.split`, `Integer.parseInt`
  and its decimal printing, and small list helpers shared by the readers.
- `ExpMat` (exp_mat.dfy): `ExpMatFileHandler` - reading the node table, filling
  the fold-change matrix row by row from the expression file, normalising each
  gene's row by its mean, and writing the matrix back out.
- `Summary` (summary.dfy): `SummaryFileHandler` - reading the sample header and the
  ALT and Telomerase rows of the PSF summary file, with the score and p value
  ranges it keeps.
- `TmmLabels` (tmm_labels.dfy): `TMMLabels` - the category matrix, loading a
  labels file, its validator and the template generator.
- `ColorPalette` (color_palette.dfy): `ColorPalette` and the parts of
  `java.awt.Color.decode` and the `%02X` formatting the group colours rely on.
- `Groups` (group_labels.dfy): `GroupLabels` - group labels and group colours
  files, their validators and generators, and the default palette.
- `Svm` (svm.dfy): `SVM` - the data sets, the threshold placed between the two
  predicted classes, the re-classification by that threshold, the confusion
  matrix, the prediction table and the accuracy.
- `BoxPlot` (box_plot.dfy): `BoxPlotFactory` - the per-label score lists, the
  data handed to the rank-sum test, the ALT vs Normal and ALT vs Telomerase
  median differences, and the statistics map.
- `ParsedFiles` (parsed_files.dfy): `ParsedFilesDirectory` - the chosen files and
  the error messages recorded against input items.
- `Panel` (tmm_panel.dfy): the part of `TMMPanel` that decides which buttons are
  enabled, and its input handlers for the iteration title, boot cycles, parent
  directory and labels file name.

Classes whose fields the Java code updates are Dafny classes with the same
fields; matrices are two-dimensional arrays; files are sequences of lines
(`seq<string>`) read in, and text returned out. A Java `double` is a datatype
of finite reals, +Infinity and NaN where division can produce them; a parsed
number is a finite real (the NaN and Infinity values `Double.parseDouble` can
return are not modelled, see "Left out").
Library calls whose behaviour is outside the plugin (`Double.parseDouble`,
`Double.toString`, `DoubleFormatter.formatDouble`, the rank-sum and
Mann-Whitney tests, and the LS-SVM training) are function parameters, so every
property holds for whatever those return. The iteration order of a `HashMap`
is an arbitrary enumeration of its keys.

Quirks of the Java code are reproduced as written and stated as lemmas: an
all-zero expression row normalises to +Infinity (`NormalisedRowZero`), asking
for exactly 22 (set 2) or 35 (set 1) palette colours leaves the last slot null
(`FullSetLeavesLastSlotNull`), the upper end of the threshold interval is 0 when no sample is
predicted positive, so the threshold is half the lower end (`UpBounds`), a colours file
that repeats a group loads but does not validate (`DuplicateColorTolerated`),
a labels file that repeats a sample loads but does not validate
(`DuplicateLoads`, `DuplicateFailsValidation`), and restoring a saved
iteration title sets the `iterationTitle` field but leaves the title field's
text, which is what `getIterationTitle` returns, as it was
(`SavedTitleNotShown`).

## Model

| member | source | states |
|---|---|---|
| Common.Divide | src/main/java/org/cytoscape/tmm/processing/ExpMatFileHandler.java:118-126 | Java `double` division: a finite quotient for a non-zero divisor, +Infinity for a positive value over 0, NaN stays NaN |
| Common.DropTrailingEmpty | src/main/java/org/cytoscape/tmm/reports/TMMLabels.java:79 | what `String.split` keeps: a prefix of the pieces that does not end in an empty piece, with only empty pieces dropped |
| Common.SplitThree | src/main/java/org/cytoscape/tmm/reports/TMMLabels.java:79-80 | a line `a\tb\tc` without further tabs and with non-empty `c` splits back into exactly `[a, b, c]` |
| Common.SplitTwo | src/main/java/org/cytoscape/tmm/reports/GroupLabels.java:193-194 | a line `a\tb` without further tabs and with non-empty `b` splits back into exactly `[a, b]` |
| Common.FirstMissing | src/main/java/org/cytoscape/tmm/reports/TMMLabels.java:182-185 | None exactly when every requested sample was seen; otherwise a requested sample that was not seen |
| Common.FindMissing | src/main/java/org/cytoscape/tmm/reports/TMMLabels.java:182-185 | the loop over the requested samples returns `FirstMissing` |
| Common.Enumerate | src/main/java/org/cytoscape/tmm/reports/SummaryFileHandler.java:165-166 | lists a key set in some order: every key exactly once and nothing else |
| Common.ParseInt | src/main/java/org/cytoscape/tmm/gui/TMMPanel.java:971 | `Integer.parseInt` yields only values in the 32-bit range |
| Common.ParseIntToString | src/main/java/org/cytoscape/tmm/gui/TMMPanel.java:967-978 | `Integer.parseInt` reads back the decimal text `i + ""` of every 32-bit `i` |
| Common.ParseUnsigned | src/main/java/org/cytoscape/tmm/gui/TMMPanel.java:971 | a digit string whose value fits in 32 bits parses to that value |
| Common.ParseNegative | src/main/java/org/cytoscape/tmm/gui/TMMPanel.java:971 | a minus sign and digits whose value is at most 2^31 parse to the negated value |
| Common.DecimalOfNatToString | src/main/java/org/cytoscape/tmm/gui/TMMPanel.java:977 | the decimal text of a natural number has that number as its value |
| ColorPalette.GetColorPalette | src/main/java/org/cytoscape/tmm/reports/ColorPalette.java:137-167 | null exactly when n > 56; otherwise n slots, taken from index 1 of set1 (n <= 35, set 1), set2 (n <= 22, other sets) or set3 (larger n) |
| ColorPalette.GetColorPaletteSet1 | src/main/java/org/cytoscape/tmm/reports/ColorPalette.java:169-171 | `getColorPalette(n)` has n slots with no bound check; slot k is non-null exactly when k < 34 |
| ColorPalette.FullSetLeavesLastSlotNull | src/main/java/org/cytoscape/tmm/reports/ColorPalette.java:142-155 | asking for all 22 colours of set2 or all 35 of set1 leaves the last slot null, because copying starts at index 1 |
| ColorPalette.LargePalettesAreComplete | src/main/java/org/cytoscape/tmm/reports/ColorPalette.java:140-160 | for 35 < n <= 56 (set 1) or 22 < n <= 56 (other sets) slot k is set3[k + 1], never null |
| ColorPalette.Set3IsSet2ThenSet1 | src/main/java/org/cytoscape/tmm/reports/ColorPalette.java:75-134 | the third set is the second set followed by the first, 57 colours |
| ColorPalette.PaletteEntriesDecode | src/main/java/org/cytoscape/tmm/reports/ColorPalette.java:12-134 | every entry of the three colour sets is `#` followed by six hex digits, so `Color.decode` accepts it |
| ColorPalette.DecodeHexColor | src/main/java/org/cytoscape/tmm/reports/GroupLabels.java:164-170 | the `#RRGGBB` text written for a colour decodes back to the same colour |
| ColorPalette.DecodeHashColor | src/main/java/org/cytoscape/tmm/reports/GroupLabels.java:252 | `Color.decode` of `#` and hex digits is the colour of the digits' value |
| ColorPalette.HexColorDigits | src/main/java/org/cytoscape/tmm/reports/GroupLabels.java:164-169 | the written colour text is `#` followed by two hex digits per channel, red, green, blue |
| ColorPalette.HexValue | src/main/java/org/cytoscape/tmm/reports/GroupLabels.java:165-168 | the six written digits are hex digits whose value is `(red * 256 + green) * 256 + blue` |
| ColorPalette.DecodeColorDigits | src/main/java/org/cytoscape/tmm/reports/GroupLabels.java:252 | hex digits whose value packs a colour's channels decode to that colour |
| ColorPalette.DecodeHash | src/main/java/org/cytoscape/tmm/reports/GroupLabels.java:252 | `#` followed by hex digits of value at most 2^31 - 1 is read as that integer |
| ColorPalette.ChannelsOf | src/main/java/org/cytoscape/tmm/reports/GroupLabels.java:252 | an integer that packs three channels gives back those channels |
| ColorPalette.AppendHex2 | src/main/java/org/cytoscape/tmm/reports/GroupLabels.java:165-168 | appending two hex digits of x multiplies the value by 256 and adds x |
| ColorPalette.HexDigitValue | src/main/java/org/cytoscape/tmm/reports/GroupLabels.java:166 | each hex digit written for d in 0..15 is read back as d |
| ExpMat.NodeRowsFrom | src/main/java/org/cytoscape/tmm/processing/ExpMatFileHandler.java:216-224 | each accepted data row adds exactly one node and one gene |
| ExpMat.NodeRowsFromStep | src/main/java/org/cytoscape/tmm/processing/ExpMatFileHandler.java:216-224 | a well-formed row appends its column 0 to the nodes and its column 1 to the genes |
| ExpMat.NodeRowsFromOk | src/main/java/org/cytoscape/tmm/processing/ExpMatFileHandler.java:216-222 | reading the rows succeeds exactly when every remaining row has 3 comma tokens |
| ExpMat.NodeRowsFromValues | src/main/java/org/cytoscape/tmm/processing/ExpMatFileHandler.java:216-224 | on success the nodes and genes are exactly columns 0 and 1 of the rows, in file order |
| ExpMat.ColumnStep | src/main/java/org/cytoscape/tmm/processing/ExpMatFileHandler.java:219-220 | a column of the rows is the first row's field followed by the column of the rest |
| ExpMat.FirstBadNodeRow | src/main/java/org/cytoscape/tmm/processing/ExpMatFileHandler.java:216-222 | the first row without 3 comma tokens, every row before it being well formed |
| ExpMat.NodeRowsFromError | src/main/java/org/cytoscape/tmm/processing/ExpMatFileHandler.java:216-222 | a failure names the line number of the first malformed row |
| ExpMat.ReadNodeTableSpec | src/main/java/org/cytoscape/tmm/processing/ExpMatFileHandler.java:195-224 | the node table loads exactly when its header has 3 comma tokens `name`, _, `network` and every row has 3 tokens; then nodes and genes are columns 0 and 1; otherwise the error names the first bad row |
| ExpMat.RowValuesFrom | src/main/java/org/cytoscape/tmm/processing/ExpMatFileHandler.java:93-117 | the parsed cells extend the values already read by one per remaining cell |
| ExpMat.RowValuesFromSpec | src/main/java/org/cytoscape/tmm/processing/ExpMatFileHandler.java:93-117 | a run over the remaining cells succeeds exactly when every cell parses (or is `NA`) to a non-negative value; then the earlier values are kept and each cell's value follows them in order |
| ExpMat.RowValuesSpec | src/main/java/org/cytoscape/tmm/processing/ExpMatFileHandler.java:93-117 | a row's cells read successfully exactly when every cell is `NA` or a non-negative number; cell q then holds 1 for `NA`, else the parsed value |
| ExpMat.ApplyLine | src/main/java/org/cytoscape/tmm/processing/ExpMatFileHandler.java:84-128 | processing one line keeps the matrix shape, leaves the rows of other genes unchanged, and ignores lines whose id is not an eligible gene |
| ExpMat.ApplyLinesFrom | src/main/java/org/cytoscape/tmm/processing/ExpMatFileHandler.java:80-130 | processing the remaining lines keeps the matrix shape |
| ExpMat.ExpMatSpecRows | src/main/java/org/cytoscape/tmm/processing/ExpMatFileHandler.java:61-142 | the whole run: header split, node table, a matrix of ones, every line applied in turn, and the text of the result, or the first error |
| ExpMat.UnnamedRowKept | src/main/java/org/cytoscape/tmm/processing/ExpMatFileHandler.java:87-127 | a node whose gene no remaining line names keeps its row |
| ExpMat.LastNamingLineDecides | src/main/java/org/cytoscape/tmm/processing/ExpMatFileHandler.java:87-127 | after the remaining lines run, a gene's row is the normalised values of the last line naming it, which has one readable cell per sample |
| ExpMat.GeneRowFromLastLine | src/main/java/org/cytoscape/tmm/processing/ExpMatFileHandler.java:80-130 | after a successful run, a node whose gene an expression line names holds the normalised values of the last such line |
| ExpMat.UnmatchedNodesStayOne | src/main/java/org/cytoscape/tmm/processing/ExpMatFileHandler.java:225-230 | a node whose gene no expression line names keeps the value 1 in every sample |
| ExpMat.SumScaled | src/main/java/org/cytoscape/tmm/processing/ExpMatFileHandler.java:118-126 | dividing every value by d divides their sum by d |
| ExpMat.SumNonNegative | src/main/java/org/cytoscape/tmm/processing/ExpMatFileHandler.java:113-120 | a sum of non-negative values is non-negative, and zero exactly when every value is zero |
| ExpMat.NormalisedRowPositive | src/main/java/org/cytoscape/tmm/processing/ExpMatFileHandler.java:118-126 | when some value is positive the mean is positive, each cell becomes value / mean, and the normalised row sums to the number of samples (averages 1) |
| ExpMat.NormalisedRowZero | src/main/java/org/cytoscape/tmm/processing/ExpMatFileHandler.java:119-126 | an all-zero row is set to 1 and then divided by the zero mean, so every cell becomes +Infinity |
| ExpMat.NormalisedRowExample | src/main/java/org/cytoscape/tmm/processing/ExpMatFileHandler.java:118-126 | the row 4, 6 normalises to 0.8, 1.2 |
| ExpMat.PiecesOfRow | src/main/java/org/cytoscape/tmm/processing/ExpMatFileHandler.java:184-189 | a written row splits at its tabs into the node and the shown cells |
| ExpMat.RowSplitsBack | src/main/java/org/cytoscape/tmm/processing/ExpMatFileHandler.java:183-190 | a written row `node\tv1...\tvn` splits back into the node and its n cell texts |
| ExpMat.ReadNodeRows | src/main/java/org/cytoscape/tmm/processing/ExpMatFileHandler.java:211-224 | the reader loop over the node table returns the specification of the rows |
| ExpMat.SamplesOf | src/main/java/org/cytoscape/tmm/processing/ExpMatFileHandler.java:70-73 | the samples are the header tokens from index 1 on |
| ExpMat.Contents | src/main/java/org/cytoscape/tmm/processing/ExpMatFileHandler.java:225-230 | the matrix view of the array, cell by cell |
| ExpMat.FillOnes | src/main/java/org/cytoscape/tmm/processing/ExpMatFileHandler.java:225-230 | after the fill every cell of the array holds 1 |
| ExpMat.WriteCells | src/main/java/org/cytoscape/tmm/processing/ExpMatFileHandler.java:184-189 | the cells of node row i are written as `\t` and the cell text, in column order |
| ExpMat.ExpMatFileHandler.Matrix | src/main/java/org/cytoscape/tmm/processing/ExpMatFileHandler.java:195-230 | the matrix view of `fcMat` has its shape |
| ExpMat.ExpMatFileHandler.constructor | src/main/java/org/cytoscape/tmm/processing/ExpMatFileHandler.java:31-36 | a handler with no nodes, genes or samples yet |
| ExpMat.ExpMatFileHandler.IndicesOf | src/main/java/org/cytoscape/tmm/processing/ExpMatFileHandler.java:168-174 | exactly the indices i with `list[i] == element`, in ascending order |
| ExpMat.ExpMatFileHandler.InitFcMat | src/main/java/org/cytoscape/tmm/processing/ExpMatFileHandler.java:195-232 | fails exactly when the node table is malformed, with its error; otherwise nodes and genes are its columns and `fcMat` is a fresh nodes x samples matrix of ones |
| ExpMat.ExpMatFileHandler.WriteColumn | src/main/java/org/cytoscape/tmm/processing/ExpMatFileHandler.java:113-115 | column j of every listed row takes the value and no other cell changes |
| ExpMat.ExpMatFileHandler.NormaliseRow | src/main/java/org/cytoscape/tmm/processing/ExpMatFileHandler.java:119-126 | row i is divided by the mean, after being reset to ones when the mean is 0; other rows are unchanged |
| ExpMat.ExpMatFileHandler.ReadValues | src/main/java/org/cytoscape/tmm/processing/ExpMatFileHandler.java:93-117 | fails exactly when a cell does not read, with the row specification's error; otherwise the rows of the gene hold the row's values, the rest are unchanged, and the sum is returned |
| ExpMat.ExpMatFileHandler.NormaliseRows | src/main/java/org/cytoscape/tmm/processing/ExpMatFileHandler.java:118-127 | every row of the gene becomes the normalised row, the others are unchanged |
| ExpMat.ExpMatFileHandler.ProcessLine | src/main/java/org/cytoscape/tmm/processing/ExpMatFileHandler.java:84-128 | one line of the file does to the matrix what `ApplyLine` specifies, or fails with its error |
| ExpMat.ExpMatFileHandler.ProcessExpMat | src/main/java/org/cytoscape/tmm/processing/ExpMatFileHandler.java:50-142 | fails exactly when the specification fails, with its error; otherwise header, samples, nodes, genes and matrix are those of the specification and the returned text is the serialised matrix |
| ExpMat.ExpMatFileHandler.ProcessRows | src/main/java/org/cytoscape/tmm/processing/ExpMatFileHandler.java:80-130 | the reader loop over the expression lines applies them all, or fails with the first error |
| ExpMat.ExpMatFileHandler.WriteFcMat | src/main/java/org/cytoscape/tmm/processing/ExpMatFileHandler.java:176-192 | the text is the header line without newline, then `node\tv1...\tvn` and a newline per node row, in node order |
| Summary.HeaderSamplesFromSpec | src/main/java/org/cytoscape/tmm/reports/SummaryFileHandler.java:85-92 | from an even column on: succeeds exactly when every remaining even column contains `score.`; each sample is that column with its first 6 characters removed |
| Summary.HeaderSamplesSpec | src/main/java/org/cytoscape/tmm/reports/SummaryFileHandler.java:83-92 | samples are read from header columns 2, 4, 6, ...; accepted exactly when each contains `score.` (anywhere, not only as prefix); sample q is column 2q + 2 without its first 6 characters |
| Summary.Widen | src/main/java/org/cytoscape/tmm/reports/SummaryFileHandler.java:184-187 | the widened range covers the old range and the new value, and each end is the old end or the value |
| Summary.PopulateFromStep | src/main/java/org/cytoscape/tmm/reports/SummaryFileHandler.java:178-215 | one sample: its score and p value are recorded and both ranges widened |
| Summary.PopulateFromOk | src/main/java/org/cytoscape/tmm/reports/SummaryFileHandler.java:178-212 | filling succeeds exactly when every remaining score parses and is >= 0 and every p value parses and lies in [0, 1] |
| Summary.PopulateFromBounds | src/main/java/org/cytoscape/tmm/reports/SummaryFileHandler.java:183-204 | on success every recorded value lies in the final ranges, the ranges only grow, and each final end is either the starting end or a score (for the score range) or p value (for the p value range) read from a token of this row |
| Summary.PopulateFromKeys | src/main/java/org/cytoscape/tmm/reports/SummaryFileHandler.java:187-203 | on success the recorded samples are the earlier ones plus the remaining samples |
| Summary.PopulateFromValue | src/main/java/org/cytoscape/tmm/reports/SummaryFileHandler.java:178-203 | a sample listed once gets score `tokens[2i+2]` and p value `tokens[2i+3]` |
| Summary.PopulateFromUntouched | src/main/java/org/cytoscape/tmm/reports/SummaryFileHandler.java:178-217 | a sample not among the remaining ones keeps its recorded values |
| Summary.PopulateSpec | src/main/java/org/cytoscape/tmm/reports/SummaryFileHandler.java:170-218 | `populateScores` succeeds exactly when all scores are >= 0 and all p values in [0, 1]; the ranges grow to bracket every value and each end is the old end or a value of the row; the maps' keys are the samples; each sample gets its two tokens |
| Summary.ScanFromStep | src/main/java/org/cytoscape/tmm/reports/SummaryFileHandler.java:112-139 | while a target row is missing, each line is checked and, if it is the ALT or Telomerase row, recorded |
| Summary.ScanFromKeeps | src/main/java/org/cytoscape/tmm/reports/SummaryFileHandler.java:112-151 | the scan keeps its invariant: a found axis has scores and p values for exactly the header samples, bracketed by the ranges |
| Summary.ScanFromAttained | src/main/java/org/cytoscape/tmm/reports/SummaryFileHandler.java:128-143 | through the scan every end of the four ranges stays either its initial value or a number read from a data line of the same target with the right columns |
| Summary.SummarySpecProperties | src/main/java/org/cytoscape/tmm/reports/SummaryFileHandler.java:60-166 | after a successful read from [MAX_VALUE, 0] and [1, 0] both targets were found, there is at least one sample, both axes' score and p value maps have the same key set, and every stored value lies in its range |
| Summary.SummarySpecAttained | src/main/java/org/cytoscape/tmm/reports/SummaryFileHandler.java:60-166 | after a successful read from [MAX_VALUE, 0] and [1, 0] every range end is the initial end or a score or p value read from a data line of that target |
| Summary.NiceRowsComplete | src/main/java/org/cytoscape/tmm/reports/SummaryFileHandler.java:273-285 | every sample of the map has all four values, so each row of the table is filled |
| Summary.SummaryFileHandler.constructor | src/main/java/org/cytoscape/tmm/reports/SummaryFileHandler.java:26-29 | the ranges start as [MAX_VALUE, 0] for scores and [1, 0] for p values |
| Summary.SummaryFileHandler.PopulateScores | src/main/java/org/cytoscape/tmm/reports/SummaryFileHandler.java:170-218 | fails exactly as `Populate` specifies; otherwise returns its maps and leaves the two range arrays at its ranges |
| Summary.SummaryFileHandler.ReadLine | src/main/java/org/cytoscape/tmm/reports/SummaryFileHandler.java:113-138 | one pass of the reader loop does what `ScanLine` specifies |
| Summary.SummaryFileHandler.ScanLines | src/main/java/org/cytoscape/tmm/reports/SummaryFileHandler.java:112-139 | the reader loop returns the scan of the whole file |
| Summary.SummaryFileHandler.GenerateSummaryMap | src/main/java/org/cytoscape/tmm/reports/SummaryFileHandler.java:60-168 | fails exactly when the summary specification fails, with its error; otherwise the map is that of the specification, both targets were found, and `samples` lists the ALT scores' key set |
| Summary.SummaryFileHandler.GetPsfRange | src/main/java/org/cytoscape/tmm/reports/SummaryFileHandler.java:225-232 | the ALT or Telomerase range array; null for any other key |
| Summary.SummaryFileHandler.GetScores | src/main/java/org/cytoscape/tmm/reports/SummaryFileHandler.java:241-252 | the scores of the key when it has as many entries as there are samples; an error for a missing key |
| Summary.SummaryFileHandler.NiceSummaryMap | src/main/java/org/cytoscape/tmm/reports/SummaryFileHandler.java:273-285 | the header line and one `sample\tALT score\tALT p\tTel score\tTel p` line per sample |
| Summary.GetScoresAfterRead | src/main/java/org/cytoscape/tmm/reports/SummaryFileHandler.java:241-252 | after a successful read, `getScores` succeeds for both axes and they score the same samples |
| TmmLabels.Category | src/main/java/org/cytoscape/tmm/reports/TMMLabels.java:18 | the `categories[i][j]` lookup is always one of the four categories |
| TmmLabels.CategoryMeaning | src/main/java/org/cytoscape/tmm/reports/TMMLabels.java:91-102 | the category contains ALT exactly when column 2 is `+`, Telomerase exactly when column 3 is `+`, and is Normal exactly for `-`, `-` |
| TmmLabels.RowError | src/main/java/org/cytoscape/tmm/reports/TMMLabels.java:79-96 | a row has no error exactly when it has 3 tokens and `+`/`-` in columns 2 and 3 |
| TmmLabels.FirstBadRow | src/main/java/org/cytoscape/tmm/reports/TMMLabels.java:78-96 | the first malformed row, every row before it being well formed |
| TmmLabels.LoadFromStep | src/main/java/org/cytoscape/tmm/reports/TMMLabels.java:104-107 | a well-formed row appends its sample to its category's list and maps the sample to the category |
| TmmLabels.LoadFromRow | src/main/java/org/cytoscape/tmm/reports/TMMLabels.java:78-108 | a malformed row stops loading with its error; a good one is recorded and loading goes on |
| TmmLabels.LoadFromOk | src/main/java/org/cytoscape/tmm/reports/TMMLabels.java:78-108 | loading succeeds exactly when every remaining row is well formed |
| TmmLabels.LoadFromError | src/main/java/org/cytoscape/tmm/reports/TMMLabels.java:80-96 | a failure reports the first malformed row's error |
| TmmLabels.LoadFromLists | src/main/java/org/cytoscape/tmm/reports/TMMLabels.java:47-52 | the four lists always exist, and each ends as its category's samples in file order |
| TmmLabels.LastLabelStep | src/main/java/org/cytoscape/tmm/reports/TMMLabels.java:106 | recording a row keeps `sampleTMMLabelMap` equal to the category of each sample's last row |
| TmmLabels.LoadFromLabels | src/main/java/org/cytoscape/tmm/reports/TMMLabels.java:106 | after loading, each sample maps to the category of its last row |
| TmmLabels.LoadSpec | src/main/java/org/cytoscape/tmm/reports/TMMLabels.java:61-115 | loading succeeds exactly when the header is `Sample\tALT\tTelomerase` and every row is well formed; otherwise the error names the missing header, the wrong header or the first bad row; on success the lists are the categories' samples and each sample maps to its last category |
| TmmLabels.SamplesPartition | src/main/java/org/cytoscape/tmm/reports/TMMLabels.java:100-107 | each loaded row lands in exactly one of the four lists |
| TmmLabels.TMMLabels.constructor | src/main/java/org/cytoscape/tmm/reports/TMMLabels.java:47-59 | the four empty category lists and an empty sample map |
| TmmLabels.TMMLabels.ReadTmmLabels | src/main/java/org/cytoscape/tmm/reports/TMMLabels.java:61-115 | fails exactly as the loading specification does, with its error; otherwise both maps are the specification's result |
| TmmLabels.TMMLabels.AddLabel | src/main/java/org/cytoscape/tmm/reports/TMMLabels.java:106-107 | maps the sample to the category and appends it to that category's list |
| TmmLabels.TMMLabels.GetSamples | src/main/java/org/cytoscape/tmm/reports/TMMLabels.java:129-131 | the list of a category, null for any other label |
| TmmLabels.TMMLabels.GetLabelColor | src/main/java/org/cytoscape/tmm/reports/TMMLabels.java:139-143 | red, blue, green, cyan for ALT, Telomerase, Normal, ALT+/Telomerase+; null for any other key |
| TmmLabels.IsLabelsFileValid | src/main/java/org/cytoscape/tmm/reports/TMMLabels.java:145-197 | the validator's loop returns the verdict of the specification |
| TmmLabels.RowSamplesStep | src/main/java/org/cytoscape/tmm/reports/TMMLabels.java:170-180 | the samples seen grow by the row's sample, and stay distinct if it is new |
| TmmLabels.VerdictRowShort | src/main/java/org/cytoscape/tmm/reports/TMMLabels.java:168-169 | a row without 3 tokens makes the verdict something other than `true` |
| TmmLabels.VerdictRowRepeated | src/main/java/org/cytoscape/tmm/reports/TMMLabels.java:171-172 | a repeated sample makes the verdict something other than `true` |
| TmmLabels.VerdictRowBadSign | src/main/java/org/cytoscape/tmm/reports/TMMLabels.java:173-176 | a symbol other than `+`/`-` makes the verdict something other than `true` |
| TmmLabels.VerdictRowGood | src/main/java/org/cytoscape/tmm/reports/TMMLabels.java:178-180 | a good new row leaves the verdict to the rest of the file |
| TmmLabels.VerdictFromTrue | src/main/java/org/cytoscape/tmm/reports/TMMLabels.java:166-185 | from any row on, the verdict is `true` exactly when the rest of the rows are good and new and every requested sample is present |
| TmmLabels.VerdictTrueIff | src/main/java/org/cytoscape/tmm/reports/TMMLabels.java:145-197 | `isLabelsFileValid` returns `true` exactly when the header, every row's 3 columns and symbols are right, no sample repeats, and every requested sample is present (extra ones are tolerated) |
| TmmLabels.ValidFileLoads | src/main/java/org/cytoscape/tmm/reports/TMMLabels.java:61-115 | a file that validates `true` also loads |
| TmmLabels.SignRow | src/main/java/org/cytoscape/tmm/reports/TMMLabels.java:91-102 | a row `s\t+/-\t+/-` is well formed and gets the category of its two symbols |
| TmmLabels.DuplicateLoads | src/main/java/org/cytoscape/tmm/reports/TMMLabels.java:61-115 | a file listing a sample twice still loads |
| TmmLabels.DuplicateFailsValidation | src/main/java/org/cytoscape/tmm/reports/TMMLabels.java:171-172 | the same file validates to `Duplicate sample found: s` |
| TmmLabels.MissingSampleLoadsButFailsValidation | src/main/java/org/cytoscape/tmm/reports/TMMLabels.java:182-184 | a file missing a requested sample loads but validates to `The file did not contain sample x` |
| TmmLabels.GenerateFile | src/main/java/org/cytoscape/tmm/reports/TMMLabels.java:199-216 | the text is the header and one `sample\t-\t-` line per sample |
| TmmLabels.GeneratedLine | src/main/java/org/cytoscape/tmm/reports/TMMLabels.java:212-213 | each generated row is well formed, names its sample and is Normal |
| TmmLabels.TemplateNormal | src/main/java/org/cytoscape/tmm/reports/TMMLabels.java:104-107 | loading a template puts its samples, in order, in the Normal list |
| TmmLabels.TemplateOthers | src/main/java/org/cytoscape/tmm/reports/TMMLabels.java:104-107 | loading a template leaves the other three lists empty |
| TmmLabels.TemplateLastLabel | src/main/java/org/cytoscape/tmm/reports/TMMLabels.java:106 | every sample of a template maps to Normal |
| TmmLabels.GeneratedRows | src/main/java/org/cytoscape/tmm/reports/TMMLabels.java:211-214 | the generated file is a template of its samples |
| TmmLabels.GeneratedFileValidates | src/main/java/org/cytoscape/tmm/reports/TMMLabels.java:199-216 | for distinct, tab-free samples the generated file validates `true` |
| TmmLabels.GeneratedFileLoads | src/main/java/org/cytoscape/tmm/reports/TMMLabels.java:199-216 | the generated file loads with all samples Normal and the other lists empty |
| TmmLabels.GeneratedFileLabels | src/main/java/org/cytoscape/tmm/reports/TMMLabels.java:199-216 | every sample of the generated file maps to Normal |
| Groups.DefaultColorDecodes | src/main/java/org/cytoscape/tmm/reports/GroupLabels.java:17 | the default colour `#7E9495` decodes to (126, 148, 149) |
| Groups.AddRow | src/main/java/org/cytoscape/tmm/reports/GroupLabels.java:203-208 | adding a row keeps every listed group in the samples map |
| Groups.LabelsFromStep | src/main/java/org/cytoscape/tmm/reports/GroupLabels.java:193-210 | a two-column row adds its group if new, appends its sample, and maps the sample to the group |
| Groups.ValuesBeforeGrows | src/main/java/org/cytoscape/tmm/reports/GroupLabels.java:203-206 | the groups seen grow by the row's group |
| Groups.FirstSeenSpec | src/main/java/org/cytoscape/tmm/reports/GroupLabels.java:203-206 | groups are listed without repeats, exactly the groups seen |
| Groups.UnseenHasNoSamples | src/main/java/org/cytoscape/tmm/reports/GroupLabels.java:203-208 | a group not yet seen has no samples |
| Groups.LabelsFromOk | src/main/java/org/cytoscape/tmm/reports/GroupLabels.java:192-213 | loading succeeds exactly when every remaining row has 2 tab columns |
| Groups.FirstShortRow | src/main/java/org/cytoscape/tmm/reports/GroupLabels.java:193-198 | the first row without 2 columns, every row before it being well formed |
| Groups.LabelsFromError | src/main/java/org/cytoscape/tmm/reports/GroupLabels.java:193-198 | a failure names the first short row and its column count |
| Groups.GroupsStep | src/main/java/org/cytoscape/tmm/reports/GroupLabels.java:203-208 | one row keeps the groups in first-seen order and each group's samples in file order |
| Groups.GroupsStepAt | src/main/java/org/cytoscape/tmm/reports/GroupLabels.java:208 | after one row a group's list is its samples so far |
| Groups.LabelsSoFar | src/main/java/org/cytoscape/tmm/reports/GroupLabels.java:192-213 | every listed group has a sample list in the state the row loop leaves when it stops |
| Groups.LabelsSoFarPrefix | src/main/java/org/cytoscape/tmm/reports/GroupLabels.java:192-213 | where the row loop stops, groups and maps are the read of the file cut before its first short row; a successful read reaches the end and leaves its result |
| Groups.ReadLabelsSoFarOk | src/main/java/org/cytoscape/tmm/reports/GroupLabels.java:174-220 | a successful `readGroupLabels` leaves exactly its result |
| Groups.LabelsFromGroups | src/main/java/org/cytoscape/tmm/reports/GroupLabels.java:192-213 | after loading, the groups are in first-seen order and each list holds its samples in file order |
| Groups.LastGroupStep | src/main/java/org/cytoscape/tmm/reports/GroupLabels.java:210 | one row keeps each sample mapped to its last group |
| Groups.LabelsFromSamples | src/main/java/org/cytoscape/tmm/reports/GroupLabels.java:192-213 | after loading, each sample maps to the group of its last row |
| Groups.ReadLabelsSpec | src/main/java/org/cytoscape/tmm/reports/GroupLabels.java:174-220 | loading succeeds exactly when the header is `Sample\tGroupLabel` and every row has 2 columns; errors name the missing header, wrong header or first short row; on success the groups are distinct, in first-seen order, with their samples in file order |
| Groups.PaletteFrom | src/main/java/org/cytoscape/tmm/reports/GroupLabels.java:90-93 | a failure is a null palette slot or an undecodable colour |
| Groups.FirstBadSlot | src/main/java/org/cytoscape/tmm/reports/GroupLabels.java:90-93 | every slot before it is present and decodes, and the one it names is null or does not decode |
| Groups.PaletteSoFarPrefix | src/main/java/org/cytoscape/tmm/reports/GroupLabels.java:90-93 | where the colouring loop stops, the map colours exactly the groups before the first bad slot; the loop succeeds exactly when there is no bad slot, leaving that map |
| Groups.DefaultPaletteSoFarOk | src/main/java/org/cytoscape/tmm/reports/GroupLabels.java:85-94 | a successful default palette leaves the map its failure-tolerant description gives |
| Groups.PaletteFromSpec | src/main/java/org/cytoscape/tmm/reports/GroupLabels.java:90-93 | on success group i gets the colour of palette slot i and other colours are kept |
| Groups.PaletteFromNullSlot | src/main/java/org/cytoscape/tmm/reports/GroupLabels.java:92 | a null palette slot makes the palette fail |
| Groups.DefaultPaletteSpec | src/main/java/org/cytoscape/tmm/reports/GroupLabels.java:85-94 | more than 56 groups give the too-many-groups error; 22 groups fail on the null last slot; on success group i gets palette slot i |
| Groups.DefaultPaletteOk | src/main/java/org/cytoscape/tmm/reports/GroupLabels.java:85-94 | with `Color.decode` itself, `setDefaultPalette` succeeds for every group count up to 56 other than 22 |
| Groups.PaletteFromDecodes | src/main/java/org/cytoscape/tmm/reports/GroupLabels.java:90-93 | the palette loop succeeds when every slot it reaches holds a colour the decoder accepts |
| Groups.DecodeReadsHex | src/main/java/org/cytoscape/tmm/reports/GroupLabels.java:252 | `Color.decode` reads back every written hex colour |
| Groups.ColorsFromOk | src/main/java/org/cytoscape/tmm/reports/GroupLabels.java:240-264 | reading colours succeeds exactly when every row has 2 columns and a decodable colour |
| Groups.ColorsFromFirst | src/main/java/org/cytoscape/tmm/reports/GroupLabels.java:258-262 | a repeated group keeps the colour of its first row |
| Groups.ColorsSoFarFirst | src/main/java/org/cytoscape/tmm/reports/GroupLabels.java:239-264 | the map the row loop has built when it stops holds exactly the first colour of each group among the rows before the first malformed row; when every row is well formed it is the reader's result |
| Groups.FirstColorFound | src/main/java/org/cytoscape/tmm/reports/GroupLabels.java:258-259 | a group has a colour exactly when some row names it |
| Groups.ReadColorsSpec | src/main/java/org/cytoscape/tmm/reports/GroupLabels.java:222-274 | reading succeeds exactly when the header is `GroupLabel\tColor(hex)`, every row is good, and every group has a row; each group then gets its first row's colour |
| Groups.FirstLineMessageIsNotTrue | src/main/java/org/cytoscape/tmm/reports/GroupLabels.java:286-294 | the message for an empty file or a wrong header is never `true` |
| Groups.IsGroupLabelsFileValid | src/main/java/org/cytoscape/tmm/reports/GroupLabels.java:276-325 | the validator's loop returns the verdict of the specification |
| Groups.KeysBeforeStep | src/main/java/org/cytoscape/tmm/reports/GroupLabels.java:302-308 | the keys seen grow by the row's key, and stay distinct if it is new |
| Groups.KeysBeforeGrows | src/main/java/org/cytoscape/tmm/reports/GroupLabels.java:354-366 | the keys seen grow by the row's key |
| Groups.LabelsRowShort | src/main/java/org/cytoscape/tmm/reports/GroupLabels.java:299-301 | a short row makes the labels verdict something other than `true` |
| Groups.LabelsRowRepeated | src/main/java/org/cytoscape/tmm/reports/GroupLabels.java:303-304 | a repeated sample makes the labels verdict something other than `true` |
| Groups.LabelsRowGood | src/main/java/org/cytoscape/tmm/reports/GroupLabels.java:305-308 | a good new row leaves the verdict to the rest of the file |
| Groups.LabelsVerdictFromTrue | src/main/java/org/cytoscape/tmm/reports/GroupLabels.java:297-313 | from any row on, the verdict is `true` exactly when the rest of the rows are good and new and every sample is present |
| Groups.LabelsVerdictTrueIff | src/main/java/org/cytoscape/tmm/reports/GroupLabels.java:276-325 | `isGroupLabelsFileValid` is `true` exactly when the header and every row's 2 columns are right, no sample repeats, and every requested sample is present |
| Groups.ValidLabelsFileLoads | src/main/java/org/cytoscape/tmm/reports/GroupLabels.java:174-212 | a labels file that validates `true` also loads |
| Groups.ColorsRowShort | src/main/java/org/cytoscape/tmm/reports/GroupLabels.java:351-353 | a short row makes the colours verdict something other than `true` |
| Groups.ColorsRowRepeated | src/main/java/org/cytoscape/tmm/reports/GroupLabels.java:355-356 | a repeated group makes the colours verdict something other than `true` |
| Groups.ColorsRowUndecodable | src/main/java/org/cytoscape/tmm/reports/GroupLabels.java:358-364 | an undecodable colour makes the colours verdict something other than `true` |
| Groups.ColorsRowGood | src/main/java/org/cytoscape/tmm/reports/GroupLabels.java:366-367 | a good new row leaves the verdict to the rest of the file |
| Groups.ColorsVerdictFromTrue | src/main/java/org/cytoscape/tmm/reports/GroupLabels.java:349-372 | from any row on, the verdict is `true` exactly when the rest of the rows are good and new and every group is present |
| Groups.ColorsVerdictTrueIff | src/main/java/org/cytoscape/tmm/reports/GroupLabels.java:328-384 | `isGroupColorsFileValid` is `true` exactly when the header, columns and colours are right, no group repeats, and every group has a row |
| Groups.ValidColorsFileLoads | src/main/java/org/cytoscape/tmm/reports/GroupLabels.java:222-268 | a colours file that validates `true` also loads |
| Groups.DuplicateColorTolerated | src/main/java/org/cytoscape/tmm/reports/GroupLabels.java:258-262 | a group listed twice loads with its first colour, yet validates to `Duplicate groupLabel found: g` |
| Groups.GenerateGroupLabelsFile | src/main/java/org/cytoscape/tmm/reports/GroupLabels.java:114-131 | the text is the header and one `sample\tunknown` line per sample |
| Groups.LabelsLine | src/main/java/org/cytoscape/tmm/reports/GroupLabels.java:128 | each generated row has 2 columns, its sample and the group `unknown` |
| Groups.GroupLabelsRows | src/main/java/org/cytoscape/tmm/reports/GroupLabels.java:127-129 | every generated row has 2 columns, its sample and `unknown` |
| Groups.GroupLabelsFileValidates | src/main/java/org/cytoscape/tmm/reports/GroupLabels.java:114-131 | for distinct, tab-free samples the generated labels file validates `true` |
| Groups.GroupLabelsFileLoads | src/main/java/org/cytoscape/tmm/reports/GroupLabels.java:114-131 | the generated labels file loads into the single group `unknown` holding all samples |
| Groups.OneGroupLoads | src/main/java/org/cytoscape/tmm/reports/GroupLabels.java:174-220 | a file whose rows all name one group loads into that group with the samples in order |
| Groups.GroupsOfOne | src/main/java/org/cytoscape/tmm/reports/GroupLabels.java:203-208 | with one group seen, the samples map holds that group only |
| Groups.OneGroupSamples | src/main/java/org/cytoscape/tmm/reports/GroupLabels.java:208 | with one group, its samples are the rows' samples in order |
| Groups.OneGroupSeen | src/main/java/org/cytoscape/tmm/reports/GroupLabels.java:203-206 | with one group, it is the only group seen |
| Groups.ColorsFromStep | src/main/java/org/cytoscape/tmm/reports/GroupLabels.java:241-263 | a good row records its colour unless the group already has one |
| Groups.ReadColorRows | src/main/java/org/cytoscape/tmm/reports/GroupLabels.java:239-264 | the reader loop over the colour rows returns the specification of the rows, and also the map it had built when it stopped |
| Groups.WriteColorRows | src/main/java/org/cytoscape/tmm/reports/GroupLabels.java:156-170 | the text is the header and one `group\t#RRGGBB` line per group |
| Groups.ColorLine | src/main/java/org/cytoscape/tmm/reports/GroupLabels.java:169 | a written colour row splits back into the group and its hex text |
| Groups.FirstColorAt | src/main/java/org/cytoscape/tmm/reports/GroupLabels.java:258-259 | a group's colour is that of its first row |
| Groups.ColorsFileRowKey | src/main/java/org/cytoscape/tmm/reports/GroupLabels.java:164-169 | row j of the written file names group j and its hex colour |
| Groups.ColorsFileRow | src/main/java/org/cytoscape/tmm/reports/GroupLabels.java:164-169 | row j of the written file is a good row whose colour decodes to group j's colour |
| Groups.ColorsFileRows | src/main/java/org/cytoscape/tmm/reports/GroupLabels.java:164-169 | every row of the written file is good and decodes to its group's colour |
| Groups.KeysOfList | src/main/java/org/cytoscape/tmm/reports/GroupLabels.java:297-309 | rows naming distinct keys in order have exactly those keys, without repeats |
| Groups.ColorsFileKeys | src/main/java/org/cytoscape/tmm/reports/GroupLabels.java:164-169 | the written file names every group of the map exactly once |
| Groups.ColorsFileValidates | src/main/java/org/cytoscape/tmm/reports/GroupLabels.java:141-171 | the written colours file validates `true` for any groups of the map |
| Groups.FirstColorsOfList | src/main/java/org/cytoscape/tmm/reports/GroupLabels.java:258-259 | reading rows that list the map's groups once each gives back the map |
| Groups.FirstColorOfListed | src/main/java/org/cytoscape/tmm/reports/GroupLabels.java:258-259 | each listed group reads back its colour |
| Groups.ColorsFileReadsBack | src/main/java/org/cytoscape/tmm/reports/GroupLabels.java:141-171 | reading the written colours file gives back exactly the colour map |
| Groups.GroupList.constructor | src/main/java/org/cytoscape/tmm/reports/GroupLabels.java:30 | the shared group list starts empty |
| Groups.GroupLabels.InitializeMaps | src/main/java/org/cytoscape/tmm/reports/GroupLabels.java:96-102 | empty maps and an empty shared group list |
| Groups.GroupLabels.constructor | src/main/java/org/cytoscape/tmm/reports/GroupLabels.java:33-38 | one group `unknown` holding all the samples, coloured (126, 148, 149) |
| Groups.GroupLabels.ReadGroupLabels | src/main/java/org/cytoscape/tmm/reports/GroupLabels.java:174-220 | fails exactly as the loading specification does, with its error; otherwise the groups and both maps are its result; on failure a header error changes nothing, a short row leaves the rows read before it; colour maps untouched |
| Groups.GroupLabels.ReadLabelRows | src/main/java/org/cytoscape/tmm/reports/GroupLabels.java:192-213 | the row loop fails exactly as the rows' specification does, with its error; on success and on failure the groups and maps are those the rows before the stop give |
| Groups.GroupLabels.AddSample | src/main/java/org/cytoscape/tmm/reports/GroupLabels.java:203-210 | adds the group if new, appends the sample and maps it to the group; colour maps untouched |
| Groups.GroupLabels.SetDefaultPalette | src/main/java/org/cytoscape/tmm/reports/GroupLabels.java:85-94 | fails exactly as the default palette does; otherwise the colour map is the palette's result; on failure the map is unchanged for too many groups and otherwise holds the groups coloured before the bad slot |
| Groups.GroupLabels.SetGroupLabels | src/main/java/org/cytoscape/tmm/reports/GroupLabels.java:44-67 | a failed read reports its error and leaves the rows read before it with no colours; otherwise groups and maps are loaded and the colours are the default palette, or on its error the groups coloured before the bad slot; the sample colours map is always empty |
| Groups.GroupLabels.ReadGroupColors | src/main/java/org/cytoscape/tmm/reports/GroupLabels.java:222-274 | fails exactly as the colours specification does; otherwise the colour map is its result; a missing or wrong header leaves the colour map as it was, while past the header the map is replaced by the colours of the rows read before the loop stopped (all rows when the only failure is a missing group); the group, sample-group and sample-colour maps are unchanged |
| Groups.GroupLabels.IsGroupColorsFileValid | src/main/java/org/cytoscape/tmm/reports/GroupLabels.java:328-384 | the validator's loop returns the verdict of the specification |
| Groups.GroupLabels.GenerateGroupColorsFile | src/main/java/org/cytoscape/tmm/reports/GroupLabels.java:141-171 | fails as the default palette does; otherwise the text lists every group of the colour map once, as `group\t#RRGGBB` |
| Groups.GroupLabels.GetSamples | src/main/java/org/cytoscape/tmm/reports/GroupLabels.java:395-399 | the samples of a known group, null for any other |
| Svm.ClassOf | src/main/java/org/cytoscape/tmm/reports/SVM.java:133-136 | the class is 0 or 1 |
| Svm.ClassOfCategory | src/main/java/org/cytoscape/tmm/reports/SVM.java:133-136 | a label read from a labels file is in class 1 exactly when its column for the axis is `+` |
| Svm.DataSetOf | src/main/java/org/cytoscape/tmm/reports/SVM.java:95-146 | a data set exists exactly when every sample has a score and a label; point i is sample i's score and class |
| Svm.ValuesHold | src/main/java/org/cytoscape/tmm/reports/SVM.java:177-180 | each score is among the values of its predicted class |
| Svm.LowBounds | src/main/java/org/cytoscape/tmm/reports/SVM.java:191-196 | `low` is at least 0 and every value0, and is 0 or one of them |
| Svm.MinFromBounds | src/main/java/org/cytoscape/tmm/reports/SVM.java:198-204 | the running minimum is below the start and every value, and is one of them |
| Svm.UpBounds | src/main/java/org/cytoscape/tmm/reports/SVM.java:198-204 | `up` is the least of values1, and 0 (not +Infinity) when there are none |
| Svm.UpBelow | src/main/java/org/cytoscape/tmm/reports/SVM.java:198-204 | `up` is at most every value1 |
| Svm.SecondPass | src/main/java/org/cytoscape/tmm/reports/SVM.java:214-229 | one prediction per point: 1 exactly when its score reaches the threshold |
| Svm.SeparatedPassAgrees | src/main/java/org/cytoscape/tmm/reports/SVM.java:191-251 | when both classes are predicted and every value0 is below every value1, the second pass reproduces the first |
| Svm.ValuesInRange | src/main/java/org/cytoscape/tmm/reports/SVM.java:163-180 | values of in-range scores are in range |
| Svm.CountTotal | src/main/java/org/cytoscape/tmm/reports/SVM.java:181-186 | the four confusion cells of one pass add up to the number of points |
| Svm.ConfusionTotal | src/main/java/org/cytoscape/tmm/reports/SVM.java:154-237 | after one `classify` the confusion matrix adds up to twice the number of points |
| Svm.CountStep | src/main/java/org/cytoscape/tmm/reports/SVM.java:181-186 | one more point adds one to its own cell |
| Svm.ValuesStep | src/main/java/org/cytoscape/tmm/reports/SVM.java:177-180 | one more point adds its score to its class's values |
| Svm.PredictedLabelMeaning | src/main/java/org/cytoscape/tmm/reports/SVM.java:389-398 | the predicted label of a table row is the category of the matching signs; it is in an axis's class exactly when that column is set |
| Svm.Correct | src/main/java/org/cytoscape/tmm/reports/SVM.java:386-404 | the count is at most n, and exists exactly when every sample has a label |
| Svm.AccuracyRange | src/main/java/org/cytoscape/tmm/reports/SVM.java:406-407 | with samples the accuracy lies in [0, 1]; with none it is NaN |
| Svm.Fraction | src/main/java/org/cytoscape/tmm/reports/SVM.java:407 | a count over a larger total lies in [0, 1] |
| Svm.AllCorrect | src/main/java/org/cytoscape/tmm/reports/SVM.java:386-407 | when every prediction matches its label, every sample counts as correct |
| Svm.Rows | src/main/java/org/cytoscape/tmm/reports/SVM.java:34 | the two columns of the table, row by row |
| Svm.FindLow | src/main/java/org/cytoscape/tmm/reports/SVM.java:191-196 | the loop computes `low` |
| Svm.FindUp | src/main/java/org/cytoscape/tmm/reports/SVM.java:198-204 | the loop computes `up` |
| Svm.SVM.constructor | src/main/java/org/cytoscape/tmm/reports/SVM.java:44-48 | an all-false prediction table with one row per sample and no cached accuracy |
| Svm.SVM.GenerateDataSet | src/main/java/org/cytoscape/tmm/reports/SVM.java:95-146 | the data set of the axis's scores and labels, in sample order |
| Svm.SVM.Record | src/main/java/org/cytoscape/tmm/reports/SVM.java:173-186 | one table cell set to the prediction and one confusion cell incremented |
| Svm.SVM.Classify | src/main/java/org/cytoscape/tmm/reports/SVM.java:154-247 | the threshold goes to h (ALT) or v (Telomerase); only the axis's column is written, with the second-pass predictions; the fresh confusion matrix holds both passes' counts |
| Svm.SVM.SecondPassRun | src/main/java/org/cytoscape/tmm/reports/SVM.java:214-237 | the second loop writes the axis column and adds the second pass's counts |
| Svm.SVM.GetAccuracy | src/main/java/org/cytoscape/tmm/reports/SVM.java:377-409 | the cached value when there is one; otherwise the accuracy of the table, which is then cached |
| Svm.NoDataSetAfter | src/main/java/org/cytoscape/tmm/reports/SVM.java:124-131 | a sample without score or label leaves no data set |
| Svm.NoCountAfter | src/main/java/org/cytoscape/tmm/reports/SVM.java:386-388 | a sample without a label leaves no count |
| Svm.RunSvm | src/main/java/org/cytoscape/tmm/reports/SVM.java:62-83 | succeeds exactly when both data sets exist, failing with the ALT message either way; no ALT data set leaves every field unchanged; otherwise h is the ALT threshold and the isALT column the ALT second pass; a missing Telomerase data set then leaves v and the isTelomerase column unchanged and the confusion matrix the ALT run's counts; on success v is the Telomerase threshold, the isTelomerase column its second pass and the confusion matrix the Telomerase run's counts of both passes; the machine stays valid and the cached accuracy unchanged |
| BoxPlot.Scored | src/main/java/org/cytoscape/tmm/reports/BoxPlotFactory.java:181-185 | the label's samples that have a score, in order |
| BoxPlot.ScoresOf | src/main/java/org/cytoscape/tmm/reports/BoxPlotFactory.java:181-186 | one score per scored sample, in sample order |
| BoxPlot.ScoresOfStep | src/main/java/org/cytoscape/tmm/reports/BoxPlotFactory.java:181-186 | one more sample adds its score if it has one |
| BoxPlot.Gather | src/main/java/org/cytoscape/tmm/reports/BoxPlotFactory.java:180-187 | the inner loop gathers `ScoresOf` |
| BoxPlot.RowLabels | src/main/java/org/cytoscape/tmm/reports/BoxPlotFactory.java:207 | the row keys of the dataset, in order |
| BoxPlot.DatasetOfStep | src/main/java/org/cytoscape/tmm/reports/BoxPlotFactory.java:178-190 | one more label adds a row exactly when it has a score |
| BoxPlot.DatasetOfValues | src/main/java/org/cytoscape/tmm/reports/BoxPlotFactory.java:178-190 | each row is a label with exactly its scores |
| BoxPlot.DatasetOfLabels | src/main/java/org/cytoscape/tmm/reports/BoxPlotFactory.java:178-190 | the rows are distinct and are exactly the labels with at least one score |
| BoxPlot.DatasetOfSpec | src/main/java/org/cytoscape/tmm/reports/BoxPlotFactory.java:175-192 | walking the labels in any order gives a valid dataset |
| BoxPlot.DatasetMembership | src/main/java/org/cytoscape/tmm/reports/BoxPlotFactory.java:175-192 | a label is in the dataset exactly when at least one of its samples has a score; its list is those scores in sample order |
| BoxPlot.FlatAligned | src/main/java/org/cytoscape/tmm/reports/BoxPlotFactory.java:207-218 | the flattened data and labels have equal length and label k is the label whose sample gave datum k; row i's scores occupy, in order, the positions right after the data of rows 0 .. i-1, each labelled with row i |
| BoxPlot.FlatOfRows | src/main/java/org/cytoscape/tmm/reports/BoxPlotFactory.java:207-221 | the flattened data is the dataset's values, row after row |
| BoxPlot.Kwt | src/main/java/org/cytoscape/tmm/reports/BoxPlotFactory.java:204-233 | the rank-sum p value of the flattened data, or NaN when the test fails |
| BoxPlot.AllScores | src/main/java/org/cytoscape/tmm/reports/BoxPlotFactory.java:254-259 | the scores of every sample, failing exactly when one has none |
| BoxPlot.AllScoresAreBox | src/main/java/org/cytoscape/tmm/reports/BoxPlotFactory.java:254-259 | when every sample has a score this is the list `ScoresOf` gives |
| BoxPlot.ReadAll | src/main/java/org/cytoscape/tmm/reports/BoxPlotFactory.java:254-259 | the loop gathers `AllScores` |
| BoxPlot.MissingScore | src/main/java/org/cytoscape/tmm/reports/BoxPlotFactory.java:255 | a missing score anywhere fails the whole list |
| BoxPlot.MedDiff | src/main/java/org/cytoscape/tmm/reports/BoxPlotFactory.java:245-277 | the median difference and p value of the two labels' scores, None where it throws |
| BoxPlot.StatsMapSpec | src/main/java/org/cytoscape/tmm/reports/BoxPlotFactory.java:112-145 | the map has the five keys; a failed comparison sets all four comparison entries to NaN |
| BoxPlot.BoxplotStatsPairs | src/main/java/org/cytoscape/tmm/reports/BoxPlotFactory.java:112-123 | the comparisons are always ALT vs Normal and ALT vs Telomerase; the overall p value is the rounded rank test |
| BoxPlot.Spaces | src/main/java/org/cytoscape/tmm/reports/BoxPlotFactory.java:315-320 | max(n, 0) space characters |
| BoxPlot.BoxPlotFactory.constructor | src/main/java/org/cytoscape/tmm/reports/BoxPlotFactory.java:55-61 | the factory over the labels and the two axes' scores, with no statistics yet |
| BoxPlot.BoxPlotFactory.CreateSampleDataset | src/main/java/org/cytoscape/tmm/reports/BoxPlotFactory.java:175-192 | a valid dataset for the axis |
| BoxPlot.BoxPlotFactory.CreateBoxplot | src/main/java/org/cytoscape/tmm/reports/BoxPlotFactory.java:86-163 | a valid dataset; with fewer than 2 rows the statistics are unchanged, otherwise they are `BoxplotStats` |
| BoxPlot.BoxPlotFactory.CreateBoxplots | src/main/java/org/cytoscape/tmm/reports/BoxPlotFactory.java:73-77 | the ALT then the Telomerase plot, so the last plot with 2 or more rows decides the statistics |
| ParsedFiles.ToolTipOf | src/main/java/org/cytoscape/tmm/processing/ParsedFilesDirectory.java:105-109 | the message of the item, null exactly when there is none |
| ParsedFiles.ToolTipAfterSet | src/main/java/org/cytoscape/tmm/processing/ParsedFilesDirectory.java:100-103 | setting an item's message changes what that item reads back and nothing else |
| ParsedFiles.LastMessage | src/main/java/org/cytoscape/tmm/processing/ParsedFilesDirectory.java:100-103 | None exactly when no call names the item; otherwise the message of one that does |
| ParsedFiles.LastMessageWins | src/main/java/org/cytoscape/tmm/processing/ParsedFilesDirectory.java:100-109 | after any calls an item reads back the last message set for it, or what it had before |
| ParsedFiles.ParsedFilesDirectory.constructor | src/main/java/org/cytoscape/tmm/processing/ParsedFilesDirectory.java:16-26 | no files set, no messages, `allValid` true |
| ParsedFiles.ParsedFilesDirectory.SetFcMatFile | src/main/java/org/cytoscape/tmm/processing/ParsedFilesDirectory.java:32-34 | only `fcMatFile` changes |
| ParsedFiles.ParsedFilesDirectory.SetNetworkFile | src/main/java/org/cytoscape/tmm/processing/ParsedFilesDirectory.java:40-42 | only `networkFile` changes |
| ParsedFiles.ParsedFilesDirectory.SetNodeTableFile | src/main/java/org/cytoscape/tmm/processing/ParsedFilesDirectory.java:48-50 | only `nodeTableFile` changes |
| ParsedFiles.ParsedFilesDirectory.SetParentDir | src/main/java/org/cytoscape/tmm/processing/ParsedFilesDirectory.java:56-58 | only `parentDir` changes |
| ParsedFiles.ParsedFilesDirectory.SetExpMatFile | src/main/java/org/cytoscape/tmm/processing/ParsedFilesDirectory.java:64-66 | only `expMatFile` changes |
| ParsedFiles.ParsedFilesDirectory.SetExpMatFileHandler | src/main/java/org/cytoscape/tmm/processing/ParsedFilesDirectory.java:72-74 | only `expMatFileHandler` changes |
| ParsedFiles.ParsedFilesDirectory.SetIterationDir | src/main/java/org/cytoscape/tmm/processing/ParsedFilesDirectory.java:80-82 | only `iterationDir` changes |
| ParsedFiles.ParsedFilesDirectory.SetReportDir | src/main/java/org/cytoscape/tmm/processing/ParsedFilesDirectory.java:88-90 | only `reportDir` changes |
| ParsedFiles.ParsedFilesDirectory.SetIterationTitle | src/main/java/org/cytoscape/tmm/processing/ParsedFilesDirectory.java:96-98 | only `iterationTitle` changes |
| ParsedFiles.ParsedFilesDirectory.SetErrorToolTip | src/main/java/org/cytoscape/tmm/processing/ParsedFilesDirectory.java:100-103 | records the message, clears `allValid` for good, and leaves other items' messages alone |
| ParsedFiles.ParsedFilesDirectory.GetErrorToolTip | src/main/java/org/cytoscape/tmm/processing/ParsedFilesDirectory.java:105-109 | the message of the item, or null |
| ParsedFiles.ParsedFilesDirectory.IsAllValid | src/main/java/org/cytoscape/tmm/processing/ParsedFilesDirectory.java:111-113 | true exactly when no item has a message |
| Panel.ContainsChar | src/main/java/org/cytoscape/tmm/gui/TMMPanel.java:771-773 | `contains` of a one-character string is membership of that character |
| Panel.TitleError | src/main/java/org/cytoscape/tmm/gui/TMMPanel.java:766-779 | no message exactly when the title is non-empty and has no space, `/`, `\` or `:` |
| Panel.EventTitleLoads | src/main/java/org/cytoscape/tmm/gui/TMMPanel.java:457-460 | a title the text field accepts is also accepted from saved properties, but `a/b` only by the latter |
| Panel.LoadedTitle | src/main/java/org/cytoscape/tmm/gui/TMMPanel.java:457-460 | a saved title is taken exactly when it is non-empty and has no space |
| Panel.BootCycles | src/main/java/org/cytoscape/tmm/gui/TMMPanel.java:967-978 | between 1 and 2^31 - 1: the parsed value when it is at least 1, otherwise 200 |
| Panel.BootCyclesStable | src/main/java/org/cytoscape/tmm/gui/TMMPanel.java:967-978 | re-entering the shown text gives the same number of cycles |
| Panel.Shorten | src/main/java/org/cytoscape/tmm/gui/TMMPanel.java:754-755 | names within the limit are kept; longer ones become their first `keep` characters and `...` |
| Panel.DirLabel | src/main/java/org/cytoscape/tmm/gui/TMMPanel.java:447-448 | at most 17 characters, and unchanged exactly when the name has at most 17 |
| Panel.LabelsFileLabel | src/main/java/org/cytoscape/tmm/gui/TMMPanel.java:837-838 | at most 20 characters, and unchanged exactly when the name has at most 20 |
| Panel.ShortenIdempotent | src/main/java/org/cytoscape/tmm/gui/TMMPanel.java:754-755 | shortening a shortened name changes nothing |
| Panel.StageGating | src/main/java/org/cytoscape/tmm/gui/TMMPanel.java:340-399 | out of editing, Run PSF follows addFCDone, Generate report runPSFDone and Open generateReportDone; in editing every stage button, the sample picker and Viz are disabled |
| Panel.TmmPanel.constructor | src/main/java/org/cytoscape/tmm/gui/TMMPanel.java:30-46 | title `Untitled_iteration`, editing, no stage done |
| Panel.TmmPanel.EnableButtons | src/main/java/org/cytoscape/tmm/gui/TMMPanel.java:340-399 | the enabled state of every button is the one `ButtonsFor` gives for the current flags |
| Panel.TmmPanel.IterationTitleEntered | src/main/java/org/cytoscape/tmm/gui/TMMPanel.java:766-784 | an acceptable title is taken; otherwise the message is shown and the field reverts to the old title |
| Panel.TmmPanel.LoadIterationTitle | src/main/java/org/cytoscape/tmm/gui/TMMPanel.java:457-460 | `iterationTitle` becomes the saved title when acceptable, else stays; the field text is written back unchanged, so a restored title differs from the one the field shows |
| Panel.SavedTitleNotShown | src/main/java/org/cytoscape/tmm/gui/TMMPanel.java:171-173 | on a new panel, restoring "run1" sets `iterationTitle` to "run1" while `getIterationTitle` still gives "Untitled_iteration" |
| Panel.TmmPanel.BootCyclesEntered | src/main/java/org/cytoscape/tmm/gui/TMMPanel.java:967-978 | the field shows the decimal text of the boot cycles, which parses back to them |
| Panel.TmmPanel.Edit | src/main/java/org/cytoscape/tmm/gui/TMMPanel.java:787-793 | editing on, all three done flags off, Run PSF, Generate report and Open disabled |
| Panel.TmmPanel.BrowseParentDir | src/main/java/org/cytoscape/tmm/gui/TMMPanel.java:739-764 | an existing choice becomes the parent dir with its short label; a different path clears the three done flags; with no previous dir it fails where the source dereferences null |
| Panel.TmmPanel.LoadParentDir | src/main/java/org/cytoscape/tmm/gui/TMMPanel.java:436-451 | a saved directory is taken if it exists and is a directory, dropped otherwise, and shown by its short label |
| Panel.TmmPanel.SetTmmLabelsFile | src/main/java/org/cytoscape/tmm/gui/TMMPanel.java:835-847 | the short name of the file, or `No file chosen` |

## Left out

- File I/O: opening, creating, deleting and closing files, `exists` checks and `IOException` paths; files are given as their lines and written text is returned.
- `ExpMatFileHandler` construction of the `CyNode` value map (ExpMatFileHandler.java:144-156) and the constructor's network lookup: they call into Cytoscape, which is not part of this model.
- The NA warning printed by `processExpMat` and every other console output (`printDataSet`, `printConfusionMatrix`, `printPredictionTable`, `printSummaryMap`).
- Getters that return a field unchanged (`getSamples`, `getSummaryMap`, `getH`, `getV`, `getConfusionMatrix`, `getBoxplotStats`, `getGroups` and the `ParsedFilesDirectory` getters): the model reads the field itself.
- `Double.parseDouble`, `Double.toString` and `DoubleFormatter.formatDouble` are parameters; DoubleFormatter.java is not part of this model.
- `Double.parseDouble` is modelled as yielding a finite real or nothing. Java's returns NaN for `NaN`, +/-Infinity for `Infinity` and for numbers beyond the double range, and its `<` comparisons are false for NaN, so the guards `value < 0` (ExpMatFileHandler.java:108), `score < 0` and `pvalue < 0 || pvalue > 1` (SummaryFileHandler.java:182-206) let such cells through. The lines below name the members whose promises therefore hold only for finite cells.
- ExpMat.RowValuesFromSpec: a cell reading `NaN` or `Infinity` is accepted by the Java reader and stored as NaN or +Infinity; the model's cells are finite reals, so this case is not covered.
- ExpMat.RowValuesSpec: as for RowValuesFromSpec, a row holding `NaN` or `Infinity` cells reads successfully in Java with those values, which the model does not represent.
- Summary.PopulateFromOk: in Java a score or p value token `NaN` passes both range checks and `Infinity` passes the score check; the model's "succeeds exactly when" ranges over finite numbers only.
- Summary.PopulateFromBounds: a NaN score is stored but never widens the range (both comparisons are false), so Java's stored NaN is not bracketed; the model covers finite values only.
- Summary.PopulateSpec: the same NaN and Infinity cases as PopulateFromOk and PopulateFromBounds are not covered.
- Summary.SummarySpecProperties: the bracketing of the ranges is stated for finite scores and p values only.
- Summary.SummarySpecAttained: the attainment of the range ends is stated for finite scores and p values only.
- `Stats.rankSum`, `MannWhitneyMedianDifferenceCI`, `MannWhitneyTest` and the LS-SVM classifier (`trainC`, `classify`) are parameters: the first pass's predictions are an input sequence of 0/1 values.
- Chart building (JFreeChart plots, renderers, series colours, legends, `formatLegend`, `TwoDPlotFactory`, `VolcanoPlotFactory`, `PlotManager`) produces no data the rest of the core reads.
- BoxPlot.BoxPlotFactory.CreateBoxplot: an exception thrown by `DoubleFormatter.formatDouble` inside the legend block would also reset the four pairwise entries to NaN; the model does not let the formatter fail.
- `TMMLabels` and `GroupLabels` wrappers `setGroupColors` and the constructors' file-existence checks and "Problem reading ..." message prefixes: the modelled readers return the inner error.
- Panel.TmmPanel.EnableButtons: the border colours and tool tips set on the input fields (TMMPanel.java:273-337) are not modelled; only the enabled state of each control is.
- The rest of `TMMPanel`: layout, dialogs, file choosers, property saving and the actions that start the pipeline tasks.
- Svm.SeparatedPassAgrees: requires every score to be finite and non-negative; the Java summary reader also accepts the tokens `NaN` and `Infinity` (and rounds numbers beyond the double range to Infinity), and the model's reader accepts any real the parse parameter returns, so NaN, infinite and out-of-range scores are not covered.
- Groups.GroupLabels.constructor: the group `unknown` holds a copy of the samples list; in Java it holds the caller's list itself (GroupLabels.java:36), so later changes the caller makes to that list are not seen.
- Svm.RunSvm: the error message omits the text of the underlying exception that the Java appends.
- Java `double` arithmetic is modelled as exact real arithmetic: the row sums and means of `processExpMat`, the SVM threshold `(up + low) / 2` and the accuracy fraction are not rounded to the nearest double and never overflow to Infinity; only a division by zero gives +Infinity, -Infinity or NaN.
- Digits: `Integer.parseInt` and `Color.decode` are modelled on ASCII digits only; Java's `Character.digit` also accepts the other Unicode decimal digits (Arabic-Indic, full-width and so on), which the model's parser rejects.
- Concurrency: the Swing event thread and background tasks are not modelled.
