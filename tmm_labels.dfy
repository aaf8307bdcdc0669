/** The TMM labels file: a header `Sample\tALT\tTelomerase`, then one row per
    sample with `+` or `-` for each of the two telomere-maintenance axes. */
module TmmLabels {
  import opened Common
  import opened ColorPalette

  const A: string := "ALT"
  const T: string := "Telomerase"
  const N: string := "Normal"
  const AT: string := "ALT+/Telomerase+"

  const AllCategories: set<string> := {A, T, N, AT}

  /** The `categories` matrix: row by the ALT symbol, column by the Telomerase one. */
  const Categories: seq<seq<string>> := [[A, AT], [N, T]]

  const HeaderLine: string := "Sample\tALT\tTelomerase"

  predicate IsSign(t: string) { t == "+" || t == "-" }

  /** The lookup `readTmmLabels` makes; note that the column index is 0 when
      the Telomerase symbol is "-". */
  function Category(altSign: string, telSign: string): (c: string)
    ensures c in AllCategories
  {
    var isAlt := altSign == "+";
    var isTelomerase := telSign == "-";
    var i := if isAlt then 0 else 1;
    var j := if isTelomerase then 0 else 1;
    Categories[i][j]
  }

  predicate HasAlt(c: string) { c == A || c == AT }

  predicate HasTelomerase(c: string) { c == T || c == AT }

  /** A category names ALT exactly when column 2 is "+", and Telomerase exactly
      when column 3 is "+"; so the four symbol pairs give four categories. */
  lemma CategoryMeaning(altSign: string, telSign: string)
    requires IsSign(altSign) && IsSign(telSign)
    ensures HasAlt(Category(altSign, telSign)) <==> altSign == "+"
    ensures HasTelomerase(Category(altSign, telSign)) <==> telSign == "+"
    ensures Category(altSign, telSign) == N <==> altSign == "-" && telSign == "-"
  {
  }

  /** The colours of `labelColorMap`: red, blue, green and cyan. */
  const LabelColors: map<string, Color> :=
    map[A := Color(255, 0, 0), T := Color(0, 0, 255), N := Color(0, 255, 0), AT := Color(0, 255, 255)]

  /** The four empty lists `initializeMaps` installs. */
  const EmptyLabels: map<string, seq<string>> := map[A := [], T := [], N := [], AT := []]

  // ---------------------------------------------------------------------
  // Reading
  // ---------------------------------------------------------------------

  datatype LabelsError =
    | MissingHeader                        // `header.equals` on a null first line
    | InvalidHeader(found: string)
    | ColumnCount(lineNum: int, columns: nat)
    | UnexpectedSymbol(lineNum: int, symbol: string)

  /** The checks `readTmmLabels` makes of a data row, in order. */
  function RowError(line: string, lineNum: int): (r: Option<LabelsError>)
    ensures r.None? <==> RowOk(line)
  {
    var tokens := Split(line, '\t');
    if |tokens| != 3 then Some(ColumnCount(lineNum, |tokens|))
    else if !IsSign(tokens[1]) then Some(UnexpectedSymbol(lineNum, tokens[1]))
    else if !IsSign(tokens[2]) then Some(UnexpectedSymbol(lineNum, tokens[2]))
    else None
  }

  predicate RowOk(line: string)
  {
    var tokens := Split(line, '\t');
    |tokens| == 3 && IsSign(tokens[1]) && IsSign(tokens[2])
  }

  function RowSample(line: string): string { Field(line, '\t', 0) }

  function RowCategory(line: string): string
  {
    Category(Field(line, '\t', 1), Field(line, '\t', 2))
  }

  /** Rows `k..` of the file, on top of the lists and labels read so far;
      row k is reported as line k. */
  function LoadFrom(lines: seq<string>, k: nat, ls: map<string, seq<string>>, sl: map<string, string>)
    : Result<(map<string, seq<string>>, map<string, string>), LabelsError>
    requires 1 <= k <= |lines|
    requires AllCategories <= ls.Keys
    decreases |lines| - k
  {
    if k == |lines| then Ok((ls, sl))
    else
      match RowError(lines[k], k)
      case Some(e) => Err(e)
      case None =>
        var c := RowCategory(lines[k]);
        var s := RowSample(lines[k]);
        LoadFrom(lines, k + 1, ls[c := ls[c] + [s]], sl[s := c])
  }

  /** `readTmmLabels` on lists `ls` and labels `sl`. */
  function Read(lines: seq<string>, ls: map<string, seq<string>>, sl: map<string, string>)
    : Result<(map<string, seq<string>>, map<string, string>), LabelsError>
    requires AllCategories <= ls.Keys
  {
    if |lines| == 0 then Err(MissingHeader)
    else if lines[0] != HeaderLine then Err(InvalidHeader(lines[0]))
    else LoadFrom(lines, 1, ls, sl)
  }

  /** What the `TMMLabels` constructor reads: `Read` on freshly initialised maps. */
  function Load(lines: seq<string>): Result<(map<string, seq<string>>, map<string, string>), LabelsError>
  {
    Read(lines, EmptyLabels, map[])
  }

  /** The samples of the well-formed rows in [lo, hi) whose category is `c`, in file order. */
  function SamplesBetween(lines: seq<string>, lo: nat, hi: nat, c: string): seq<string>
    requires lo <= hi <= |lines|
    decreases hi
  {
    if hi == lo then []
    else
      SamplesBetween(lines, lo, hi - 1, c)
      + (if RowOk(lines[hi - 1]) && RowCategory(lines[hi - 1]) == c then [RowSample(lines[hi - 1])] else [])
  }

  predicate RowsOk(lines: seq<string>, lo: nat, hi: nat)
    requires lo <= hi <= |lines|
  {
    forall j :: lo <= j < hi ==> RowOk(lines[j])
  }

  /** The category of the last well-formed row in [1, hi) naming sample `s`. */
  function LastLabel(lines: seq<string>, hi: nat, s: string): Option<string>
    requires 1 <= hi <= |lines|
    decreases hi
  {
    if hi == 1 then None
    else if RowOk(lines[hi - 1]) && RowSample(lines[hi - 1]) == s then Some(RowCategory(lines[hi - 1]))
    else LastLabel(lines, hi - 1, s)
  }

  /** `sl` labels exactly the samples of rows [1, hi), each with the category
      of its last row. */
  ghost predicate LabelsOf(lines: seq<string>, hi: nat, sl: map<string, string>)
    requires 1 <= hi <= |lines|
  {
    forall s :: LastLabel(lines, hi, s) == if s in sl then Some(sl[s]) else None
  }

  /** The first row at or after k that `readTmmLabels` refuses, or |lines| when there is none. */
  function FirstBadRow(lines: seq<string>, k: nat): (j: nat)
    requires k <= |lines|
    ensures k <= j <= |lines| && RowsOk(lines, k, j) && (j < |lines| ==> !RowOk(lines[j]))
    decreases |lines| - k
  {
    if k == |lines| || !RowOk(lines[k]) then k else FirstBadRow(lines, k + 1)
  }

  /** A well-formed row files its sample under its category and labels it. */
  lemma LoadFromStep(lines: seq<string>, k: nat, ls: map<string, seq<string>>, sl: map<string, string>)
    requires 1 <= k < |lines| && AllCategories <= ls.Keys && RowOk(lines[k])
    ensures var c := RowCategory(lines[k]);
      LoadFrom(lines, k, ls, sl) == LoadFrom(lines, k + 1, ls[c := ls[c] + [RowSample(lines[k])]], sl[RowSample(lines[k]) := c])
  {
  }

  /** Row k either stops the read with its error or is filed, as `LoadFromStep` says. */
  lemma LoadFromRow(lines: seq<string>, k: nat, ls: map<string, seq<string>>, sl: map<string, string>)
    requires 1 <= k < |lines| && AllCategories <= ls.Keys
    ensures !RowOk(lines[k]) ==> LoadFrom(lines, k, ls, sl) == Err(RowError(lines[k], k).value)
    ensures RowOk(lines[k]) ==> var c := RowCategory(lines[k]);
      LoadFrom(lines, k, ls, sl) == LoadFrom(lines, k + 1, ls[c := ls[c] + [RowSample(lines[k])]], sl[RowSample(lines[k]) := c])
  {
    if RowOk(lines[k]) {
      LoadFromStep(lines, k, ls, sl);
    }
  }

  lemma {:induction false} LoadFromOk(lines: seq<string>, k: nat, ls: map<string, seq<string>>, sl: map<string, string>)
    requires 1 <= k <= |lines| && AllCategories <= ls.Keys
    ensures LoadFrom(lines, k, ls, sl).Ok? <==> RowsOk(lines, k, |lines|)
    decreases |lines| - k
  {
    if k < |lines| && RowOk(lines[k]) {
      LoadFromStep(lines, k, ls, sl);
      var c := RowCategory(lines[k]);
      LoadFromOk(lines, k + 1, ls[c := ls[c] + [RowSample(lines[k])]], sl[RowSample(lines[k]) := c]);
      assert RowsOk(lines, k, |lines|) == RowsOk(lines, k + 1, |lines|);
    } else if k < |lines| {
      assert !RowsOk(lines, k, |lines|);
    }
  }

  /** A failed read reports the error of the first bad row. */
  lemma {:induction false} LoadFromError(lines: seq<string>, k: nat, ls: map<string, seq<string>>, sl: map<string, string>)
    requires 1 <= k <= |lines| && AllCategories <= ls.Keys
    requires LoadFrom(lines, k, ls, sl).Err?
    ensures var j := FirstBadRow(lines, k);
      j < |lines| && LoadFrom(lines, k, ls, sl).error == RowError(lines[j], j).value
    decreases |lines| - k
  {
    if RowOk(lines[k]) {
      LoadFromStep(lines, k, ls, sl);
      var c := RowCategory(lines[k]);
      LoadFromError(lines, k + 1, ls[c := ls[c] + [RowSample(lines[k])]], sl[RowSample(lines[k]) := c]);
    }
  }

  lemma {:induction false} LoadFromLists(lines: seq<string>, k: nat, ls: map<string, seq<string>>, sl: map<string, string>)
    requires 1 <= k <= |lines| && ls.Keys == AllCategories
    requires forall c :: c in AllCategories ==> ls[c] == SamplesBetween(lines, 1, k, c)
    requires LoadFrom(lines, k, ls, sl).Ok?
    ensures LoadFrom(lines, k, ls, sl).value.0.Keys == AllCategories
    ensures forall c :: c in AllCategories ==> LoadFrom(lines, k, ls, sl).value.0[c] == SamplesBetween(lines, 1, |lines|, c)
    decreases |lines| - k
  {
    if k < |lines| {
      LoadFromOk(lines, k, ls, sl);
      LoadFromStep(lines, k, ls, sl);
      var c := RowCategory(lines[k]);
      var ls' := ls[c := ls[c] + [RowSample(lines[k])]];
      forall c' | c' in AllCategories
        ensures ls'[c'] == SamplesBetween(lines, 1, k + 1, c')
      {
      }
      LoadFromLists(lines, k + 1, ls', sl[RowSample(lines[k]) := c]);
    }
  }

  lemma LastLabelStep(lines: seq<string>, k: nat, sl: map<string, string>)
    requires 1 <= k < |lines| && LabelsOf(lines, k, sl) && RowOk(lines[k])
    ensures LabelsOf(lines, k + 1, sl[RowSample(lines[k]) := RowCategory(lines[k])])
  {
    var sl' := sl[RowSample(lines[k]) := RowCategory(lines[k])];
    forall s
      ensures LastLabel(lines, k + 1, s) == if s in sl' then Some(sl'[s]) else None
    {
      assert LastLabel(lines, k, s) == if s in sl then Some(sl[s]) else None;
    }
  }

  lemma {:induction false} LoadFromLabels(lines: seq<string>, k: nat, ls: map<string, seq<string>>, sl: map<string, string>)
    requires 1 <= k <= |lines| && AllCategories <= ls.Keys
    requires LabelsOf(lines, k, sl)
    requires LoadFrom(lines, k, ls, sl).Ok?
    ensures LabelsOf(lines, |lines|, LoadFrom(lines, k, ls, sl).value.1)
    decreases |lines| - k
  {
    if k < |lines| {
      LoadFromOk(lines, k, ls, sl);
      LoadFromStep(lines, k, ls, sl);
      LastLabelStep(lines, k, sl);
      var c := RowCategory(lines[k]);
      var s := RowSample(lines[k]);
      LoadFromLabels(lines, k + 1, ls[c := ls[c] + [s]], sl[s := c]);
    }
  }

  /** `readTmmLabels` succeeds iff the header is right and every row has three
      columns with "+" or "-" in the last two; then each category's list holds
      its rows' samples in file order, and each sample is labelled with the
      category of its last row. Otherwise the error is that of the first bad row. */
  lemma LoadSpec(lines: seq<string>)
    ensures Load(lines).Ok? <==> |lines| > 0 && lines[0] == HeaderLine && RowsOk(lines, 1, |lines|)
    ensures |lines| == 0 ==> Load(lines) == Err(MissingHeader)
    ensures |lines| > 0 && lines[0] != HeaderLine ==> Load(lines) == Err(InvalidHeader(lines[0]))
    ensures |lines| > 0 && lines[0] == HeaderLine && Load(lines).Err? ==>
              var j := FirstBadRow(lines, 1);
              j < |lines| && Load(lines).error == RowError(lines[j], j).value
    ensures Load(lines).Ok? ==>
              Load(lines).value.0.Keys == AllCategories &&
              (forall c :: c in AllCategories ==> Load(lines).value.0[c] == SamplesBetween(lines, 1, |lines|, c)) &&
              LabelsOf(lines, |lines|, Load(lines).value.1)
  {
    if |lines| > 0 && lines[0] == HeaderLine {
      LoadFromOk(lines, 1, EmptyLabels, map[]);
      if Load(lines).Err? {
        LoadFromError(lines, 1, EmptyLabels, map[]);
      } else {
        LoadFromLists(lines, 1, EmptyLabels, map[]);
        LoadFromLabels(lines, 1, EmptyLabels, map[]);
      }
    }
  }

  /** Every well-formed row lands in exactly one of the four lists. */
  lemma {:induction false} SamplesPartition(lines: seq<string>, lo: nat, hi: nat)
    requires lo <= hi <= |lines| && RowsOk(lines, lo, hi)
    ensures |SamplesBetween(lines, lo, hi, A)| + |SamplesBetween(lines, lo, hi, T)|
            + |SamplesBetween(lines, lo, hi, N)| + |SamplesBetween(lines, lo, hi, AT)| == hi - lo
    decreases hi
  {
    if hi > lo {
      SamplesPartition(lines, lo, hi - 1);
    }
  }

  // ---------------------------------------------------------------------
  // The labels object
  // ---------------------------------------------------------------------

  class TMMLabels {
    var labelSamplesMap: map<string, seq<string>>
    var labelColorMap: map<string, Color>
    var sampleTMMLabelMap: map<string, string>

    /** The four lists always exist and the colours never change. */
    predicate Valid()
      reads this
    {
      labelSamplesMap.Keys == AllCategories && labelColorMap == LabelColors
    }

    /** `initializeMaps`: four empty lists, no labels, the four colours. */
    constructor ()
      ensures Valid()
      ensures labelSamplesMap == EmptyLabels && sampleTMMLabelMap == map[]
    {
      labelSamplesMap := EmptyLabels;
      sampleTMMLabelMap := map[];
      labelColorMap := LabelColors;
    }

    /** `readTmmLabels`, given the lines of the file. */
    method ReadTmmLabels(lines: seq<string>) returns (r: Result<(), LabelsError>)
      requires Valid()
      modifies this
      ensures r.Ok? <==> Read(lines, old(labelSamplesMap), old(sampleTMMLabelMap)).Ok?
      ensures r.Err? ==> r.error == Read(lines, old(labelSamplesMap), old(sampleTMMLabelMap)).error
      ensures r.Ok? ==> Valid()
      ensures r.Ok? ==>
        (labelSamplesMap, sampleTMMLabelMap) == Read(lines, old(labelSamplesMap), old(sampleTMMLabelMap)).value
    {
      if |lines| == 0 {
        return Err(MissingHeader);
      }
      var header := lines[0];
      if header != HeaderLine {
        return Err(InvalidHeader(header));
      }
      ghost var whole := LoadFrom(lines, 1, labelSamplesMap, sampleTMMLabelMap);
      var lineNum := 1;
      while lineNum < |lines|
        invariant 1 <= lineNum <= |lines| && Valid()
        invariant whole == LoadFrom(lines, lineNum, labelSamplesMap, sampleTMMLabelMap)
      {
        var tokens := Split(lines[lineNum], '\t');
        LoadFromRow(lines, lineNum, labelSamplesMap, sampleTMMLabelMap);
        if |tokens| != 3 {
          return Err(ColumnCount(lineNum, |tokens|));
        }
        var sample := tokens[0];
        if tokens[1] != "+" && tokens[1] != "-" {
          return Err(UnexpectedSymbol(lineNum, tokens[1]));
        }
        var isAlt := tokens[1] == "+";
        if tokens[2] != "+" && tokens[2] != "-" {
          return Err(UnexpectedSymbol(lineNum, tokens[2]));
        }
        var isTelomerase := tokens[2] == "-";
        var i := if isAlt then 0 else 1;
        var j := if isTelomerase then 0 else 1;
        var category := Categories[i][j];
        assert sample == RowSample(lines[lineNum]) && category == RowCategory(lines[lineNum]);
        AddLabel(sample, category);
        lineNum := lineNum + 1;
      }
      return Ok(());
    }

    /** One row of `readTmmLabels`: the sample is labelled with its category
        and joins that category's list. */
    method AddLabel(sample: string, category: string)
      requires Valid() && category in AllCategories
      modifies this
      ensures Valid()
      ensures sampleTMMLabelMap == old(sampleTMMLabelMap)[sample := category]
      ensures labelSamplesMap == old(labelSamplesMap)[category := old(labelSamplesMap)[category] + [sample]]
    {
      sampleTMMLabelMap := sampleTMMLabelMap[sample := category];
      labelSamplesMap := labelSamplesMap[category := labelSamplesMap[category] + [sample]];
    }

    /** `getSamples(label)`: the list of a category, null for any other label. */
    function GetSamples(tmmLabel: string): (r: Option<seq<string>>)
      reads this
      requires Valid()
      ensures r.Some? <==> tmmLabel in AllCategories
      ensures r.Some? ==> r.value == labelSamplesMap[tmmLabel]
    {
      if tmmLabel in labelSamplesMap then Some(labelSamplesMap[tmmLabel]) else None
    }

    /** `getLabelColor`: the colour of one of the four categories, null otherwise. */
    function GetLabelColor(seriesKey: string): (r: Option<Color>)
      reads this
      requires Valid()
      ensures r.Some? <==> seriesKey in AllCategories
      ensures seriesKey == A ==> r == Some(Color(255, 0, 0))
      ensures seriesKey == T ==> r == Some(Color(0, 0, 255))
      ensures seriesKey == N ==> r == Some(Color(0, 255, 0))
      ensures seriesKey == AT ==> r == Some(Color(0, 255, 255))
    {
      if seriesKey in labelColorMap then Some(labelColorMap[seriesKey]) else None
    }
  }

  // ---------------------------------------------------------------------
  // Validation
  // ---------------------------------------------------------------------

  function HeaderMessage(line: string, path: string): string
  {
    "Error in first line: expected \"Sample\\tALT\\tTelomerase\" found " + line + ". \nFile: " + path
  }

  /** Rows `k..` as `isLabelsFileValid` checks them; row k is line k + 1 and
      `seen` holds the samples of the rows before it. */
  function VerdictFrom(lines: seq<string>, k: nat, seen: set<string>, samples: seq<string>): string
    requires 1 <= k <= |lines|
    decreases |lines| - k
  {
    if k == |lines| then
      match FirstMissing(samples, seen)
      case None => "true"
      case Some(s) => "The file did not contain sample " + s
    else
      var tokens := Split(lines[k], '\t');
      var count := k + 1;
      if |tokens| != 3 then "Line number " + IntToString(count) + " does not contain 3 columns"
      else if tokens[0] in seen then "Duplicate sample found: " + tokens[0]
      else if !IsSign(tokens[1]) then "Labels should be '+' or '-'. Found: " + tokens[1] + " at line: " + IntToString(count)
      else if !IsSign(tokens[2]) then "Labels should be '+' or '-'. Found: " + tokens[1] + " at line: " + IntToString(count)
      else VerdictFrom(lines, k + 1, seen + {tokens[0]}, samples)
  }

  /** `isLabelsFileValid`: "true", or the message for the first problem found. */
  function Verdict(lines: seq<string>, samples: seq<string>, path: string): string
  {
    if |lines| == 0 then "The file is empty."
    else if lines[0] != HeaderLine then HeaderMessage(lines[0], path)
    else VerdictFrom(lines, 1, {}, samples)
  }

  /** `isLabelsFileValid`, given the lines of the file and its path. */
  method IsLabelsFileValid(lines: seq<string>, samples: seq<string>, path: string) returns (msg: string)
    ensures msg == Verdict(lines, samples, path)
  {
    if |lines| == 0 {
      return "The file is empty.";
    }
    if lines[0] != HeaderLine {
      return HeaderMessage(lines[0], path);
    }
    var labelsMap: map<string, seq<string>> := map[];
    assert labelsMap.Keys == {};
    var k := 1;
    while k < |lines|
      invariant 1 <= k <= |lines|
      invariant Verdict(lines, samples, path) == VerdictFrom(lines, k, labelsMap.Keys, samples)
    {
      var count := k + 1;
      var tokens := Split(lines[k], '\t');
      if |tokens| != 3 {
        return "Line number " + IntToString(count) + " does not contain 3 columns";
      }
      var sample := tokens[0];
      if sample in labelsMap {
        return "Duplicate sample found: " + sample;
      }
      if tokens[1] != "+" && tokens[1] != "-" {
        return "Labels should be '+' or '-'. Found: " + tokens[1] + " at line: " + IntToString(count);
      }
      if tokens[2] != "+" && tokens[2] != "-" {
        return "Labels should be '+' or '-'. Found: " + tokens[1] + " at line: " + IntToString(count);
      }
      assert labelsMap[sample := [tokens[1], tokens[2]]].Keys == labelsMap.Keys + {sample};
      labelsMap := labelsMap[sample := [tokens[1], tokens[2]]];
      k := k + 1;
    }
    var missing := FindMissing(samples, labelsMap.Keys);
    if missing.Some? {
      return "The file did not contain sample " + missing.value;
    }
    return "true";
  }

  function RowSamples(lines: seq<string>, hi: nat): set<string>
    requires hi <= |lines|
  {
    set j | 1 <= j < hi :: RowSample(lines[j])
  }

  predicate DistinctRows(lines: seq<string>, hi: nat)
    requires hi <= |lines|
  {
    forall j, j' :: 1 <= j < j' < hi ==> RowSample(lines[j]) != RowSample(lines[j'])
  }

  /** Adding row k to the rows before it adds its sample; when that sample is
      new, the samples stay distinct. */
  lemma RowSamplesStep(lines: seq<string>, k: nat)
    requires 1 <= k < |lines|
    ensures RowSamples(lines, k + 1) == RowSamples(lines, k) + {RowSample(lines[k])}
    ensures DistinctRows(lines, k) && RowSample(lines[k]) !in RowSamples(lines, k) ==> DistinctRows(lines, k + 1)
  {
    forall s | s in RowSamples(lines, k + 1)
      ensures s in RowSamples(lines, k) + {RowSample(lines[k])}
    {
      var j :| 1 <= j < k + 1 && RowSample(lines[j]) == s;
    }
    if DistinctRows(lines, k) && RowSample(lines[k]) !in RowSamples(lines, k) {
      forall j, j' | 1 <= j < j' < k + 1
        ensures RowSample(lines[j]) != RowSample(lines[j'])
      {
        if j' == k {
          assert RowSample(lines[j]) in RowSamples(lines, k);
        }
      }
    }
  }

  /** What `isLabelsFileValid` demands of rows k.. and of the file as a whole. */
  predicate OkFrom(lines: seq<string>, k: nat, samples: seq<string>)
    requires 1 <= k <= |lines|
  {
    RowsOk(lines, k, |lines|) && DistinctRows(lines, |lines|) &&
    forall s :: s in samples ==> s in RowSamples(lines, |lines|)
  }

  /** A row without three columns stops the validator and breaks `OkFrom`. */
  lemma VerdictRowShort(lines: seq<string>, k: nat, seen: set<string>, samples: seq<string>)
    requires 1 <= k < |lines| && |Split(lines[k], '\t')| != 3
    ensures VerdictFrom(lines, k, seen, samples) != "true" && !OkFrom(lines, k, samples)
  {
    assert VerdictFrom(lines, k, seen, samples)[0] == 'L';
    assert !RowOk(lines[k]);
  }

  /** A sample seen in an earlier row stops the validator and breaks `OkFrom`. */
  lemma VerdictRowRepeated(lines: seq<string>, k: nat, seen: set<string>, samples: seq<string>)
    requires 1 <= k < |lines| && |Split(lines[k], '\t')| == 3 && seen == RowSamples(lines, k) && RowSample(lines[k]) in seen
    ensures VerdictFrom(lines, k, seen, samples) != "true" && !OkFrom(lines, k, samples)
  {
    assert VerdictFrom(lines, k, seen, samples)[0] == 'D';
    var j :| 1 <= j < k && RowSample(lines[j]) == RowSample(lines[k]);
    assert !DistinctRows(lines, |lines|);
  }

  /** A new sample with a symbol other than "+" or "-" stops the validator and breaks `OkFrom`. */
  lemma VerdictRowBadSign(lines: seq<string>, k: nat, seen: set<string>, samples: seq<string>)
    requires 1 <= k < |lines| && |Split(lines[k], '\t')| == 3 && RowSample(lines[k]) !in seen && !RowOk(lines[k])
    ensures VerdictFrom(lines, k, seen, samples) != "true" && !OkFrom(lines, k, samples)
  {
    assert VerdictFrom(lines, k, seen, samples)[0] == 'L';
  }

  /** A well-formed row with a new sample passes the validator on to the next row. */
  lemma VerdictRowGood(lines: seq<string>, k: nat, seen: set<string>, samples: seq<string>)
    requires 1 <= k < |lines| && RowOk(lines[k]) && RowSample(lines[k]) !in seen
    ensures VerdictFrom(lines, k, seen, samples) == VerdictFrom(lines, k + 1, seen + {RowSample(lines[k])}, samples)
    ensures OkFrom(lines, k, samples) <==> OkFrom(lines, k + 1, samples)
  {
    assert RowsOk(lines, k, |lines|) == RowsOk(lines, k + 1, |lines|);
  }

  lemma {:induction false} VerdictFromTrue(lines: seq<string>, k: nat, seen: set<string>, samples: seq<string>)
    requires 1 <= k <= |lines|
    requires seen == RowSamples(lines, k) && DistinctRows(lines, k)
    ensures VerdictFrom(lines, k, seen, samples) == "true" <==> OkFrom(lines, k, samples)
    decreases |lines| - k
  {
    if k == |lines| {
      VerdictAtEnd(lines, seen, samples);
    } else if RowOk(lines[k]) && RowSample(lines[k]) !in seen {
      RowSamplesStep(lines, k);
      VerdictRowGood(lines, k, seen, samples);
      VerdictFromTrue(lines, k + 1, seen + {RowSample(lines[k])}, samples);
    } else {
      VerdictRowStops(lines, k, seen, samples);
    }
  }

  /** A row that is malformed or repeats a sample stops the validator and breaks `OkFrom`. */
  lemma VerdictRowStops(lines: seq<string>, k: nat, seen: set<string>, samples: seq<string>)
    requires 1 <= k < |lines| && seen == RowSamples(lines, k) && !(RowOk(lines[k]) && RowSample(lines[k]) !in seen)
    ensures VerdictFrom(lines, k, seen, samples) != "true" && !OkFrom(lines, k, samples)
  {
    if |Split(lines[k], '\t')| != 3 {
      VerdictRowShort(lines, k, seen, samples);
    } else if RowSample(lines[k]) in seen {
      VerdictRowRepeated(lines, k, seen, samples);
    } else {
      VerdictRowBadSign(lines, k, seen, samples);
    }
  }

  /** Past the last row, the verdict is "true" exactly when every requested sample was seen. */
  lemma VerdictAtEnd(lines: seq<string>, seen: set<string>, samples: seq<string>)
    requires 1 <= |lines| && seen == RowSamples(lines, |lines|) && DistinctRows(lines, |lines|)
    ensures VerdictFrom(lines, |lines|, seen, samples) == "true" <==> OkFrom(lines, |lines|, samples)
  {
    if FirstMissing(samples, seen).Some? {
      assert VerdictFrom(lines, |lines|, seen, samples)[0] == 'T';
    }
  }

  /** `isLabelsFileValid` says "true" exactly when the header and every row are
      well formed, no sample is listed twice, and every requested sample is
      present; samples the file has beyond those are allowed. */
  lemma VerdictTrueIff(lines: seq<string>, samples: seq<string>, path: string)
    ensures Verdict(lines, samples, path) == "true" <==>
              |lines| > 0 && lines[0] == HeaderLine && RowsOk(lines, 1, |lines|) && DistinctRows(lines, |lines|) &&
              forall s :: s in samples ==> s in RowSamples(lines, |lines|)
  {
    if |lines| > 0 {
      if lines[0] == HeaderLine {
        assert RowSamples(lines, 1) == {};
        VerdictFromTrue(lines, 1, {}, samples);
      } else {
        var lit := "Error in first line: expected \"Sample\\tALT\\tTelomerase\" found ";
        assert HeaderMessage(lines[0], path) == lit + (lines[0] + ". \nFile: " + path);
      }
    }
  }

  /** A file that validates also loads. */
  lemma ValidFileLoads(lines: seq<string>, samples: seq<string>, path: string)
    requires Verdict(lines, samples, path) == "true"
    ensures Load(lines).Ok?
  {
    VerdictTrueIff(lines, samples, path);
    LoadSpec(lines);
  }

  /** A row of a tab-free sample and two signs is well formed, and names that
      sample and the category of the signs. */
  lemma SignRow(s: string, altSign: string, telSign: string)
    requires '\t' !in s && IsSign(altSign) && IsSign(telSign)
    ensures var line := s + "\t" + altSign + "\t" + telSign;
      RowOk(line) && RowSample(line) == s && RowCategory(line) == Category(altSign, telSign)
  {
    assert s + "\t" + altSign + "\t" + telSign == s + ['\t'] + altSign + ['\t'] + telSign;
    SplitThree(s, altSign, telSign, '\t');
  }

  /** A file listing sample `s` first as ALT, then as Normal. */
  function TwiceListed(s: string): seq<string>
  {
    [HeaderLine, s + "\t" + "+" + "\t" + "-", s + "\t" + "-" + "\t" + "-"]
  }

  /** The converse does not hold: loading accepts a sample listed twice, and
      the last row wins ... */
  lemma DuplicateLoads(s: string)
    requires '\t' !in s
    ensures Load(TwiceListed(s)).Ok?
    ensures Load(TwiceListed(s)).value.1 == map[s := N]
  {
    var lines := TwiceListed(s);
    SignRow(s, "+", "-");
    SignRow(s, "-", "-");
    var ls1 := EmptyLabels[A := EmptyLabels[A] + [s]];
    LoadFromStep(lines, 1, EmptyLabels, map[]);
    LoadFromStep(lines, 2, ls1, map[s := A]);
    assert map[s := A][s := N] == map[s := N];
  }

  /** ... while validation rejects the duplicate. */
  lemma DuplicateFailsValidation(s: string, samples: seq<string>, path: string)
    requires '\t' !in s
    ensures Verdict(TwiceListed(s), samples, path) == "Duplicate sample found: " + s
  {
    var lines := TwiceListed(s);
    SignRow(s, "+", "-");
    SignRow(s, "-", "-");
    VerdictRowGood(lines, 1, {}, samples);
    assert RowSample(lines[2]) in {} + {s};
    assert Split(lines[2], '\t')[0] == s;
  }

  /** Nor does loading look for the requested samples. */
  lemma MissingSampleLoadsButFailsValidation()
    ensures Load([HeaderLine]).Ok?
    ensures Verdict([HeaderLine], ["x"], "f") == "The file did not contain sample x"
  {
  }

  // ---------------------------------------------------------------------
  // Template
  // ---------------------------------------------------------------------

  /** The lines `generateFile` writes: the header, then every sample marked "-" twice. */
  function GeneratedLines(samples: seq<string>): seq<string>
  {
    [HeaderLine] + seq(|samples|, i requires 0 <= i < |samples| => samples[i] + "\t-\t-")
  }

  /** `generateFile`, as the text written with `eol` after each line. */
  method GenerateFile(samples: seq<string>, eol: string) returns (text: string)
    ensures text == Render(GeneratedLines(samples), eol)
  {
    text := HeaderLine + eol;
    assert GeneratedLines(samples)[..1] == [HeaderLine];
    var i := 0;
    while i < |samples|
      invariant 0 <= i <= |samples|
      invariant text == Render(GeneratedLines(samples)[..i + 1], eol)
    {
      assert GeneratedLines(samples)[i + 1] == samples[i] + "\t-\t-";
      RenderStep(GeneratedLines(samples), i + 1, eol);
      text := text + (samples[i] + "\t-\t-") + eol;
      i := i + 1;
    }
    assert GeneratedLines(samples)[..i + 1] == GeneratedLines(samples);
  }

  predicate TabFree(samples: seq<string>)
  {
    forall i :: 0 <= i < |samples| ==> '\t' !in samples[i]
  }

  lemma GeneratedLine(samples: seq<string>, j: nat)
    requires TabFree(samples) && 1 <= j <= |samples|
    ensures RowOk(GeneratedLines(samples)[j])
    ensures RowSample(GeneratedLines(samples)[j]) == samples[j - 1]
    ensures RowCategory(GeneratedLines(samples)[j]) == N
  {
    assert GeneratedLines(samples)[j] == samples[j - 1] + "\t" + "-" + "\t" + "-";
    SignRow(samples[j - 1], "-", "-");
  }

  /** `lines` is a header followed by one well-formed Normal row per sample, in order. */
  predicate Template(lines: seq<string>, samples: seq<string>)
  {
    |lines| == |samples| + 1 &&
    forall j :: 1 <= j < |lines| ==> RowOk(lines[j]) && RowSample(lines[j]) == samples[j - 1] && RowCategory(lines[j]) == N
  }

  /** Every template row lands in the Normal list ... */
  lemma {:induction false} TemplateNormal(lines: seq<string>, samples: seq<string>, hi: nat)
    requires Template(lines, samples) && 1 <= hi <= |lines|
    ensures SamplesBetween(lines, 1, hi, N) == samples[..hi - 1]
    decreases hi
  {
    if hi > 1 {
      TemplateNormal(lines, samples, hi - 1);
      TemplateNormalStep(lines, samples, hi);
    }
  }

  lemma TemplateNormalStep(lines: seq<string>, samples: seq<string>, hi: nat)
    requires Template(lines, samples) && 1 < hi <= |lines|
    requires SamplesBetween(lines, 1, hi - 1, N) == samples[..hi - 2]
    ensures SamplesBetween(lines, 1, hi, N) == samples[..hi - 1]
  {
    var row := lines[hi - 1];
    assert RowOk(row) && RowCategory(row) == N && RowSample(row) == samples[hi - 2];
    assert samples[..hi - 1] == samples[..hi - 2] + [samples[hi - 2]];
  }

  /** ... and none in another. */
  lemma {:induction false} TemplateOthers(lines: seq<string>, samples: seq<string>, hi: nat, c: string)
    requires Template(lines, samples) && 1 <= hi <= |lines| && c != N
    ensures SamplesBetween(lines, 1, hi, c) == []
    decreases hi
  {
    if hi > 1 {
      TemplateOthers(lines, samples, hi - 1, c);
    }
  }

  /** Each sample of the template is labelled Normal. */
  lemma {:induction false} TemplateLastLabel(lines: seq<string>, samples: seq<string>, hi: nat, s: string)
    requires Template(lines, samples) && 1 <= hi <= |lines| && s in samples[..hi - 1]
    ensures LastLabel(lines, hi, s) == Some(N)
    decreases hi
  {
    if samples[hi - 2] != s {
      assert samples[..hi - 1] == samples[..hi - 2] + [samples[hi - 2]];
      TemplateLastLabel(lines, samples, hi - 1, s);
    }
  }

  lemma GeneratedRows(samples: seq<string>)
    requires TabFree(samples)
    ensures Template(GeneratedLines(samples), samples)
  {
    forall j | 1 <= j <= |samples|
      ensures RowOk(GeneratedLines(samples)[j]) && RowSample(GeneratedLines(samples)[j]) == samples[j - 1]
      ensures RowCategory(GeneratedLines(samples)[j]) == N
    {
      GeneratedLine(samples, j);
    }
  }

  /** The template for distinct, tab-free samples validates as "true" against
      those samples. */
  lemma GeneratedFileValidates(samples: seq<string>, path: string)
    requires TabFree(samples) && Distinct(samples)
    ensures Verdict(GeneratedLines(samples), samples, path) == "true"
  {
    var lines := GeneratedLines(samples);
    GeneratedRows(samples);
    forall s | s in samples
      ensures s in RowSamples(lines, |lines|)
    {
      var i :| 0 <= i < |samples| && samples[i] == s;
      assert RowSample(lines[i + 1]) == s;
    }
    VerdictTrueIff(lines, samples, path);
  }

  /** The template loads with every sample, in order, in the Normal list. */
  lemma GeneratedFileLoads(samples: seq<string>)
    requires TabFree(samples)
    ensures Load(GeneratedLines(samples)).Ok?
    ensures Load(GeneratedLines(samples)).value.0 == map[A := [], T := [], N := samples, AT := []]
  {
    var lines := GeneratedLines(samples);
    GeneratedRows(samples);
    assert lines[0] == HeaderLine;
    LoadFromOk(lines, 1, EmptyLabels, map[]);
    LoadFromLists(lines, 1, EmptyLabels, map[]);
    TemplateNormal(lines, samples, |lines|);
    TemplateOthers(lines, samples, |lines|, A);
    TemplateOthers(lines, samples, |lines|, T);
    TemplateOthers(lines, samples, |lines|, AT);
    assert samples[..|lines| - 1] == samples;
  }

  /** ... and with every sample labelled Normal. */
  lemma GeneratedFileLabels(samples: seq<string>)
    requires TabFree(samples)
    ensures Load(GeneratedLines(samples)).Ok?
    ensures forall s :: s in samples ==> s in Load(GeneratedLines(samples)).value.1 && Load(GeneratedLines(samples)).value.1[s] == N
  {
    var lines := GeneratedLines(samples);
    GeneratedRows(samples);
    assert lines[0] == HeaderLine;
    LoadFromOk(lines, 1, EmptyLabels, map[]);
    LoadFromLabels(lines, 1, EmptyLabels, map[]);
    var sl := Load(lines).value.1;
    forall s | s in samples
      ensures s in sl && sl[s] == N
    {
      assert samples[..|lines| - 1] == samples;
      TemplateLastLabel(lines, samples, |lines|, s);
    }
  }
}
