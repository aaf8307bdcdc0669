/** The PSF summary file reader: sample names come from the `score.<sample>`
    header columns, and the rows whose target is `ALT` or `Telomerase` fill the
    map axis -> {scores, pvalues} -> sample -> value, while the score and
    p-value ranges of each axis are widened as values are read. */
module Summary {
  import opened Common

  const ScorePattern: string := "score."
  const ScoresKey: string := "scores"
  const PValuesKey: string := "pvalues"
  const AltKey: string := "ALT"
  const TelomeraseKey: string := "Telomerase"

  /** A `double[]{min, max}` range as it stands. */
  datatype Range = Range(lo: real, hi: real)

  const InitialPsfRange: Range := Range(MaxDouble, 0.0)
  const InitialPvalRange: Range := Range(1.0, 0.0)

  /** What `populateScores` can reject in one row. */
  datatype ValueError =
    | NotANumber(token: string)
    | NegativeScore(score: real)
    | PValueOutOfRange(pvalue: real)

  datatype LineError =
    | ColumnMismatch(expected: string, found: nat)
    | ScoresFailed(axis: string, cause: ValueError)

  datatype SummaryError =
    | EmptyFile
    | MissingScorePattern(column: string)
    | LineProblem(line: nat, cause: LineError)
    | NoTargetRow(axis: string)
    | NoScores(axis: string)
    | NoPValues(axis: string)

  // ---------------------------------------------------------------------
  // The header
  // ---------------------------------------------------------------------

  /** Header columns i, i + 2, ... each name a sample after "score."; the error
      message prints the column as i followed by the digit 1. */
  function HeaderSamplesFrom(h: seq<string>, i: nat, acc: seq<string>): Result<seq<string>, SummaryError>
    decreases |h| - i
  {
    if i >= |h| then Ok(acc)
    else if !Contains(h[i], ScorePattern) then Err(MissingScorePattern(IntToString(i) + "1"))
    else HeaderSamplesFrom(h, i + 2, acc + [h[i][|ScorePattern|..]])
  }

  function HeaderSamples(header: string): Result<seq<string>, SummaryError>
  {
    HeaderSamplesFrom(Split(header, '\t'), 2, [])
  }

  lemma {:induction false} HeaderSamplesFromSpec(h: seq<string>, i: nat, acc: seq<string>)
    requires i >= 2 && i % 2 == 0
    ensures var r := HeaderSamplesFrom(h, i, acc);
      (r.Ok? <==> forall c :: i <= c < |h| && c % 2 == 0 ==> Contains(h[c], ScorePattern)) &&
      (r.Ok? ==>
         |r.value| == |acc| + (if i < |h| then (|h| - i + 1) / 2 else 0) && r.value[..|acc|] == acc &&
         forall q :: |acc| <= q < |r.value| ==> |h[i + 2 * (q - |acc|)]| >= 6 &&
                                                 r.value[q] == h[i + 2 * (q - |acc|)][6..])
    decreases |h| - i
  {
    if i < |h| && Contains(h[i], ScorePattern) {
      HeaderSamplesFromSpec(h, i + 2, acc + [h[i][6..]]);
      var r := HeaderSamplesFrom(h, i + 2, acc + [h[i][6..]]);
      if r.Ok? {
        assert r.value[..|acc| + 1][..|acc|] == r.value[..|acc|];
      }
    }
  }

  /** The header is accepted exactly when every even column from the third on
      contains "score."; the samples are those columns with their first six
      characters removed, in column order. */
  lemma HeaderSamplesSpec(header: string)
    ensures var h := Split(header, '\t');
      var r := HeaderSamples(header);
      (r.Ok? <==> forall c :: 2 <= c < |h| && c % 2 == 0 ==> Contains(h[c], ScorePattern)) &&
      (r.Ok? ==>
         |r.value| == (if |h| > 2 then (|h| - 1) / 2 else 0) &&
         forall q :: 0 <= q < |r.value| ==> r.value[q] == h[2 * q + 2][6..])
  {
    HeaderSamplesFromSpec(Split(header, '\t'), 2, []);
  }

  // ---------------------------------------------------------------------
  // populateScores
  // ---------------------------------------------------------------------

  datatype AxisScores = AxisScores(scores: map<string, real>, pvalues: map<string, real>)

  const EmptyScores: AxisScores := AxisScores(map[], map[])

  /** The range after seeing x: `if (x < lo) lo = x; if (x > hi) hi = x;`. */
  function Widen(r: Range, x: real): (w: Range)
    ensures w.lo <= r.lo && w.lo <= x && w.hi >= r.hi && w.hi >= x
    ensures (w.lo == r.lo || w.lo == x) && (w.hi == r.hi || w.hi == x)
  {
    Range(if x < r.lo then x else r.lo, if x > r.hi then x else r.hi)
  }

  /** Samples i onwards of one target row: sample i's score is token 2i+2 and
      its p-value token 2i+3. A p-value that is not a number is reported with
      the score's token, as the source's message does. */
  function PopulateFrom(tokens: seq<string>, samples: seq<string>, i: nat, parse: string -> Option<real>,
                        acc: AxisScores, psf: Range, pval: Range): Result<(AxisScores, Range, Range), ValueError>
    requires |tokens| == 2 * |samples| + 2 && i <= |samples|
    decreases |samples| - i
  {
    if i == |samples| then Ok((acc, psf, pval))
    else
      var j := 2 * i + 2;
      match parse(tokens[j])
      case None => Err(NotANumber(tokens[j]))
      case Some(score) =>
        if score < 0.0 then Err(NegativeScore(score))
        else
          match parse(tokens[j + 1])
          case None => Err(NotANumber(tokens[j]))
          case Some(p) =>
            if p < 0.0 || p > 1.0 then Err(PValueOutOfRange(p))
            else PopulateFrom(tokens, samples, i + 1, parse, Put(acc, samples[i], score, p), Widen(psf, score), Widen(pval, p))
  }

  /** The two `put`s of one sample. */
  function Put(acc: AxisScores, sample: string, score: real, p: real): AxisScores
  {
    AxisScores(acc.scores[sample := score], acc.pvalues[sample := p])
  }

  function Populate(tokens: seq<string>, samples: seq<string>, parse: string -> Option<real>, psf: Range, pval: Range)
    : Result<(AxisScores, Range, Range), ValueError>
    requires |tokens| == 2 * |samples| + 2
  {
    PopulateFrom(tokens, samples, 0, parse, EmptyScores, psf, pval)
  }

  predicate ScoreOk(t: string, parse: string -> Option<real>)
  {
    parse(t).Some? && parse(t).value >= 0.0
  }

  predicate PValueOk(t: string, parse: string -> Option<real>)
  {
    parse(t).Some? && 0.0 <= parse(t).value <= 1.0
  }

  /** Every stored score lies in the score range, every p-value in the p-value
      range, and both ranges only ever widen. */
  predicate Bracketed(a: AxisScores, psf: Range, pval: Range)
  {
    (forall s :: s in a.scores ==> psf.lo <= a.scores[s] <= psf.hi && a.scores[s] >= 0.0) &&
    (forall s :: s in a.pvalues ==> pval.lo <= a.pvalues[s] <= pval.hi && 0.0 <= a.pvalues[s] <= 1.0)
  }

  /** x is the number that some token j >= from of the given parity (0 for the
      score columns, 1 for the p-value columns) parses to. */
  ghost predicate ReadAt(x: real, tokens: seq<string>, from: nat, parity: nat, parse: string -> Option<real>)
  {
    exists j :: from <= j < |tokens| && j % 2 == parity && TokenValue(tokens, j, parse) == Some(x)
  }

  /** What token j parses to. */
  function TokenValue(tokens: seq<string>, j: nat, parse: string -> Option<real>): Option<real>
    requires j < |tokens|
  {
    parse(tokens[j])
  }

  /** A sample whose two tokens are accepted is put, and the ranges widened. */
  lemma PopulateFromStep(tokens: seq<string>, samples: seq<string>, i: nat, parse: string -> Option<real>,
                         acc: AxisScores, psf: Range, pval: Range)
    requires |tokens| == 2 * |samples| + 2 && i < |samples|
    requires ScoreOk(tokens[2 * i + 2], parse) && PValueOk(tokens[2 * i + 3], parse)
    ensures var score := parse(tokens[2 * i + 2]).value;
      var p := parse(tokens[2 * i + 3]).value;
      PopulateFrom(tokens, samples, i, parse, acc, psf, pval) ==
      PopulateFrom(tokens, samples, i + 1, parse, Put(acc, samples[i], score, p), Widen(psf, score), Widen(pval, p))
  {
  }

  lemma {:induction false} PopulateFromOk(tokens: seq<string>, samples: seq<string>, i: nat, parse: string -> Option<real>,
                                          acc: AxisScores, psf: Range, pval: Range)
    requires |tokens| == 2 * |samples| + 2 && i <= |samples|
    ensures PopulateFrom(tokens, samples, i, parse, acc, psf, pval).Ok? <==>
              forall q :: i <= q < |samples| ==> ScoreOk(tokens[2 * q + 2], parse) && PValueOk(tokens[2 * q + 3], parse)
    decreases |samples| - i
  {
    if i < |samples| {
      var j := 2 * i + 2;
      if ScoreOk(tokens[j], parse) && PValueOk(tokens[j + 1], parse) {
        var score := parse(tokens[j]).value;
        var p := parse(tokens[j + 1]).value;
        PopulateFromStep(tokens, samples, i, parse, acc, psf, pval);
        PopulateFromOk(tokens, samples, i + 1, parse, Put(acc, samples[i], score, p), Widen(psf, score), Widen(pval, p));
      }
    }
  }

  lemma {:induction false} PopulateFromBounds(tokens: seq<string>, samples: seq<string>, i: nat, parse: string -> Option<real>,
                                              acc: AxisScores, psf: Range, pval: Range)
    requires |tokens| == 2 * |samples| + 2 && i <= |samples|
    requires Bracketed(acc, psf, pval)
    ensures var r := PopulateFrom(tokens, samples, i, parse, acc, psf, pval);
      r.Ok? ==>
        Bracketed(r.value.0, r.value.1, r.value.2) &&
        r.value.1.lo <= psf.lo && r.value.1.hi >= psf.hi && r.value.2.lo <= pval.lo && r.value.2.hi >= pval.hi &&
        (r.value.1.lo == psf.lo || ReadAt(r.value.1.lo, tokens, 2 * i + 2, 0, parse)) &&
        (r.value.1.hi == psf.hi || ReadAt(r.value.1.hi, tokens, 2 * i + 2, 0, parse)) &&
        (r.value.2.lo == pval.lo || ReadAt(r.value.2.lo, tokens, 2 * i + 2, 1, parse)) &&
        (r.value.2.hi == pval.hi || ReadAt(r.value.2.hi, tokens, 2 * i + 2, 1, parse))
    decreases |samples| - i
  {
    if i < |samples| {
      var j := 2 * i + 2;
      if ScoreOk(tokens[j], parse) && PValueOk(tokens[j + 1], parse) {
        var score := parse(tokens[j]).value;
        var p := parse(tokens[j + 1]).value;
        PopulateFromStep(tokens, samples, i, parse, acc, psf, pval);
        PopulateFromBounds(tokens, samples, i + 1, parse, Put(acc, samples[i], score, p), Widen(psf, score), Widen(pval, p));
        ReadAtWidens(tokens, j, j + 2, 0, parse);
        ReadAtWidens(tokens, j, j + 2, 1, parse);
        assert ReadAt(score, tokens, j, 0, parse) by { assert j % 2 == 0 && TokenValue(tokens, j, parse) == Some(score); }
        assert ReadAt(p, tokens, j, 1, parse) by { assert (j + 1) % 2 == 1 && TokenValue(tokens, j + 1, parse) == Some(p); }
      }
    }
  }

  /** A number read from token `from2` onwards was read from any earlier start. */
  lemma ReadAtWidens(tokens: seq<string>, from: nat, from2: nat, parity: nat, parse: string -> Option<real>)
    requires from <= from2
    ensures forall x :: ReadAt(x, tokens, from2, parity, parse) ==> ReadAt(x, tokens, from, parity, parse)
  {
    forall x | ReadAt(x, tokens, from2, parity, parse)
      ensures ReadAt(x, tokens, from, parity, parse)
    {
      var j :| from2 <= j < |tokens| && j % 2 == parity && TokenValue(tokens, j, parse) == Some(x);
      assert from <= j;
    }
  }

  lemma {:induction false} PopulateFromKeys(tokens: seq<string>, samples: seq<string>, i: nat, parse: string -> Option<real>,
                                            acc: AxisScores, psf: Range, pval: Range)
    requires |tokens| == 2 * |samples| + 2 && i <= |samples|
    ensures var r := PopulateFrom(tokens, samples, i, parse, acc, psf, pval);
      r.Ok? ==>
        (forall s :: s in r.value.0.scores <==> s in acc.scores || s in samples[i..]) &&
        (forall s :: s in r.value.0.pvalues <==> s in acc.pvalues || s in samples[i..])
    decreases |samples| - i
  {
    if i < |samples| {
      var j := 2 * i + 2;
      if ScoreOk(tokens[j], parse) && PValueOk(tokens[j + 1], parse) {
        var score := parse(tokens[j]).value;
        var p := parse(tokens[j + 1]).value;
        var acc' := Put(acc, samples[i], score, p);
        PopulateFromStep(tokens, samples, i, parse, acc, psf, pval);
        PopulateFromKeys(tokens, samples, i + 1, parse, acc', Widen(psf, score), Widen(pval, p));
        assert samples[i..] == [samples[i]] + samples[i + 1..];
        assert forall s :: s in samples[i..] <==> s == samples[i] || s in samples[i + 1..];
        assert forall s :: s in acc'.scores <==> s in acc.scores || s == samples[i];
        assert forall s :: s in acc'.pvalues <==> s in acc.pvalues || s == samples[i];
      }
    }
  }

  /** Sample q's entries are its own tokens unless a later column repeats the
      sample, in which case the later `put` wins. */
  lemma {:induction false} PopulateFromValue(tokens: seq<string>, samples: seq<string>, i: nat, parse: string -> Option<real>,
                                             acc: AxisScores, psf: Range, pval: Range, q: nat)
    requires |tokens| == 2 * |samples| + 2 && i <= q < |samples| && samples[q] !in samples[q + 1..]
    requires PopulateFrom(tokens, samples, i, parse, acc, psf, pval).Ok?
    ensures ScoreOk(tokens[2 * q + 2], parse) && PValueOk(tokens[2 * q + 3], parse)
    ensures var r := PopulateFrom(tokens, samples, i, parse, acc, psf, pval);
      samples[q] in r.value.0.scores && samples[q] in r.value.0.pvalues &&
      r.value.0.scores[samples[q]] == parse(tokens[2 * q + 2]).value &&
      r.value.0.pvalues[samples[q]] == parse(tokens[2 * q + 3]).value
    decreases |samples| - i
  {
    PopulateFromOk(tokens, samples, i, parse, acc, psf, pval);
    var j := 2 * i + 2;
    var score := parse(tokens[j]).value;
    var p := parse(tokens[j + 1]).value;
    var acc' := Put(acc, samples[i], score, p);
    PopulateFromStep(tokens, samples, i, parse, acc, psf, pval);
    if i == q {
      PopulateFromUntouched(tokens, samples, i + 1, parse, acc', Widen(psf, score), Widen(pval, p), samples[i]);
    } else {
      PopulateFromValue(tokens, samples, i + 1, parse, acc', Widen(psf, score), Widen(pval, p), q);
    }
  }

  /** A key none of samples i onwards names keeps the entry it had. */
  lemma {:induction false} PopulateFromUntouched(tokens: seq<string>, samples: seq<string>, i: nat, parse: string -> Option<real>,
                                                 acc: AxisScores, psf: Range, pval: Range, key: string)
    requires |tokens| == 2 * |samples| + 2 && i <= |samples|
    requires key in acc.scores && key in acc.pvalues && key !in samples[i..]
    ensures var r := PopulateFrom(tokens, samples, i, parse, acc, psf, pval);
      r.Ok? ==> key in r.value.0.scores && key in r.value.0.pvalues &&
                r.value.0.scores[key] == acc.scores[key] && r.value.0.pvalues[key] == acc.pvalues[key]
    decreases |samples| - i
  {
    if i < |samples| {
      var j := 2 * i + 2;
      assert samples[i] in samples[i..];
      assert samples[i + 1..] == samples[i..][1..];
      if ScoreOk(tokens[j], parse) && PValueOk(tokens[j + 1], parse) {
        var score := parse(tokens[j]).value;
        var p := parse(tokens[j + 1]).value;
        PopulateFromStep(tokens, samples, i, parse, acc, psf, pval);
        PopulateFromUntouched(tokens, samples, i + 1, parse, Put(acc, samples[i], score, p), Widen(psf, score), Widen(pval, p), key);
      }
    }
  }

  /** A target row is accepted exactly when every score is a number >= 0 and
      every p-value a number in [0, 1]; then sample i (the last of any repeats)
      maps to tokens 2i+2 and 2i+3, exactly the header samples have entries,
      and the ranges have widened to cover every stored value. */
  lemma PopulateSpec(tokens: seq<string>, samples: seq<string>, parse: string -> Option<real>, psf: Range, pval: Range)
    requires |tokens| == 2 * |samples| + 2
    ensures var r := Populate(tokens, samples, parse, psf, pval);
      (r.Ok? <==> forall q :: 0 <= q < |samples| ==> ScoreOk(tokens[2 * q + 2], parse) && PValueOk(tokens[2 * q + 3], parse)) &&
      (r.Ok? ==>
         Bracketed(r.value.0, r.value.1, r.value.2) &&
         r.value.1.lo <= psf.lo && r.value.1.hi >= psf.hi && r.value.2.lo <= pval.lo && r.value.2.hi >= pval.hi &&
         (r.value.1.lo == psf.lo || ReadAt(r.value.1.lo, tokens, 2, 0, parse)) &&
         (r.value.1.hi == psf.hi || ReadAt(r.value.1.hi, tokens, 2, 0, parse)) &&
         (r.value.2.lo == pval.lo || ReadAt(r.value.2.lo, tokens, 2, 1, parse)) &&
         (r.value.2.hi == pval.hi || ReadAt(r.value.2.hi, tokens, 2, 1, parse)) &&
         (forall s :: s in r.value.0.scores <==> s in samples) && (forall s :: s in r.value.0.pvalues <==> s in samples) &&
         forall q :: 0 <= q < |samples| && samples[q] !in samples[q + 1..] ==>
           r.value.0.scores[samples[q]] == parse(tokens[2 * q + 2]).value &&
           r.value.0.pvalues[samples[q]] == parse(tokens[2 * q + 3]).value)
  {
    PopulateFromOk(tokens, samples, 0, parse, EmptyScores, psf, pval);
    PopulateFromBounds(tokens, samples, 0, parse, EmptyScores, psf, pval);
    PopulateFromKeys(tokens, samples, 0, parse, EmptyScores, psf, pval);
    assert samples[0..] == samples;
    if Populate(tokens, samples, parse, psf, pval).Ok? {
      forall q | 0 <= q < |samples| && samples[q] !in samples[q + 1..]
        ensures var r := Populate(tokens, samples, parse, psf, pval);
          r.value.0.scores[samples[q]] == parse(tokens[2 * q + 2]).value &&
          r.value.0.pvalues[samples[q]] == parse(tokens[2 * q + 3]).value
      {
        PopulateFromValue(tokens, samples, 0, parse, EmptyScores, psf, pval, q);
      }
    }
  }

  // ---------------------------------------------------------------------
  // The reader loop
  // ---------------------------------------------------------------------

  datatype ScanState = ScanState(altFound: bool, telFound: bool, alt: AxisScores, tel: AxisScores,
                                 altPsf: Range, altPval: Range, telPsf: Range, telPval: Range)

  /** One data line, line `lineNum` of the file. */
  function ScanLine(line: string, lineNum: nat, samples: seq<string>, parse: string -> Option<real>, st: ScanState)
    : Result<ScanState, SummaryError>
  {
    var tokens := Split(line, '\t');
    if |tokens| != 2 * |samples| + 2 then
      Err(LineProblem(lineNum, ColumnMismatch(IntToString(2 * |samples|) + "2", |tokens|)))
    else
      var afterAlt :=
        if tokens[1] == AltKey then
          match Populate(tokens, samples, parse, st.altPsf, st.altPval)
          case Err(e) => Err(LineProblem(lineNum, ScoresFailed(AltKey, e)))
          case Ok(res) => Ok(st.(altFound := true, alt := res.0, altPsf := res.1, altPval := res.2))
        else Ok(st);
      match afterAlt
      case Err(e) => Err(e)
      case Ok(st1) =>
        if tokens[1] == TelomeraseKey then
          match Populate(tokens, samples, parse, st1.telPsf, st1.telPval)
          case Err(e) => Err(LineProblem(lineNum, ScoresFailed(TelomeraseKey, e)))
          case Ok(res) => Ok(st1.(telFound := true, tel := res.0, telPsf := res.1, telPval := res.2))
        else Ok(st1)
  }

  /** Lines k onwards, until both target rows have been seen. */
  function ScanFrom(lines: seq<string>, k: nat, samples: seq<string>, parse: string -> Option<real>, st: ScanState)
    : Result<ScanState, SummaryError>
    requires k <= |lines|
    decreases |lines| - k
  {
    if k == |lines| || (st.altFound && st.telFound) then Ok(st)
    else
      match LineStep(lines, k, samples, parse, st)
      case Err(e) => Err(e)
      case Ok(st') => ScanFrom(lines, k + 1, samples, parse, st')
  }

  /** Reading row k, which is line k + 1 of the file. */
  function LineStep(lines: seq<string>, k: nat, samples: seq<string>, parse: string -> Option<real>, st: ScanState)
    : Result<ScanState, SummaryError>
    requires k < |lines|
  {
    ScanLine(lines[k], k + 1, samples, parse, st)
  }

  /** One line of the loop: its error stops the scan, otherwise the scan goes on from its state. */
  lemma ScanFromStep(lines: seq<string>, k: nat, samples: seq<string>, parse: string -> Option<real>, st: ScanState)
    requires k < |lines| && !(st.altFound && st.telFound)
    ensures var e := ScanLine(lines[k], k + 1, samples, parse, st);
      ScanFrom(lines, k, samples, parse, st) == if e.Err? then Err(e.error) else ScanFrom(lines, k + 1, samples, parse, e.value)
  {
  }

  /** The checks `generateSummaryMap` makes once the loop is over. */
  function Conclude(st: ScanState): Result<ScanState, SummaryError>
  {
    if !st.altFound then Err(NoTargetRow(AltKey))
    else if !st.telFound then Err(NoTargetRow(TelomeraseKey))
    else if |st.alt.scores| == 0 then Err(NoScores(AltKey))
    else if |st.alt.pvalues| == 0 then Err(NoPValues(AltKey))
    else if |st.tel.scores| == 0 then Err(NoScores(TelomeraseKey))
    else if |st.tel.pvalues| == 0 then Err(NoPValues(TelomeraseKey))
    else Ok(st)
  }

  /** `generateSummaryMap` from the given starting ranges. */
  function SummarySpec(lines: seq<string>, parse: string -> Option<real>, altPsf: Range, altPval: Range,
                       telPsf: Range, telPval: Range): Result<ScanState, SummaryError>
  {
    if |lines| == 0 then Err(EmptyFile)
    else
      match HeaderSamples(lines[0])
      case Err(e) => Err(e)
      case Ok(samples) =>
        match ScanFrom(lines, 1, samples, parse, ScanState(false, false, EmptyScores, EmptyScores, altPsf, altPval, telPsf, telPval))
        case Err(e) => Err(e)
        case Ok(st) => Conclude(st)
  }

  /** What stays true of the state through every line of the loop. */
  ghost predicate ScanInvariant(st: ScanState, samples: seq<string>, init: ScanState)
  {
    Bracketed(st.alt, st.altPsf, st.altPval) && Bracketed(st.tel, st.telPsf, st.telPval) &&
    st.altPsf.lo <= init.altPsf.lo && st.altPsf.hi >= init.altPsf.hi &&
    st.altPval.lo <= init.altPval.lo && st.altPval.hi >= init.altPval.hi &&
    st.telPsf.lo <= init.telPsf.lo && st.telPsf.hi >= init.telPsf.hi &&
    st.telPval.lo <= init.telPval.lo && st.telPval.hi >= init.telPval.hi &&
    (st.altFound ==> (forall s :: s in st.alt.scores <==> s in samples) && (forall s :: s in st.alt.pvalues <==> s in samples)) &&
    (st.telFound ==> (forall s :: s in st.tel.scores <==> s in samples) && (forall s :: s in st.tel.pvalues <==> s in samples))
  }

  /** x is a score (parity 0) or p-value (parity 1) of a data line of the
      given target that has the right number of columns. */
  ghost predicate RowRead(x: real, line: string, samples: seq<string>, parse: string -> Option<real>, axis: string, parity: nat)
  {
    var tokens := Split(line, '\t');
    |tokens| == 2 * |samples| + 2 && tokens[1] == axis && ReadAt(x, tokens, 2, parity, parse)
  }

  /** A range end is where it started or a number read from some data line. */
  ghost predicate EndRead(x: real, x0: real, lines: seq<string>, samples: seq<string>, parse: string -> Option<real>,
                          axis: string, parity: nat)
  {
    x == x0 || exists k {:trigger RowRead(x, lines[k], samples, parse, axis, parity)} ::
      1 <= k < |lines| && RowRead(x, lines[k], samples, parse, axis, parity)
  }

  /** The four ends of one axis's ranges are attained: each is its initial
      value or a number read from a data line of that target. */
  ghost predicate AxisAttained(psf: Range, pval: Range, psf0: Range, pval0: Range, lines: seq<string>,
                               samples: seq<string>, parse: string -> Option<real>, axis: string)
  {
    EndRead(psf.lo, psf0.lo, lines, samples, parse, axis, 0) &&
    EndRead(psf.hi, psf0.hi, lines, samples, parse, axis, 0) &&
    EndRead(pval.lo, pval0.lo, lines, samples, parse, axis, 1) &&
    EndRead(pval.hi, pval0.hi, lines, samples, parse, axis, 1)
  }

  /** The score and p-value ranges a scan state keeps for a target. */
  function PsfOf(st: ScanState, axis: string): Range
  {
    if axis == AltKey then st.altPsf else st.telPsf
  }

  function PvalOf(st: ScanState, axis: string): Range
  {
    if axis == AltKey then st.altPval else st.telPval
  }

  /** The ends of a target's two ranges are attained. */
  ghost predicate StateAttained(st: ScanState, init: ScanState, lines: seq<string>, samples: seq<string>,
                                parse: string -> Option<real>, axis: string)
  {
    AxisAttained(PsfOf(st, axis), PvalOf(st, axis), PsfOf(init, axis), PvalOf(init, axis), lines, samples, parse, axis)
  }

  /** Every end of the four ranges is attained: by its initial value or by a value read. */
  ghost predicate RangesAttained(st: ScanState, init: ScanState, lines: seq<string>, samples: seq<string>,
                                 parse: string -> Option<real>)
  {
    StateAttained(st, init, lines, samples, parse, AltKey) && StateAttained(st, init, lines, samples, parse, TelomeraseKey)
  }

  /** A populated range end is the old end or a number of line k, so the
      line-level attainment carries over. */
  lemma EndReadStep(x: real, prev: real, x0: real, lines: seq<string>, k: nat, samples: seq<string>,
                    parse: string -> Option<real>, axis: string, parity: nat)
    requires 1 <= k < |lines|
    requires EndRead(prev, x0, lines, samples, parse, axis, parity)
    requires x == prev || RowRead(x, lines[k], samples, parse, axis, parity)
    ensures EndRead(x, x0, lines, samples, parse, axis, parity)
  {
  }

  /** Populating one axis from line k keeps that axis's ends attained. */
  lemma PopulateAttained(lines: seq<string>, k: nat, samples: seq<string>, parse: string -> Option<real>, axis: string,
                         psf: Range, pval: Range, psf0: Range, pval0: Range)
    requires 1 <= k < |lines|
    requires var tokens := Split(lines[k], '\t');
      |tokens| == 2 * |samples| + 2 && tokens[1] == axis && Populate(tokens, samples, parse, psf, pval).Ok?
    requires AxisAttained(psf, pval, psf0, pval0, lines, samples, parse, axis)
    ensures var res := Populate(Split(lines[k], '\t'), samples, parse, psf, pval).value;
      AxisAttained(res.1, res.2, psf0, pval0, lines, samples, parse, axis)
  {
    var tokens := Split(lines[k], '\t');
    var res := Populate(tokens, samples, parse, psf, pval).value;
    PopulateSpec(tokens, samples, parse, psf, pval);
    EndReadStep(res.1.lo, psf.lo, psf0.lo, lines, k, samples, parse, axis, 0);
    EndReadStep(res.1.hi, psf.hi, psf0.hi, lines, k, samples, parse, axis, 0);
    EndReadStep(res.2.lo, pval.lo, pval0.lo, lines, k, samples, parse, axis, 1);
    EndReadStep(res.2.hi, pval.hi, pval0.hi, lines, k, samples, parse, axis, 1);
  }

  /** One line read keeps the range ends of a target attained. */
  lemma ScanLineAttained(lines: seq<string>, k: nat, samples: seq<string>, parse: string -> Option<real>,
                         st: ScanState, init: ScanState, axis: string)
    requires 1 <= k < |lines| && (axis == AltKey || axis == TelomeraseKey)
    requires StateAttained(st, init, lines, samples, parse, axis)
    requires ScanLine(lines[k], k + 1, samples, parse, st).Ok?
    ensures StateAttained(ScanLine(lines[k], k + 1, samples, parse, st).value, init, lines, samples, parse, axis)
  {
    var tokens := Split(lines[k], '\t');
    if tokens[1] == axis {
      PopulateAttained(lines, k, samples, parse, axis, PsfOf(st, axis), PvalOf(st, axis), PsfOf(init, axis), PvalOf(init, axis));
    }
  }

  /** Every line after the header that is read without error keeps `inv`. */
  ghost predicate LineKeeps(lines: seq<string>, samples: seq<string>, parse: string -> Option<real>, inv: ScanState -> bool)
  {
    forall j, s :: 1 <= j < |lines| && inv(s) && LineStep(lines, j, samples, parse, s).Ok? ==>
      inv(LineStep(lines, j, samples, parse, s).value)
  }

  /** A property of the state that every accepted line keeps holds of the
      state the scan ends in. */
  lemma {:induction false} ScanFromInduct(lines: seq<string>, k: nat, samples: seq<string>, parse: string -> Option<real>,
                                          st: ScanState, inv: ScanState -> bool)
    requires 1 <= k <= |lines| && inv(st) && LineKeeps(lines, samples, parse, inv)
    ensures var r := ScanFrom(lines, k, samples, parse, st);
      r.Ok? ==> inv(r.value)
    decreases |lines| - k
  {
    if k < |lines| && !(st.altFound && st.telFound) {
      if ScanFrom(lines, k, samples, parse, st).Ok? {
        var next := ScanFromNext(lines, k, samples, parse, st, inv);
        ScanFromInduct(lines, k + 1, samples, parse, next, inv);
      }
    } else {
      ScanFromDone(lines, k, samples, parse, st);
    }
  }

  /** A scan that succeeds from row k reads row k without error into a state that keeps `inv`. */
  lemma ScanFromNext(lines: seq<string>, k: nat, samples: seq<string>, parse: string -> Option<real>,
                     st: ScanState, inv: ScanState -> bool) returns (next: ScanState)
    requires 1 <= k < |lines| && !(st.altFound && st.telFound) && inv(st) && LineKeeps(lines, samples, parse, inv)
    requires ScanFrom(lines, k, samples, parse, st).Ok?
    ensures inv(next) && ScanFrom(lines, k, samples, parse, st) == ScanFrom(lines, k + 1, samples, parse, next)
  {
    next := LineStep(lines, k, samples, parse, st).value;
  }

  lemma ScanFromDone(lines: seq<string>, k: nat, samples: seq<string>, parse: string -> Option<real>, st: ScanState)
    requires k <= |lines| && (k == |lines| || (st.altFound && st.telFound))
    ensures ScanFrom(lines, k, samples, parse, st) == Ok(st)
  {
  }

  lemma ScanFromAttained(lines: seq<string>, samples: seq<string>, parse: string -> Option<real>,
                         init: ScanState, axis: string)
    requires |lines| >= 1 && (axis == AltKey || axis == TelomeraseKey)
    ensures var r := ScanFrom(lines, 1, samples, parse, init);
      r.Ok? ==> StateAttained(r.value, init, lines, samples, parse, axis)
  {
    var inv := s => StateAttained(s, init, lines, samples, parse, axis);
    forall j, s | 1 <= j < |lines| && inv(s) && LineStep(lines, j, samples, parse, s).Ok?
      ensures inv(LineStep(lines, j, samples, parse, s).value)
    {
      ScanLineAttained(lines, j, samples, parse, s, init, axis);
    }
    ScanFromInduct(lines, 1, samples, parse, init, inv);
  }

  lemma {:induction false} ScanFromKeeps(lines: seq<string>, k: nat, samples: seq<string>, parse: string -> Option<real>,
                                         st: ScanState, init: ScanState)
    requires k <= |lines| && ScanInvariant(st, samples, init)
    ensures var r := ScanFrom(lines, k, samples, parse, st);
      r.Ok? ==> ScanInvariant(r.value, samples, init)
    decreases |lines| - k
  {
    if k < |lines| && !(st.altFound && st.telFound) {
      var e := ScanLine(lines[k], k + 1, samples, parse, st);
      if e.Ok? {
        var tokens := Split(lines[k], '\t');
        if |tokens| == 2 * |samples| + 2 && tokens[1] == AltKey {
          PopulateSpec(tokens, samples, parse, st.altPsf, st.altPval);
        }
        if |tokens| == 2 * |samples| + 2 && tokens[1] == TelomeraseKey {
          PopulateSpec(tokens, samples, parse, st.telPsf, st.telPval);
        }
        ScanFromKeeps(lines, k + 1, samples, parse, e.value, init);
      }
    }
  }

  /** After a successful read from the initial ranges: both axes hold a score
      and a p-value for exactly the header samples, every score is in its axis's
      score range and is at least 0, every p-value is in its axis's p-value range
      and in [0, 1], and the ranges are at least as wide as the initial
      [MAX_VALUE, 0] and [1, 0]. */
  lemma SummarySpecProperties(lines: seq<string>, parse: string -> Option<real>)
    requires SummarySpec(lines, parse, InitialPsfRange, InitialPvalRange, InitialPsfRange, InitialPvalRange).Ok?
    ensures var st := SummarySpec(lines, parse, InitialPsfRange, InitialPvalRange, InitialPsfRange, InitialPvalRange).value;
      var samples := HeaderSamples(lines[0]).value;
      ScanInvariant(st, samples, ScanState(false, false, EmptyScores, EmptyScores, InitialPsfRange, InitialPvalRange,
                                           InitialPsfRange, InitialPvalRange)) &&
      st.altFound && st.telFound && |samples| > 0 &&
      st.alt.scores.Keys == st.tel.scores.Keys == st.alt.pvalues.Keys == st.tel.pvalues.Keys
  {
    var samples := HeaderSamples(lines[0]).value;
    var init := ScanState(false, false, EmptyScores, EmptyScores, InitialPsfRange, InitialPvalRange, InitialPsfRange, InitialPvalRange);
    SummaryFromScan(lines, parse);
    var st := ScanFrom(lines, 1, samples, parse, init).value;
    SummaryScanProperties(lines, samples, parse, init, st);
  }

  /** After a successful read from the initial ranges, every end of the four
      ranges is attained: it is still the initial end, or it is a score or p
      value read from a data line of that target. */
  lemma SummarySpecAttained(lines: seq<string>, parse: string -> Option<real>)
    requires SummarySpec(lines, parse, InitialPsfRange, InitialPvalRange, InitialPsfRange, InitialPvalRange).Ok?
    ensures var st := SummarySpec(lines, parse, InitialPsfRange, InitialPvalRange, InitialPsfRange, InitialPvalRange).value;
      var samples := HeaderSamples(lines[0]).value;
      RangesAttained(st, ScanState(false, false, EmptyScores, EmptyScores, InitialPsfRange, InitialPvalRange,
                                   InitialPsfRange, InitialPvalRange), lines, samples, parse)
  {
    var samples := HeaderSamples(lines[0]).value;
    var init := ScanState(false, false, EmptyScores, EmptyScores, InitialPsfRange, InitialPvalRange, InitialPsfRange, InitialPvalRange);
    SummaryFromScan(lines, parse);
    ScanFromRanges(lines, samples, parse, init);
  }

  /** Every range end of the state the scan ends in is attained. */
  lemma ScanFromRanges(lines: seq<string>, samples: seq<string>, parse: string -> Option<real>, init: ScanState)
    requires |lines| >= 1
    ensures var r := ScanFrom(lines, 1, samples, parse, init);
      r.Ok? ==> RangesAttained(r.value, init, lines, samples, parse)
  {
    ScanFromAttained(lines, samples, parse, init, AltKey);
    ScanFromAttained(lines, samples, parse, init, TelomeraseKey);
  }

  /** The read's result is the state the scan from the header's samples ends in,
      and that state passes `Conclude`. */
  lemma SummaryFromScan(lines: seq<string>, parse: string -> Option<real>)
    requires SummarySpec(lines, parse, InitialPsfRange, InitialPvalRange, InitialPsfRange, InitialPvalRange).Ok?
    ensures |lines| > 0 && HeaderSamples(lines[0]).Ok?
    ensures var init := ScanState(false, false, EmptyScores, EmptyScores, InitialPsfRange, InitialPvalRange,
                                  InitialPsfRange, InitialPvalRange);
      var r := ScanFrom(lines, 1, HeaderSamples(lines[0]).value, parse, init);
      r.Ok? && Conclude(r.value).Ok? &&
      SummarySpec(lines, parse, InitialPsfRange, InitialPvalRange, InitialPsfRange, InitialPvalRange) == Ok(r.value)
  {
    assert |lines| > 0 && HeaderSamples(lines[0]).Ok?;
    SummarySpecScan(lines, parse, InitialPsfRange, InitialPvalRange, InitialPsfRange, InitialPvalRange);
    var init := ScanState(false, false, EmptyScores, EmptyScores, InitialPsfRange, InitialPvalRange,
                          InitialPsfRange, InitialPvalRange);
    var r := ScanFrom(lines, 1, HeaderSamples(lines[0]).value, parse, init);
    ConcludeKeeps(r.value);
  }

  /** `Conclude` passes the state through unchanged or fails. */
  lemma ConcludeKeeps(st: ScanState)
    ensures Conclude(st).Ok? ==> Conclude(st) == Ok(st)
  {
  }

  /** What a scan that passes `Conclude` ends with: the invariant, both targets
      found, and the same key set on both axes. */
  lemma SummaryScanProperties(lines: seq<string>, samples: seq<string>, parse: string -> Option<real>,
                              init: ScanState, st: ScanState)
    requires |lines| >= 1
    requires init == ScanState(false, false, EmptyScores, EmptyScores, InitialPsfRange, InitialPvalRange,
                               InitialPsfRange, InitialPvalRange)
    requires ScanFrom(lines, 1, samples, parse, init) == Ok(st) && Conclude(st).Ok?
    ensures ScanInvariant(st, samples, init)
    ensures st.altFound && st.telFound && |samples| > 0
    ensures st.alt.scores.Keys == st.tel.scores.Keys == st.alt.pvalues.Keys == st.tel.pvalues.Keys
  {
    ScanFromKeeps(lines, 1, samples, parse, init, init);
    assert |st.alt.scores| > 0 && (forall s :: s in st.alt.scores <==> s in samples);
    assert samples != [] by {
      var s0 :| s0 in st.alt.scores;
    }
  }

  /** Past a good header, the read is the scan from the header's samples,
      ended by the checks of `Conclude`. */
  lemma SummarySpecScan(lines: seq<string>, parse: string -> Option<real>, altPsf: Range, altPval: Range,
                        telPsf: Range, telPval: Range)
    requires |lines| > 0 && HeaderSamples(lines[0]).Ok?
    ensures var init := ScanState(false, false, EmptyScores, EmptyScores, altPsf, altPval, telPsf, telPval);
      var r := ScanFrom(lines, 1, HeaderSamples(lines[0]).value, parse, init);
      SummarySpec(lines, parse, altPsf, altPval, telPsf, telPval) == if r.Err? then Err(r.error) else Conclude(r.value)
  {
  }
  // ---------------------------------------------------------------------
  // The handler
  // ---------------------------------------------------------------------

  datatype ScoresError =
    | NoSuchKey(key: string)          // `summaryMap.get(key)` was null
    | NullScores(key: string)         // the axis map had no "scores" entry
    | SizeMismatch(key: string, expected: nat, found: nat)

  /** The nested map `generateSummaryMap` leaves behind for a scan state. */
  function SummaryMap(st: ScanState): map<string, map<string, map<string, real>>>
  {
    map[AltKey := map[ScoresKey := st.alt.scores, PValuesKey := st.alt.pvalues],
        TelomeraseKey := map[ScoresKey := st.tel.scores, PValuesKey := st.tel.pvalues]]
  }

  /** A map entry as `niceSummaryMap` prints it: the double, or "null". */
  function ShowEntry(m: map<string, map<string, map<string, real>>>, axis: string, kind: string, sample: string,
                     show: real -> string): string
  {
    if axis in m && kind in m[axis] && sample in m[axis][kind] then show(m[axis][kind][sample]) else "null"
  }

  const NiceHeader: string := "Sample\tALT_PSF\tALT_pValue\tTelomerase_PSF\tTelomerase_pValue"

  function NiceRow(m: map<string, map<string, map<string, real>>>, sample: string, show: real -> string, eol: string): string
  {
    sample + "\t" + ShowEntry(m, AltKey, ScoresKey, sample, show) + "\t"
           + ShowEntry(m, AltKey, PValuesKey, sample, show) + "\t"
           + ShowEntry(m, TelomeraseKey, ScoresKey, sample, show) + "\t"
           + ShowEntry(m, TelomeraseKey, PValuesKey, sample, show) + eol
  }

  /** The table `niceSummaryMap` returns: a header line, then one line per sample. */
  function NiceText(m: map<string, map<string, map<string, real>>>, samples: seq<string>, show: real -> string,
                    eol: string): string
  {
    if |samples| == 0 then NiceHeader + eol
    else NiceText(m, samples[..|samples| - 1], show, eol) + NiceRow(m, samples[|samples| - 1], show, eol)
  }

  /** After a successful read every sample has all four values, so the table
      never prints "null". */
  lemma NiceRowsComplete(lines: seq<string>, parse: string -> Option<real>, sample: string)
    requires SummarySpec(lines, parse, InitialPsfRange, InitialPvalRange, InitialPsfRange, InitialPvalRange).Ok?
    requires sample in SummarySpec(lines, parse, InitialPsfRange, InitialPvalRange, InitialPsfRange, InitialPvalRange).value.alt.scores
    ensures var m := SummaryMap(SummarySpec(lines, parse, InitialPsfRange, InitialPvalRange, InitialPsfRange, InitialPvalRange).value);
      sample in m[AltKey][ScoresKey] && sample in m[AltKey][PValuesKey] &&
      sample in m[TelomeraseKey][ScoresKey] && sample in m[TelomeraseKey][PValuesKey]
  {
    SummarySpecProperties(lines, parse);
  }

  class SummaryFileHandler {
    var altPsfRange: array<real>
    var altPvalRange: array<real>
    var telomerasePsfRange: array<real>
    var telomerasePvalRange: array<real>
    var samples: seq<string>
    var summaryMap: map<string, map<string, map<string, real>>>

    /** Four separate two-slot range arrays. */
    predicate Valid()
      reads this
    {
      altPsfRange.Length == 2 && altPvalRange.Length == 2 &&
      telomerasePsfRange.Length == 2 && telomerasePvalRange.Length == 2 &&
      altPsfRange != altPvalRange && altPsfRange != telomerasePsfRange && altPsfRange != telomerasePvalRange &&
      altPvalRange != telomerasePsfRange && altPvalRange != telomerasePvalRange &&
      telomerasePsfRange != telomerasePvalRange
    }

    function RangeOf(a: array<real>): Range
      requires a.Length == 2
      reads a
    {
      Range(a[0], a[1])
    }

    /** The field initialisers: [MAX_VALUE, 0] for scores and [1, 0] for p-values. */
    constructor ()
      ensures Valid() && samples == [] && summaryMap == map[]
      ensures RangeOf(altPsfRange) == InitialPsfRange && RangeOf(altPvalRange) == InitialPvalRange
      ensures RangeOf(telomerasePsfRange) == InitialPsfRange && RangeOf(telomerasePvalRange) == InitialPvalRange
      ensures fresh(altPsfRange) && fresh(altPvalRange) && fresh(telomerasePsfRange) && fresh(telomerasePvalRange)
    {
      altPsfRange := new real[2][MaxDouble, 0.0];
      altPvalRange := new real[2][1.0, 0.0];
      telomerasePsfRange := new real[2][MaxDouble, 0.0];
      telomerasePvalRange := new real[2][1.0, 0.0];
      samples := [];
      summaryMap := map[];
    }

    /** `populateScores`: reads one target row, widening the two ranges in
        place before each value is checked. */
    method PopulateScores(tokens: seq<string>, rowSamples: seq<string>, parse: string -> Option<real>,
                          psfRange: array<real>, pvalRange: array<real>) returns (r: Result<AxisScores, ValueError>)
      requires psfRange.Length == 2 && pvalRange.Length == 2 && psfRange != pvalRange
      requires |tokens| == 2 * |rowSamples| + 2
      modifies psfRange, pvalRange
      ensures var e := Populate(tokens, rowSamples, parse, old(RangeOf(psfRange)), old(RangeOf(pvalRange)));
        (r.Err? <==> e.Err?) && (r.Err? ==> r.error == e.error) &&
        (r.Ok? ==> r.value == e.value.0 && RangeOf(psfRange) == e.value.1 && RangeOf(pvalRange) == e.value.2)
    {
      ghost var whole := Populate(tokens, rowSamples, parse, RangeOf(psfRange), RangeOf(pvalRange));
      var scoresList: map<string, real> := map[];
      var pvaluesList: map<string, real> := map[];
      var i := 0;
      while i < |rowSamples|
        invariant 0 <= i <= |rowSamples|
        invariant whole == PopulateFrom(tokens, rowSamples, i, parse, AxisScores(scoresList, pvaluesList),
                                        RangeOf(psfRange), RangeOf(pvalRange))
      {
        var j := i * 2 + 2;
        var parsedScore := parse(tokens[j]);
        if parsedScore.None? {
          return Err(NotANumber(tokens[j]));
        }
        var score := parsedScore.value;
        if score < psfRange[0] {
          psfRange[0] := score;
        }
        if score > psfRange[1] {
          psfRange[1] := score;
        }
        scoresList := scoresList[rowSamples[i] := score];
        if score < 0.0 {
          return Err(NegativeScore(score));
        }
        var parsedPValue := parse(tokens[j + 1]);
        if parsedPValue.None? {
          return Err(NotANumber(tokens[j]));
        }
        var pvalue := parsedPValue.value;
        if pvalue < pvalRange[0] {
          pvalRange[0] := pvalue;
        }
        if pvalue > pvalRange[1] {
          pvalRange[1] := pvalue;
        }
        pvaluesList := pvaluesList[rowSamples[i] := pvalue];
        if pvalue < 0.0 || pvalue > 1.0 {
          return Err(PValueOutOfRange(pvalue));
        }
        i := i + 1;
      }
      return Ok(AxisScores(scoresList, pvaluesList));
    }

    function State(altFound: bool, telFound: bool, alt: AxisScores, tel: AxisScores): ScanState
      requires Valid()
      reads this, altPsfRange, altPvalRange, telomerasePsfRange, telomerasePvalRange
    {
      ScanState(altFound, telFound, alt, tel, RangeOf(altPsfRange), RangeOf(altPvalRange),
                RangeOf(telomerasePsfRange), RangeOf(telomerasePvalRange))
    }

    /** `st` records the ranges the four arrays hold now. */
    predicate Current(st: ScanState)
      requires Valid()
      reads this, altPsfRange, altPvalRange, telomerasePsfRange, telomerasePvalRange
    {
      st.altPsf == RangeOf(altPsfRange) && st.altPval == RangeOf(altPvalRange) &&
      st.telPsf == RangeOf(telomerasePsfRange) && st.telPval == RangeOf(telomerasePvalRange)
    }

    /** One pass of the reader loop: the column check, then the ALT row and the
        Telomerase row, each read into its own pair of range arrays. */
    method ReadLine(line: string, lineNum: nat, headerSamples: seq<string>, parse: string -> Option<real>, st: ScanState)
      returns (r: Result<ScanState, SummaryError>)
      requires Valid() && Current(st)
      modifies altPsfRange, altPvalRange, telomerasePsfRange, telomerasePvalRange
      ensures r == ScanLine(line, lineNum, headerSamples, parse, st)
      ensures r.Ok? ==> Current(r.value)
    {
      var tokens := Split(line, '\t');
      if |tokens| != 2 * |headerSamples| + 2 {
        return Err(LineProblem(lineNum, ColumnMismatch(IntToString(2 * |headerSamples|) + "2", |tokens|)));
      }
      var altFound', telFound', alt', tel' := st.altFound, st.telFound, st.alt, st.tel;
      var gene := tokens[1];
      if gene == AltKey {
        var res := PopulateScores(tokens, headerSamples, parse, altPsfRange, altPvalRange);
        if res.Err? {
          return Err(LineProblem(lineNum, ScoresFailed(AltKey, res.error)));
        }
        alt' := res.value;
        altFound' := true;
      }
      if gene == TelomeraseKey {
        var res := PopulateScores(tokens, headerSamples, parse, telomerasePsfRange, telomerasePvalRange);
        if res.Err? {
          return Err(LineProblem(lineNum, ScoresFailed(TelomeraseKey, res.error)));
        }
        tel' := res.value;
        telFound' := true;
      }
      return Ok(State(altFound', telFound', alt', tel'));
    }

    /** The reader loop of `generateSummaryMap`, from line 2 until both target
        rows have been read. */
    method ScanLines(lines: seq<string>, headerSamples: seq<string>, parse: string -> Option<real>)
      returns (r: Result<ScanState, SummaryError>)
      requires Valid() && |lines| >= 1
      modifies altPsfRange, altPvalRange, telomerasePsfRange, telomerasePvalRange
      ensures r == ScanFrom(lines, 1, headerSamples, parse, old(State(false, false, EmptyScores, EmptyScores)))
      ensures r.Ok? ==> Current(r.value)
    {
      var st := State(false, false, EmptyScores, EmptyScores);
      ghost var whole := ScanFrom(lines, 1, headerSamples, parse, st);
      var k := 1;
      while k < |lines| && (!st.telFound || !st.altFound)
        invariant 1 <= k <= |lines| && Current(st)
        invariant whole == ScanFrom(lines, k, headerSamples, parse, st)
      {
        ScanFromStep(lines, k, headerSamples, parse, st);
        var step := ReadLine(lines[k], k + 1, headerSamples, parse, st);
        if step.Err? {
          return Err(step.error);
        }
        st := step.value;
        k := k + 1;
      }
      return Ok(st);
    }

    /** `generateSummaryMap`, given the lines of the summary file; the final
        sample list is the ALT score map's key set in an unspecified order. */
    method GenerateSummaryMap(lines: seq<string>, parse: string -> Option<real>) returns (r: Result<(), SummaryError>)
      requires Valid()
      modifies this, altPsfRange, altPvalRange, telomerasePsfRange, telomerasePvalRange
      ensures Valid() && altPsfRange == old(altPsfRange) && altPvalRange == old(altPvalRange)
      ensures telomerasePsfRange == old(telomerasePsfRange) && telomerasePvalRange == old(telomerasePvalRange)
      ensures var e := SummarySpec(lines, parse, old(RangeOf(altPsfRange)), old(RangeOf(altPvalRange)),
                                   old(RangeOf(telomerasePsfRange)), old(RangeOf(telomerasePvalRange)));
        (r.Err? <==> e.Err?) && (r.Err? ==> r.error == e.error) &&
        (r.Ok? ==>
           summaryMap == SummaryMap(e.value) && Enumerates(samples, e.value.alt.scores.Keys) &&
           e.value.altFound && e.value.telFound && Current(e.value))
    {
      if |lines| == 0 {
        return Err(EmptyFile);
      }
      var header := Split(lines[0], '\t');
      var hs: seq<string> := [];
      var i := 2;
      while i < |header|
        invariant i >= 2 && i % 2 == 0
        invariant HeaderSamples(lines[0]) == HeaderSamplesFrom(header, i, hs)
      {
        if !Contains(header[i], ScorePattern) {
          return Err(MissingScorePattern(IntToString(i) + "1"));
        }
        hs := hs + [header[i][|ScorePattern|..]];
        i := i + 2;
      }
      samples := hs;
      var scan := ScanLines(lines, hs, parse);
      if scan.Err? {
        return Err(scan.error);
      }
      var st := scan.value;
      if !st.altFound {
        return Err(NoTargetRow(AltKey));
      }
      if !st.telFound {
        return Err(NoTargetRow(TelomeraseKey));
      }
      if |st.alt.scores| == 0 {
        return Err(NoScores(AltKey));
      }
      if |st.alt.pvalues| == 0 {
        return Err(NoPValues(AltKey));
      }
      if |st.tel.scores| == 0 {
        return Err(NoScores(TelomeraseKey));
      }
      if |st.tel.pvalues| == 0 {
        return Err(NoPValues(TelomeraseKey));
      }
      summaryMap := SummaryMap(st);
      samples := Enumerate(st.alt.scores.Keys);
      return Ok(());
    }

    /** `getPSFRange`: the live range array of a known axis, null otherwise. */
    function GetPsfRange(tmmKey: string): (r: Option<array<real>>)
      reads this
      ensures r.Some? <==> tmmKey == AltKey || tmmKey == TelomeraseKey
      ensures tmmKey == AltKey ==> r == Some(altPsfRange)
      ensures tmmKey == TelomeraseKey ==> r == Some(telomerasePsfRange)
    {
      if tmmKey == AltKey then Some(altPsfRange)
      else if tmmKey == TelomeraseKey then Some(telomerasePsfRange)
      else None
    }

    /** `getScores`: the score map of an axis when it has one entry per sample. */
    function GetScores(tmmKey: string): (r: Result<map<string, real>, ScoresError>)
      reads this
      ensures r.Ok? ==> tmmKey in summaryMap && ScoresKey in summaryMap[tmmKey] &&
                        r.value == summaryMap[tmmKey][ScoresKey] && |r.value| == |samples|
      ensures tmmKey !in summaryMap ==> r == Err(NoSuchKey(tmmKey))
    {
      if tmmKey !in summaryMap then Err(NoSuchKey(tmmKey))
      else if ScoresKey !in summaryMap[tmmKey] then Err(NullScores(tmmKey))
      else
        var scores := summaryMap[tmmKey][ScoresKey];
        if |scores| != |samples| then Err(SizeMismatch(tmmKey, |samples|, |scores|))
        else Ok(scores)
    }

    /** `niceSummaryMap`, with the platform line separator as `eol`. */
    method NiceSummaryMap(show: real -> string, eol: string) returns (niceMap: string)
      ensures niceMap == NiceText(summaryMap, samples, show, eol)
    {
      niceMap := NiceHeader + eol;
      var k := 0;
      while k < |samples|
        invariant 0 <= k <= |samples|
        invariant niceMap == NiceText(summaryMap, samples[..k], show, eol)
      {
        var sample := samples[k];
        niceMap := niceMap + NiceRow(summaryMap, sample, show, eol);
        assert samples[..k + 1][..k] == samples[..k];
        k := k + 1;
      }
      assert samples[..k] == samples;
    }
  }

  /** After a successful read from the initial ranges, `getScores` succeeds for
      both axes: each score map has one entry per listed sample. */
  lemma GetScoresAfterRead(h: SummaryFileHandler, lines: seq<string>, parse: string -> Option<real>)
    requires SummarySpec(lines, parse, InitialPsfRange, InitialPvalRange, InitialPsfRange, InitialPvalRange).Ok?
    requires var st := SummarySpec(lines, parse, InitialPsfRange, InitialPvalRange, InitialPsfRange, InitialPvalRange).value;
      h.summaryMap == SummaryMap(st) && Enumerates(h.samples, st.alt.scores.Keys)
    ensures h.GetScores(AltKey).Ok? && h.GetScores(TelomeraseKey).Ok?
    ensures h.GetScores(AltKey).value.Keys == h.GetScores(TelomeraseKey).value.Keys
  {
    SummarySpecProperties(lines, parse);
  }
}
