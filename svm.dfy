/** What the TMM classifier does around its trained support-vector machine: the
    one-coordinate data set built from the PSF scores and the TMM labels, the
    midpoint threshold taken from the machine's first-pass predictions, the
    second pass that reclassifies every sample against that threshold, the
    confusion matrix both passes accumulate into, the two-column prediction
    table and the four-category accuracy. The machine itself is not modelled:
    its first-pass predictions are an input. */
module Svm {
  import opened Common
  import opened TmmLabels

  /** The axis a run separates: `generateDataSet` with `TMMLabels.A`, or any other reference. */
  datatype Axis = AltAxis | TelomeraseAxis

  /** The column of the prediction table an axis writes: isALT, isTelomerase. */
  function Column(axis: Axis): nat
  {
    if axis.AltAxis? then 0 else 1
  }

  /** The class `generateDataSet` gives a TMM label: 1 for the cases of the axis. */
  function ClassOf(tmm: string, axis: Axis): (c: nat)
    ensures c <= 1
  {
    if axis.AltAxis? then (if tmm == A || tmm == AT then 1 else 0)
    else (if tmm == T || tmm == AT then 1 else 0)
  }

  /** For a label read from a labels file, the class is 1 exactly when the
      file's column for the axis holds "+". */
  lemma ClassOfCategory(altSign: string, telSign: string, axis: Axis)
    requires IsSign(altSign) && IsSign(telSign)
    ensures ClassOf(Category(altSign, telSign), axis) == 1 <==> (if axis.AltAxis? then altSign else telSign) == "+"
  {
    CategoryMeaning(altSign, telSign);
  }

  /** A data point: the sample's PSF score on the axis and its true class. */
  datatype DataPoint = DataPoint(score: real, truth: nat)

  /** The data set of `generateDataSet`, one point per sample in sample order;
      None where a sample has no score (unboxing null) or no label (`equals` on null). */
  function DataSetOf(samples: seq<string>, scores: map<string, real>, labels: map<string, string>, axis: Axis)
    : (r: Option<seq<DataPoint>>)
    ensures r.Some? <==> forall s :: s in samples ==> s in scores && s in labels
    ensures r.Some? ==>
      |r.value| == |samples| &&
      forall i :: 0 <= i < |samples| ==>
        r.value[i] == DataPoint(scores[samples[i]], ClassOf(labels[samples[i]], axis))
  {
    if |samples| == 0 then Some([])
    else
      var s := samples[|samples| - 1];
      match DataSetOf(samples[..|samples| - 1], scores, labels, axis)
      case None => None
      case Some(ps) =>
        if s in scores && s in labels then Some(ps + [DataPoint(scores[s], ClassOf(labels[s], axis))])
        else None
  }

  /** Two classes, and a prediction for every point, each 0 or 1. */
  predicate Binary(points: seq<DataPoint>, preds: seq<nat>)
  {
    |preds| == |points| && forall i :: 0 <= i < |points| ==> points[i].truth <= 1 && preds[i] <= 1
  }

  // ---------------------------------------------------------------------
  // The threshold
  // ---------------------------------------------------------------------

  /** The scores of the points predicted `c`, in order: `values0` or `values1`. */
  function Values(points: seq<DataPoint>, preds: seq<nat>, c: nat): seq<real>
    requires |preds| == |points|
  {
    if |points| == 0 then []
    else
      var n := |points| - 1;
      Values(points[..n], preds[..n], c) + (if preds[n] == c then [points[n].score] else [])
  }

  /** A point's score is among the values of its predicted class. */
  lemma {:induction false} ValuesHold(points: seq<DataPoint>, preds: seq<nat>, i: nat)
    requires |preds| == |points| && i < |points|
    ensures points[i].score in Values(points, preds, preds[i])
  {
    var n := |points| - 1;
    if i < n {
      ValuesHold(points[..n], preds[..n], i);
    }
  }

  /** `low`: the largest of the values and 0. */
  function Low(vs: seq<real>): real
  {
    if |vs| == 0 then 0.0
    else
      var l := Low(vs[..|vs| - 1]);
      if vs[|vs| - 1] > l then vs[|vs| - 1] else l
  }

  /** The least of `start` and the values. */
  function MinFrom(vs: seq<real>, start: real): real
  {
    if |vs| == 0 then start
    else
      var u := MinFrom(vs[..|vs| - 1], start);
      if vs[|vs| - 1] < u then vs[|vs| - 1] else u
  }

  /** `up`: the least of the values below `Double.MAX_VALUE`, and 0 when there are none. */
  function Up(vs: seq<real>): real
  {
    if |vs| == 0 then 0.0 else MinFrom(vs, MaxDouble)
  }

  lemma {:induction false} LowBounds(vs: seq<real>)
    ensures Low(vs) >= 0.0 && forall x :: x in vs ==> x <= Low(vs)
    ensures Low(vs) == 0.0 || Low(vs) in vs
  {
    if |vs| > 0 {
      var p := vs[..|vs| - 1];
      LowBounds(p);
      assert vs == p + [vs[|vs| - 1]];
    }
  }

  lemma {:induction false} MinFromBounds(vs: seq<real>, start: real)
    ensures MinFrom(vs, start) <= start && forall x :: x in vs ==> MinFrom(vs, start) <= x
    ensures MinFrom(vs, start) == start || MinFrom(vs, start) in vs
  {
    if |vs| > 0 {
      var p := vs[..|vs| - 1];
      MinFromBounds(p, start);
      assert vs == p + [vs[|vs| - 1]];
    }
  }

  /** For values that are doubles, `up` is the least of them; with none it is 0,
      not +Infinity. */
  lemma UpBounds(vs: seq<real>)
    requires forall x :: x in vs ==> x <= MaxDouble
    ensures |vs| == 0 ==> Up(vs) == 0.0
    ensures |vs| > 0 ==> Up(vs) in vs && forall x :: x in vs ==> Up(vs) <= x
  {
    if |vs| > 0 {
      MinFromBounds(vs, MaxDouble);
      assert vs[0] in vs;
      if MinFrom(vs, MaxDouble) == MaxDouble {
        assert vs[0] == MaxDouble;
      }
    }
  }

  lemma UpBelow(vs: seq<real>, x: real)
    requires x in vs
    ensures Up(vs) <= x
  {
    MinFromBounds(vs, MaxDouble);
  }

  /** The midpoint of `low` and `up` taken from the first-pass predictions. */
  function Threshold(points: seq<DataPoint>, firstPass: seq<nat>): real
    requires |firstPass| == |points|
  {
    (Up(Values(points, firstPass, 1)) + Low(Values(points, firstPass, 0))) / 2.0
  }

  /** `classify(DataPoint, double)`: 1 exactly when the score reaches the threshold. */
  function Predict(score: real, threshold: real): nat
  {
    if score >= threshold then 1 else 0
  }

  /** The predictions of the second pass. */
  function SecondPass(points: seq<DataPoint>, threshold: real): (preds: seq<nat>)
    ensures |preds| == |points|
    ensures forall i :: 0 <= i < |points| ==> preds[i] <= 1 && (preds[i] == 1 <==> points[i].score >= threshold)
  {
    seq(|points|, i requires 0 <= i < |points| => Predict(points[i].score, threshold))
  }

  /** Scores that are finite, non-negative doubles. */
  predicate ScoresInRange(points: seq<DataPoint>)
  {
    forall i :: 0 <= i < |points| ==> 0.0 <= points[i].score <= MaxDouble
  }

  /** When the first pass separates the scores (both classes predicted, every
      score predicted 0 below every score predicted 1), the second pass gives
      back the first-pass prediction of every sample. */
  lemma SeparatedPassAgrees(points: seq<DataPoint>, firstPass: seq<nat>)
    requires Binary(points, firstPass) && ScoresInRange(points)
    requires |Values(points, firstPass, 0)| > 0 && |Values(points, firstPass, 1)| > 0
    requires forall a, b :: a in Values(points, firstPass, 0) && b in Values(points, firstPass, 1) ==> a < b
    ensures SecondPass(points, Threshold(points, firstPass)) == firstPass
  {
    var v0, v1 := Values(points, firstPass, 0), Values(points, firstPass, 1);
    var low, up := Low(v0), Up(v1);
    assert low in v0 && up in v1 by {
      LowBounds(v0);
      ValuesInRange(points, firstPass, 0, v0[0]);
      assert v0[0] in v0;
      forall x | x in v1
        ensures x <= MaxDouble
      {
        ValuesInRange(points, firstPass, 1, x);
      }
      UpBounds(v1);
    }
    var mid := Threshold(points, firstPass);
    assert low < mid < up;
    var second := SecondPass(points, mid);
    forall i | 0 <= i < |points|
      ensures second[i] == firstPass[i]
    {
      ValuesHold(points, firstPass, i);
      if firstPass[i] == 0 {
        LowBounds(v0);
      } else {
        assert firstPass[i] == 1;
        UpBelow(v1, points[i].score);
      }
    }
  }

  lemma {:induction false} ValuesInRange(points: seq<DataPoint>, preds: seq<nat>, c: nat, x: real)
    requires |preds| == |points| && ScoresInRange(points) && x in Values(points, preds, c)
    ensures 0.0 <= x <= MaxDouble
  {
    var n := |points| - 1;
    if x in Values(points[..n], preds[..n], c) {
      ValuesInRange(points[..n], preds[..n], c, x);
    }
  }

  // ---------------------------------------------------------------------
  // The confusion matrix
  // ---------------------------------------------------------------------

  /** The points of class t predicted p. */
  function Count(points: seq<DataPoint>, preds: seq<nat>, t: nat, p: nat): nat
    requires |preds| == |points|
  {
    if |points| == 0 then 0
    else
      var n := |points| - 1;
      Count(points[..n], preds[..n], t, p) + (if points[n].truth == t && preds[n] == p then 1 else 0)
  }

  /** Every point falls in exactly one of the four cells. */
  lemma {:induction false} CountTotal(points: seq<DataPoint>, preds: seq<nat>)
    requires Binary(points, preds)
    ensures Count(points, preds, 0, 0) + Count(points, preds, 0, 1) +
            Count(points, preds, 1, 0) + Count(points, preds, 1, 1) == |points|
  {
    if |points| > 0 {
      var n := |points| - 1;
      CountTotal(points[..n], preds[..n]);
    }
  }

  /** After one run the four cells add up to twice the number of samples,
      since the first and the second pass both accumulate. */
  lemma ConfusionTotal(points: seq<DataPoint>, firstPass: seq<nat>)
    requires Binary(points, firstPass)
    ensures var second := SecondPass(points, Threshold(points, firstPass));
      (Count(points, firstPass, 0, 0) + Count(points, second, 0, 0)) +
      (Count(points, firstPass, 0, 1) + Count(points, second, 0, 1)) +
      (Count(points, firstPass, 1, 0) + Count(points, second, 1, 0)) +
      (Count(points, firstPass, 1, 1) + Count(points, second, 1, 1)) == 2 * |points|
  {
    CountTotal(points, firstPass);
    CountTotal(points, SecondPass(points, Threshold(points, firstPass)));
  }

  /** The confusion matrix of one pass over a prefix, one step at a time. */
  lemma CountStep(points: seq<DataPoint>, preds: seq<nat>, i: nat, t: nat, p: nat)
    requires |preds| == |points| && i < |points|
    ensures Count(points[..i + 1], preds[..i + 1], t, p) ==
            Count(points[..i], preds[..i], t, p) + (if points[i].truth == t && preds[i] == p then 1 else 0)
  {
    assert points[..i + 1][..i] == points[..i] && preds[..i + 1][..i] == preds[..i];
  }

  lemma ValuesStep(points: seq<DataPoint>, preds: seq<nat>, i: nat, c: nat)
    requires |preds| == |points| && i < |points|
    ensures Values(points[..i + 1], preds[..i + 1], c) ==
            Values(points[..i], preds[..i], c) + (if preds[i] == c then [points[i].score] else [])
  {
    assert points[..i + 1][..i] == points[..i] && preds[..i + 1][..i] == preds[..i];
  }

  // ---------------------------------------------------------------------
  // The accuracy
  // ---------------------------------------------------------------------

  /** The label `getAccuracy` predicts from the two columns of a table row. */
  function PredictedLabel(isAlt: bool, isTelomerase: bool): string
  {
    if isAlt then (if isTelomerase then AT else A)
    else if isTelomerase then T else N
  }

  function SignOf(b: bool): string { if b then "+" else "-" }

  /** The predicted label is the category a labels file row with the same two
      symbols gets, and it falls in each axis's class exactly when that axis's
      column is set. */
  lemma PredictedLabelMeaning(isAlt: bool, isTelomerase: bool)
    ensures PredictedLabel(isAlt, isTelomerase) == Category(SignOf(isAlt), SignOf(isTelomerase))
    ensures ClassOf(PredictedLabel(isAlt, isTelomerase), AltAxis) == 1 <==> isAlt
    ensures ClassOf(PredictedLabel(isAlt, isTelomerase), TelomeraseAxis) == 1 <==> isTelomerase
  {
  }

  /** The samples among the first n whose label is the predicted one; None where
      a sample has no label. */
  function Correct(samples: seq<string>, labels: map<string, string>, rows: seq<(bool, bool)>, n: nat): (r: Option<nat>)
    requires n <= |samples| <= |rows|
    ensures r.Some? ==> r.value <= n
    ensures r.Some? <==> forall k :: 0 <= k < n ==> samples[k] in labels
  {
    if n == 0 then Some(0)
    else
      match Correct(samples, labels, rows, n - 1)
      case None => None
      case Some(c) =>
        var s := samples[n - 1];
        if s !in labels then None
        else Some(c + if labels[s] == PredictedLabel(rows[n - 1].0, rows[n - 1].1) then 1 else 0)
  }

  /** `correct / (wrong + correct)` as a double: NaN for no samples. */
  function Accuracy(samples: seq<string>, labels: map<string, string>, rows: seq<(bool, bool)>): Option<JDouble>
    requires |samples| <= |rows|
  {
    match Correct(samples, labels, rows, |samples|)
    case None => None
    case Some(c) => Some(Divide(Finite(c as real), |samples| as real))
  }

  /** The accuracy is a fraction in [0, 1] whenever there is a sample, NaN when there is none. */
  lemma AccuracyRange(samples: seq<string>, labels: map<string, string>, rows: seq<(bool, bool)>)
    requires |samples| <= |rows| && Accuracy(samples, labels, rows).Some?
    ensures var a := Accuracy(samples, labels, rows).value;
      (|samples| > 0 ==> a.Finite? && 0.0 <= a.v <= 1.0) && (|samples| == 0 ==> a.NaN?)
  {
    var c := Correct(samples, labels, rows, |samples|).value;
    if |samples| > 0 {
      Fraction(c as real, |samples| as real);
    }
  }

  lemma Fraction(c: real, n: real)
    requires 0.0 <= c <= n && n > 0.0
    ensures 0.0 <= c / n <= 1.0
  {
    var q := c / n;
    assert q * n == c;
    var d := 1.0 - q;
    assert d * n == n - c;
  }

  /** When every prediction matches its label, the accuracy is exactly 1. */
  lemma {:induction false} AllCorrect(samples: seq<string>, labels: map<string, string>, rows: seq<(bool, bool)>, n: nat)
    requires n <= |samples| <= |rows|
    requires forall k :: 0 <= k < n ==> samples[k] in labels && labels[samples[k]] == PredictedLabel(rows[k].0, rows[k].1)
    ensures Correct(samples, labels, rows, n) == Some(n)
  {
    if n > 0 {
      AllCorrect(samples, labels, rows, n - 1);
    }
  }

  /** The two columns of a prediction table, row by row. */
  function Rows(a: array2<bool>): (rows: seq<(bool, bool)>)
    requires a.Length1 == 2
    reads a
    ensures |rows| == a.Length0
    ensures forall i :: 0 <= i < a.Length0 ==> rows[i] == (a[i, 0], a[i, 1])
  {
    seq(a.Length0, i requires 0 <= i < a.Length0 reads a => (a[i, 0], a[i, 1]))
  }

  // ---------------------------------------------------------------------
  // The classifier object
  // ---------------------------------------------------------------------

  /** The spans of `low` and `up` over a list of values, as the two loops of `classify` take them. */
  method FindLow(vs: seq<real>) returns (low: real)
    ensures low == Low(vs)
  {
    low := 0.0;
    var k := 0;
    while k < |vs|
      invariant 0 <= k <= |vs| && low == Low(vs[..k])
    {
      assert vs[..k + 1][..k] == vs[..k];
      if vs[k] > low {
        low := vs[k];
      }
      k := k + 1;
    }
    assert vs[..k] == vs;
  }

  method FindUp(vs: seq<real>) returns (up: real)
    ensures up == Up(vs)
  {
    up := 0.0;
    if |vs| > 0 {
      up := MaxDouble;
      var k := 0;
      while k < |vs|
        invariant 0 <= k <= |vs| && up == MinFrom(vs[..k], MaxDouble)
      {
        assert vs[..k + 1][..k] == vs[..k];
        if vs[k] < up {
          up := vs[k];
        }
        k := k + 1;
      }
      assert vs[..k] == vs;
    }
  }

  class SVM {
    /** `summaryFileHandler.getSamples()`. */
    const samples: seq<string>
    /** The ALT and Telomerase scores of the summary map. */
    const altScores: map<string, real>
    const telScores: map<string, real>
    /** `tmmLabels.getSampleTMMLabelMap()`. */
    const labels: map<string, string>
    /** Predicted phenotypes, one row per sample: isALT, isTelomerase. */
    const predictionTable: array2<bool>
    /** Rows are true classes, columns predictions; null until the first `classify`. */
    var confusionMatrix: array2?<int>
    var h: real
    var v: real
    /** The cached accuracy, null until `getAccuracy` computes it. */
    var accuracy: Option<JDouble>

    predicate Valid()
      reads this
    {
      predictionTable.Length0 == |samples| && predictionTable.Length1 == 2
    }

    constructor (samples: seq<string>, altScores: map<string, real>, telScores: map<string, real>,
                 labels: map<string, string>)
      ensures Valid() && this.samples == samples && this.altScores == altScores && this.telScores == telScores
      ensures this.labels == labels && confusionMatrix == null && accuracy.None? && h == 0.0 && v == 0.0
      ensures forall i, c :: 0 <= i < |samples| && 0 <= c < 2 ==> !predictionTable[i, c]
    {
      this.samples := samples;
      this.altScores := altScores;
      this.telScores := telScores;
      this.labels := labels;
      predictionTable := new bool[|samples|, 2]((_, _) => false);
      confusionMatrix := null;
      h, v := 0.0, 0.0;
      accuracy := None;
    }

    /** `generateDataSet`: the score and class of every sample, in sample order. */
    method GenerateDataSet(axis: Axis) returns (r: Option<seq<DataPoint>>)
      ensures r == DataSetOf(samples, if axis.AltAxis? then altScores else telScores, labels, axis)
    {
      var scores := if axis.AltAxis? then altScores else telScores;
      var points: seq<DataPoint> := [];
      var k := 0;
      while k < |samples|
        invariant 0 <= k <= |samples|
        invariant DataSetOf(samples[..k], scores, labels, axis) == Some(points)
      {
        var s := samples[k];
        if s !in scores || s !in labels {
          NoDataSetAfter(samples, scores, labels, axis, k);
          return None;
        }
        assert samples[..k + 1][..k] == samples[..k];
        points := points + [DataPoint(scores[s], ClassOf(labels[s], axis))];
        k := k + 1;
      }
      assert samples[..k] == samples;
      return Some(points);
    }

    /** One prediction recorded: the table cell of the axis, and the confusion
        matrix cell of the true class and the prediction. */
    method Record(i: nat, truth: nat, predicted: nat, col: nat)
      requires Valid() && i < |samples| && col < 2 && truth <= 1 && predicted <= 1
      requires confusionMatrix != null && confusionMatrix.Length0 == 2 && confusionMatrix.Length1 == 2
      modifies predictionTable, confusionMatrix
      ensures forall r, c :: 0 <= r < |samples| && 0 <= c < 2 ==>
                predictionTable[r, c] == if r == i && c == col then predicted != 0 else old(predictionTable[r, c])
      ensures forall t, p :: 0 <= t < 2 && 0 <= p < 2 ==>
                confusionMatrix[t, p] == old(confusionMatrix[t, p]) + if t == truth && p == predicted then 1 else 0
    {
      predictionTable[i, col] := predicted != 0;
      if predicted != truth {
        confusionMatrix[truth, 1 - truth] := confusionMatrix[truth, 1 - truth] + 1;
      } else {
        confusionMatrix[truth, truth] := confusionMatrix[truth, truth] + 1;
      }
    }

    /** `classify` after training: the first pass records the machine's
        predictions and collects `values0` and `values1`, the midpoint threshold
        goes to h (ALT) or v (Telomerase), and the second pass records
        `score >= threshold` over the same cells. */
    method Classify(points: seq<DataPoint>, firstPass: seq<nat>, axis: Axis)
      requires Valid() && Binary(points, firstPass) && |points| <= |samples|
      modifies this, predictionTable
      ensures Valid() && accuracy == old(accuracy)
      ensures var th := Threshold(points, firstPass);
        (axis.AltAxis? ==> h == th && v == old(v)) && (axis.TelomeraseAxis? ==> v == th && h == old(h))
      ensures var second := SecondPass(points, Threshold(points, firstPass));
        forall r, c :: 0 <= r < |samples| && 0 <= c < 2 ==>
          predictionTable[r, c] == if r < |points| && c == Column(axis) then second[r] != 0 else old(predictionTable[r, c])
      ensures fresh(confusionMatrix) && confusionMatrix != null
      ensures confusionMatrix.Length0 == 2 && confusionMatrix.Length1 == 2
      ensures var second := SecondPass(points, Threshold(points, firstPass));
        forall t, p :: 0 <= t < 2 && 0 <= p < 2 ==>
          confusionMatrix[t, p] == Count(points, firstPass, t, p) + Count(points, second, t, p)
    {
      var col := Column(axis);
      confusionMatrix := new int[2, 2]((_, _) => 0);
      var values0: seq<real> := [];
      var values1: seq<real> := [];
      var i := 0;
      while i < |points|
        invariant 0 <= i <= |points|
        invariant Valid() && accuracy == old(accuracy) && h == old(h) && v == old(v)
        invariant fresh(confusionMatrix) && confusionMatrix != null
        invariant confusionMatrix.Length0 == 2 && confusionMatrix.Length1 == 2
        invariant values0 == Values(points[..i], firstPass[..i], 0) && values1 == Values(points[..i], firstPass[..i], 1)
        invariant forall t, p :: 0 <= t < 2 && 0 <= p < 2 ==>
                    confusionMatrix[t, p] == Count(points[..i], firstPass[..i], t, p)
        invariant forall r, c :: 0 <= r < |samples| && 0 <= c < 2 ==>
                    predictionTable[r, c] == if r < i && c == col then firstPass[r] != 0 else old(predictionTable[r, c])
      {
        var predicted := firstPass[i];
        Record(i, points[i].truth, predicted, col);
        ValuesStep(points, firstPass, i, 0);
        ValuesStep(points, firstPass, i, 1);
        if predicted == 0 {
          values0 := values0 + [points[i].score];
        } else {
          values1 := values1 + [points[i].score];
        }
        forall t, p | 0 <= t < 2 && 0 <= p < 2 {
          CountStep(points, firstPass, i, t, p);
        }
        i := i + 1;
      }
      assert points[..i] == points && firstPass[..i] == firstPass;
      var low := FindLow(values0);
      var up := FindUp(values1);
      var threshold := (up + low) / 2.0;
      if axis.AltAxis? {
        h := threshold;
      } else {
        v := threshold;
      }
      SecondPassRun(points, firstPass, threshold, col);
    }

    /** The second loop of `classify`. */
    method SecondPassRun(points: seq<DataPoint>, firstPass: seq<nat>, threshold: real, col: nat)
      requires Valid() && Binary(points, firstPass) && |points| <= |samples| && col < 2
      requires confusionMatrix != null && confusionMatrix.Length0 == 2 && confusionMatrix.Length1 == 2
      modifies predictionTable, confusionMatrix
      ensures var second := SecondPass(points, threshold);
        forall r, c :: 0 <= r < |samples| && 0 <= c < 2 ==>
          predictionTable[r, c] == if r < |points| && c == col then second[r] != 0 else old(predictionTable[r, c])
      ensures var second := SecondPass(points, threshold);
        forall t, p :: 0 <= t < 2 && 0 <= p < 2 ==>
          confusionMatrix[t, p] == old(confusionMatrix[t, p]) + Count(points, second, t, p)
    {
      ghost var second := SecondPass(points, threshold);
      var i := 0;
      while i < |points|
        invariant 0 <= i <= |points|
        invariant forall t, p :: 0 <= t < 2 && 0 <= p < 2 ==>
                    confusionMatrix[t, p] == old(confusionMatrix[t, p]) + Count(points[..i], second[..i], t, p)
        invariant forall r, c :: 0 <= r < |samples| && 0 <= c < 2 ==>
                    predictionTable[r, c] == if r < i && c == col then second[r] != 0 else old(predictionTable[r, c])
      {
        var predicted := Predict(points[i].score, threshold);
        Record(i, points[i].truth, predicted, col);
        forall t, p | 0 <= t < 2 && 0 <= p < 2 {
          CountStep(points, second, i, t, p);
        }
        i := i + 1;
      }
      assert points[..i] == points && second[..i] == second;
    }

    /** `getAccuracy`: computed from the prediction table on the first call and
        cached; None where a sample has no label. */
    method GetAccuracy() returns (r: Option<JDouble>)
      requires Valid()
      modifies this
      ensures old(accuracy).Some? ==> r == old(accuracy) && accuracy == old(accuracy)
      ensures old(accuracy).None? ==> r == Accuracy(samples, labels, Rows(predictionTable)) && accuracy == r
    {
      if accuracy.Some? {
        return accuracy;
      }
      ghost var rows := Rows(predictionTable);
      var correct := 0;
      var wrong := 0;
      var i := 0;
      while i < |samples|
        invariant 0 <= i <= |samples| && correct + wrong == i
        invariant Correct(samples, labels, rows, i) == Some(correct)
      {
        var sample := samples[i];
        if sample !in labels {
          NoCountAfter(samples, labels, rows, i);
          return None;
        }
        var tmm := labels[sample];
        var pred: string;
        if predictionTable[i, 0] {
          if predictionTable[i, 1] {
            pred := AT;
          } else {
            pred := A;
          }
        } else if predictionTable[i, 1] {
          pred := T;
        } else {
          pred := N;
        }
        assert rows[i] == (predictionTable[i, 0], predictionTable[i, 1]);
        assert pred == PredictedLabel(rows[i].0, rows[i].1);
        if tmm == pred {
          correct := correct + 1;
        } else {
          wrong := wrong + 1;
        }
        assert Correct(samples, labels, rows, i + 1) == Some(correct);
        i := i + 1;
      }
      accuracy := Some(Divide(Finite(correct as real), (wrong + correct) as real));
      return accuracy;
    }
  }

  /** A sample without a score or a label leaves no data set. */
  lemma NoDataSetAfter(samples: seq<string>, scores: map<string, real>, labels: map<string, string>, axis: Axis, k: nat)
    requires k < |samples| && (samples[k] !in scores || samples[k] !in labels)
    ensures DataSetOf(samples, scores, labels, axis).None?
  {
    assert samples[k] in samples;
  }

  /** A sample without a label leaves no count. */
  lemma NoCountAfter(samples: seq<string>, labels: map<string, string>, rows: seq<(bool, bool)>, k: nat)
    requires k < |samples| <= |rows| && samples[k] !in labels
    ensures Correct(samples, labels, rows, |samples|).None?
  {
  }

  /** `runSVM`: the ALT run, then the Telomerase run, each on the machine's
      first-pass predictions for its data set. */
  method RunSvm(svm: SVM, altFirstPass: seq<nat>, telFirstPass: seq<nat>) returns (r: Result<(), string>)
    requires svm.Valid()
    requires |altFirstPass| == |telFirstPass| == |svm.samples|
    requires forall i :: 0 <= i < |svm.samples| ==> altFirstPass[i] <= 1 && telFirstPass[i] <= 1
    modifies svm, svm.predictionTable
    ensures svm.Valid() && svm.accuracy == old(svm.accuracy)
    ensures var alt := DataSetOf(svm.samples, svm.altScores, svm.labels, AltAxis);
      var tel := DataSetOf(svm.samples, svm.telScores, svm.labels, TelomeraseAxis);
      (r.Ok? <==> alt.Some? && tel.Some?) &&
      (r.Err? ==> r.error == "Problem generating the ALT dataset. ") &&
      (r.Ok? ==> svm.h == Threshold(alt.value, altFirstPass) && svm.v == Threshold(tel.value, telFirstPass))
    // No ALT data set: nothing has changed.
    ensures DataSetOf(svm.samples, svm.altScores, svm.labels, AltAxis).None? ==>
      svm.h == old(svm.h) && svm.v == old(svm.v) && svm.confusionMatrix == old(svm.confusionMatrix) &&
      forall i, c :: 0 <= i < |svm.samples| && 0 <= c < 2 ==> svm.predictionTable[i, c] == old(svm.predictionTable[i, c])
    // The ALT run happened: h is its threshold and the isALT column its second pass.
    ensures var alt := DataSetOf(svm.samples, svm.altScores, svm.labels, AltAxis);
      alt.Some? ==>
        svm.h == Threshold(alt.value, altFirstPass) &&
        forall i :: 0 <= i < |svm.samples| ==> svm.predictionTable[i, 0] == (SecondPass(alt.value, svm.h)[i] != 0)
    // The Telomerase data set is missing: the ALT run's state stays, isTelomerase and v untouched.
    ensures var alt := DataSetOf(svm.samples, svm.altScores, svm.labels, AltAxis);
      var tel := DataSetOf(svm.samples, svm.telScores, svm.labels, TelomeraseAxis);
      alt.Some? && tel.None? ==>
        svm.v == old(svm.v) &&
        (forall i :: 0 <= i < |svm.samples| ==> svm.predictionTable[i, 1] == old(svm.predictionTable[i, 1])) &&
        svm.confusionMatrix != null && svm.confusionMatrix.Length0 == 2 && svm.confusionMatrix.Length1 == 2 &&
        forall t, p :: 0 <= t < 2 && 0 <= p < 2 ==>
          svm.confusionMatrix[t, p] ==
            Count(alt.value, altFirstPass, t, p) + Count(alt.value, SecondPass(alt.value, svm.h), t, p)
    // Both runs happened: v is the Telomerase threshold, the isTelomerase column its
    // second pass, and the confusion matrix is the Telomerase run's.
    ensures var tel := DataSetOf(svm.samples, svm.telScores, svm.labels, TelomeraseAxis);
      r.Ok? ==>
        (forall i :: 0 <= i < |svm.samples| ==> svm.predictionTable[i, 1] == (SecondPass(tel.value, svm.v)[i] != 0)) &&
        svm.confusionMatrix != null && svm.confusionMatrix.Length0 == 2 && svm.confusionMatrix.Length1 == 2 &&
        forall t, p :: 0 <= t < 2 && 0 <= p < 2 ==>
          svm.confusionMatrix[t, p] ==
            Count(tel.value, telFirstPass, t, p) + Count(tel.value, SecondPass(tel.value, svm.v), t, p)
  {
    var alt := svm.GenerateDataSet(AltAxis);
    if alt.None? {
      return Err("Problem generating the ALT dataset. ");
    }
    svm.Classify(alt.value, altFirstPass, AltAxis);
    var tel := svm.GenerateDataSet(TelomeraseAxis);
    if tel.None? {
      return Err("Problem generating the ALT dataset. ");
    }
    svm.Classify(tel.value, telFirstPass, TelomeraseAxis);
    return Ok(());
  }
}
