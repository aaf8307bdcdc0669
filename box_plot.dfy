/** The data side of the PSF box plots: one box per TMM label holding the PSF
    scores of that label's samples on one axis, the data handed to the rank-sum
    test, the two pairwise median-difference tests and the statistics map with
    its NaN fallback. The tests themselves, the number rounding and the chart
    are parameters or not modelled. */
module BoxPlot {
  import opened Common
  import opened TmmLabels

  /** The keys of `boxplotStats`. */
  const KWP: string := "kwp"
  const MD1: string := "MD1"
  const P1: string := "p1"
  const MD2: string := "MD2"
  const P2: string := "p2"

  // ---------------------------------------------------------------------
  // Gathering scores
  // ---------------------------------------------------------------------

  /** The samples that have a score on the axis, in sample order. */
  function Scored(samples: seq<string>, scores: map<string, real>): (r: seq<string>)
    ensures forall s :: s in r <==> s in samples && s in scores
  {
    if |samples| == 0 then []
    else
      var s := samples[|samples| - 1];
      Scored(samples[..|samples| - 1], scores) + (if s in scores then [s] else [])
  }

  /** The scores of those samples, in sample order. */
  function ScoresOf(samples: seq<string>, scores: map<string, real>): (vs: seq<real>)
    ensures |vs| == |Scored(samples, scores)|
    ensures forall i :: 0 <= i < |vs| ==> Scored(samples, scores)[i] in scores && vs[i] == scores[Scored(samples, scores)[i]]
  {
    if |samples| == 0 then []
    else
      var s := samples[|samples| - 1];
      ScoresOf(samples[..|samples| - 1], scores) + (if s in scores then [scores[s]] else [])
  }

  lemma ScoresOfStep(samples: seq<string>, scores: map<string, real>, k: nat)
    requires k < |samples|
    ensures ScoresOf(samples[..k + 1], scores)
         == ScoresOf(samples[..k], scores) + (if samples[k] in scores then [scores[samples[k]]] else [])
  {
    assert samples[..k + 1][..k] == samples[..k];
  }

  /** The inner loop of `createSampleDataset` and of `kwt`: the scores of the
      samples that have one. */
  method Gather(samples: seq<string>, scores: map<string, real>) returns (list: seq<real>)
    ensures list == ScoresOf(samples, scores)
  {
    list := [];
    var k := 0;
    while k < |samples|
      invariant 0 <= k <= |samples| && list == ScoresOf(samples[..k], scores)
    {
      ScoresOfStep(samples, scores, k);
      if samples[k] in scores {
        list := list + [scores[samples[k]]];
      }
      k := k + 1;
    }
    assert samples[..k] == samples;
  }

  // ---------------------------------------------------------------------
  // The dataset
  // ---------------------------------------------------------------------

  /** A box: the label and its scores. */
  datatype Row = Row(name: string, values: seq<real>)

  function RowLabels(rows: seq<Row>): (ls: seq<string>)
    ensures |ls| == |rows| && forall i :: 0 <= i < |rows| ==> ls[i] == rows[i].name
  {
    seq(|rows|, i requires 0 <= i < |rows| => rows[i].name)
  }

  /** The rows `createSampleDataset` adds when it visits the labels in `order`. */
  function DatasetOf(order: seq<string>, ls: map<string, seq<string>>, scores: map<string, real>): seq<Row>
    requires forall l :: l in order ==> l in ls
  {
    if |order| == 0 then []
    else
      var l := order[|order| - 1];
      DatasetOf(order[..|order| - 1], ls, scores)
      + (if |ls[l]| > 0 && |ScoresOf(ls[l], scores)| > 0 then [Row(l, ScoresOf(ls[l], scores))] else [])
  }

  /** A dataset of the labels: one row per label with at least one scored
      sample and no other, each row holding exactly those scores. */
  predicate Dataset(rows: seq<Row>, ls: map<string, seq<string>>, scores: map<string, real>)
  {
    Distinct(RowLabels(rows)) &&
    (forall i :: 0 <= i < |rows| ==> rows[i].name in ls && rows[i].values == ScoresOf(ls[rows[i].name], scores)) &&
    (forall l :: l in ls ==> (l in RowLabels(rows) <==> |ScoresOf(ls[l], scores)| > 0))
  }

  /** One step of `DatasetOf`: the row of the last label, if any, goes last. */
  lemma DatasetOfStep(order: seq<string>, ls: map<string, seq<string>>, scores: map<string, real>)
    requires |order| > 0 && forall l :: l in order ==> l in ls
    ensures var l := order[|order| - 1];
      DatasetOf(order, ls, scores) == DatasetOf(order[..|order| - 1], ls, scores) +
        (if |ScoresOf(ls[l], scores)| > 0 then [Row(l, ScoresOf(ls[l], scores))] else [])
  {
  }

  /** Every row belongs to a visited label and holds that label's scores. */
  lemma {:induction false} DatasetOfValues(order: seq<string>, ls: map<string, seq<string>>, scores: map<string, real>)
    requires forall l :: l in order ==> l in ls
    ensures var rows := DatasetOf(order, ls, scores);
      forall i :: 0 <= i < |rows| ==> rows[i].name in order && rows[i].values == ScoresOf(ls[rows[i].name], scores)
  {
    if |order| > 0 {
      var n := |order| - 1;
      DatasetOfValues(order[..n], ls, scores);
      DatasetOfStep(order, ls, scores);
      assert forall l :: l in order[..n] ==> l in order;
    }
  }

  /** Visiting distinct labels gives distinct rows, one for each visited label
      with a scored sample. */
  lemma {:induction false} DatasetOfLabels(order: seq<string>, ls: map<string, seq<string>>, scores: map<string, real>)
    requires Distinct(order) && forall l :: l in order ==> l in ls
    ensures var labels := RowLabels(DatasetOf(order, ls, scores));
      Distinct(labels) && forall l :: l in labels <==> l in order && |ScoresOf(ls[l], scores)| > 0
  {
    if |order| > 0 {
      var n := |order| - 1;
      var l := order[n];
      var prior := RowLabels(DatasetOf(order[..n], ls, scores));
      DatasetOfLabels(order[..n], ls, scores);
      DatasetOfStep(order, ls, scores);
      assert l !in order[..n];
      assert order == order[..n] + [l];
      var labels := RowLabels(DatasetOf(order, ls, scores));
      assert labels == prior + (if |ScoresOf(ls[l], scores)| > 0 then [l] else []);
    }
  }

  /** Visiting every label once gives a dataset of the labels. */
  lemma DatasetOfSpec(order: seq<string>, ls: map<string, seq<string>>, scores: map<string, real>)
    requires Enumerates(order, ls.Keys)
    ensures Dataset(DatasetOf(order, ls, scores), ls, scores)
  {
    DatasetOfValues(order, ls, scores);
    DatasetOfLabels(order, ls, scores);
  }

  /** A label enters the dataset exactly when one of its samples has a score. */
  lemma DatasetMembership(rows: seq<Row>, ls: map<string, seq<string>>, scores: map<string, real>, l: string)
    requires Dataset(rows, ls, scores) && l in ls
    ensures l in RowLabels(rows) <==> exists s :: s in ls[l] && s in scores
  {
    if exists s :: s in ls[l] && s in scores {
      var s :| s in ls[l] && s in scores;
      assert s in Scored(ls[l], scores);
    }
    if |Scored(ls[l], scores)| > 0 {
      var s := Scored(ls[l], scores)[0];
      assert s in Scored(ls[l], scores);
      assert s in ls[l] && s in scores;
    }
  }

  // ---------------------------------------------------------------------
  // The rank-sum data
  // ---------------------------------------------------------------------

  /** The data `kwt` hands to the rank-sum test, row after row. */
  function FlatData(labels: seq<string>, ls: map<string, seq<string>>, scores: map<string, real>): seq<real>
    requires forall l :: l in labels ==> l in ls
  {
    if |labels| == 0 then []
    else
      var l := labels[|labels| - 1];
      FlatData(labels[..|labels| - 1], ls, scores) + ScoresOf(ls[l], scores)
  }

  /** The label of each datum. */
  function FlatLabels(labels: seq<string>, ls: map<string, seq<string>>, scores: map<string, real>): seq<string>
    requires forall l :: l in labels ==> l in ls
  {
    if |labels| == 0 then []
    else
      var l := labels[|labels| - 1];
      FlatLabels(labels[..|labels| - 1], ls, scores) + seq(|ScoresOf(ls[l], scores)|, _ => l)
  }

  /** The two arrays have the same length, and the label at each position is
      the row whose sample gave the datum there. */
  lemma {:induction false} FlatLabelled(labels: seq<string>, ls: map<string, seq<string>>, scores: map<string, real>)
    requires forall l :: l in labels ==> l in ls
    ensures var data, names := FlatData(labels, ls, scores), FlatLabels(labels, ls, scores);
      |data| == |names| &&
      forall k :: 0 <= k < |data| ==> names[k] in labels && data[k] in ScoresOf(ls[names[k]], scores)
  {
    if |labels| > 0 {
      var n := |labels| - 1;
      var l := labels[n];
      FlatLabelled(labels[..n], ls, scores);
      var data, names := FlatData(labels, ls, scores), FlatLabels(labels, ls, scores);
      var m := |FlatData(labels[..n], ls, scores)|;
      forall k | m <= k < |data|
        ensures names[k] == l && data[k] in ScoresOf(ls[l], scores)
      {
        assert data[k] == ScoresOf(ls[l], scores)[k - m];
      }
    }
  }

  /** The flattened data and labels line up: besides FlatLabelled, row i's
      scores sit, in order and labelled with row i, right after the data of
      rows 0 .. i-1. */
  lemma {:induction false} FlatAligned(labels: seq<string>, ls: map<string, seq<string>>, scores: map<string, real>)
    requires forall l :: l in labels ==> l in ls
    ensures var data, names := FlatData(labels, ls, scores), FlatLabels(labels, ls, scores);
      |data| == |names| &&
      forall k :: 0 <= k < |data| ==> names[k] in labels && data[k] in ScoresOf(ls[names[k]], scores)
    ensures forall i :: 0 <= i < |labels| ==> RowPlaced(labels, ls, scores, i)
  {
    FlatLabelled(labels, ls, scores);
    forall i | 0 <= i < |labels| {
      FlatRowPlaced(labels, ls, scores, i);
    }
  }

  /** The data and labels of the first k rows begin the data and labels of all rows. */
  lemma {:induction false} FlatPrefix(labels: seq<string>, ls: map<string, seq<string>>, scores: map<string, real>, k: nat)
    requires forall l :: l in labels ==> l in ls
    requires k <= |labels|
    ensures var p, q := FlatData(labels[..k], ls, scores), FlatLabels(labels[..k], ls, scores);
      |p| <= |FlatData(labels, ls, scores)| && FlatData(labels, ls, scores)[..|p|] == p &&
      |q| <= |FlatLabels(labels, ls, scores)| && FlatLabels(labels, ls, scores)[..|q|] == q
  {
    if k == |labels| {
      assert labels[..k] == labels;
    } else {
      var n := |labels| - 1;
      FlatPrefix(labels[..n], ls, scores, k);
      assert labels[..n][..k] == labels[..k];
    }
  }

  lemma {:induction false} FlatSameLength(labels: seq<string>, ls: map<string, seq<string>>, scores: map<string, real>)
    requires forall l :: l in labels ==> l in ls
    ensures |FlatData(labels, ls, scores)| == |FlatLabels(labels, ls, scores)|
  {
    if |labels| > 0 {
      FlatSameLength(labels[..|labels| - 1], ls, scores);
    }
  }

  /** Row i's scores, labelled with row i, sit right after the data of rows 0 .. i-1. */
  ghost predicate RowPlaced(labels: seq<string>, ls: map<string, seq<string>>, scores: map<string, real>, i: nat)
    requires forall l :: l in labels ==> l in ls
    requires i < |labels|
  {
    var data, names := FlatData(labels, ls, scores), FlatLabels(labels, ls, scores);
    var off, sc := |FlatData(labels[..i], ls, scores)|, ScoresOf(ls[labels[i]], scores);
    off + |sc| <= |data| && off + |sc| <= |names| &&
    data[off..off + |sc|] == sc && forall k :: off <= k < off + |sc| ==> names[k] == labels[i]
  }

  lemma FlatRowPlaced(labels: seq<string>, ls: map<string, seq<string>>, scores: map<string, real>, i: nat)
    requires forall l :: l in labels ==> l in ls
    requires i < |labels|
    ensures RowPlaced(labels, ls, scores, i)
  {
    FlatRowData(labels, ls, scores, i);
    FlatRowNames(labels, ls, scores, i);
  }

  /** Row i's scores follow the data of rows 0 .. i-1. */
  lemma FlatRowData(labels: seq<string>, ls: map<string, seq<string>>, scores: map<string, real>, i: nat)
    requires forall l :: l in labels ==> l in ls
    requires i < |labels|
    ensures var data, off, sc := FlatData(labels, ls, scores), |FlatData(labels[..i], ls, scores)|, ScoresOf(ls[labels[i]], scores);
      off + |sc| <= |data| && data[off..off + |sc|] == sc
  {
    FlatSnoc(labels, ls, scores, i);
    FlatPrefix(labels, ls, scores, i + 1);
    SliceAfterPrefix(FlatData(labels, ls, scores), FlatData(labels[..i], ls, scores), ScoresOf(ls[labels[i]], scores));
  }

  /** The labels at row i's positions all name row i. */
  lemma FlatRowNames(labels: seq<string>, ls: map<string, seq<string>>, scores: map<string, real>, i: nat)
    requires forall l :: l in labels ==> l in ls
    requires i < |labels|
    ensures var names, off, sc := FlatLabels(labels, ls, scores), |FlatData(labels[..i], ls, scores)|, ScoresOf(ls[labels[i]], scores);
      off + |sc| <= |names| && forall k :: off <= k < off + |sc| ==> names[k] == labels[i]
  {
    FlatSnocLabels(labels, ls, scores, i);
    FlatPrefix(labels, ls, scores, i + 1);
    FlatSameLength(labels[..i], ls, scores);
    PrefixAgrees(FlatLabels(labels, ls, scores), FlatLabels(labels[..i + 1], ls, scores));
  }

  /** The data of the first i + 1 rows is that of the first i rows followed by row i's scores. */
  lemma FlatSnoc(labels: seq<string>, ls: map<string, seq<string>>, scores: map<string, real>, i: nat)
    requires forall l :: l in labels ==> l in ls
    requires i < |labels|
    ensures var sc := ScoresOf(ls[labels[i]], scores);
      FlatData(labels[..i + 1], ls, scores) == FlatData(labels[..i], ls, scores) + sc
  {
    var pre := labels[..i + 1];
    assert pre[..i] == labels[..i] && pre[i] == labels[i];
  }

  /** The labels of the first i + 1 rows are those of the first i rows followed by row i's name, once per score. */
  lemma FlatSnocLabels(labels: seq<string>, ls: map<string, seq<string>>, scores: map<string, real>, i: nat)
    requires forall l :: l in labels ==> l in ls
    requires i < |labels|
    ensures var n, q, q' := |ScoresOf(ls[labels[i]], scores)|, FlatLabels(labels[..i], ls, scores), FlatLabels(labels[..i + 1], ls, scores);
      |q'| == |q| + n && forall k :: |q| <= k < |q| + n ==> q'[k] == labels[i]
  {
    var pre := labels[..i + 1];
    assert pre[..i] == labels[..i] && pre[i] == labels[i];
  }

  lemma SliceAfterPrefix<T>(s: seq<T>, p: seq<T>, t: seq<T>)
    requires |p + t| <= |s| && s[..|p + t|] == p + t
    ensures |p| + |t| <= |s| && s[|p|..|p| + |t|] == t
  {
    assert s[|p|..|p| + |t|] == (p + t)[|p|..];
  }

  lemma PrefixAgrees<T>(s: seq<T>, p: seq<T>)
    requires |p| <= |s| && s[..|p|] == p
    ensures forall k :: 0 <= k < |p| ==> s[k] == p[k]
  {
    forall k | 0 <= k < |p|
      ensures s[k] == p[k]
    {
      assert s[k] == s[..|p|][k];
    }
  }

  /** On a dataset's rows, the data is every row's values in row order. */
  lemma {:induction false} FlatOfRows(rows: seq<Row>, ls: map<string, seq<string>>, scores: map<string, real>)
    requires forall i :: 0 <= i < |rows| ==> rows[i].name in ls && rows[i].values == ScoresOf(ls[rows[i].name], scores)
    ensures FlatData(RowLabels(rows), ls, scores) == RowValues(rows)
  {
    if |rows| > 0 {
      var n := |rows| - 1;
      FlatOfRows(rows[..n], ls, scores);
      assert RowLabels(rows)[..n] == RowLabels(rows[..n]);
    }
  }

  function RowValues(rows: seq<Row>): seq<real>
  {
    if |rows| == 0 then [] else RowValues(rows[..|rows| - 1]) + rows[|rows| - 1].values
  }

  /** `kwt`: the rank-sum p value, NaN when the test throws. */
  method Kwt(rows: seq<Row>, ls: map<string, seq<string>>, scores: map<string, real>,
             rankSum: (seq<real>, seq<string>) -> Option<JDouble>) returns (p: JDouble)
    requires forall i :: 0 <= i < |rows| ==> rows[i].name in ls
    ensures var labels := RowLabels(rows);
      var r := rankSum(FlatData(labels, ls, scores), FlatLabels(labels, ls, scores));
      p == if r.Some? then r.value else NaN
  {
    ghost var labels := RowLabels(rows);
    var dataList: seq<real> := [];
    var labelList: seq<string> := [];
    var i := 0;
    while i < |rows|
      invariant 0 <= i <= |rows|
      invariant dataList == FlatData(labels[..i], ls, scores) && labelList == FlatLabels(labels[..i], ls, scores)
    {
      var name := rows[i].name;
      var list := Gather(ls[name], scores);
      assert labels[..i + 1][..i] == labels[..i];
      dataList := dataList + list;
      labelList := labelList + seq(|list|, _ => name);
      i := i + 1;
    }
    assert labels[..i] == labels;
    var r := rankSum(dataList, labelList);
    p := if r.Some? then r.value else NaN;
  }

  // ---------------------------------------------------------------------
  // Pairwise tests
  // ---------------------------------------------------------------------

  /** The scores of every sample, None where one has none (unboxing null). */
  function AllScores(samples: seq<string>, scores: map<string, real>): (r: Option<seq<real>>)
    ensures r.Some? <==> forall s :: s in samples ==> s in scores
  {
    if |samples| == 0 then Some([])
    else
      var s := samples[|samples| - 1];
      match AllScores(samples[..|samples| - 1], scores)
      case None => None
      case Some(vs) => if s in scores then Some(vs + [scores[s]]) else None
  }

  /** When every sample has a score, they are the scores the box shows. */
  lemma {:induction false} AllScoresAreBox(samples: seq<string>, scores: map<string, real>)
    requires AllScores(samples, scores).Some?
    ensures AllScores(samples, scores).value == ScoresOf(samples, scores)
  {
    if |samples| > 0 {
      AllScoresAreBox(samples[..|samples| - 1], scores);
    }
  }

  method ReadAll(samples: seq<string>, scores: map<string, real>) returns (r: Option<seq<real>>)
    ensures r == AllScores(samples, scores)
  {
    var data: seq<real> := [];
    var k := 0;
    while k < |samples|
      invariant 0 <= k <= |samples| && AllScores(samples[..k], scores) == Some(data)
    {
      assert samples[..k + 1][..k] == samples[..k];
      if samples[k] !in scores {
        assert AllScores(samples[..k + 1], scores).None?;
        MissingScore(samples, scores, k + 1);
        return None;
      }
      data := data + [scores[samples[k]]];
      k := k + 1;
    }
    assert samples[..k] == samples;
    return Some(data);
  }

  lemma {:induction false} MissingScore(samples: seq<string>, scores: map<string, real>, k: nat)
    requires k <= |samples| && AllScores(samples[..k], scores).None?
    ensures AllScores(samples, scores).None?
  {
    var s :| s in samples[..k] && s !in scores;
    assert s in samples;
  }

  /** The result of `medDiff(l1, l2)`: the median difference and p value of the
      two labels' scores, None where it throws (a label without a list, a
      sample without a score, or the test itself). */
  function MedDiffOf(ls: map<string, seq<string>>, scores: map<string, real>, l1: string, l2: string,
                     mw: (seq<real>, seq<real>) -> Option<(JDouble, JDouble)>): Option<(JDouble, JDouble)>
  {
    if l1 !in ls then None
    else
      match AllScores(ls[l1], scores)
      case None => None
      case Some(data1) =>
        if l2 !in ls then None
        else
          match AllScores(ls[l2], scores)
          case None => None
          case Some(data2) => mw(data1, data2)
  }

  method MedDiff(ls: map<string, seq<string>>, scores: map<string, real>, l1: string, l2: string,
                 mw: (seq<real>, seq<real>) -> Option<(JDouble, JDouble)>) returns (r: Option<(JDouble, JDouble)>)
    ensures r == MedDiffOf(ls, scores, l1, l2, mw)
  {
    if l1 !in ls {
      return None;
    }
    var data1 := ReadAll(ls[l1], scores);
    if data1.None? {
      return None;
    }
    if l2 !in ls {
      return None;
    }
    var data2 := ReadAll(ls[l2], scores);
    if data2.None? {
      return None;
    }
    return mw(data1.value, data2.value);
  }

  /** The statistics map: the overall p value, then the two comparisons, all
      four set to NaN when either comparison fails. */
  function StatsMap(kwp: JDouble, t1: Option<(JDouble, JDouble)>, t2: Option<(JDouble, JDouble)>): map<string, JDouble>
  {
    if t1.Some? && t2.Some? then map[KWP := kwp, MD1 := t1.value.0, P1 := t1.value.1, MD2 := t2.value.0, P2 := t2.value.1]
    else map[KWP := kwp, MD1 := NaN, P1 := NaN, MD2 := NaN, P2 := NaN]
  }

  /** The map always has the five keys; a failed comparison makes all four
      comparison entries NaN, and a successful pair gives each test's numbers. */
  lemma StatsMapSpec(kwp: JDouble, t1: Option<(JDouble, JDouble)>, t2: Option<(JDouble, JDouble)>)
    ensures var m := StatsMap(kwp, t1, t2);
      m.Keys == {KWP, MD1, P1, MD2, P2} && m[KWP] == kwp &&
      (t1.None? || t2.None? ==> m[MD1].NaN? && m[P1].NaN? && m[MD2].NaN? && m[P2].NaN?) &&
      (t1.Some? && t2.Some? ==> (m[MD1], m[P1]) == t1.value && (m[MD2], m[P2]) == t2.value)
  {
  }

  /** The statistics of a plot with two or more boxes. */
  function BoxplotStats(rows: seq<Row>, ls: map<string, seq<string>>, scores: map<string, real>,
                        rankSum: (seq<real>, seq<string>) -> Option<JDouble>,
                        mw: (seq<real>, seq<real>) -> Option<(JDouble, JDouble)>, round3: JDouble -> JDouble): map<string, JDouble>
    requires forall i :: 0 <= i < |rows| ==> rows[i].name in ls
  {
    var labels := RowLabels(rows);
    var r := rankSum(FlatData(labels, ls, scores), FlatLabels(labels, ls, scores));
    StatsMap(round3(if r.Some? then r.value else NaN), MedDiffOf(ls, scores, A, N, mw), MedDiffOf(ls, scores, A, T, mw))
  }

  /** Whichever axis is plotted, the two comparisons are ALT against Normal
      and ALT against Telomerase; the overall p value is the rounded rank test
      on the flattened rows, NaN where the test fails. */
  lemma BoxplotStatsPairs(rows: seq<Row>, ls: map<string, seq<string>>, scores: map<string, real>,
                          rankSum: (seq<real>, seq<string>) -> Option<JDouble>,
                          mw: (seq<real>, seq<real>) -> Option<(JDouble, JDouble)>, round3: JDouble -> JDouble)
    requires forall i :: 0 <= i < |rows| ==> rows[i].name in ls
    ensures var m := BoxplotStats(rows, ls, scores, rankSum, mw, round3);
      var labels := RowLabels(rows);
      var r := rankSum(FlatData(labels, ls, scores), FlatLabels(labels, ls, scores));
      var t1, t2 := MedDiffOf(ls, scores, A, N, mw), MedDiffOf(ls, scores, A, T, mw);
      m.Keys == {KWP, MD1, P1, MD2, P2} &&
      m[KWP] == round3(if r.Some? then r.value else NaN) &&
      (t1.Some? && t2.Some? ==> (m[MD1], m[P1]) == t1.value && (m[MD2], m[P2]) == t2.value) &&
      (t1.None? || t2.None? ==> m[MD1].NaN? && m[P1].NaN? && m[MD2].NaN? && m[P2].NaN?)
  {
    var labels := RowLabels(rows);
    var r := rankSum(FlatData(labels, ls, scores), FlatLabels(labels, ls, scores));
    StatsMapSpec(round3(if r.Some? then r.value else NaN), MedDiffOf(ls, scores, A, N, mw), MedDiffOf(ls, scores, A, T, mw));
  }

  // ---------------------------------------------------------------------
  // The factory
  // ---------------------------------------------------------------------

  /** `spaces(n)`: n spaces, none for n <= 0. */
  method Spaces(num: int) returns (s: string)
    ensures |s| == (if num > 0 then num else 0) && forall k :: 0 <= k < |s| ==> s[k] == ' '
  {
    s := "";
    var i := 0;
    while i < num
      invariant (num > 0 ==> 0 <= i <= num) && (num <= 0 ==> i == 0)
      invariant |s| == i && forall k :: 0 <= k < |s| ==> s[k] == ' '
    {
      s := s + " ";
      i := i + 1;
    }
  }

  class BoxPlotFactory {
    /** `tmmLabels.getLabelSamplesMap()`. */
    const labelSamples: map<string, seq<string>>
    /** The ALT and Telomerase scores of the summary map. */
    const altScores: map<string, real>
    const telScores: map<string, real>
    /** null until a plot has two or more boxes. */
    var boxplotStats: Option<map<string, JDouble>>

    constructor (labelSamples: map<string, seq<string>>, altScores: map<string, real>, telScores: map<string, real>)
      ensures this.labelSamples == labelSamples && this.altScores == altScores && this.telScores == telScores
      ensures boxplotStats.None?
    {
      this.labelSamples := labelSamples;
      this.altScores := altScores;
      this.telScores := telScores;
      boxplotStats := None;
    }

    /** `createSampleDataset`: one box per label with at least one scored
        sample, visited in the key-set order of the label map. */
    method CreateSampleDataset(scores: map<string, real>) returns (rows: seq<Row>)
      ensures Dataset(rows, labelSamples, scores)
    {
      var order := Enumerate(labelSamples.Keys);
      rows := [];
      var i := 0;
      while i < |order|
        invariant 0 <= i <= |order| && rows == DatasetOf(order[..i], labelSamples, scores)
      {
        var name := order[i];
        assert order[..i + 1][..i] == order[..i];
        if |labelSamples[name]| > 0 {
          var list := Gather(labelSamples[name], scores);
          if |list| > 0 {
            rows := rows + [Row(name, list)];
          }
        }
        i := i + 1;
      }
      assert order[..i] == order;
      DatasetOfSpec(order, labelSamples, scores);
    }

    /** The statistics part of `createBoxplot`: nothing with fewer than two
        boxes; otherwise the rounded rank-sum p value and the comparisons of
        ALT with Normal and of ALT with Telomerase, whichever axis is plotted. */
    method CreateBoxplot(alt: bool, rankSum: (seq<real>, seq<string>) -> Option<JDouble>,
                         mw: (seq<real>, seq<real>) -> Option<(JDouble, JDouble)>, round3: JDouble -> JDouble)
      returns (rows: seq<Row>)
      modifies this
      ensures var scores := if alt then altScores else telScores;
        Dataset(rows, labelSamples, scores) &&
        (|rows| < 2 ==> boxplotStats == old(boxplotStats)) &&
        (|rows| >= 2 ==> boxplotStats == Some(BoxplotStats(rows, labelSamples, scores, rankSum, mw, round3)))
    {
      var scores := if alt then altScores else telScores;
      rows := CreateSampleDataset(scores);
      if |rows| < 2 {
        return;
      }
      var p := Kwt(rows, labelSamples, scores, rankSum);
      p := round3(p);
      var stats := map[KWP := p];
      var test1 := MedDiff(labelSamples, scores, A, N, mw);
      var test2 := MedDiff(labelSamples, scores, A, T, mw);
      if test1.Some? && test2.Some? {
        stats := stats[MD1 := test1.value.0][P1 := test1.value.1][MD2 := test2.value.0][P2 := test2.value.1];
      } else {
        stats := stats[MD1 := NaN][P1 := NaN][MD2 := NaN][P2 := NaN];
      }
      boxplotStats := Some(stats);
    }

    /** `createBoxplots`: the ALT plot, then the Telomerase plot; the
        statistics left behind are those of the last plot with two boxes. */
    method CreateBoxplots(rankSum: (seq<real>, seq<string>) -> Option<JDouble>,
                          mw: (seq<real>, seq<real>) -> Option<(JDouble, JDouble)>, round3: JDouble -> JDouble)
      returns (altRows: seq<Row>, telRows: seq<Row>)
      modifies this
      ensures Dataset(altRows, labelSamples, altScores) && Dataset(telRows, labelSamples, telScores)
      ensures boxplotStats ==
        if |telRows| >= 2 then Some(BoxplotStats(telRows, labelSamples, telScores, rankSum, mw, round3))
        else if |altRows| >= 2 then Some(BoxplotStats(altRows, labelSamples, altScores, rankSum, mw, round3))
        else old(boxplotStats)
    {
      altRows := CreateBoxplot(true, rankSum, mw, round3);
      telRows := CreateBoxplot(false, rankSum, mw, round3);
    }
  }
}
