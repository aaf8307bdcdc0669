/** The fold-change normaliser: reads a tab-separated expression matrix and a
    comma-separated node table (node, gene id, network), builds a nodes x samples
    matrix of ones, overwrites the rows of every matched gene with value / mean,
    and writes the matrix out as text. */
module ExpMat {
  import opened Common

  /** Every way `processExpMat` can end in an exception, with what its message shows. */
  datatype ExpMatError =
    | MissingExpHeader                         // the expression file has no first line
    | HeaderTooShort(first: Option<string>)    // None: the header has no token at all
    | MissingNodeTableHeader                   // the node table has no first line
    | BadNodeTableHeader
    | BadNodeTableLine(line: nat)
    | WrongElementCount(line: nat, expected: nat)
    | NotADouble(token: string, line: nat, element: int)
    | NegativeValue(value: real, line: nat, position: string)

  type Matrix = seq<seq<JDouble>>

  predicate IsShape(m: Matrix, rows: nat, cols: nat)
  {
    |m| == rows && forall i :: 0 <= i < rows ==> |m[i]| == cols
  }

  /** The matrix `initFCMatFile` starts from: every cell is 1. */
  function Ones(rows: nat, cols: nat): Matrix
  {
    seq(rows, _ => seq(cols, _ => Finite(1.0)))
  }

  function Sum(vs: seq<real>): real
  {
    if |vs| == 0 then 0.0 else Sum(vs[..|vs| - 1]) + vs[|vs| - 1]
  }

  // ---------------------------------------------------------------------
  // The node table
  // ---------------------------------------------------------------------

  /** The header `CyManager` exports: three comma tokens, "name" first, "network" last. */
  predicate NodeHeaderOk(line: string)
  {
    var t := Split(line, ',');
    |t| == 3 && t[0] == "name" && t[2] == "network"
  }

  /** The rows from index k on, appended to the node and gene lists read so far;
      the row at index k is line k + 1 of the file. */
  function NodeRowsFrom(lines: seq<string>, k: nat, nodes: seq<string>, genes: seq<string>)
    : (r: Result<(seq<string>, seq<string>), ExpMatError>)
    requires k <= |lines|
    ensures r.Ok? ==> |r.value.0| - |nodes| == |r.value.1| - |genes| == |lines| - k
    decreases |lines| - k
  {
    if k == |lines| then Ok((nodes, genes))
    else
      var t := Split(lines[k], ',');
      if |t| != 3 then Err(BadNodeTableLine(k + 1))
      else NodeRowsFrom(lines, k + 1, nodes + [t[0]], genes + [t[1]])
  }

  /** The node and gene columns of the node table, or the first problem found. */
  function ReadNodeTable(lines: seq<string>): Result<(seq<string>, seq<string>), ExpMatError>
  {
    if |lines| == 0 then Err(MissingNodeTableHeader)
    else if !NodeHeaderOk(lines[0]) then Err(BadNodeTableHeader)
    else NodeRowsFrom(lines, 1, [], [])
  }

  predicate NodeRowOk(line: string)
  {
    |Split(line, ',')| == 3
  }

  predicate NodeRowsOk(lines: seq<string>, lo: nat, hi: nat)
    requires lo <= hi <= |lines|
  {
    forall q :: lo <= q < hi ==> NodeRowOk(lines[q])
  }

  /** One row of the node table read: the step `NodeRowsFrom` takes at index k. */
  lemma NodeRowsFromStep(lines: seq<string>, k: nat, nodes: seq<string>, genes: seq<string>)
    requires k < |lines| && NodeRowOk(lines[k])
    ensures var t := Split(lines[k], ',');
      NodeRowsFrom(lines, k, nodes, genes) == NodeRowsFrom(lines, k + 1, nodes + [t[0]], genes + [t[1]])
  {
  }

  lemma {:induction false} NodeRowsFromOk(lines: seq<string>, k: nat, nodes: seq<string>, genes: seq<string>)
    requires k <= |lines|
    ensures NodeRowsFrom(lines, k, nodes, genes).Ok? <==> NodeRowsOk(lines, k, |lines|)
    decreases |lines| - k
  {
    if k < |lines| {
      if NodeRowOk(lines[k]) {
        var t := Split(lines[k], ',');
        NodeRowsFromStep(lines, k, nodes, genes);
        NodeRowsFromOk(lines, k + 1, nodes + [t[0]], genes + [t[1]]);
        assert NodeRowsOk(lines, k, |lines|) == NodeRowsOk(lines, k + 1, |lines|);
      } else {
        assert !NodeRowsOk(lines, k, |lines|);
      }
    }
  }

  /** Column i of comma-separated lines. */
  function Column(ls: seq<string>, i: nat): seq<string>
  {
    seq(|ls|, q requires 0 <= q < |ls| => Field(ls[q], ',', i))
  }

  lemma ColumnStep(ls: seq<string>, i: nat)
    requires |ls| > 0
    ensures Column(ls, i) == [Field(ls[0], ',', i)] + Column(ls[1..], i)
  {
    assert Column(ls, i)[1..] == Column(ls[1..], i);
  }

  lemma {:induction false} NodeRowsFromValues(lines: seq<string>, k: nat, nodes: seq<string>, genes: seq<string>)
    requires k <= |lines|
    ensures var r := NodeRowsFrom(lines, k, nodes, genes);
      r.Ok? ==> r.value.0 == nodes + Column(lines[k..], 0) && r.value.1 == genes + Column(lines[k..], 1)
    decreases |lines| - k
  {
    if k < |lines| && NodeRowOk(lines[k]) {
      var t := Split(lines[k], ',');
      NodeRowsFromStep(lines, k, nodes, genes);
      NodeRowsFromValues(lines, k + 1, nodes + [t[0]], genes + [t[1]]);
      assert lines[k..][1..] == lines[k + 1..];
      ColumnStep(lines[k..], 0);
      ColumnStep(lines[k..], 1);
    }
  }

  /** The index of the first node-table row from k on without three tokens, |lines| when there is none. */
  function FirstBadNodeRow(lines: seq<string>, k: nat): (j: nat)
    requires k <= |lines|
    ensures k <= j <= |lines| && NodeRowsOk(lines, k, j) && (j < |lines| ==> !NodeRowOk(lines[j]))
    decreases |lines| - k
  {
    if k == |lines| || !NodeRowOk(lines[k]) then k else FirstBadNodeRow(lines, k + 1)
  }

  /** A failed read reports the first row without three tokens, by its line number. */
  lemma {:induction false} NodeRowsFromError(lines: seq<string>, k: nat, nodes: seq<string>, genes: seq<string>)
    requires k <= |lines| && NodeRowsFrom(lines, k, nodes, genes).Err?
    ensures var j := FirstBadNodeRow(lines, k);
      j < |lines| && NodeRowsFrom(lines, k, nodes, genes).error == BadNodeTableLine(j + 1)
    decreases |lines| - k
  {
    if NodeRowOk(lines[k]) {
      var t := Split(lines[k], ',');
      NodeRowsFromStep(lines, k, nodes, genes);
      NodeRowsFromError(lines, k + 1, nodes + [t[0]], genes + [t[1]]);
    }
  }

  /** The node table loads exactly when its header is right and every data row
      has three tokens; nodes and genes are its first two columns, in file order,
      and otherwise the first offending line is reported. */
  lemma ReadNodeTableSpec(lines: seq<string>)
    ensures var r := ReadNodeTable(lines);
      (r.Ok? <==> |lines| > 0 && NodeHeaderOk(lines[0]) && NodeRowsOk(lines, 1, |lines|)) &&
      (r.Ok? ==> r.value.0 == Column(lines[1..], 0) && r.value.1 == Column(lines[1..], 1)) &&
      (r.Err? && |lines| > 0 && NodeHeaderOk(lines[0]) ==>
         var j := FirstBadNodeRow(lines, 1); j < |lines| && r.error == BadNodeTableLine(j + 1))
  {
    if |lines| > 0 && NodeHeaderOk(lines[0]) {
      NodeRowsFromOk(lines, 1, [], []);
      NodeRowsFromValues(lines, 1, [], []);
      if ReadNodeTable(lines).Err? {
        NodeRowsFromError(lines, 1, [], []);
      }
    }
  }

  // ---------------------------------------------------------------------
  // The expression rows
  // ---------------------------------------------------------------------

  /** An expression row is used only for a gene of the node table other than "0", "NA" and "". */
  predicate Eligible(id: string, genes: seq<string>)
  {
    id in genes && id != "0" && id != "NA" && id != ""
  }

  /** "NA" stands for 1; anything else goes through `Double.parseDouble`. */
  function ParseCell(t: string, parse: string -> Option<real>): Option<real>
  {
    if t == "NA" then Some(1.0) else parse(t)
  }

  /** The sample values of a row (the tokens after the gene id), read from
      index j on and appended to `acc`; the first unreadable or negative value
      is the error, quoting what the source's message quotes. */
  function RowValuesFrom(ts: seq<string>, j: nat, n: nat, acc: seq<real>, parse: string -> Option<real>)
    : (r: Result<seq<real>, ExpMatError>)
    requires j <= |ts|
    ensures r.Ok? ==> |r.value| == |acc| + |ts| - j
    decreases |ts| - j
  {
    if j == |ts| then Ok(acc)
    else
      match ParseCell(ts[j], parse)
      case None => Err(NotADouble(ts[j], n, j - 1))
      case Some(v) =>
        if v < 0.0 then Err(NegativeValue(v, n, IntToString(j) + "1"))
        else RowValuesFrom(ts, j + 1, n, acc + [v], parse)
  }

  lemma {:induction false} RowValuesFromSpec(ts: seq<string>, j: nat, n: nat, acc: seq<real>, parse: string -> Option<real>)
    requires j <= |ts|
    ensures var r := RowValuesFrom(ts, j, n, acc, parse);
      (r.Ok? <==> forall q :: j <= q < |ts| ==> ParseCell(ts[q], parse).Some? && ParseCell(ts[q], parse).value >= 0.0) &&
      (r.Ok? ==>
         r.value[..|acc|] == acc &&
         forall q :: j <= q < |ts| ==> r.value[|acc| + q - j] == ParseCell(ts[q], parse).value)
    decreases |ts| - j
  {
    if j < |ts| {
      var c := ParseCell(ts[j], parse);
      if c.Some? && c.value >= 0.0 {
        RowValuesFromSpec(ts, j + 1, n, acc + [c.value], parse);
        var r := RowValuesFrom(ts, j + 1, n, acc + [c.value], parse);
        if r.Ok? {
          assert r.value[..|acc| + 1][..|acc|] == r.value[..|acc|];
        }
      }
    }
  }

  /** A row is accepted exactly when every cell is "NA" or a non-negative number,
      and then it holds those numbers, "NA" read as 1. */
  lemma RowValuesSpec(ts: seq<string>, n: nat, parse: string -> Option<real>)
    ensures var r := RowValuesFrom(ts, 0, n, [], parse);
      (r.Ok? <==> forall q :: 0 <= q < |ts| ==> ParseCell(ts[q], parse).Some? && ParseCell(ts[q], parse).value >= 0.0) &&
      (r.Ok? ==> |r.value| == |ts| && forall q :: 0 <= q < |ts| ==>
                   r.value[q] == (if ts[q] == "NA" then 1.0 else parse(ts[q]).value) && r.value[q] >= 0.0)
  {
    RowValuesFromSpec(ts, 0, n, [], parse);
  }

  /** The row written for one gene: each value divided by the mean, where a zero
      mean first resets the row to ones and then divides them by zero. */
  function NormalisedRow(vs: seq<real>): seq<JDouble>
    requires |vs| > 0
  {
    var mean := Sum(vs) / |vs| as real;
    seq(|vs|, j requires 0 <= j < |vs| => Divide(if mean == 0.0 then Finite(1.0) else Finite(vs[j]), mean))
  }

  /** The first tab token of a line, "" when it has none. */
  function Id(line: string): string
  {
    Field(line, '\t', 0)
  }

  /** The effect of one expression line (line n of the file) on the matrix. */
  function ApplyLine(line: string, n: nat, genes: seq<string>, numSamples: nat, m: Matrix,
                     parse: string -> Option<real>): (r: Result<Matrix, ExpMatError>)
    requires numSamples >= 1 && IsShape(m, |genes|, numSamples)
    ensures r.Ok? ==> IsShape(r.value, |genes|, numSamples)
    ensures r.Ok? ==> forall i :: 0 <= i < |m| && genes[i] != Id(line) ==> r.value[i] == m[i]
    ensures !Eligible(Id(line), genes) ==> r == Ok(m)
  {
    var t := Split(line, '\t');
    if |t| == 0 || !Eligible(t[0], genes) then Ok(m)
    else if |t| != numSamples + 1 then Err(WrongElementCount(n, numSamples + 1))
    else
      match RowValuesFrom(t[1..], 0, n, [], parse)
      case Err(e) => Err(e)
      case Ok(vs) =>
        Ok(seq(|m|, i requires 0 <= i < |m| => if genes[i] == t[0] then NormalisedRow(vs) else m[i]))
  }

  /** The lines from index k on, applied in file order; the first error stops the run. */
  function ApplyLinesFrom(lines: seq<string>, k: nat, genes: seq<string>, numSamples: nat, m: Matrix,
                          parse: string -> Option<real>): (r: Result<Matrix, ExpMatError>)
    requires k <= |lines| && numSamples >= 1 && IsShape(m, |genes|, numSamples)
    ensures r.Ok? ==> IsShape(r.value, |genes|, numSamples)
    decreases |lines| - k
  {
    if k == |lines| then Ok(m)
    else
      match ApplyLine(lines[k], k + 1, genes, numSamples, m, parse)
      case Err(e) => Err(e)
      case Ok(m') => ApplyLinesFrom(lines, k + 1, genes, numSamples, m', parse)
  }

  /** What a successful run leaves in the handler. */
  datatype FoldChanges = FoldChanges(header: string, samples: seq<string>, nodes: seq<string>,
                                     genes: seq<string>, matrix: Matrix)

  /** The whole of `processExpMat` up to the writing of the file. */
  function ExpMatSpec(expLines: seq<string>, nodeLines: seq<string>, parse: string -> Option<real>)
    : Result<FoldChanges, ExpMatError>
  {
    if |expLines| == 0 then Err(MissingExpHeader)
    else
      var ht := Split(expLines[0], '\t');
      if |ht| < 2 then Err(HeaderTooShort(if |ht| == 1 then Some(ht[0]) else None))
      else
        match ReadNodeTable(nodeLines)
        case Err(e) => Err(e)
        case Ok(table) =>
          var genes := table.1;
          var numSamples := |ht| - 1;
          match ApplyLinesFrom(expLines, 1, genes, numSamples, Ones(|genes|, numSamples), parse)
          case Err(e) => Err(e)
          case Ok(m) => Ok(FoldChanges(expLines[0], ht[1..], table.0, genes, m))
  }

  /** With both headers accepted, the run is the reader loop over the expression
      lines, starting from the matrix of ones. */
  lemma ExpMatSpecRows(expLines: seq<string>, nodeLines: seq<string>, parse: string -> Option<real>)
    requires |expLines| > 0 && |Split(expLines[0], '\t')| >= 2 && ReadNodeTable(nodeLines).Ok?
    ensures var ht := Split(expLines[0], '\t');
      var table := ReadNodeTable(nodeLines).value;
      var run := ApplyLinesFrom(expLines, 1, table.1, |ht| - 1, Ones(|table.1|, |ht| - 1), parse);
      ExpMatSpec(expLines, nodeLines, parse) ==
        (if run.Err? then Err(run.error) else Ok(FoldChanges(expLines[0], ht[1..], table.0, table.1, run.value)))
  {
  }

  /** A node whose gene no later line names keeps the row it had. */
  lemma {:induction false} UnnamedRowKept(lines: seq<string>, k: nat, genes: seq<string>, numSamples: nat,
                                          m: Matrix, parse: string -> Option<real>, i: nat)
    requires k <= |lines| && numSamples >= 1 && IsShape(m, |genes|, numSamples) && i < |genes|
    requires forall q :: k <= q < |lines| ==> Id(lines[q]) != genes[i]
    ensures var r := ApplyLinesFrom(lines, k, genes, numSamples, m, parse);
      r.Ok? ==> r.value[i] == m[i]
    decreases |lines| - k
  {
    if k < |lines| {
      var e := ApplyLine(lines[k], k + 1, genes, numSamples, m, parse);
      if e.Ok? {
        UnnamedRowKept(lines, k + 1, genes, numSamples, e.value, parse, i);
      }
    }
  }

  /** After a successful run, the rows of nodes whose gene no expression line
      names are still all ones, and the matrix has one row per node and one
      column per sample. */
  lemma UnmatchedNodesStayOne(expLines: seq<string>, nodeLines: seq<string>, parse: string -> Option<real>, i: nat)
    requires ExpMatSpec(expLines, nodeLines, parse).Ok?
    requires i < |ExpMatSpec(expLines, nodeLines, parse).value.genes|
    requires forall q :: 1 <= q < |expLines| ==> Id(expLines[q]) != ExpMatSpec(expLines, nodeLines, parse).value.genes[i]
    ensures var f := ExpMatSpec(expLines, nodeLines, parse).value;
      IsShape(f.matrix, |f.nodes|, |f.samples|) && f.matrix[i] == seq(|f.samples|, _ => Finite(1.0))
  {
    var ht := Split(expLines[0], '\t');
    var table := ReadNodeTable(nodeLines).value;
    ReadNodeTableSpec(nodeLines);
    UnnamedRowKept(expLines, 1, table.1, |ht| - 1, Ones(|table.1|, |ht| - 1), parse, i);
  }

  /** The sample cells of an expression line: its tab tokens after the gene id. */
  function Cells(line: string): seq<string>
  {
    var t := Split(line, '\t');
    if |t| == 0 then [] else t[1..]
  }

  /** A gene's row after the run is set by the last line naming it: that line
      has one cell per sample, they all read, and the row is their normalised
      values. */
  lemma {:induction false} LastNamingLineDecides(lines: seq<string>, k: nat, genes: seq<string>, numSamples: nat,
                                                 m: Matrix, parse: string -> Option<real>, i: nat, q: nat)
    requires k <= q < |lines| && numSamples >= 1 && IsShape(m, |genes|, numSamples) && i < |genes|
    requires Eligible(Id(lines[q]), genes) && Id(lines[q]) == genes[i]
    requires forall p :: q < p < |lines| ==> Id(lines[p]) != genes[i]
    ensures var r := ApplyLinesFrom(lines, k, genes, numSamples, m, parse);
      r.Ok? ==>
        var vs := RowValuesFrom(Cells(lines[q]), 0, q + 1, [], parse);
        |Cells(lines[q])| == numSamples && vs.Ok? && r.value[i] == NormalisedRow(vs.value)
    decreases q - k
  {
    var e := ApplyLine(lines[k], k + 1, genes, numSamples, m, parse);
    if e.Ok? {
      if k < q {
        LastNamingLineDecides(lines, k + 1, genes, numSamples, e.value, parse, i, q);
      } else {
        var t := Split(lines[q], '\t');
        assert t[0] == genes[i];
        UnnamedRowKept(lines, k + 1, genes, numSamples, e.value, parse, i);
      }
    }
  }

  /** After a successful run, a node whose gene some expression line names
      holds the normalised values of the last such line. */
  lemma GeneRowFromLastLine(expLines: seq<string>, nodeLines: seq<string>, parse: string -> Option<real>, i: nat, q: nat)
    requires ExpMatSpec(expLines, nodeLines, parse).Ok?
    requires 1 <= q < |expLines| && i < |ExpMatSpec(expLines, nodeLines, parse).value.genes|
    requires var genes := ExpMatSpec(expLines, nodeLines, parse).value.genes;
      Eligible(Id(expLines[q]), genes) && Id(expLines[q]) == genes[i] &&
      forall p :: q < p < |expLines| ==> Id(expLines[p]) != genes[i]
    ensures var f := ExpMatSpec(expLines, nodeLines, parse).value;
      var vs := RowValuesFrom(Cells(expLines[q]), 0, q + 1, [], parse);
      |Cells(expLines[q])| == |f.samples| && vs.Ok? && f.matrix[i] == NormalisedRow(vs.value)
  {
    var ht := Split(expLines[0], '\t');
    var table := ReadNodeTable(nodeLines).value;
    LastNamingLineDecides(expLines, 1, table.1, |ht| - 1, Ones(|table.1|, |ht| - 1), parse, i, q);
  }

  lemma {:induction false} SumScaled(vs: seq<real>, d: real)
    requires d != 0.0
    ensures Sum(seq(|vs|, j requires 0 <= j < |vs| => vs[j] / d)) == Sum(vs) / d
  {
    if |vs| > 0 {
      var w := seq(|vs|, j requires 0 <= j < |vs| => vs[j] / d);
      var v' := vs[..|vs| - 1];
      assert w[..|w| - 1] == seq(|v'|, j requires 0 <= j < |v'| => v'[j] / d);
      SumScaled(v', d);
    }
  }

  lemma {:induction false} SumNonNegative(vs: seq<real>)
    requires forall j :: 0 <= j < |vs| ==> vs[j] >= 0.0
    ensures Sum(vs) >= 0.0
    ensures Sum(vs) == 0.0 <==> forall j :: 0 <= j < |vs| ==> vs[j] == 0.0
  {
    if |vs| > 0 {
      SumNonNegative(vs[..|vs| - 1]);
      var v' := vs[..|vs| - 1];
      if Sum(vs) == 0.0 {
        forall j | 0 <= j < |vs| ensures vs[j] == 0.0 {
          if j < |vs| - 1 { assert vs[j] == v'[j]; }
        }
      }
    }
  }

  /** For non-negative values with a non-zero entry (the one at p) every cell is
      its value over the mean, the mean is positive and the row averages exactly 1. */
  lemma NormalisedRowPositive(vs: seq<real>, p: nat)
    requires p < |vs| && vs[p] > 0.0 && forall j :: 0 <= j < |vs| ==> vs[j] >= 0.0
    ensures var mean := Sum(vs) / |vs| as real;
      mean > 0.0
      && (forall j :: 0 <= j < |vs| ==> NormalisedRow(vs)[j] == Finite(vs[j] / mean))
      && Sum(seq(|vs|, j requires 0 <= j < |vs| => vs[j] / mean)) == |vs| as real
  {
    SumNonNegative(vs);
    var mean := Sum(vs) / |vs| as real;
    assert Sum(vs) > 0.0;
    SumScaled(vs, mean);
  }

  /** When every value is 0 the mean is 0 and every cell becomes +Infinity. */
  lemma NormalisedRowZero(vs: seq<real>)
    requires |vs| > 0 && forall j :: 0 <= j < |vs| ==> vs[j] == 0.0
    ensures NormalisedRow(vs) == seq(|vs|, _ => PosInfinity)
  {
    SumNonNegative(vs);
  }

  /** A gene measured at 4 and 6 gets the fold changes 0.8 and 1.2. */
  lemma NormalisedRowExample()
    ensures NormalisedRow([4.0, 6.0]) == [Finite(0.8), Finite(1.2)]
  {
    assert Sum([4.0, 6.0]) == 10.0 by {
      assert [4.0, 6.0][..1] == [4.0];
      assert [4.0][..0] == [];
    }
  }

  // ---------------------------------------------------------------------
  // The written matrix
  // ---------------------------------------------------------------------

  /** The cells of one row as `writeFCMatFile` appends them: a tab before each. */
  function RowCells(row: seq<JDouble>, show: JDouble -> string): string
  {
    if |row| == 0 then "" else RowCells(row[..|row| - 1], show) + "\t" + show(row[|row| - 1])
  }

  /** The rows of the file, each the node name, its cells and a newline. */
  function RowsText(nodes: seq<string>, m: Matrix, show: JDouble -> string): string
    requires |nodes| == |m|
  {
    if |m| == 0 then ""
    else RowsText(nodes[..|m| - 1], m[..|m| - 1], show) + nodes[|m| - 1] + RowCells(m[|m| - 1], show) + "\n"
  }

  /** The file: the header line with no newline after it, then the rows. */
  function FcMatText(header: string, nodes: seq<string>, m: Matrix, show: JDouble -> string): string
    requires |nodes| == |m|
  {
    header + RowsText(nodes, m, show)
  }

  function Shown(row: seq<JDouble>, show: JDouble -> string): seq<string>
  {
    seq(|row|, j requires 0 <= j < |row| => show(row[j]))
  }

  lemma {:induction false} PiecesOfRow(node: string, row: seq<JDouble>, show: JDouble -> string)
    requires '\t' !in node && forall x :: '\t' !in show(x)
    ensures Pieces(node + RowCells(row, show), '\t') == [node] + Shown(row, show)
  {
    if |row| == 0 {
      assert node + RowCells(row, show) == node;
      PiecesWithout(node, '\t');
    } else {
      var last := show(row[|row| - 1]);
      var prefix := node + RowCells(row[..|row| - 1], show);
      assert node + RowCells(row, show) == prefix + ['\t'] + last;
      PiecesAppend(prefix, '\t', last);
      PiecesOfRow(node, row[..|row| - 1], show);
      assert Shown(row, show) == Shown(row[..|row| - 1], show) + [last];
    }
  }

  /** A written row, without its newline, splits on tabs back into the node name
      and the text of each cell, provided neither contains a tab and a cell's
      text is never empty. */
  lemma RowSplitsBack(node: string, row: seq<JDouble>, show: JDouble -> string)
    requires '\t' !in node && forall x :: '\t' !in show(x) && show(x) != ""
    ensures Split(node + RowCells(row, show), '\t') == [node] + Shown(row, show)
  {
    PiecesOfRow(node, row, show);
    var s := node + RowCells(row, show);
    if |row| > 0 {
      assert s == node + RowCells(row[..|row| - 1], show) + "\t" + show(row[|row| - 1]);
      assert s[|s| - |show(row[|row| - 1])| - 1] == '\t';
    } else {
      assert s == node;
    }
  }

  // ---------------------------------------------------------------------
  // The handler
  // ---------------------------------------------------------------------

  /** The row loop of `initFCMatFile`: the rows after the header, read in file
      order until the first one without three tokens. */
  method ReadNodeRows(nodeLines: seq<string>) returns (r: Result<(seq<string>, seq<string>), ExpMatError>)
    requires |nodeLines| >= 1
    ensures r == NodeRowsFrom(nodeLines, 1, [], [])
  {
    var ns: seq<string> := [];
    var gs: seq<string> := [];
    var n := 1;
    while n < |nodeLines|
      invariant 1 <= n <= |nodeLines|
      invariant NodeRowsFrom(nodeLines, 1, [], []) == NodeRowsFrom(nodeLines, n, ns, gs)
    {
      var tokens := Split(nodeLines[n], ',');
      if |tokens| != 3 {
        return Err(BadNodeTableLine(n + 1));
      }
      NodeRowsFromStep(nodeLines, n, ns, gs);
      ns := ns + [tokens[0]];
      gs := gs + [tokens[1]];
      n := n + 1;
    }
    return Ok((ns, gs));
  }

  /** The sample loop of `processExpMat`: every header token after the gene-id column. */
  method SamplesOf(headerTokens: seq<string>) returns (ss: seq<string>)
    requires |headerTokens| >= 1
    ensures ss == headerTokens[1..]
  {
    ss := [];
    var s := 1;
    while s < |headerTokens|
      invariant 1 <= s <= |headerTokens|
      invariant ss == headerTokens[1..s]
    {
      ss := ss + [headerTokens[s]];
      s := s + 1;
    }
  }

  /** The cells of a two-dimensional array, row by row. */
  function Contents(a: array2<JDouble>): (m: Matrix)
    reads a
    ensures IsShape(m, a.Length0, a.Length1)
    ensures forall i, j :: 0 <= i < a.Length0 && 0 <= j < a.Length1 ==> m[i][j] == a[i, j]
  {
    seq(a.Length0, i requires 0 <= i < a.Length0 reads a =>
      seq(a.Length1, j requires 0 <= j < a.Length1 reads a => a[i, j]))
  }

  /** The fill loop of `initFCMatFile`: every cell set to 1. */
  method FillOnes(m: array2<JDouble>)
    modifies m
    ensures Contents(m) == Ones(m.Length0, m.Length1)
  {
    var i := 0;
    while i < m.Length0
      invariant 0 <= i <= m.Length0
      invariant forall a, b :: 0 <= a < m.Length0 && 0 <= b < m.Length1 ==>
                  m[a, b] == (if a < i then Finite(1.0) else old(m[a, b]))
    {
      var j := 0;
      while j < m.Length1
        invariant 0 <= j <= m.Length1
        invariant forall a, b :: 0 <= a < m.Length0 && 0 <= b < m.Length1 ==>
                    m[a, b] == (if a < i || (a == i && b < j) then Finite(1.0) else old(m[a, b]))
      {
        m[i, j] := Finite(1.0);
        j := j + 1;
      }
      i := i + 1;
    }
    forall a | 0 <= a < m.Length0
      ensures Contents(m)[a] == Ones(m.Length0, m.Length1)[a]
    {
    }
  }

  /** The inner loop of `writeFCMatFile`: row i of the matrix, a tab before each cell. */
  method WriteCells(a: array2<JDouble>, i: nat, show: JDouble -> string) returns (text: string)
    requires i < a.Length0
    ensures text == RowCells(Contents(a)[i], show)
  {
    ghost var row := Contents(a)[i];
    text := "";
    var j := 0;
    while j < a.Length1
      invariant 0 <= j <= a.Length1
      invariant text == RowCells(row[..j], show)
    {
      text := text + "\t" + show(a[i, j]);
      assert row[..j + 1][..j] == row[..j];
      j := j + 1;
    }
    assert row[..j] == row;
  }

  class ExpMatFileHandler {
    var fcMat: array2<JDouble>
    var nodes: seq<string>
    var genes: seq<string>
    var numSamples: nat
    var headerLine: string
    var samples: seq<string>

    /** One matrix row per node-table row and one column per sample. */
    predicate Valid()
      reads this
    {
      fcMat.Length0 == |nodes| == |genes| && fcMat.Length1 == numSamples == |samples|
    }

    function Matrix(): (m: Matrix)
      reads this, fcMat
      ensures IsShape(m, fcMat.Length0, fcMat.Length1)
    {
      Contents(fcMat)
    }

    constructor ()
      ensures Valid() && nodes == [] && genes == [] && samples == [] && headerLine == ""
      ensures fresh(fcMat)
    {
      fcMat := new JDouble[0, 0];
      nodes, genes, samples := [], [], [];
      numSamples, headerLine := 0, "";
    }

    /** `indicesOf`: the positions of `element` in `list`, ascending. */
    method IndicesOf(element: string, list: seq<string>) returns (indices: seq<nat>)
      ensures forall i: nat :: i in indices <==> i < |list| && list[i] == element
      ensures forall p, q :: 0 <= p < q < |indices| ==> indices[p] < indices[q]
    {
      indices := [];
      var i := 0;
      while i < |list|
        invariant 0 <= i <= |list|
        invariant forall x: nat :: x in indices <==> x < i && list[x] == element
        invariant forall p, q :: 0 <= p < q < |indices| ==> indices[p] < indices[q]
        invariant forall p :: 0 <= p < |indices| ==> indices[p] < i
      {
        if list[i] == element {
          indices := indices + [i];
        }
        i := i + 1;
      }
    }

    /** `initFCMatFile`: reads the node table and allocates the matrix of ones. */
    method InitFcMat(nodeLines: seq<string>) returns (r: Result<(), ExpMatError>)
      requires numSamples == |samples|
      modifies this
      ensures var t := ReadNodeTable(nodeLines);
        (r.Err? <==> t.Err?) && (r.Err? ==> r.error == t.error) &&
        (r.Ok? ==> nodes == t.value.0 && genes == t.value.1 && fresh(fcMat) && Valid()
                   && Matrix() == Ones(|nodes|, numSamples))
      ensures numSamples == old(numSamples) && samples == old(samples) && headerLine == old(headerLine)
    {
      if |nodeLines| == 0 {
        return Err(MissingNodeTableHeader);
      }
      var tokens := Split(nodeLines[0], ',');
      var validHeader := true;
      if |tokens| != 3 {
        validHeader := false;
      } else {
        if tokens[0] != "name" {
          validHeader := false;
        }
        if tokens[2] != "network" {
          validHeader := false;
        }
      }
      if !validHeader {
        return Err(BadNodeTableHeader);
      }
      var table := ReadNodeRows(nodeLines);
      if table.Err? {
        return Err(table.error);
      }
      nodes, genes := table.value.0, table.value.1;
      var m := new JDouble[|nodeLines| - 1, numSamples]((_, _) => Finite(0.0));
      FillOnes(m);
      fcMat := m;
      r := Ok(());
    }
  
    /** Column j of every row in `indices` receives `value`. */
    method WriteColumn(indices: seq<nat>, j: nat, value: real)
      requires j < fcMat.Length1 && forall t :: 0 <= t < |indices| ==> indices[t] < fcMat.Length0
      modifies fcMat
      ensures forall a, b :: 0 <= a < fcMat.Length0 && 0 <= b < fcMat.Length1 ==>
                fcMat[a, b] == (if a in indices && b == j then Finite(value) else old(fcMat[a, b]))
    {
      var t := 0;
      while t < |indices|
        invariant 0 <= t <= |indices|
        invariant forall a, b :: 0 <= a < fcMat.Length0 && 0 <= b < fcMat.Length1 ==>
                    fcMat[a, b] == (if a in indices[..t] && b == j then Finite(value) else old(fcMat[a, b]))
      {
        assert indices[..t + 1] == indices[..t] + [indices[t]];
        fcMat[indices[t], j] := Finite(value);
        t := t + 1;
      }
      assert indices[..t] == indices;
    }

    /** Row i divided by `mean`, after being reset to ones when the mean is 0. */
    method NormaliseRow(i: nat, mean: real)
      requires Valid() && i < fcMat.Length0
      modifies fcMat
      ensures forall a, b :: 0 <= a < fcMat.Length0 && 0 <= b < fcMat.Length1 ==>
                fcMat[a, b] == (if a == i then Divide(if mean == 0.0 then Finite(1.0) else old(fcMat[a, b]), mean)
                                else old(fcMat[a, b]))
    {
      if mean == 0.0 {
        var j := 0;
        while j < numSamples
          invariant 0 <= j <= numSamples
          invariant forall a, b :: 0 <= a < fcMat.Length0 && 0 <= b < fcMat.Length1 ==>
                      fcMat[a, b] == (if a == i && b < j then Finite(1.0) else old(fcMat[a, b]))
        {
          fcMat[i, j] := Finite(1.0);
          j := j + 1;
        }
      }
      var j := 0;
      while j < numSamples
        invariant 0 <= j <= numSamples
        invariant forall a, b :: 0 <= a < fcMat.Length0 && 0 <= b < fcMat.Length1 ==>
                    fcMat[a, b] == (if a == i then
                                      (var base := if mean == 0.0 then Finite(1.0) else old(fcMat[a, b]);
                                       if b < j then Divide(base, mean) else base)
                                    else old(fcMat[a, b]))
      {
        fcMat[i, j] := Divide(fcMat[i, j], mean);
        j := j + 1;
      }
    }

    /** The sample loop of `processExpMat` for one gene: every value is written
        to the gene's rows as it is read, and the sum is accumulated. */
    method ReadValues(tokens: seq<string>, id: string, indices: seq<nat>, n: nat, parse: string -> Option<real>)
      returns (r: Result<real, ExpMatError>, ghost values: seq<real>)
      requires Valid() && |tokens| == numSamples + 1
      requires forall i: nat :: i in indices <==> i < |genes| && genes[i] == id
      modifies fcMat
      ensures var e := RowValuesFrom(tokens[1..], 0, n, [], parse);
        (r.Err? <==> e.Err?) && (r.Err? ==> r.error == e.error) &&
        (r.Ok? ==>
           e.value == values && |values| == numSamples && r.value == Sum(values) &&
           forall a, b :: 0 <= a < fcMat.Length0 && 0 <= b < fcMat.Length1 ==>
             fcMat[a, b] == (if genes[a] == id then Finite(values[b]) else old(fcMat[a, b])))
    {
      assert forall t :: 0 <= t < |indices| ==> indices[t] < fcMat.Length0 by {
        forall t | 0 <= t < |indices| ensures indices[t] < fcMat.Length0 {
          assert indices[t] in indices;
        }
      }
      var sum := 0.0;
      values := [];
      ghost var ts := tokens[1..];
      var j := 0;
      while j < numSamples
        invariant 0 <= j <= numSamples
        invariant |values| == j && sum == Sum(values)
        invariant RowValuesFrom(ts, 0, n, [], parse) == RowValuesFrom(ts, j, n, values, parse)
        invariant forall a, b :: 0 <= a < fcMat.Length0 && 0 <= b < fcMat.Length1 ==>
                    fcMat[a, b] == (if genes[a] == id && b < j then Finite(values[b]) else old(fcMat[a, b]))
      {
        var t := tokens[j + 1];
        var value: real;
        if t == "NA" {
          value := 1.0;
        } else {
          var parsed := parse(t);
          if parsed.None? {
            return Err(NotADouble(t, n, j - 1)), values;
          }
          value := parsed.value;
        }
        if value < 0.0 {
          return Err(NegativeValue(value, n, IntToString(j) + "1")), values;
        }
        WriteColumn(indices, j, value);
        sum := sum + value;
        assert (values + [value])[..j] == values;
        values := values + [value];
        j := j + 1;
      }
      return Ok(sum), values;
    }

    /** The normalisation loop of `processExpMat` over the rows of one gene. */
    method NormaliseRows(id: string, indices: seq<nat>, mean: real, ghost values: seq<real>)
      requires Valid() && |values| == numSamples >= 1 && mean == Sum(values) / numSamples as real
      requires forall i: nat :: i in indices <==> i < |genes| && genes[i] == id
      requires forall p, q :: 0 <= p < q < |indices| ==> indices[p] < indices[q]
      requires forall a, b :: 0 <= a < fcMat.Length0 && 0 <= b < fcMat.Length1 && genes[a] == id ==>
                 fcMat[a, b] == Finite(values[b])
      modifies fcMat
      ensures forall a, b :: 0 <= a < fcMat.Length0 && 0 <= b < fcMat.Length1 ==>
                fcMat[a, b] == (if genes[a] == id then NormalisedRow(values)[b] else old(fcMat[a, b]))
    {
      var t := 0;
      while t < |indices|
        invariant 0 <= t <= |indices|
        invariant forall a, b :: 0 <= a < fcMat.Length0 && 0 <= b < fcMat.Length1 ==>
                    fcMat[a, b] == (if genes[a] == id then
                                      (if a in indices[..t] then NormalisedRow(values)[b] else Finite(values[b]))
                                    else old(fcMat[a, b]))
      {
        assert indices[t] in indices;
        assert indices[..t + 1] == indices[..t] + [indices[t]];
        assert indices[t] !in indices[..t];
        NormaliseRow(indices[t], mean);
        t := t + 1;
      }
      assert indices[..t] == indices;
    }

    /** One line of the expression file, line n, applied to the matrix in place. */
    method ProcessLine(line: string, n: nat, parse: string -> Option<real>) returns (r: Result<(), ExpMatError>)
      requires Valid() && numSamples >= 1
      modifies fcMat
      ensures var e := ApplyLine(line, n, genes, numSamples, old(Matrix()), parse);
        (r.Err? <==> e.Err?) && (r.Err? ==> r.error == e.error) && (r.Ok? ==> Matrix() == e.value)
    {
      var tokens := Split(line, '\t');
      if |tokens| >= 1 {
        var id := tokens[0];
        if id in genes && id != "0" && id != "NA" && id != "" {
          if |tokens| != numSamples + 1 {
            return Err(WrongElementCount(n, numSamples + 1));
          }
          var indices := IndicesOf(id, genes);
          var sum, values := ReadValues(tokens, id, indices, n, parse);
          if sum.Err? {
            return Err(sum.error);
          }
          var mean := sum.value / numSamples as real;
          NormaliseRows(id, indices, mean, values);
          ghost var e := ApplyLine(line, n, genes, numSamples, old(Matrix()), parse);
          ghost var rows := fcMat.Length0;
          ghost var prior := old(Matrix());
          ghost var gs := genes;
          assert e.Ok? && e.value == seq(rows, a requires 0 <= a < rows =>
                                           if gs[a] == id then NormalisedRow(values) else prior[a]);
          forall a | 0 <= a < fcMat.Length0
            ensures Matrix()[a] == e.value[a]
          {
          }
          return Ok(());
        }
      }
      return Ok(());
    }

    /** `processExpMat`: the matrix, node list and samples it leaves behind, and
        the text `writeFCMatFile` writes, given the lines of both files. */
    method ProcessExpMat(expLines: seq<string>, nodeLines: seq<string>, parse: string -> Option<real>,
                         show: JDouble -> string) returns (r: Result<string, ExpMatError>)
      modifies this
      ensures var s := ExpMatSpec(expLines, nodeLines, parse);
        (r.Err? <==> s.Err?) && (r.Err? ==> r.error == s.error) &&
        (r.Ok? ==>
           Valid() && headerLine == s.value.header && samples == s.value.samples &&
           nodes == s.value.nodes && genes == s.value.genes && Matrix() == s.value.matrix &&
           r.value == FcMatText(headerLine, nodes, Matrix(), show))
    {
      if |expLines| == 0 {
        return Err(MissingExpHeader);
      }
      headerLine := expLines[0];
      var headerTokens := Split(headerLine, '\t');
      if |headerTokens| < 2 {
        return Err(HeaderTooShort(if |headerTokens| == 1 then Some(headerTokens[0]) else None));
      }
      samples := SamplesOf(headerTokens);
      numSamples := |headerTokens| - 1;
      var init := InitFcMat(nodeLines);
      if init.Err? {
        return Err(init.error);
      }
      ExpMatSpecRows(expLines, nodeLines, parse);
      var rows := ProcessRows(expLines, parse);
      if rows.Err? {
        return Err(rows.error);
      }
      var text := WriteFcMat(show);
      return Ok(text);
    }

    /** The reader loop of `processExpMat`: every line after the header, in file order. */
    method ProcessRows(expLines: seq<string>, parse: string -> Option<real>) returns (r: Result<(), ExpMatError>)
      requires Valid() && numSamples >= 1 && |expLines| >= 1
      modifies fcMat
      ensures var whole := ApplyLinesFrom(expLines, 1, genes, numSamples, old(Matrix()), parse);
        (r.Err? <==> whole.Err?) && (r.Err? ==> r.error == whole.error) && (r.Ok? ==> Matrix() == whole.value)
    {
      ghost var whole := ApplyLinesFrom(expLines, 1, genes, numSamples, Matrix(), parse);
      var k := 1;
      while k < |expLines|
        invariant 1 <= k <= |expLines|
        invariant whole == ApplyLinesFrom(expLines, k, genes, numSamples, Matrix(), parse)
      {
        ghost var before := Matrix();
        var res := ProcessLine(expLines[k], k + 1, parse);
        ghost var step := ApplyLine(expLines[k], k + 1, genes, numSamples, before, parse);
        if res.Err? {
          assert whole == Err(step.error);
          return Err(res.error);
        }
        assert step == Ok(Matrix());
        k := k + 1;
      }
      return Ok(());
    }

    /** `writeFCMatFile`, producing the text instead of writing a file. */
    method WriteFcMat(show: JDouble -> string) returns (text: string)
      requires Valid()
      ensures text == FcMatText(headerLine, nodes, Matrix(), show)
    {
      ghost var m := Matrix();
      text := headerLine;
      var i := 0;
      while i < fcMat.Length0
        invariant 0 <= i <= fcMat.Length0
        invariant text == headerLine + RowsText(nodes[..i], m[..i], show)
      {
        var cells := WriteCells(fcMat, i, show);
        text := text + nodes[i] + cells + "\n";
        assert nodes[..i + 1][..i] == nodes[..i] && m[..i + 1][..i] == m[..i];
        i := i + 1;
      }
      assert nodes[..i] == nodes && m[..i] == m;
    }
  }
}
