/** Group labels: a `Sample\tGroupLabel` file assigning each sample a
    user-defined group, and a `GroupLabel\tColor(hex)` file giving each group
    its colour; groups without a colour file are coloured from palette set 2. */
module Groups {
  import opened Common
  import opened ColorPalette

  const LabelsHeader: string := "Sample\tGroupLabel"
  const ColorsHeader: string := "GroupLabel\tColor(hex)"
  const DefaultLabel: string := "unknown"
  const DefaultColor: string := "#7E9495"

  /** `Color.decode(DEFAULTCOLOR)`. */
  lemma DefaultColorDecodes()
    ensures Decode(DefaultColor) == Some(Color(126, 148, 149))
  {
    assert HexColor(Color(126, 148, 149)) == DefaultColor;
    DecodeHexColor(Color(126, 148, 149));
  }

  datatype GroupError =
    | MissingHeader                       // `header.equals` on a null first line
    | InvalidHeader(found: string)
    | ColumnCount(lineNum: int, columns: nat)
    | TooManyGroups(count: nat)           // `getColorPalette` returned null
    | NullPaletteColor                    // `Color.decode` of a null palette slot
    | BadPaletteColor(text: string)
    | NotAHexColor(group: string, token: string)
    | MissingGroup(group: string)

  predicate TwoColumns(line: string) { |Split(line, '\t')| == 2 }

  function RowKey(line: string): string { Field(line, '\t', 0) }

  function RowValue(line: string): string { Field(line, '\t', 1) }

  predicate RowsOk(lines: seq<string>, lo: nat, hi: nat)
    requires lo <= hi <= |lines|
  {
    forall j :: lo <= j < hi ==> TwoColumns(lines[j])
  }

  // ---------------------------------------------------------------------
  // Reading the group labels file
  // ---------------------------------------------------------------------

  /** Rows `k..` of the labels file on top of the groups, group lists and
      sample labels read so far; row k is reported as line k. */
  function LabelsFrom(lines: seq<string>, k: nat, groups: seq<string>, gsm: map<string, seq<string>>,
                      sgl: map<string, string>)
    : Result<(seq<string>, map<string, seq<string>>, map<string, string>), GroupError>
    requires 1 <= k <= |lines|
    requires forall g :: g in groups ==> g in gsm
    decreases |lines| - k
  {
    if k == |lines| then Ok((groups, gsm, sgl))
    else
      var tokens := Split(lines[k], '\t');
      if |tokens| != 2 then Err(ColumnCount(k, |tokens|))
      else
        var added := AddRow(groups, gsm, tokens[0], tokens[1]);
        LabelsFrom(lines, k + 1, added.0, added.1, sgl[tokens[0] := tokens[1]])
  }

  /** One row of the labels file: a group seen for the first time is listed
      with an empty sample list; then the sample joins its group's list. */
  function AddRow(groups: seq<string>, gsm: map<string, seq<string>>, sample: string, g: string)
    : (r: (seq<string>, map<string, seq<string>>))
    requires forall h :: h in groups ==> h in gsm
    ensures forall h :: h in r.0 ==> h in r.1
  {
    var groups' := if g in groups then groups else groups + [g];
    var gsm' := if g in groups then gsm else gsm[g := []];
    (groups', gsm'[g := gsm'[g] + [sample]])
  }

  lemma LabelsFromStep(lines: seq<string>, k: nat, groups: seq<string>, gsm: map<string, seq<string>>,
                       sgl: map<string, string>)
    requires 1 <= k < |lines| && (forall g :: g in groups ==> g in gsm) && TwoColumns(lines[k])
    ensures var added := AddRow(groups, gsm, RowKey(lines[k]), RowValue(lines[k]));
      LabelsFrom(lines, k, groups, gsm, sgl) ==
      LabelsFrom(lines, k + 1, added.0, added.1, sgl[RowKey(lines[k]) := RowValue(lines[k])])
  {
  }

  /** `readGroupLabels` on group lists `gsm` and sample labels `sgl`; the
      group list starts afresh once the header is accepted. */
  function ReadLabels(lines: seq<string>, gsm: map<string, seq<string>>, sgl: map<string, string>)
    : Result<(seq<string>, map<string, seq<string>>, map<string, string>), GroupError>
  {
    if |lines| == 0 then Err(MissingHeader)
    else if lines[0] != LabelsHeader then Err(InvalidHeader(lines[0]))
    else LabelsFrom(lines, 1, [], gsm, sgl)
  }

  /** What the row loop of `readGroupLabels` has built when it stops: at the
      end of the file, or at its first row without two columns, the rows
      before it applied. */
  function LabelsSoFar(lines: seq<string>, k: nat, groups: seq<string>, gsm: map<string, seq<string>>,
                       sgl: map<string, string>)
    : (r: (seq<string>, map<string, seq<string>>, map<string, string>))
    requires 1 <= k <= |lines|
    requires forall g :: g in groups ==> g in gsm
    ensures Covers(r.0, r.1)
    decreases |lines| - k
  {
    if k == |lines| then (groups, gsm, sgl)
    else
      var tokens := Split(lines[k], '\t');
      if |tokens| != 2 then (groups, gsm, sgl)
      else
        var added := AddRow(groups, gsm, tokens[0], tokens[1]);
        LabelsSoFar(lines, k + 1, added.0, added.1, sgl[tokens[0] := tokens[1]])
  }

  /** Where the loop stops it holds the read of the file cut before its first
      short row; when the whole file reads, that is the result. */
  lemma {:induction false} LabelsSoFarPrefix(lines: seq<string>, k: nat, groups: seq<string>,
                                             gsm: map<string, seq<string>>, sgl: map<string, string>)
    requires 1 <= k <= |lines| && forall g :: g in groups ==> g in gsm
    ensures LabelsFrom(lines[..FirstShortRow(lines, k)], k, groups, gsm, sgl) == Ok(LabelsSoFar(lines, k, groups, gsm, sgl))
    ensures LabelsFrom(lines, k, groups, gsm, sgl).Ok? ==>
      FirstShortRow(lines, k) == |lines| && LabelsFrom(lines, k, groups, gsm, sgl).value == LabelsSoFar(lines, k, groups, gsm, sgl)
    decreases |lines| - k
  {
    var stop := FirstShortRow(lines, k);
    if k < |lines| && TwoColumns(lines[k]) {
      var tokens := Split(lines[k], '\t');
      var added := AddRow(groups, gsm, tokens[0], tokens[1]);
      LabelsSoFarPrefix(lines, k + 1, added.0, added.1, sgl[tokens[0] := tokens[1]]);
      assert lines[..stop][k] == lines[k];
    }
  }

  /** The groups, group lists and sample labels `readGroupLabels` leaves,
      whether it succeeds or fails: a header error changes nothing; past the
      header the group list starts afresh and every row before the first
      short one is applied. */
  function ReadLabelsSoFar(lines: seq<string>, groups: seq<string>, gsm: map<string, seq<string>>, sgl: map<string, string>)
    : (seq<string>, map<string, seq<string>>, map<string, string>)
  {
    if |lines| == 0 || lines[0] != LabelsHeader then (groups, gsm, sgl)
    else LabelsSoFar(lines, 1, [], gsm, sgl)
  }

  /** A successful read leaves exactly its result. */
  lemma ReadLabelsSoFarOk(lines: seq<string>, groups: seq<string>, gsm: map<string, seq<string>>, sgl: map<string, string>)
    requires ReadLabels(lines, gsm, sgl).Ok?
    ensures ReadLabels(lines, gsm, sgl).value == ReadLabelsSoFar(lines, groups, gsm, sgl)
  {
    LabelsSoFarPrefix(lines, 1, [], gsm, sgl);
  }

  /** The groups of the well-formed rows in [1, hi), in order of first appearance. */
  function FirstSeen(lines: seq<string>, hi: nat): seq<string>
    requires 1 <= hi <= |lines|
    decreases hi
  {
    if hi == 1 then []
    else
      var prior := FirstSeen(lines, hi - 1);
      if TwoColumns(lines[hi - 1]) && RowValue(lines[hi - 1]) !in prior then prior + [RowValue(lines[hi - 1])]
      else prior
  }

  /** The samples of the well-formed rows in [1, hi) whose group is `g`, in file order. */
  function SamplesOf(lines: seq<string>, hi: nat, g: string): seq<string>
    requires 1 <= hi <= |lines|
    decreases hi
  {
    if hi == 1 then []
    else
      SamplesOf(lines, hi - 1, g)
      + (if TwoColumns(lines[hi - 1]) && RowValue(lines[hi - 1]) == g then [RowKey(lines[hi - 1])] else [])
  }

  /** The groups named by well-formed rows in [1, hi). */
  function ValuesBefore(lines: seq<string>, hi: nat): set<string>
    requires hi <= |lines|
  {
    set j | 1 <= j < hi && TwoColumns(lines[j]) :: RowValue(lines[j])
  }

  lemma ValuesBeforeGrows(lines: seq<string>, k: nat)
    requires 1 <= k < |lines|
    ensures ValuesBefore(lines, k + 1) == ValuesBefore(lines, k) + (if TwoColumns(lines[k]) then {RowValue(lines[k])} else {})
  {
    forall g | g in ValuesBefore(lines, k + 1)
      ensures g in ValuesBefore(lines, k) || (TwoColumns(lines[k]) && g == RowValue(lines[k]))
    {
      var j :| 1 <= j < k + 1 && TwoColumns(lines[j]) && RowValue(lines[j]) == g;
    }
  }

  /** The group list holds every group named by a well-formed row, once each. */
  lemma {:induction false} FirstSeenSpec(lines: seq<string>, hi: nat)
    requires 1 <= hi <= |lines|
    ensures Distinct(FirstSeen(lines, hi))
    ensures forall g :: g in FirstSeen(lines, hi) <==> g in ValuesBefore(lines, hi)
    decreases hi
  {
    if hi > 1 {
      FirstSeenSpec(lines, hi - 1);
      ValuesBeforeGrows(lines, hi - 1);
    }
  }

  lemma {:induction false} UnseenHasNoSamples(lines: seq<string>, hi: nat, g: string)
    requires 1 <= hi <= |lines| && g !in FirstSeen(lines, hi)
    ensures SamplesOf(lines, hi, g) == []
    decreases hi
  {
    if hi > 1 {
      UnseenHasNoSamples(lines, hi - 1, g);
    }
  }

  /** The group of the last well-formed row in [1, hi) naming sample `s`. */
  function LastGroup(lines: seq<string>, hi: nat, s: string): Option<string>
    requires 1 <= hi <= |lines|
    decreases hi
  {
    if hi == 1 then None
    else if TwoColumns(lines[hi - 1]) && RowKey(lines[hi - 1]) == s then Some(RowValue(lines[hi - 1]))
    else LastGroup(lines, hi - 1, s)
  }

  /** `sgl` labels exactly the samples of rows [1, hi), each with the group of
      its last row. */
  ghost predicate LastGroups(lines: seq<string>, hi: nat, sgl: map<string, string>)
    requires 1 <= hi <= |lines|
  {
    forall s :: LastGroup(lines, hi, s) == if s in sgl then Some(sgl[s]) else None
  }

  lemma {:induction false} LabelsFromOk(lines: seq<string>, k: nat, groups: seq<string>, gsm: map<string, seq<string>>,
                                        sgl: map<string, string>)
    requires 1 <= k <= |lines| && forall g :: g in groups ==> g in gsm
    ensures LabelsFrom(lines, k, groups, gsm, sgl).Ok? <==> RowsOk(lines, k, |lines|)
    decreases |lines| - k
  {
    if k < |lines| && TwoColumns(lines[k]) {
      LabelsFromStep(lines, k, groups, gsm, sgl);
      var added := AddRow(groups, gsm, RowKey(lines[k]), RowValue(lines[k]));
      LabelsFromOk(lines, k + 1, added.0, added.1, sgl[RowKey(lines[k]) := RowValue(lines[k])]);
      assert RowsOk(lines, k, |lines|) == RowsOk(lines, k + 1, |lines|);
    } else if k < |lines| {
      assert LabelsFrom(lines, k, groups, gsm, sgl) == Err(ColumnCount(k, |Split(lines[k], '\t')|));
      assert !RowsOk(lines, k, |lines|);
    }
  }

  /** The first row at or after k without two columns, or |lines| when every row has two. */
  function FirstShortRow(lines: seq<string>, k: nat): (j: nat)
    requires k <= |lines|
    ensures k <= j <= |lines| && RowsOk(lines, k, j) && (j < |lines| ==> !TwoColumns(lines[j]))
    decreases |lines| - k
  {
    if k == |lines| || !TwoColumns(lines[k]) then k else FirstShortRow(lines, k + 1)
  }

  /** A failed read reports the first row without two columns. */
  lemma {:induction false} LabelsFromError(lines: seq<string>, k: nat, groups: seq<string>, gsm: map<string, seq<string>>,
                                           sgl: map<string, string>)
    requires 1 <= k <= |lines| && forall g :: g in groups ==> g in gsm
    requires LabelsFrom(lines, k, groups, gsm, sgl).Err?
    ensures var j := FirstShortRow(lines, k);
      j < |lines| && LabelsFrom(lines, k, groups, gsm, sgl).error == ColumnCount(j, |Split(lines[j], '\t')|)
    decreases |lines| - k
  {
    if TwoColumns(lines[k]) {
      LabelsFromStep(lines, k, groups, gsm, sgl);
      var added := AddRow(groups, gsm, RowKey(lines[k]), RowValue(lines[k]));
      LabelsFromError(lines, k + 1, added.0, added.1, sgl[RowKey(lines[k]) := RowValue(lines[k])]);
    }
  }

  /** What the group list and group-to-samples map hold after rows [1, k). */
  ghost predicate GroupsSoFar(lines: seq<string>, k: nat, groups: seq<string>, gsm: map<string, seq<string>>)
    requires 1 <= k <= |lines|
  {
    groups == FirstSeen(lines, k) &&
    (forall g :: g in gsm <==> g in groups) &&
    (forall g :: g in gsm ==> gsm[g] == SamplesOf(lines, k, g))
  }

  /** Adding a well-formed row keeps the group list and the group-to-samples
      map in step with the rows read. */
  lemma GroupsStep(lines: seq<string>, k: nat, groups: seq<string>, gsm: map<string, seq<string>>)
    requires 1 <= k < |lines| && GroupsSoFar(lines, k, groups, gsm) && TwoColumns(lines[k])
    ensures var added := AddRow(groups, gsm, RowKey(lines[k]), RowValue(lines[k]));
      GroupsSoFar(lines, k + 1, added.0, added.1)
  {
    var added := AddRow(groups, gsm, RowKey(lines[k]), RowValue(lines[k]));
    forall h | h in added.1
      ensures added.1[h] == SamplesOf(lines, k + 1, h)
    {
      GroupsStepAt(lines, k, groups, gsm, h);
    }
  }

  /** The samples recorded for one group after a well-formed row are those of the rows read so far. */
  lemma GroupsStepAt(lines: seq<string>, k: nat, groups: seq<string>, gsm: map<string, seq<string>>, h: string)
    requires 1 <= k < |lines| && GroupsSoFar(lines, k, groups, gsm) && TwoColumns(lines[k])
    requires h in AddRow(groups, gsm, RowKey(lines[k]), RowValue(lines[k])).1
    ensures AddRow(groups, gsm, RowKey(lines[k]), RowValue(lines[k])).1[h] == SamplesOf(lines, k + 1, h)
  {
    var g := RowValue(lines[k]);
    if h == g && g !in groups {
      UnseenHasNoSamples(lines, k, g);
    }
  }

  /** Every listed group has an entry in the group-to-samples map. */
  predicate Covers(groups: seq<string>, gsm: map<string, seq<string>>)
  {
    forall g :: g in groups ==> g in gsm
  }

  /** Any property of the group list and the group-to-samples map that every
      well-formed row preserves holds of the loaded result. */
  lemma {:induction false} LabelsFromInduct(lines: seq<string>, k: nat, groups: seq<string>, gsm: map<string, seq<string>>,
                                            sgl: map<string, string>, inv: (nat, seq<string>, map<string, seq<string>>) -> bool)
    requires 1 <= k <= |lines| && (forall g :: g in groups ==> g in gsm) && inv(k, groups, gsm)
    requires forall j, gs, m :: 1 <= j < |lines| && inv(j, gs, m) && TwoColumns(lines[j]) && Covers(gs, m) ==>
               var added := AddRow(gs, m, RowKey(lines[j]), RowValue(lines[j])); inv(j + 1, added.0, added.1)
    requires LabelsFrom(lines, k, groups, gsm, sgl).Ok?
    ensures var r := LabelsFrom(lines, k, groups, gsm, sgl).value; inv(|lines|, r.0, r.1)
    decreases |lines| - k
  {
    if k < |lines| {
      LabelsFromStep(lines, k, groups, gsm, sgl);
      var added := AddRow(groups, gsm, RowKey(lines[k]), RowValue(lines[k]));
      LabelsFromInduct(lines, k + 1, added.0, added.1, sgl[RowKey(lines[k]) := RowValue(lines[k])], inv);
    }
  }

  lemma LabelsFromGroups(lines: seq<string>, k: nat, groups: seq<string>, gsm: map<string, seq<string>>,
                         sgl: map<string, string>)
    requires 1 <= k <= |lines| && GroupsSoFar(lines, k, groups, gsm)
    requires LabelsFrom(lines, k, groups, gsm, sgl).Ok?
    ensures var r := LabelsFrom(lines, k, groups, gsm, sgl).value; GroupsSoFar(lines, |lines|, r.0, r.1)
  {
    var inv := (j: nat, gs: seq<string>, m: map<string, seq<string>>) => 1 <= j <= |lines| && GroupsSoFar(lines, j, gs, m);
    GroupsStepAll(lines);
    LabelsFromInduct(lines, k, groups, gsm, sgl, inv);
  }

  lemma GroupsStepAll(lines: seq<string>)
    ensures forall j, gs, m :: 1 <= j < |lines| && GroupsSoFar(lines, j, gs, m) && TwoColumns(lines[j]) && Covers(gs, m) ==>
      var added := AddRow(gs, m, RowKey(lines[j]), RowValue(lines[j])); GroupsSoFar(lines, j + 1, added.0, added.1)
  {
    forall j, gs, m | 1 <= j < |lines| && GroupsSoFar(lines, j, gs, m) && TwoColumns(lines[j]) && Covers(gs, m)
      ensures var added := AddRow(gs, m, RowKey(lines[j]), RowValue(lines[j])); GroupsSoFar(lines, j + 1, added.0, added.1)
    {
      GroupsStep(lines, j, gs, m);
    }
  }

  /** Adding a well-formed row keeps the sample labels in step with the rows read. */
  lemma LastGroupStep(lines: seq<string>, k: nat, sgl: map<string, string>)
    requires 1 <= k < |lines| && LastGroups(lines, k, sgl) && TwoColumns(lines[k])
    ensures LastGroups(lines, k + 1, sgl[RowKey(lines[k]) := RowValue(lines[k])])
  {
    var sgl' := sgl[RowKey(lines[k]) := RowValue(lines[k])];
    forall s
      ensures LastGroup(lines, k + 1, s) == if s in sgl' then Some(sgl'[s]) else None
    {
      assert LastGroup(lines, k, s) == if s in sgl then Some(sgl[s]) else None;
    }
  }

  lemma {:induction false} LabelsFromSamples(lines: seq<string>, k: nat, groups: seq<string>, gsm: map<string, seq<string>>,
                                             sgl: map<string, string>)
    requires 1 <= k <= |lines| && (forall g :: g in groups ==> g in gsm) && LastGroups(lines, k, sgl)
    requires LabelsFrom(lines, k, groups, gsm, sgl).Ok?
    ensures LastGroups(lines, |lines|, LabelsFrom(lines, k, groups, gsm, sgl).value.2)
    decreases |lines| - k
  {
    if k < |lines| {
      LabelsFromStep(lines, k, groups, gsm, sgl);
      LastGroupStep(lines, k, sgl);
      var added := AddRow(groups, gsm, RowKey(lines[k]), RowValue(lines[k]));
      LabelsFromSamples(lines, k + 1, added.0, added.1, sgl[RowKey(lines[k]) := RowValue(lines[k])]);
    }
  }

  /** `readGroupLabels` after `initializeMaps` succeeds iff the header is right
      and every row has two columns. Then the groups are listed once each, in
      order of first appearance; each group's list holds its samples in file
      order; and each sample is labelled with the group of its last row. */
  lemma ReadLabelsSpec(lines: seq<string>)
    ensures ReadLabels(lines, map[], map[]).Ok? <==>
              |lines| > 0 && lines[0] == LabelsHeader && RowsOk(lines, 1, |lines|)
    ensures |lines| == 0 ==> ReadLabels(lines, map[], map[]) == Err(MissingHeader)
    ensures |lines| > 0 && lines[0] != LabelsHeader ==> ReadLabels(lines, map[], map[]) == Err(InvalidHeader(lines[0]))
    ensures |lines| > 0 && lines[0] == LabelsHeader && ReadLabels(lines, map[], map[]).Err? ==>
              var j := FirstShortRow(lines, 1);
              j < |lines| && ReadLabels(lines, map[], map[]).error == ColumnCount(j, |Split(lines[j], '\t')|)
    ensures ReadLabels(lines, map[], map[]).Ok? ==>
              var r := ReadLabels(lines, map[], map[]).value;
              Distinct(r.0) && GroupsSoFar(lines, |lines|, r.0, r.1) && LastGroups(lines, |lines|, r.2)
  {
    if |lines| > 0 && lines[0] == LabelsHeader {
      LabelsFromOk(lines, 1, [], map[], map[]);
      if ReadLabels(lines, map[], map[]).Err? {
        LabelsFromError(lines, 1, [], map[], map[]);
      }
      if ReadLabels(lines, map[], map[]).Ok? {
        LabelsFromGroups(lines, 1, [], map[], map[]);
        LabelsFromSamples(lines, 1, [], map[], map[]);
        FirstSeenSpec(lines, |lines|);
      }
    }
  }

  // ---------------------------------------------------------------------
  // The default palette
  // ---------------------------------------------------------------------

  /** The loop of `setDefaultPalette` from group i on. */
  function PaletteFrom(groups: seq<string>, palette: seq<Option<string>>, i: nat, cm: map<string, Color>, decode: string -> Option<Color>)
    : (r: Result<map<string, Color>, GroupError>)
    requires i <= |groups| <= |palette|
    ensures r.Err? ==> r.error == NullPaletteColor || r.error.BadPaletteColor?
    decreases |groups| - i
  {
    if i == |groups| then Ok(cm)
    else
      match palette[i]
      case None => Err(NullPaletteColor)
      case Some(t) =>
        match decode(t)
        case None => Err(BadPaletteColor(t))
        case Some(c) => PaletteFrom(groups, palette, i + 1, cm[groups[i] := c], decode)
  }

  /** `setDefaultPalette`: group i gets colour i of palette set 2, sized to the
      number of groups. */
  function DefaultPalette(groups: seq<string>, cm: map<string, Color>, decode: string -> Option<Color>): Result<map<string, Color>, GroupError>
  {
    match GetColorPalette(|groups|, SET2)
    case None => Err(TooManyGroups(|groups|))
    case Some(palette) => PaletteFrom(groups, palette, 0, cm, decode)
  }

  /** The first group from i on whose palette slot is null or does not decode,
      or the number of groups when there is none. */
  function FirstBadSlot(groups: seq<string>, palette: seq<Option<string>>, i: nat, decode: string -> Option<Color>): (j: nat)
    requires i <= |groups| <= |palette|
    ensures i <= j <= |groups|
    ensures forall p :: i <= p < j ==> palette[p].Some? && decode(palette[p].value).Some?
    ensures j < |groups| ==> palette[j].None? || decode(palette[j].value).None?
    decreases |groups| - i
  {
    if i == |groups| || palette[i].None? || decode(palette[i].value).None? then i
    else FirstBadSlot(groups, palette, i + 1, decode)
  }

  /** The colour map the loop of `setDefaultPalette` has built when it stops:
      after the last group, or at the first bad slot, every group before it
      coloured. */
  function PaletteSoFar(groups: seq<string>, palette: seq<Option<string>>, i: nat, cm: map<string, Color>, decode: string -> Option<Color>)
    : map<string, Color>
    requires i <= |groups| <= |palette|
    decreases |groups| - i
  {
    if i == |groups| then cm
    else
      match palette[i]
      case None => cm
      case Some(t) =>
        match decode(t)
        case None => cm
        case Some(c) => PaletteSoFar(groups, palette, i + 1, cm[groups[i] := c], decode)
  }

  /** Where the loop stops it holds the colouring of the groups before the
      first bad slot; when every slot decodes, that is the result. */
  lemma {:induction false} PaletteSoFarPrefix(groups: seq<string>, palette: seq<Option<string>>, i: nat, cm: map<string, Color>, decode: string -> Option<Color>)
    requires i <= |groups| <= |palette|
    ensures PaletteFrom(groups[..FirstBadSlot(groups, palette, i, decode)], palette, i, cm, decode) ==
            Ok(PaletteSoFar(groups, palette, i, cm, decode))
    ensures PaletteFrom(groups, palette, i, cm, decode).Ok? <==> FirstBadSlot(groups, palette, i, decode) == |groups|
    ensures PaletteFrom(groups, palette, i, cm, decode).Ok? ==>
      PaletteFrom(groups, palette, i, cm, decode).value == PaletteSoFar(groups, palette, i, cm, decode)
    decreases |groups| - i
  {
    var stop := FirstBadSlot(groups, palette, i, decode);
    if i < |groups| && palette[i].Some? && decode(palette[i].value).Some? {
      PaletteSoFarPrefix(groups, palette, i + 1, cm[groups[i] := decode(palette[i].value).value], decode);
      assert groups[..stop][i] == groups[i];
    }
  }

  /** One good slot: both the loop and the map built so far move on to the
      next group with this group coloured. */
  lemma PaletteStep(groups: seq<string>, palette: seq<Option<string>>, i: nat, cm: map<string, Color>, decode: string -> Option<Color>)
    requires i < |groups| <= |palette| && palette[i].Some? && decode(palette[i].value).Some?
    ensures var cm' := cm[groups[i] := decode(palette[i].value).value];
      PaletteFrom(groups, palette, i, cm, decode) == PaletteFrom(groups, palette, i + 1, cm', decode) &&
      PaletteSoFar(groups, palette, i, cm, decode) == PaletteSoFar(groups, palette, i + 1, cm', decode)
  {
  }

  /** The colour map `setDefaultPalette` leaves, whether it succeeds or
      fails: unchanged when there are too many groups, otherwise coloured up
      to the first bad slot. */
  function DefaultPaletteSoFar(groups: seq<string>, cm: map<string, Color>, decode: string -> Option<Color>): map<string, Color>
  {
    match GetColorPalette(|groups|, SET2)
    case None => cm
    case Some(palette) => PaletteSoFar(groups, palette, 0, cm, decode)
  }

  /** A successful default palette leaves exactly its result. */
  lemma DefaultPaletteSoFarOk(groups: seq<string>, cm: map<string, Color>, decode: string -> Option<Color>)
    requires DefaultPalette(groups, cm, decode).Ok?
    ensures DefaultPalette(groups, cm, decode).value == DefaultPaletteSoFar(groups, cm, decode)
  {
    PaletteSoFarPrefix(groups, GetColorPalette(|groups|, SET2).value, 0, cm, decode);
  }

  lemma {:induction false} PaletteFromSpec(groups: seq<string>, palette: seq<Option<string>>, i: nat, cm: map<string, Color>, decode: string -> Option<Color>)
    requires i <= |groups| <= |palette| && Distinct(groups)
    requires PaletteFrom(groups, palette, i, cm, decode).Ok?
    ensures var r := PaletteFrom(groups, palette, i, cm, decode).value;
      r.Keys == cm.Keys + set p | i <= p < |groups| :: groups[p]
    ensures var r := PaletteFrom(groups, palette, i, cm, decode).value;
      forall p :: i <= p < |groups| ==> palette[p].Some? && decode(palette[p].value) == Some(r[groups[p]])
    ensures var r := PaletteFrom(groups, palette, i, cm, decode).value;
      forall g :: g in cm && g !in groups[i..] ==> r[g] == cm[g]
    decreases |groups| - i
  {
    if i < |groups| {
      var c := decode(palette[i].value).value;
      PaletteFromSpec(groups, palette, i + 1, cm[groups[i] := c], decode);
      var r := PaletteFrom(groups, palette, i, cm, decode).value;
      assert r[groups[i]] == c by {
        assert groups[i] !in groups[i + 1..];
      }
      assert (set p | i <= p < |groups| :: groups[p]) == {groups[i]} + set p | i + 1 <= p < |groups| :: groups[p];
    }
  }

  /** A null slot at or after group i makes the loop fail. */
  lemma {:induction false} PaletteFromNullSlot(groups: seq<string>, palette: seq<Option<string>>, i: nat,
                                              cm: map<string, Color>, p: nat, decode: string -> Option<Color>)
    requires i <= p < |groups| <= |palette| && palette[p].None?
    ensures PaletteFrom(groups, palette, i, cm, decode).Err?
    decreases |groups| - i
  {
    if i < p && palette[i].Some? && decode(palette[i].value).Some? {
      PaletteFromNullSlot(groups, palette, i + 1, cm[groups[i] := decode(palette[i].value).value], p, decode);
    }
  }

  /** The default palette fails beyond 56 groups, and also with exactly 22:
      the slice taken from set 2 then ends in a null slot. On success every
      group gets the colour of its own palette slot. */
  lemma DefaultPaletteSpec(groups: seq<string>, cm: map<string, Color>, decode: string -> Option<Color>)
    requires Distinct(groups)
    ensures |groups| > 56 <==> DefaultPalette(groups, cm, decode) == Err(TooManyGroups(|groups|))
    ensures |groups| == 22 ==> DefaultPalette(groups, cm, decode).Err?
    ensures DefaultPalette(groups, cm, decode).Ok? ==>
              var r := DefaultPalette(groups, cm, decode).value;
              var palette := GetColorPalette(|groups|, SET2).value;
              r.Keys == cm.Keys + (set p | 0 <= p < |groups| :: groups[p]) &&
              (forall p :: 0 <= p < |groups| ==> palette[p].Some? && decode(palette[p].value) == Some(r[groups[p]])) &&
              (forall g :: g in cm && g !in groups ==> r[g] == cm[g])
  {
    if |groups| == 22 {
      FullSetLeavesLastSlotNull();
      PaletteFromNullSlot(groups, GetColorPalette(22, SET2).value, 0, cm, 21, decode);
    }
    if DefaultPalette(groups, cm, decode).Ok? {
      PaletteFromSpec(groups, GetColorPalette(|groups|, SET2).value, 0, cm, decode);
      assert groups[0..] == groups;
    }
  }

  /** Every slot from group i on holding a colour the decoder accepts makes the loop succeed. */
  lemma {:induction false} PaletteFromDecodes(groups: seq<string>, palette: seq<Option<string>>, i: nat,
                                             cm: map<string, Color>, decode: string -> Option<Color>)
    requires i <= |groups| <= |palette|
    requires forall p :: i <= p < |groups| ==> palette[p].Some? && decode(palette[p].value).Some?
    ensures PaletteFrom(groups, palette, i, cm, decode).Ok?
    decreases |groups| - i
  {
    if i < |groups| {
      PaletteFromDecodes(groups, palette, i + 1, cm[groups[i] := decode(palette[i].value).value], decode);
    }
  }

  /** With `Color.decode` itself, the default palette succeeds for every group
      count up to 56 except 22: each slot then holds a `#RRGGBB` entry of set 2
      (up to 21 groups) or of set 3 (23 to 56 groups). */
  lemma DefaultPaletteOk(groups: seq<string>, cm: map<string, Color>)
    requires |groups| <= 56 && |groups| != 22
    ensures DefaultPalette(groups, cm, Decode).Ok?
  {
    var n := |groups|;
    if n < 22 {
      SmallPaletteDecodes(n);
    } else {
      LargePaletteDecodes(n);
    }
    PaletteFromDecodes(groups, GetColorPalette(n, SET2).value, 0, cm, Decode);
  }

  /** Up to 21 groups, every slot is a set 2 entry `Color.decode` accepts. */
  lemma SmallPaletteDecodes(n: nat)
    requires n < 22
    ensures var palette := GetColorPalette(n, SET2).value;
      forall p :: 0 <= p < n ==> palette[p].Some? && Decode(palette[p].value).Some?
  {
    PaletteEntriesDecode();
    assert forall k :: 0 <= k < |Set2| ==> Decode(Set2[k]).Some? by {
      forall k | 0 <= k < |Set2| ensures Decode(Set2[k]).Some? {
        assert Set2[k] == Set3[k];
      }
    }
    CopiedSlotsDecode(Set2, n);
  }

  /** From 23 to 56 groups, every slot is a set 3 entry `Color.decode` accepts. */
  lemma LargePaletteDecodes(n: nat)
    requires 22 < n <= 56
    ensures var palette := GetColorPalette(n, SET2).value;
      forall p :: 0 <= p < n ==> palette[p].Some? && Decode(palette[p].value).Some?
  {
    PaletteEntriesDecode();
    CopiedSlotsDecode(Set3, n);
  }

  /** Copying `n` slots from index 1 of a list whose entries all decode fills
      every slot with an entry that decodes. */
  lemma CopiedSlotsDecode(src: seq<string>, n: nat)
    requires n < |src|
    requires forall k :: 0 <= k < |src| ==> Decode(src[k]).Some?
    ensures forall p :: 0 <= p < n ==>
      CopyOfRange(src, n)[p].Some? && Decode(CopyOfRange(src, n)[p].value).Some?
  {
    forall p | 0 <= p < n
      ensures CopyOfRange(src, n)[p].Some? && Decode(CopyOfRange(src, n)[p].value).Some?
    {
      assert CopyOfRange(src, n)[p] == Some(src[p + 1]);
    }
  }

  // ---------------------------------------------------------------------
  // Reading the group colours file
  // ---------------------------------------------------------------------

  /** A colour decoder that reads back every colour written with `HexColor`,
      as `Color.decode` does. */
  ghost predicate ReadsHex(decode: string -> Option<Color>)
  {
    forall c: Color :: decode(HexColor(c)) == Some(c)
  }

  lemma DecodeReadsHex()
    ensures ReadsHex(Decode)
  {
    forall c: Color
      ensures Decode(HexColor(c)) == Some(c)
    {
      DecodeHexColor(c);
    }
  }

  /** Rows `k..` of the colours file; the first colour given for a group wins. */
  function ColorsFrom(lines: seq<string>, k: nat, cm: map<string, Color>, decode: string -> Option<Color>): Result<map<string, Color>, GroupError>
    requires 1 <= k <= |lines|
    decreases |lines| - k
  {
    if k == |lines| then Ok(cm)
    else
      var tokens := Split(lines[k], '\t');
      if |tokens| != 2 then Err(ColumnCount(k, |tokens|))
      else
        match decode(tokens[1])
        case None => Err(NotAHexColor(tokens[0], tokens[1]))
        case Some(c) => ColorsFrom(lines, k + 1, if tokens[0] in cm then cm else cm[tokens[0] := c], decode)
  }

  /** The first row at or after k that is not a well-formed colours row, or the
      end of the file: where the row loop stops. */
  function StopRow(lines: seq<string>, k: nat, decode: string -> Option<Color>): (stop: nat)
    requires 1 <= k <= |lines|
    ensures k <= stop <= |lines|
    decreases |lines| - k
  {
    if k == |lines| || !ColorRowOk(lines[k], decode) then k else StopRow(lines, k + 1, decode)
  }

  /** The colour map the row loop has built when it stops, whether at the end
      of the file or at its first malformed row. */
  function ColorsSoFar(lines: seq<string>, k: nat, cm: map<string, Color>, decode: string -> Option<Color>): map<string, Color>
    requires 1 <= k <= |lines|
    decreases |lines| - k
  {
    if k == |lines| then cm
    else
      var tokens := Split(lines[k], '\t');
      if |tokens| != 2 then cm
      else
        match decode(tokens[1])
        case None => cm
        case Some(c) => ColorsSoFar(lines, k + 1, if tokens[0] in cm then cm else cm[tokens[0] := c], decode)
  }

  /** `readGroupColors` for the current group list. */
  function ReadColors(lines: seq<string>, groups: seq<string>, decode: string -> Option<Color>): Result<map<string, Color>, GroupError>
  {
    if |lines| == 0 then Err(MissingHeader)
    else if lines[0] != ColorsHeader then Err(InvalidHeader(lines[0]))
    else
      match ColorsFrom(lines, 1, map[], decode)
      case Err(e) => Err(e)
      case Ok(cm) =>
        match FirstMissing(groups, cm.Keys)
        case Some(g) => Err(MissingGroup(g))
        case None => Ok(cm)
  }

  predicate ColorRowOk(line: string, decode: string -> Option<Color>)
  {
    TwoColumns(line) && decode(RowValue(line)).Some?
  }

  /** The colour of the first well-formed row in [1, hi) naming group `g`. */
  function FirstColor(lines: seq<string>, hi: nat, g: string, decode: string -> Option<Color>): Option<Color>
    requires 1 <= hi <= |lines|
    decreases hi
  {
    if hi == 1 then None
    else
      var prior := FirstColor(lines, hi - 1, g, decode);
      if prior.Some? then prior
      else if ColorRowOk(lines[hi - 1], decode) && RowKey(lines[hi - 1]) == g then decode(RowValue(lines[hi - 1]))
      else None
  }

  /** `cm` holds exactly the first colours of rows [1, hi). */
  ghost predicate FirstColors(lines: seq<string>, hi: nat, cm: map<string, Color>, decode: string -> Option<Color>)
    requires 1 <= hi <= |lines|
  {
    forall g :: FirstColor(lines, hi, g, decode) == if g in cm then Some(cm[g]) else None
  }

  lemma {:induction false} ColorsFromOk(lines: seq<string>, k: nat, cm: map<string, Color>, decode: string -> Option<Color>)
    requires 1 <= k <= |lines|
    ensures ColorsFrom(lines, k, cm, decode).Ok? <==> forall j :: k <= j < |lines| ==> ColorRowOk(lines[j], decode)
    decreases |lines| - k
  {
    if k < |lines| && ColorRowOk(lines[k], decode) {
      var tokens := Split(lines[k], '\t');
      assert RowValue(lines[k]) == tokens[1];
      ColorsFromOk(lines, k + 1, if tokens[0] in cm then cm else cm[tokens[0] := decode(tokens[1]).value], decode);
    }
  }

  lemma {:induction false} ColorsFromFirst(lines: seq<string>, k: nat, cm: map<string, Color>, decode: string -> Option<Color>)
    requires 1 <= k <= |lines| && FirstColors(lines, k, cm, decode)
    requires ColorsFrom(lines, k, cm, decode).Ok?
    ensures FirstColors(lines, |lines|, ColorsFrom(lines, k, cm, decode).value, decode)
    decreases |lines| - k
  {
    if k < |lines| {
      var tokens := Split(lines[k], '\t');
      var g := tokens[0];
      assert RowKey(lines[k]) == g && RowValue(lines[k]) == tokens[1];
      var cm' := if g in cm then cm else cm[g := decode(tokens[1]).value];
      forall h
        ensures FirstColor(lines, k + 1, h, decode) == if h in cm' then Some(cm'[h]) else None
      {
        assert FirstColor(lines, k, h, decode) == if h in cm then Some(cm[h]) else None;
      }
      ColorsFromFirst(lines, k + 1, cm', decode);
    }
  }

  /** The map built so far holds exactly the first colours of the rows before
      the loop stopped; when the whole file reads, it is the result. */
  lemma {:induction false} ColorsSoFarFirst(lines: seq<string>, k: nat, cm: map<string, Color>, decode: string -> Option<Color>)
    requires 1 <= k <= |lines| && FirstColors(lines, k, cm, decode)
    ensures FirstColors(lines, StopRow(lines, k, decode), ColorsSoFar(lines, k, cm, decode), decode)
    ensures ColorsFrom(lines, k, cm, decode).Ok? ==>
      StopRow(lines, k, decode) == |lines| && ColorsFrom(lines, k, cm, decode).value == ColorsSoFar(lines, k, cm, decode)
    decreases |lines| - k
  {
    if k < |lines| {
      if ColorRowOk(lines[k], decode) {
        var tokens := Split(lines[k], '\t');
        var g := tokens[0];
        assert RowKey(lines[k]) == g && RowValue(lines[k]) == tokens[1];
        var cm' := if g in cm then cm else cm[g := decode(tokens[1]).value];
        forall h
          ensures FirstColor(lines, k + 1, h, decode) == if h in cm' then Some(cm'[h]) else None
        {
          assert FirstColor(lines, k, h, decode) == if h in cm then Some(cm[h]) else None;
        }
        ColorsSoFarFirst(lines, k + 1, cm', decode);
      }
    }
  }

  lemma {:induction false} FirstColorFound(lines: seq<string>, hi: nat, g: string, decode: string -> Option<Color>)
    requires 1 <= hi <= |lines| && forall j :: 1 <= j < hi ==> ColorRowOk(lines[j], decode)
    ensures FirstColor(lines, hi, g, decode).Some? <==> g in KeysBefore(lines, hi)
    decreases hi
  {
    if hi > 1 {
      FirstColorFound(lines, hi - 1, g, decode);
      if g in KeysBefore(lines, hi) && g !in KeysBefore(lines, hi - 1) {
        assert RowKey(lines[hi - 1]) == g;
      }
    }
  }

  /** `readGroupColors` succeeds iff the header is right, every row has two
      columns and a decodable colour, and every group has a row; then each
      group named in the file has the colour of its first row, and no other
      group has one. */
  lemma ReadColorsSpec(lines: seq<string>, groups: seq<string>, decode: string -> Option<Color>)
    ensures ReadColors(lines, groups, decode).Ok? <==>
              |lines| > 0 && lines[0] == ColorsHeader && (forall j :: 1 <= j < |lines| ==> ColorRowOk(lines[j], decode)) &&
              forall g :: g in groups ==> g in KeysBefore(lines, |lines|)
    ensures ReadColors(lines, groups, decode).Ok? ==> FirstColors(lines, |lines|, ReadColors(lines, groups, decode).value, decode)
  {
    if |lines| > 0 && lines[0] == ColorsHeader {
      ColorsFromOk(lines, 1, map[], decode);
      var r := ColorsFrom(lines, 1, map[], decode);
      if r.Ok? {
        ColorsFromFirst(lines, 1, map[], decode);
        forall g
          ensures g in r.value <==> g in KeysBefore(lines, |lines|)
        {
          FirstColorFound(lines, |lines|, g, decode);
        }
      }
    }
  }

  // ---------------------------------------------------------------------
  // Validation
  // ---------------------------------------------------------------------

  function FirstLineMessage(header: string, line: string, path: string): string
  {
    "Error in first line: expected  " + header + "found " + line + ". \nFile: " + path
  }

  lemma FirstLineMessageIsNotTrue(header: string, line: string, path: string)
    ensures FirstLineMessage(header, line, path) != "true"
  {
    var lit := "Error in first line: expected  ";
    assert FirstLineMessage(header, line, path) == lit + (header + "found " + line + ". \nFile: " + path);
  }

  /** Rows `k..` as `isGroupLabelsFileValid` checks them; row k is line k + 1. */
  function LabelsVerdictFrom(lines: seq<string>, k: nat, seen: set<string>, samples: seq<string>): string
    requires 1 <= k <= |lines|
    decreases |lines| - k
  {
    if k == |lines| then
      match FirstMissing(samples, seen)
      case None => "true"
      case Some(s) => "The file did not contain sample " + s
    else
      var tokens := Split(lines[k], '\t');
      if |tokens| != 2 then "Line number " + IntToString(k + 1) + " does not contain 2columns"
      else if tokens[0] in seen then "Duplicate sample found: " + tokens[0]
      else LabelsVerdictFrom(lines, k + 1, seen + {tokens[0]}, samples)
  }

  /** `isGroupLabelsFileValid`: "true", or the message for the first problem. */
  function LabelsVerdict(lines: seq<string>, samples: seq<string>, path: string): string
  {
    if |lines| == 0 then "The file is empty."
    else if lines[0] != LabelsHeader then FirstLineMessage(LabelsHeader, lines[0], path)
    else LabelsVerdictFrom(lines, 1, {}, samples)
  }

  /** `isGroupLabelsFileValid`, given the lines of the file and its path. */
  method IsGroupLabelsFileValid(lines: seq<string>, samples: seq<string>, path: string) returns (msg: string)
    ensures msg == LabelsVerdict(lines, samples, path)
  {
    if |lines| == 0 {
      return "The file is empty.";
    }
    if lines[0] != LabelsHeader {
      return FirstLineMessage(LabelsHeader, lines[0], path);
    }
    var sampleGroupLabelMap: map<string, string> := map[];
    assert sampleGroupLabelMap.Keys == {};
    var k := 1;
    while k < |lines|
      invariant 1 <= k <= |lines|
      invariant LabelsVerdict(lines, samples, path) == LabelsVerdictFrom(lines, k, sampleGroupLabelMap.Keys, samples)
    {
      var count := k + 1;
      var tokens := Split(lines[k], '\t');
      if |tokens| != 2 {
        return "Line number " + IntToString(count) + " does not contain 2columns";
      }
      var sample := tokens[0];
      if sample in sampleGroupLabelMap {
        return "Duplicate sample found: " + sample;
      }
      assert sampleGroupLabelMap[sample := tokens[1]].Keys == sampleGroupLabelMap.Keys + {sample};
      sampleGroupLabelMap := sampleGroupLabelMap[sample := tokens[1]];
      k := k + 1;
    }
    var missing := FindMissing(samples, sampleGroupLabelMap.Keys);
    if missing.Some? {
      return "The file did not contain sample " + missing.value;
    }
    return "true";
  }

  function KeysBefore(lines: seq<string>, hi: nat): set<string>
    requires hi <= |lines|
  {
    set j | 1 <= j < hi :: RowKey(lines[j])
  }

  predicate DistinctKeys(lines: seq<string>, hi: nat)
    requires hi <= |lines|
  {
    forall j, j' :: 1 <= j < j' < hi ==> RowKey(lines[j]) != RowKey(lines[j'])
  }

  /** Adding row k to the rows before it adds its key; when that key is
      new, the keys stay distinct. */
  lemma KeysBeforeStep(lines: seq<string>, k: nat)
    requires 1 <= k < |lines|
    ensures KeysBefore(lines, k + 1) == KeysBefore(lines, k) + {RowKey(lines[k])}
    ensures DistinctKeys(lines, k) && RowKey(lines[k]) !in KeysBefore(lines, k) ==> DistinctKeys(lines, k + 1)
  {
    KeysBeforeGrows(lines, k);
    if DistinctKeys(lines, k) && RowKey(lines[k]) !in KeysBefore(lines, k) {
      forall j, j' | 1 <= j < j' < k + 1
        ensures RowKey(lines[j]) != RowKey(lines[j'])
      {
        if j' == k {
          assert RowKey(lines[j]) in KeysBefore(lines, k);
        }
      }
    }
  }

  lemma KeysBeforeGrows(lines: seq<string>, k: nat)
    requires 1 <= k < |lines|
    ensures KeysBefore(lines, k + 1) == KeysBefore(lines, k) + {RowKey(lines[k])}
  {
    forall s | s in KeysBefore(lines, k + 1)
      ensures s in KeysBefore(lines, k) + {RowKey(lines[k])}
    {
      var j :| 1 <= j < k + 1 && RowKey(lines[j]) == s;
    }
  }

  /** What `isGroupLabelsFileValid` demands of rows k.. and of the file as a whole. */
  predicate LabelsOkFrom(lines: seq<string>, k: nat, samples: seq<string>)
    requires 1 <= k <= |lines|
  {
    RowsOk(lines, k, |lines|) && DistinctKeys(lines, |lines|) &&
    forall s :: s in samples ==> s in KeysBefore(lines, |lines|)
  }

  /** A row without two columns stops the validator and breaks `LabelsOkFrom`. */
  lemma LabelsRowShort(lines: seq<string>, k: nat, seen: set<string>, samples: seq<string>)
    requires 1 <= k < |lines| && !TwoColumns(lines[k])
    ensures LabelsVerdictFrom(lines, k, seen, samples) != "true" && !LabelsOkFrom(lines, k, samples)
  {
    assert LabelsVerdictFrom(lines, k, seen, samples)[0] == 'L';
    assert !RowsOk(lines, k, |lines|);
  }

  /** A sample seen in an earlier row stops the validator and breaks `LabelsOkFrom`. */
  lemma LabelsRowRepeated(lines: seq<string>, k: nat, seen: set<string>, samples: seq<string>)
    requires 1 <= k < |lines| && TwoColumns(lines[k]) && seen == KeysBefore(lines, k) && RowKey(lines[k]) in seen
    ensures LabelsVerdictFrom(lines, k, seen, samples) != "true" && !LabelsOkFrom(lines, k, samples)
  {
    assert LabelsVerdictFrom(lines, k, seen, samples)[0] == 'D';
    var j :| 1 <= j < k && RowKey(lines[j]) == RowKey(lines[k]);
    assert !DistinctKeys(lines, |lines|);
  }

  /** A well-formed row with a new sample passes the validator on to the next row. */
  lemma LabelsRowGood(lines: seq<string>, k: nat, seen: set<string>, samples: seq<string>)
    requires 1 <= k < |lines| && TwoColumns(lines[k]) && RowKey(lines[k]) !in seen
    ensures LabelsVerdictFrom(lines, k, seen, samples) == LabelsVerdictFrom(lines, k + 1, seen + {RowKey(lines[k])}, samples)
    ensures LabelsOkFrom(lines, k, samples) <==> LabelsOkFrom(lines, k + 1, samples)
  {
    assert RowsOk(lines, k, |lines|) == RowsOk(lines, k + 1, |lines|);
  }

  lemma {:induction false} LabelsVerdictFromTrue(lines: seq<string>, k: nat, seen: set<string>, samples: seq<string>)
    requires 1 <= k <= |lines|
    requires seen == KeysBefore(lines, k) && DistinctKeys(lines, k)
    ensures LabelsVerdictFrom(lines, k, seen, samples) == "true" <==> LabelsOkFrom(lines, k, samples)
    decreases |lines| - k
  {
    if k < |lines| {
      if !TwoColumns(lines[k]) {
        LabelsRowShort(lines, k, seen, samples);
      } else if RowKey(lines[k]) in seen {
        LabelsRowRepeated(lines, k, seen, samples);
      } else {
        KeysBeforeStep(lines, k);
        LabelsRowGood(lines, k, seen, samples);
        LabelsVerdictFromTrue(lines, k + 1, seen + {RowKey(lines[k])}, samples);
      }
    } else if FirstMissing(samples, seen).Some? {
      assert LabelsVerdictFrom(lines, k, seen, samples)[0] == 'T';
    }
  }

  /** `isGroupLabelsFileValid` says "true" exactly when the header and every
      row are well formed, no sample is listed twice and every requested
      sample is present. */
  lemma LabelsVerdictTrueIff(lines: seq<string>, samples: seq<string>, path: string)
    ensures LabelsVerdict(lines, samples, path) == "true" <==>
              |lines| > 0 && lines[0] == LabelsHeader && RowsOk(lines, 1, |lines|) && DistinctKeys(lines, |lines|) &&
              forall s :: s in samples ==> s in KeysBefore(lines, |lines|)
  {
    if |lines| > 0 {
      if lines[0] == LabelsHeader {
        assert KeysBefore(lines, 1) == {};
        LabelsVerdictFromTrue(lines, 1, {}, samples);
      } else {
        FirstLineMessageIsNotTrue(LabelsHeader, lines[0], path);
      }
    }
  }

  /** A labels file that validates also loads. */
  lemma ValidLabelsFileLoads(lines: seq<string>, samples: seq<string>, path: string)
    requires LabelsVerdict(lines, samples, path) == "true"
    ensures ReadLabels(lines, map[], map[]).Ok?
  {
    LabelsVerdictTrueIff(lines, samples, path);
    ReadLabelsSpec(lines);
  }

  /** Rows `k..` as `isGroupColorsFileValid` checks them; row k is line k + 1. */
  function ColorsVerdictFrom(lines: seq<string>, k: nat, seen: set<string>, groups: seq<string>, decode: string -> Option<Color>): string
    requires 1 <= k <= |lines|
    decreases |lines| - k
  {
    if k == |lines| then
      match FirstMissing(groups, seen)
      case None => "true"
      case Some(g) => "The file did not contain the group" + g
    else
      var tokens := Split(lines[k], '\t');
      if |tokens| != 2 then "Line number " + IntToString(k + 1) + " does not contain 2columns"
      else if tokens[0] in seen then "Duplicate groupLabel found: " + tokens[0]
      else if decode(tokens[1]).None? then "Colors should be represented as hex codes, found " + tokens[1] + "instead"
      else ColorsVerdictFrom(lines, k + 1, seen + {tokens[0]}, groups, decode)
  }

  /** `isGroupColorsFileValid` for the current group list. */
  function ColorsVerdict(lines: seq<string>, groups: seq<string>, path: string, decode: string -> Option<Color>): string
  {
    if |lines| == 0 then "The file is empty."
    else if lines[0] != ColorsHeader then FirstLineMessage(ColorsHeader, lines[0], path)
    else ColorsVerdictFrom(lines, 1, {}, groups, decode)
  }

  /** What `isGroupColorsFileValid` demands of rows k.. and of the file as a whole. */
  predicate ColorsOkFrom(lines: seq<string>, k: nat, groups: seq<string>, decode: string -> Option<Color>)
    requires 1 <= k <= |lines|
  {
    (forall j :: k <= j < |lines| ==> ColorRowOk(lines[j], decode)) && DistinctKeys(lines, |lines|) &&
    forall g :: g in groups ==> g in KeysBefore(lines, |lines|)
  }

  /** A row without two columns stops the validator and breaks `ColorsOkFrom`. */
  lemma ColorsRowShort(lines: seq<string>, k: nat, seen: set<string>, groups: seq<string>, decode: string -> Option<Color>)
    requires 1 <= k < |lines| && !TwoColumns(lines[k])
    ensures ColorsVerdictFrom(lines, k, seen, groups, decode) != "true" && !ColorsOkFrom(lines, k, groups, decode)
  {
    assert ColorsVerdictFrom(lines, k, seen, groups, decode)[0] == 'L';
    assert !ColorRowOk(lines[k], decode);
  }

  /** A group seen in an earlier row stops the validator and breaks `ColorsOkFrom`. */
  lemma ColorsRowRepeated(lines: seq<string>, k: nat, seen: set<string>, groups: seq<string>, decode: string -> Option<Color>)
    requires 1 <= k < |lines| && TwoColumns(lines[k]) && seen == KeysBefore(lines, k) && RowKey(lines[k]) in seen
    ensures ColorsVerdictFrom(lines, k, seen, groups, decode) != "true" && !ColorsOkFrom(lines, k, groups, decode)
  {
    assert ColorsVerdictFrom(lines, k, seen, groups, decode)[0] == 'D';
    var j :| 1 <= j < k && RowKey(lines[j]) == RowKey(lines[k]);
    assert !DistinctKeys(lines, |lines|);
  }

  /** A new group whose colour does not decode stops the validator and breaks `ColorsOkFrom`. */
  lemma ColorsRowUndecodable(lines: seq<string>, k: nat, seen: set<string>, groups: seq<string>, decode: string -> Option<Color>)
    requires 1 <= k < |lines| && TwoColumns(lines[k]) && RowKey(lines[k]) !in seen && decode(RowValue(lines[k])).None?
    ensures ColorsVerdictFrom(lines, k, seen, groups, decode) != "true" && !ColorsOkFrom(lines, k, groups, decode)
  {
    var lit := "Colors should be represented as hex codes, found ";
    assert ColorsVerdictFrom(lines, k, seen, groups, decode) == lit + (RowValue(lines[k]) + "instead");
    assert !ColorRowOk(lines[k], decode);
  }

  /** A well-formed row with a new group passes the validator on to the next row. */
  lemma ColorsRowGood(lines: seq<string>, k: nat, seen: set<string>, groups: seq<string>, decode: string -> Option<Color>)
    requires 1 <= k < |lines| && ColorRowOk(lines[k], decode) && RowKey(lines[k]) !in seen
    ensures ColorsVerdictFrom(lines, k, seen, groups, decode) ==
              ColorsVerdictFrom(lines, k + 1, seen + {RowKey(lines[k])}, groups, decode)
    ensures ColorsOkFrom(lines, k, groups, decode) <==> ColorsOkFrom(lines, k + 1, groups, decode)
  {
  }

  lemma {:induction false} ColorsVerdictFromTrue(lines: seq<string>, k: nat, seen: set<string>, groups: seq<string>, decode: string -> Option<Color>)
    requires 1 <= k <= |lines|
    requires seen == KeysBefore(lines, k) && DistinctKeys(lines, k)
    ensures ColorsVerdictFrom(lines, k, seen, groups, decode) == "true" <==> ColorsOkFrom(lines, k, groups, decode)
    decreases |lines| - k
  {
    if k < |lines| {
      if !TwoColumns(lines[k]) {
        ColorsRowShort(lines, k, seen, groups, decode);
      } else if RowKey(lines[k]) in seen {
        ColorsRowRepeated(lines, k, seen, groups, decode);
      } else if decode(RowValue(lines[k])).None? {
        ColorsRowUndecodable(lines, k, seen, groups, decode);
      } else {
        KeysBeforeStep(lines, k);
        ColorsRowGood(lines, k, seen, groups, decode);
        ColorsVerdictFromTrue(lines, k + 1, seen + {RowKey(lines[k])}, groups, decode);
      }
    } else if FirstMissing(groups, seen).Some? {
      assert ColorsVerdictFrom(lines, k, seen, groups, decode)[0] == 'T';
    }
  }

  /** `isGroupColorsFileValid` says "true" exactly when the header and every
      row are well formed, no group is listed twice and every group has a
      colour; unlike `readGroupColors`, it refuses a group listed twice. */
  lemma ColorsVerdictTrueIff(lines: seq<string>, groups: seq<string>, path: string, decode: string -> Option<Color>)
    ensures ColorsVerdict(lines, groups, path, decode) == "true" <==>
              |lines| > 0 && lines[0] == ColorsHeader && (forall j :: 1 <= j < |lines| ==> ColorRowOk(lines[j], decode)) &&
              DistinctKeys(lines, |lines|) && forall g :: g in groups ==> g in KeysBefore(lines, |lines|)
  {
    if |lines| > 0 {
      if lines[0] == ColorsHeader {
        assert KeysBefore(lines, 1) == {};
        ColorsVerdictFromTrue(lines, 1, {}, groups, decode);
      } else {
        FirstLineMessageIsNotTrue(ColorsHeader, lines[0], path);
      }
    }
  }

  /** A colours file that validates also loads. */
  lemma ValidColorsFileLoads(lines: seq<string>, groups: seq<string>, path: string, decode: string -> Option<Color>)
    requires ColorsVerdict(lines, groups, path, decode) == "true"
    ensures ReadColors(lines, groups, decode).Ok?
  {
    ColorsVerdictTrueIff(lines, groups, path, decode);
    ReadColorsSpec(lines, groups, decode);
  }

  /** Reading keeps the first colour of a group listed twice, which the
      validator refuses. */
  lemma DuplicateColorTolerated(g: string, c: Color, d: Color, path: string, decode: string -> Option<Color>)
    requires ReadsHex(decode) && '\t' !in g
    ensures ReadColors([ColorsHeader, g + "\t" + HexColor(c), g + "\t" + HexColor(d)], [g], decode) == Ok(map[g := c])
    ensures ColorsVerdict([ColorsHeader, g + "\t" + HexColor(c), g + "\t" + HexColor(d)], [g], path, decode)
            == "Duplicate groupLabel found: " + g
  {
    var lines := [ColorsHeader, g + "\t" + HexColor(c), g + "\t" + HexColor(d)];
    ColorLine(g, c);
    ColorLine(g, d);
    assert decode(HexColor(c)) == Some(c) && decode(HexColor(d)) == Some(d);
    assert ColorsFrom(lines, 1, map[], decode) == ColorsFrom(lines, 2, map[g := c], decode);
    assert ColorsFrom(lines, 2, map[g := c], decode) == Ok(map[g := c]);
    assert FirstMissing([g], {g}).None?;
    assert ColorsVerdictFrom(lines, 1, {}, [g], decode) == ColorsVerdictFrom(lines, 2, {g}, [g], decode);
  }

  // ---------------------------------------------------------------------
  // Generated files
  // ---------------------------------------------------------------------

  /** The lines `generateGroupLabelsFile` writes: every sample in group "unknown". */
  function GroupLabelsLines(samples: seq<string>): seq<string>
  {
    [LabelsHeader] + seq(|samples|, i requires 0 <= i < |samples| => samples[i] + "\t" + DefaultLabel)
  }

  /** `generateGroupLabelsFile`, as the text written with `eol` after each line. */
  method GenerateGroupLabelsFile(samples: seq<string>, eol: string) returns (text: string)
    ensures text == Render(GroupLabelsLines(samples), eol)
  {
    text := LabelsHeader + eol;
    assert GroupLabelsLines(samples)[..1] == [LabelsHeader];
    var i := 0;
    while i < |samples|
      invariant 0 <= i <= |samples|
      invariant text == Render(GroupLabelsLines(samples)[..i + 1], eol)
    {
      assert GroupLabelsLines(samples)[i + 1] == samples[i] + "\t" + DefaultLabel;
      RenderStep(GroupLabelsLines(samples), i + 1, eol);
      text := text + (samples[i] + "\t" + DefaultLabel) + eol;
      i := i + 1;
    }
    assert GroupLabelsLines(samples)[..i + 1] == GroupLabelsLines(samples);
  }

  lemma LabelsLine(samples: seq<string>, j: nat)
    requires 1 <= j <= |samples| && '\t' !in samples[j - 1]
    ensures TwoColumns(GroupLabelsLines(samples)[j])
    ensures RowKey(GroupLabelsLines(samples)[j]) == samples[j - 1]
    ensures RowValue(GroupLabelsLines(samples)[j]) == DefaultLabel
  {
    assert GroupLabelsLines(samples)[j] == samples[j - 1] + ['\t'] + DefaultLabel;
    SplitTwo(samples[j - 1], DefaultLabel, '\t');
  }

  lemma GroupLabelsRows(samples: seq<string>)
    requires forall i :: 0 <= i < |samples| ==> '\t' !in samples[i]
    ensures var lines := GroupLabelsLines(samples);
      forall j :: 1 <= j < |lines| ==>
        TwoColumns(lines[j]) && RowKey(lines[j]) == samples[j - 1] && RowValue(lines[j]) == DefaultLabel
  {
    var lines := GroupLabelsLines(samples);
    forall j | 1 <= j < |lines|
      ensures TwoColumns(lines[j]) && RowKey(lines[j]) == samples[j - 1] && RowValue(lines[j]) == DefaultLabel
    {
      LabelsLine(samples, j);
    }
  }

  /** The generated labels file for distinct, tab-free samples validates
      against those samples. */
  lemma GroupLabelsFileValidates(samples: seq<string>, path: string)
    requires Distinct(samples) && forall i :: 0 <= i < |samples| ==> '\t' !in samples[i]
    ensures LabelsVerdict(GroupLabelsLines(samples), samples, path) == "true"
  {
    var lines := GroupLabelsLines(samples);
    GroupLabelsRows(samples);
    KeysOfList(lines, samples);
    LabelsVerdictTrueIff(lines, samples, path);
  }

  /** The generated labels file for tab-free samples loads them all, in
      order, into the group "unknown", and no other group. */
  lemma GroupLabelsFileLoads(samples: seq<string>)
    requires forall i :: 0 <= i < |samples| ==> '\t' !in samples[i]
    ensures ReadLabels(GroupLabelsLines(samples), map[], map[]).Ok?
    ensures ReadLabels(GroupLabelsLines(samples), map[], map[]).value.1 ==
              if |samples| == 0 then map[] else map[DefaultLabel := samples]
  {
    GroupLabelsRows(samples);
    OneGroupLoads(GroupLabelsLines(samples), samples, DefaultLabel);
  }

  /** Rows that all put their sample in group `g` load as that one group. */
  lemma OneGroupLoads(lines: seq<string>, samples: seq<string>, g: string)
    requires |lines| == |samples| + 1 && lines[0] == LabelsHeader
    requires forall j :: 1 <= j < |lines| ==>
               TwoColumns(lines[j]) && RowKey(lines[j]) == samples[j - 1] && RowValue(lines[j]) == g
    ensures ReadLabels(lines, map[], map[]).Ok?
    ensures ReadLabels(lines, map[], map[]).value.1 == if |samples| == 0 then map[] else map[g := samples]
  {
    assert RowsOk(lines, 1, |lines|);
    LabelsFromOk(lines, 1, [], map[], map[]);
    LabelsFromGroups(lines, 1, [], map[], map[]);
    OneGroupSamples(lines, samples, g, |lines|);
    OneGroupSeen(lines, g, |lines|);
    assert samples[..|lines| - 1] == samples;
    var r := LabelsFrom(lines, 1, [], map[], map[]).value;
    GroupsOfOne(lines, r.0, r.1, g, samples);
  }

  lemma GroupsOfOne(lines: seq<string>, groups: seq<string>, gsm: map<string, seq<string>>, g: string,
                    samples: seq<string>)
    requires |lines| == |samples| + 1 && GroupsSoFar(lines, |lines|, groups, gsm)
    requires FirstSeen(lines, |lines|) == (if |samples| == 0 then [] else [g])
    requires SamplesOf(lines, |lines|, g) == samples
    ensures gsm == if |samples| == 0 then map[] else map[g := samples]
  {
    if |samples| > 0 {
      assert gsm.Keys == {g};
    } else {
      assert gsm.Keys == {};
    }
  }

  lemma {:induction false} OneGroupSamples(lines: seq<string>, samples: seq<string>, g: string, hi: nat)
    requires |lines| == |samples| + 1 && 1 <= hi <= |lines|
    requires forall j :: 1 <= j < |lines| ==>
               TwoColumns(lines[j]) && RowKey(lines[j]) == samples[j - 1] && RowValue(lines[j]) == g
    ensures SamplesOf(lines, hi, g) == samples[..hi - 1]
    decreases hi
  {
    if hi > 1 {
      OneGroupSamples(lines, samples, g, hi - 1);
      assert samples[..hi - 1] == samples[..hi - 2] + [samples[hi - 2]];
    }
  }

  lemma {:induction false} OneGroupSeen(lines: seq<string>, g: string, hi: nat)
    requires 1 <= hi <= |lines|
    requires forall j :: 1 <= j < |lines| ==> TwoColumns(lines[j]) && RowValue(lines[j]) == g
    ensures FirstSeen(lines, hi) == if hi == 1 then [] else [g]
    decreases hi
  {
    if hi > 1 {
      OneGroupSeen(lines, g, hi - 1);
    }
  }

  /** The lines `generateGroupColorsFile` writes for groups listed in `order`. */
  function ColorsFileLines(order: seq<string>, cm: map<string, Color>): seq<string>
    requires forall i :: 0 <= i < |order| ==> order[i] in cm
  {
    [ColorsHeader] + seq(|order|, i requires 0 <= i < |order| => order[i] + "\t" + HexColor(cm[order[i]]))
  }

  /** One well-formed row of the colours file read: the step `ColorsFrom` takes at index k. */
  lemma ColorsFromStep(lines: seq<string>, k: nat, cm: map<string, Color>, decode: string -> Option<Color>)
    requires 1 <= k < |lines| && |Split(lines[k], '\t')| == 2 && decode(Split(lines[k], '\t')[1]).Some?
    ensures var tokens := Split(lines[k], '\t');
      var c := decode(tokens[1]).value;
      ColorsFrom(lines, k, cm, decode) == ColorsFrom(lines, k + 1, if tokens[0] in cm then cm else cm[tokens[0] := c], decode)
  {
  }

  /** The row loop of `readGroupColors`: each row's colour is kept for its group
      unless the group already has one; the first malformed row stops the read. */
  method ReadColorRows(lines: seq<string>) returns (r: Result<map<string, Color>, GroupError>, cm: map<string, Color>)
    requires |lines| >= 1
    ensures r == ColorsFrom(lines, 1, map[], Decode)
    ensures cm == ColorsSoFar(lines, 1, map[], Decode)
  {
    cm := map[];
    var lineNum := 1;
    while lineNum < |lines|
      invariant 1 <= lineNum <= |lines|
      invariant ColorsFrom(lines, 1, map[], Decode) == ColorsFrom(lines, lineNum, cm, Decode)
      invariant ColorsSoFar(lines, 1, map[], Decode) == ColorsSoFar(lines, lineNum, cm, Decode)
    {
      var tokens := Split(lines[lineNum], '\t');
      if |tokens| != 2 {
        return Err(ColumnCount(lineNum, |tokens|)), cm;
      }
      var groupLabel := tokens[0];
      var decodedColor := Decode(tokens[1]);
      if decodedColor.None? {
        return Err(NotAHexColor(groupLabel, tokens[1])), cm;
      }
      ColorsFromStep(lines, lineNum, cm, Decode);
      if groupLabel !in cm {
        cm := cm[groupLabel := decodedColor.value];
      }
      lineNum := lineNum + 1;
    }
    return Ok(cm), cm;
  }

  /** The loop of `generateGroupColorsFile`: the header, then one row per group
      in `order`, each followed by `eol`. */
  method WriteColorRows(order: seq<string>, cm: map<string, Color>, eol: string) returns (text: string)
    requires forall i :: 0 <= i < |order| ==> order[i] in cm
    ensures text == Render(ColorsFileLines(order, cm), eol)
  {
    ghost var lines := ColorsFileLines(order, cm);
    text := ColorsHeader + eol;
    assert lines[..1] == [ColorsHeader];
    var i := 0;
    while i < |order|
      invariant 0 <= i <= |order|
      invariant text == Render(lines[..i + 1], eol)
    {
      var g := order[i];
      assert lines[i + 1] == g + "\t" + HexColor(cm[g]);
      RenderStep(lines, i + 1, eol);
      text := text + (g + "\t" + HexColor(cm[g])) + eol;
      i := i + 1;
    }
    assert lines[..i + 1] == lines;
  }

  lemma ColorLine(g: string, c: Color)
    requires '\t' !in g
    ensures Split(g + "\t" + HexColor(c), '\t') == [g, HexColor(c)]
  {
    assert '\t' !in HexColor(c) by {
      assert forall d: nat :: d < 16 ==> HexDigit(d) != '\t';
    }
    SplitTwo(g, HexColor(c), '\t');
  }

  /** The first row naming a group gives that group's colour. */
  lemma {:induction false} FirstColorAt(lines: seq<string>, hi: nat, i: nat, decode: string -> Option<Color>)
    requires 1 <= i < hi <= |lines|
    requires forall j :: 1 <= j < hi ==> ColorRowOk(lines[j], decode)
    requires forall j :: 1 <= j < i ==> RowKey(lines[j]) != RowKey(lines[i])
    ensures FirstColor(lines, hi, RowKey(lines[i]), decode) == decode(RowValue(lines[i]))
    decreases hi
  {
    if hi - 1 > i {
      FirstColorAt(lines, hi - 1, i, decode);
    } else {
      FirstColorFound(lines, i, RowKey(lines[i]), decode);
    }
  }

  lemma ColorsFileRowKey(order: seq<string>, cm: map<string, Color>, j: nat)
    requires forall g :: g in order ==> g in cm && '\t' !in g
    requires 1 <= j <= |order|
    ensures Split(ColorsFileLines(order, cm)[j], '\t') == [order[j - 1], HexColor(cm[order[j - 1]])]
    ensures RowKey(ColorsFileLines(order, cm)[j]) == order[j - 1]
  {
    assert ColorsFileLines(order, cm)[j] == order[j - 1] + "\t" + HexColor(cm[order[j - 1]]);
    ColorLine(order[j - 1], cm[order[j - 1]]);
  }

  lemma ColorsFileRow(order: seq<string>, cm: map<string, Color>, j: nat, decode: string -> Option<Color>)
    requires ReadsHex(decode) && forall g :: g in order ==> g in cm && '\t' !in g
    requires 1 <= j <= |order|
    ensures var line := ColorsFileLines(order, cm)[j];
      ColorRowOk(line, decode) && RowKey(line) == order[j - 1] && decode(RowValue(line)) == Some(cm[order[j - 1]])
  {
    ColorsFileRowKey(order, cm, j);
    assert decode(HexColor(cm[order[j - 1]])) == Some(cm[order[j - 1]]);
  }

  /** Row j of a written colours file names group order[j - 1] with its colour. */
  lemma ColorsFileRows(order: seq<string>, cm: map<string, Color>, decode: string -> Option<Color>)
    requires ReadsHex(decode) && forall g :: g in order ==> g in cm && '\t' !in g
    ensures var lines := ColorsFileLines(order, cm);
      forall j :: 1 <= j < |lines| ==>
        ColorRowOk(lines[j], decode) && RowKey(lines[j]) == order[j - 1] &&
        decode(RowValue(lines[j])) == Some(cm[order[j - 1]])
  {
    var lines := ColorsFileLines(order, cm);
    forall j | 1 <= j < |lines|
      ensures ColorRowOk(lines[j], decode) && RowKey(lines[j]) == order[j - 1]
      ensures decode(RowValue(lines[j])) == Some(cm[order[j - 1]])
    {
      ColorsFileRow(order, cm, j, decode);
    }
  }

  /** Rows naming the entries of a list without repeats name each entry once. */
  lemma KeysOfList(lines: seq<string>, keys: seq<string>)
    requires |lines| == |keys| + 1 && Distinct(keys)
    requires forall j :: 1 <= j < |lines| ==> RowKey(lines[j]) == keys[j - 1]
    ensures KeysBefore(lines, |lines|) == set g | g in keys
    ensures DistinctKeys(lines, |lines|)
  {
    forall g | g in keys
      ensures g in KeysBefore(lines, |lines|)
    {
      var i :| 0 <= i < |keys| && keys[i] == g;
      assert RowKey(lines[i + 1]) == g;
    }
  }

  /** A written colours file names every group of the map once. */
  lemma ColorsFileKeys(order: seq<string>, cm: map<string, Color>)
    requires Enumerates(order, cm.Keys)
    requires forall g :: g in cm ==> '\t' !in g
    ensures var lines := ColorsFileLines(order, cm);
      KeysBefore(lines, |lines|) == cm.Keys && DistinctKeys(lines, |lines|)
  {
    var lines := ColorsFileLines(order, cm);
    forall j | 1 <= j < |lines|
      ensures RowKey(lines[j]) == order[j - 1]
    {
      ColorsFileRowKey(order, cm, j);
    }
    KeysOfList(lines, order);
  }

  /** The colours file written for a colour map validates whenever the group
      names are tab-free and every group of the list has a colour. */
  lemma ColorsFileValidates(order: seq<string>, cm: map<string, Color>, groups: seq<string>, path: string,
                            decode: string -> Option<Color>)
    requires ReadsHex(decode) && Enumerates(order, cm.Keys)
    requires forall g :: g in cm ==> '\t' !in g
    requires forall g :: g in groups ==> g in cm
    ensures ColorsVerdict(ColorsFileLines(order, cm), groups, path, decode) == "true"
  {
    var lines := ColorsFileLines(order, cm);
    ColorsFileRows(order, cm, decode);
    ColorsFileKeys(order, cm);
    assert forall j :: 1 <= j < |lines| ==> ColorRowOk(lines[j], decode);
    assert forall g :: g in groups ==> g in KeysBefore(lines, |lines|);
    ColorsVerdictTrueIff(lines, groups, path, decode);
  }

  /** Rows giving each group of a map its colour, once, hold exactly that map
      as their first colours. */
  lemma FirstColorsOfList(lines: seq<string>, order: seq<string>, cm: map<string, Color>, r: map<string, Color>,
                          decode: string -> Option<Color>)
    requires |lines| == |order| + 1 && Enumerates(order, cm.Keys)
    requires forall j :: 1 <= j < |lines| ==>
               ColorRowOk(lines[j], decode) && RowKey(lines[j]) == order[j - 1] &&
               decode(RowValue(lines[j])) == Some(cm[order[j - 1]])
    requires FirstColors(lines, |lines|, r, decode)
    ensures r == cm
  {
    forall g | g in cm
      ensures g in r && r[g] == cm[g]
    {
      var i :| 0 <= i < |order| && order[i] == g;
      FirstColorOfListed(lines, order, cm, i, decode);
      assert FirstColor(lines, |lines|, g, decode) == (if g in r then Some(r[g]) else None);
    }
    forall g | g in r
      ensures g in cm
    {
      assert FirstColor(lines, |lines|, g, decode) == Some(r[g]);
      FirstColorFound(lines, |lines|, g, decode);
      var j :| 1 <= j < |lines| && RowKey(lines[j]) == g;
      assert order[j - 1] in order;
    }
  }

  lemma FirstColorOfListed(lines: seq<string>, order: seq<string>, cm: map<string, Color>, i: nat,
                           decode: string -> Option<Color>)
    requires |lines| == |order| + 1 && Enumerates(order, cm.Keys) && i < |order|
    requires forall j :: 1 <= j < |lines| ==>
               ColorRowOk(lines[j], decode) && RowKey(lines[j]) == order[j - 1] &&
               decode(RowValue(lines[j])) == Some(cm[order[j - 1]])
    ensures FirstColor(lines, |lines|, order[i], decode) == Some(cm[order[i]])
  {
    forall j | 1 <= j < i + 1
      ensures RowKey(lines[j]) != RowKey(lines[i + 1])
    {
      assert RowKey(lines[j]) == order[j - 1];
    }
    FirstColorAt(lines, |lines|, i + 1, decode);
  }

  /** Under the same conditions the written colours file reads back as the
      colour map it was written from. */
  lemma ColorsFileReadsBack(order: seq<string>, cm: map<string, Color>, groups: seq<string>,
                            decode: string -> Option<Color>)
    requires ReadsHex(decode) && Enumerates(order, cm.Keys)
    requires forall g :: g in cm ==> '\t' !in g
    requires forall g :: g in groups ==> g in cm
    ensures ReadColors(ColorsFileLines(order, cm), groups, decode) == Ok(cm)
  {
    var lines := ColorsFileLines(order, cm);
    ColorsFileRows(order, cm, decode);
    ColorsFileKeys(order, cm);
    ReadColorsSpec(lines, groups, decode);
    FirstColorsOfList(lines, order, cm, ReadColors(lines, groups, decode).value, decode);
  }

  // ---------------------------------------------------------------------
  // The group-labels object
  // ---------------------------------------------------------------------

  /** The static `groups` list, shared by every `GroupLabels` object. */
  class GroupList {
    var items: seq<string>

    constructor ()
      ensures items == []
    {
      items := [];
    }
  }

  class GroupLabels {
    const groups: GroupList
    var sampleColorsMap: map<string, Color>
    var groupSamplesMap: map<string, seq<string>>
    var groupLabelColorMap: map<string, Color>
    var sampleGroupLabelMap: map<string, string>

    /** `initializeMaps`: empty maps and an empty shared group list. */
    method InitializeMaps()
      modifies this, groups
      ensures groups.items == [] && sampleColorsMap == map[] && groupSamplesMap == map[]
      ensures groupLabelColorMap == map[] && sampleGroupLabelMap == map[]
    {
      sampleColorsMap := map[];
      groupSamplesMap := map[];
      groupLabelColorMap := map[];
      sampleGroupLabelMap := map[];
      groups.items := [];
    }

    /** The constructor: every sample in the single group "unknown", coloured #7E9495. */
    constructor (shared: GroupList, samples: seq<string>)
      modifies shared
      ensures groups == shared && groups.items == [DefaultLabel]
      ensures groupSamplesMap == map[DefaultLabel := samples]
      ensures groupLabelColorMap == map[DefaultLabel := Color(126, 148, 149)]
      ensures sampleGroupLabelMap == map[] && sampleColorsMap == map[]
    {
      groups := shared;
      sampleColorsMap := map[];
      groupSamplesMap := map[];
      groupLabelColorMap := map[];
      sampleGroupLabelMap := map[];
      new;
      groups.items := [];
      groups.items := groups.items + [DefaultLabel];
      groupSamplesMap := groupSamplesMap[DefaultLabel := samples];
      DefaultColorDecodes();
      groupLabelColorMap := groupLabelColorMap[DefaultLabel := Decode(DefaultColor).value];
    }

    /** `readGroupLabels`, given the lines of the file. */
    method ReadGroupLabels(lines: seq<string>) returns (r: Result<(), GroupError>)
      modifies this, groups
      ensures var e := ReadLabels(lines, old(groupSamplesMap), old(sampleGroupLabelMap));
        (r.Ok? <==> e.Ok?) && (r.Err? ==> r.error == e.error) &&
        (r.Ok? ==> (groups.items, groupSamplesMap, sampleGroupLabelMap) == e.value)
      // On success and on failure alike: the rows read before the loop stopped.
      ensures (groups.items, groupSamplesMap, sampleGroupLabelMap) ==
              ReadLabelsSoFar(lines, old(groups.items), old(groupSamplesMap), old(sampleGroupLabelMap))
      ensures groupLabelColorMap == old(groupLabelColorMap) && sampleColorsMap == old(sampleColorsMap)
    {
      if |lines| == 0 {
        return Err(MissingHeader);
      }
      var header := lines[0];
      if header != LabelsHeader {
        return Err(InvalidHeader(header));
      }
      groups.items := [];
      r := ReadLabelRows(lines);
    }

    /** The row loop of `readGroupLabels`: each row adds its sample to the
        current groups and maps; the first row without two columns stops it. */
    method ReadLabelRows(lines: seq<string>) returns (r: Result<(), GroupError>)
      requires |lines| >= 1 && Covers(groups.items, groupSamplesMap)
      modifies this, groups
      ensures var e := LabelsFrom(lines, 1, old(groups.items), old(groupSamplesMap), old(sampleGroupLabelMap));
        (r.Ok? <==> e.Ok?) && (r.Err? ==> r.error == e.error) &&
        (r.Ok? ==> (groups.items, groupSamplesMap, sampleGroupLabelMap) == e.value)
      ensures (groups.items, groupSamplesMap, sampleGroupLabelMap) ==
              LabelsSoFar(lines, 1, old(groups.items), old(groupSamplesMap), old(sampleGroupLabelMap))
      ensures groupLabelColorMap == old(groupLabelColorMap) && sampleColorsMap == old(sampleColorsMap)
    {
      ghost var whole := LabelsFrom(lines, 1, groups.items, groupSamplesMap, sampleGroupLabelMap);
      ghost var soFar := LabelsSoFar(lines, 1, groups.items, groupSamplesMap, sampleGroupLabelMap);
      var lineNum := 1;
      while lineNum < |lines|
        invariant 1 <= lineNum <= |lines|
        invariant Covers(groups.items, groupSamplesMap)
        invariant whole == LabelsFrom(lines, lineNum, groups.items, groupSamplesMap, sampleGroupLabelMap)
        invariant soFar == LabelsSoFar(lines, lineNum, groups.items, groupSamplesMap, sampleGroupLabelMap)
        invariant groupLabelColorMap == old(groupLabelColorMap) && sampleColorsMap == old(sampleColorsMap)
      {
        var tokens := Split(lines[lineNum], '\t');
        if |tokens| != 2 {
          return Err(ColumnCount(lineNum, |tokens|));
        }
        var sample := tokens[0];
        var groupLabel := tokens[1];
        LabelsFromStep(lines, lineNum, groups.items, groupSamplesMap, sampleGroupLabelMap);
        assert RowKey(lines[lineNum]) == sample && RowValue(lines[lineNum]) == groupLabel;
        AddSample(sample, groupLabel);
        lineNum := lineNum + 1;
      }
      return Ok(());
    }

    /** One row of `readGroupLabels`: a new group is listed with an empty
        sample list, the sample joins its group, and is labelled with it. */
    method AddSample(sample: string, groupLabel: string)
      requires forall g :: g in groups.items ==> g in groupSamplesMap
      modifies this, groups
      ensures (groups.items, groupSamplesMap) == AddRow(old(groups.items), old(groupSamplesMap), sample, groupLabel)
      ensures sampleGroupLabelMap == old(sampleGroupLabelMap)[sample := groupLabel]
      ensures groupLabelColorMap == old(groupLabelColorMap) && sampleColorsMap == old(sampleColorsMap)
    {
      if groupLabel !in groups.items {
        groups.items := groups.items + [groupLabel];
        groupSamplesMap := groupSamplesMap[groupLabel := []];
      }
      groupSamplesMap := groupSamplesMap[groupLabel := groupSamplesMap[groupLabel] + [sample]];
      sampleGroupLabelMap := sampleGroupLabelMap[sample := groupLabel];
    }

    /** `setDefaultPalette`: colours the groups from palette set 2. */
    method SetDefaultPalette() returns (r: Result<(), GroupError>)
      modifies this
      ensures var e := DefaultPalette(groups.items, old(groupLabelColorMap), Decode);
        (r.Ok? <==> e.Ok?) && (r.Err? ==> r.error == e.error) && (r.Ok? ==> groupLabelColorMap == e.value)
      // On success and on failure alike: the groups coloured before the loop stopped.
      ensures groupLabelColorMap == DefaultPaletteSoFar(groups.items, old(groupLabelColorMap), Decode)
      ensures groupSamplesMap == old(groupSamplesMap) && sampleGroupLabelMap == old(sampleGroupLabelMap)
      ensures sampleColorsMap == old(sampleColorsMap)
    {
      var gs := groups.items;
      var palette := GetColorPalette(|gs|, SET2);
      if palette.None? {
        return Err(TooManyGroups(|gs|));
      }
      ghost var whole := PaletteFrom(gs, palette.value, 0, groupLabelColorMap, Decode);
      ghost var soFar := PaletteSoFar(gs, palette.value, 0, groupLabelColorMap, Decode);
      var i := 0;
      while i < |gs|
        invariant 0 <= i <= |gs| && gs == groups.items
        invariant whole == PaletteFrom(gs, palette.value, i, groupLabelColorMap, Decode)
        invariant soFar == PaletteSoFar(gs, palette.value, i, groupLabelColorMap, Decode)
        invariant groupSamplesMap == old(groupSamplesMap) && sampleGroupLabelMap == old(sampleGroupLabelMap)
        invariant sampleColorsMap == old(sampleColorsMap)
      {
        var g := gs[i];
        var slot := palette.value[i];
        if slot.None? {
          return Err(NullPaletteColor);
        }
        var decoded := Decode(slot.value);
        if decoded.None? {
          return Err(BadPaletteColor(slot.value));
        }
        PaletteStep(gs, palette.value, i, groupLabelColorMap, Decode);
        groupLabelColorMap := groupLabelColorMap[g := decoded.value];
        i := i + 1;
      }
      return Ok(());
    }

    /** `setGroupLabels` once the file is known to exist: reset, read the
        labels, then colour the groups from the default palette. */
    method SetGroupLabels(lines: seq<string>) returns (r: Result<(), GroupError>)
      modifies this, groups
      ensures var e := ReadLabels(lines, map[], map[]);
        e.Err? ==> r == Err(e.error)
      ensures var e := ReadLabels(lines, map[], map[]);
        e.Ok? ==> (r.Ok? <==> DefaultPalette(e.value.0, map[], Decode).Ok?) &&
                  (r.Err? ==> r.error == DefaultPalette(e.value.0, map[], Decode).error) &&
                  (r.Ok? ==> (groups.items, groupSamplesMap, sampleGroupLabelMap) == e.value &&
                             groupLabelColorMap == DefaultPalette(e.value.0, map[], Decode).value)
      // The state a failure leaves: a read error keeps the rows read before it
      // and no colours; a palette error keeps the labels and the groups coloured
      // before the bad slot.
      ensures sampleColorsMap == map[]
      ensures var e := ReadLabels(lines, map[], map[]);
        e.Err? ==> (groups.items, groupSamplesMap, sampleGroupLabelMap) == ReadLabelsSoFar(lines, [], map[], map[]) &&
                   groupLabelColorMap == map[]
      ensures var e := ReadLabels(lines, map[], map[]);
        e.Ok? ==> (groups.items, groupSamplesMap, sampleGroupLabelMap) == e.value &&
                  groupLabelColorMap == DefaultPaletteSoFar(e.value.0, map[], Decode)
    {
      InitializeMaps();
      r := ReadGroupLabels(lines);
      if r.Err? {
        return;
      }
      r := SetDefaultPalette();
    }

    /** `readGroupColors`, given the lines of the file. */
    method ReadGroupColors(lines: seq<string>) returns (r: Result<(), GroupError>)
      modifies this
      ensures var e := ReadColors(lines, groups.items, Decode);
        (r.Ok? <==> e.Ok?) && (r.Err? ==> r.error == e.error) && (r.Ok? ==> groupLabelColorMap == e.value)
      ensures groupSamplesMap == old(groupSamplesMap) && sampleGroupLabelMap == old(sampleGroupLabelMap)
      ensures sampleColorsMap == old(sampleColorsMap)
      // A missing or wrong header leaves the colour map alone; past the header
      // the map is replaced and holds the rows read before the loop stopped.
      ensures |lines| == 0 || lines[0] != ColorsHeader ==> groupLabelColorMap == old(groupLabelColorMap)
      ensures |lines| > 0 && lines[0] == ColorsHeader ==> groupLabelColorMap == ColorsSoFar(lines, 1, map[], Decode)
    {
      if |lines| == 0 {
        return Err(MissingHeader);
      }
      var header := lines[0];
      if header != ColorsHeader {
        return Err(InvalidHeader(header));
      }
      var read, soFar := ReadColorRows(lines);
      groupLabelColorMap := soFar;
      if read.Err? {
        return Err(read.error);
      }
      ColorsSoFarFirst(lines, 1, map[], Decode);
      var gs := groups.items;
      var missing := FindMissing(gs, groupLabelColorMap.Keys);
      if missing.Some? {
        return Err(MissingGroup(missing.value));
      }
      return Ok(());
    }

    /** `isGroupColorsFileValid`, against the shared group list. */
    method IsGroupColorsFileValid(lines: seq<string>, path: string) returns (msg: string)
      ensures msg == ColorsVerdict(lines, groups.items, path, Decode)
    {
      if |lines| == 0 {
        return "The file is empty.";
      }
      if lines[0] != ColorsHeader {
        return FirstLineMessage(ColorsHeader, lines[0], path);
      }
      var seen: map<string, Color> := map[];
      assert seen.Keys == {};
      var k := 1;
      while k < |lines|
        invariant 1 <= k <= |lines|
        invariant ColorsVerdict(lines, groups.items, path, Decode) == ColorsVerdictFrom(lines, k, seen.Keys, groups.items, Decode)
      {
        var count := k + 1;
        var tokens := Split(lines[k], '\t');
        if |tokens| != 2 {
          return "Line number " + IntToString(count) + " does not contain 2columns";
        }
        var groupLabel := tokens[0];
        if groupLabel in seen {
          return "Duplicate groupLabel found: " + groupLabel;
        }
        var decodedColor := Decode(tokens[1]);
        if decodedColor.None? {
          return "Colors should be represented as hex codes, found " + tokens[1] + "instead";
        }
        assert seen[groupLabel := decodedColor.value].Keys == seen.Keys + {groupLabel};
        seen := seen[groupLabel := decodedColor.value];
        k := k + 1;
      }
      var gs := groups.items;
      var missing := FindMissing(gs, seen.Keys);
      if missing.Some? {
        return "The file did not contain the group" + missing.value;
      }
      return "true";
    }

    /** `generateGroupColorsFile`, as the text written with `eol` after each
        line: the default palette is applied first, then every coloured group
        is written, in the map's iteration order. */
    method GenerateGroupColorsFile(eol: string) returns (r: Result<string, GroupError>, ghost order: seq<string>)
      modifies this
      ensures var e := DefaultPalette(groups.items, old(groupLabelColorMap), Decode);
        (r.Ok? <==> e.Ok?) && (r.Err? ==> r.error == e.error) && (r.Ok? ==> groupLabelColorMap == e.value)
      ensures r.Ok? ==> Enumerates(order, groupLabelColorMap.Keys) &&
                        r.value == Render(ColorsFileLines(order, groupLabelColorMap), eol)
    {
      order := [];
      var text := "";
      var palette := SetDefaultPalette();
      if palette.Err? {
        return Err(palette.error), order;
      }
      var keys := Enumerate(groupLabelColorMap.Keys);
      order := keys;
      text := WriteColorRows(keys, groupLabelColorMap, eol);
      return Ok(text), order;
    }

    /** `getSamples`: the samples of a group, null for an unknown group. */
    function GetSamples(groupLabel: string): (r: Option<seq<string>>)
      reads this
      ensures r.Some? <==> groupLabel in groupSamplesMap
      ensures r.Some? ==> r.value == groupSamplesMap[groupLabel]
    {
      if groupLabel !in groupSamplesMap then None else Some(groupSamplesMap[groupLabel])
    }
  }
}
