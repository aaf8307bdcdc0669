/** The state logic of the TMM control panel: the iteration-title and
    boot-cycle fields, the shortened names shown for chosen files, the three
    stage flags, and which buttons the panel enables from them. */
module Panel {
  import opened Common

  const UntitledIteration: string := "Untitled_iteration"
  const BootCyclesDefault: int := 200

  const TitleEmptyMessage: string := "The iteration title should not be empty!"
  const TitleSpaceMessage: string := "The iteration title should not contain spaces!"
  const TitleCharMessage: string := "Invalid character found in iteration title, characters \"/, \\, :\" are not allowed"

  /** A chosen `java.io.File`: its name, absolute path, whether it exists and
      whether it is a directory. */
  datatype Dir = Dir(name: string, absolutePath: string, present: bool, isDirectory: bool)

  // ---------------------------------------------------------------------
  // The iteration title
  // ---------------------------------------------------------------------

  /** `contains` of a one-character string is membership of that character. */
  lemma {:induction false} ContainsChar(s: string, c: char)
    ensures Contains(s, [c]) <==> c in s
    decreases |s|
  {
    if |s| > 0 {
      ContainsChar(s[1..], c);
      assert s == [s[0]] + s[1..];
    }
  }

  /** A title the title field accepts: not empty, and none of space, slash,
      backslash or colon. */
  predicate EventTitleOk(t: string)
  {
    |t| > 0 && forall k :: 0 <= k < |t| ==> t[k] != ' ' && t[k] != '/' && t[k] != '\\' && t[k] != ':'
  }

  /** A title the saved settings may restore: not empty and no space. */
  predicate LoadedTitleOk(t: string)
  {
    |t| > 0 && ' ' !in t
  }

  /** The message `jtxt_iterationTitleActionPerformed` shows, None when it
      accepts the title. */
  function TitleError(t: string): (e: Option<string>)
    ensures e.None? <==> EventTitleOk(t)
  {
    ContainsChar(t, ' ');
    ContainsChar(t, '/');
    ContainsChar(t, '\\');
    ContainsChar(t, ':');
    if t == "" then Some(TitleEmptyMessage)
    else if Contains(t, " ") then Some(TitleSpaceMessage)
    else if Contains(t, "/") || Contains(t, "\\") || Contains(t, ":") then Some(TitleCharMessage)
    else None
  }

  /** Every title the field accepts would also be restored from the saved
      settings; the converse fails, for instance for "a/b". */
  lemma EventTitleLoads(t: string)
    ensures EventTitleOk(t) ==> LoadedTitleOk(t)
    ensures LoadedTitleOk("a/b") && !EventTitleOk("a/b")
  {
    if EventTitleOk(t) {
      assert forall k :: 0 <= k < |t| ==> t[k] != ' ';
    }
    assert "a/b"[1] == '/';
  }

  /** The title after loading the saved setting (lines 457-460). */
  function LoadedTitle(property: Option<string>, current: string): (t: string)
    ensures property.Some? && LoadedTitleOk(property.value) ==> t == property.value
    ensures !(property.Some? && LoadedTitleOk(property.value)) ==> t == current
  {
    ContainsChar(if property.Some? then property.value else "", ' ');
    if property.Some? && property.value != "" && !Contains(property.value, " ") then property.value else current
  }

  // ---------------------------------------------------------------------
  // Boot cycles
  // ---------------------------------------------------------------------

  /** `jtxt_bootCyclesActionPerformed`: the parsed count, or 200 when the
      text is not an integer or is below 1. */
  function BootCycles(text: string): (n: int)
    ensures 1 <= n <= IntMax
    ensures ParseInt(text).Some? && ParseInt(text).value >= 1 ==> n == ParseInt(text).value
    ensures ParseInt(text).None? || ParseInt(text).value < 1 ==> n == BootCyclesDefault
  {
    match ParseInt(text)
    case None => BootCyclesDefault
    case Some(v) => if v < 1 then BootCyclesDefault else v
  }

  /** The text the field shows afterwards is read back as the same count, so
      entering it again changes nothing. */
  lemma BootCyclesStable(text: string)
    ensures BootCycles(IntToString(BootCycles(text))) == BootCycles(text)
    ensures ParseInt(IntToString(BootCycles(text))) == Some(BootCycles(text))
  {
    ParseIntToString(BootCycles(text));
  }

  // ---------------------------------------------------------------------
  // Shortened names
  // ---------------------------------------------------------------------

  /** A name longer than `limit` shows its first `keep` characters and "...". */
  function Shorten(name: string, limit: nat, keep: nat): (r: string)
    requires keep + 3 <= limit
    ensures |r| <= limit || r == name
    ensures |name| <= limit ==> r == name
    ensures |name| > limit ==> |r| == keep + 3 && r[..keep] == name[..keep] && r[keep..] == "..."
  {
    if |name| > limit then name[..keep] + "..." else name
  }

  /** The parent-directory label: 17 characters at most. */
  function DirLabel(name: string): (r: string)
    ensures |r| <= 17 && (|name| <= 17 <==> r == name)
  {
    Shorten(name, 17, 14)
  }

  /** The labels-file label: 20 characters at most. */
  function LabelsFileLabel(name: string): (r: string)
    ensures |r| <= 20 && (|name| <= 20 <==> r == name)
  {
    Shorten(name, 20, 17)
  }

  /** Shortening a shown label again changes nothing. */
  lemma ShortenIdempotent(name: string, limit: nat, keep: nat)
    requires keep + 3 <= limit
    ensures Shorten(Shorten(name, limit, keep), limit, keep) == Shorten(name, limit, keep)
  {
  }

  // ---------------------------------------------------------------------
  // Buttons
  // ---------------------------------------------------------------------

  /** The enabled state of the panel's controls: the input controls, the
      mode and labels controls, and the run stages with the sample viewer. */
  datatype Buttons = Buttons(inputs: InputButtons, modes: ModeButtons, stages: StageButtons)

  datatype InputButtons = InputButtons(
    browseParentDir: bool, chooseExpMatFile: bool, geneId: bool, refresh: bool,
    iterationTitle: bool, comment: bool, edit: bool, done: bool)

  datatype ModeButtons = ModeButtons(
    predictionMode: bool, validationMode: bool, generateTmmLabels: bool,
    chooseTmmLabels: bool, editTmmLabels: bool, saveSettings: bool)

  datatype StageButtons = StageButtons(
    addFc: bool, runPsf: bool, generateReport: bool, openReport: bool, runAll: bool,
    samples: bool, viz: bool)

  /** What `enableButtons` leaves enabled. */
  function ButtonsFor(editing: bool, validation: bool, labelsFile: Option<Dir>, samplesChosen: bool,
                      addFcDone: bool, runPsfDone: bool, reportDone: bool): Buttons
  {
    var inputs := InputButtons(editing, editing, editing, editing, editing, editing, !editing, editing);
    if editing then
      Buttons(inputs, ModeButtons(false, false, false, false, false, false),
              StageButtons(false, false, false, false, false, false, false))
    else
      Buttons(inputs,
              ModeButtons(true, true, validation, validation, validation && labelsFile.Some? && labelsFile.value.present, true),
              StageButtons(true, addFcDone, runPsfDone, reportDone, !(validation && labelsFile.None?),
                           samplesChosen, samplesChosen))
  }

  /** Out of editing, each stage's button follows the flag of the stage
      before it, whatever the labels file; while editing, every run-stage
      button, the sample picker and the viewer are off. */
  lemma StageGating(editing: bool, validation: bool, labelsFile: Option<Dir>, samplesChosen: bool,
                    addFcDone: bool, runPsfDone: bool, reportDone: bool)
    ensures var b := ButtonsFor(editing, validation, labelsFile, samplesChosen, addFcDone, runPsfDone, reportDone).stages;
      (!editing ==> (b.runPsf <==> addFcDone) && (b.generateReport <==> runPsfDone) && (b.openReport <==> reportDone)) &&
      (editing ==> !b.addFc && !b.runPsf && !b.generateReport && !b.openReport && !b.runAll && !b.samples && !b.viz)
    ensures var i := ButtonsFor(editing, validation, labelsFile, samplesChosen, addFcDone, runPsfDone, reportDone).inputs;
      (i.edit <==> !editing) && (i.done <==> editing) && (i.browseParentDir <==> editing)
  {
  }

  class TmmPanel {
    var editingInput: bool
    var addFcDone: bool
    var runPsfDone: bool
    var generateReportDone: bool
    /** Validation mode chosen (otherwise prediction mode). */
    var validationMode: bool
    var tmmLabelsFile: Option<Dir>
    /** A sample list has been set. */
    var samplesChosen: bool
    var parentDir: Option<Dir>
    var parentDirText: string
    var iterationTitle: string
    /** The text of the title field. */
    var titleText: string
    /** The text of the boot-cycles field. */
    var bootCyclesText: string
    var buttons: Buttons

    /** The `iterationTitle` field always holds a title the saved settings
        would restore. The title the pipeline uses is `titleText`, the text of
        the field (`getIterationTitle`), which may differ from it. */
    predicate Valid()
      reads this
    {
      LoadedTitleOk(iterationTitle)
    }

    constructor ()
      ensures Valid() && iterationTitle == UntitledIteration && titleText == UntitledIteration
      ensures editingInput && !addFcDone && !runPsfDone && !generateReportDone
      ensures buttons == ButtonsFor(true, false, None, false, false, false, false)
    {
      editingInput := true;
      addFcDone := false;
      runPsfDone := false;
      generateReportDone := false;
      validationMode := false;
      tmmLabelsFile := None;
      samplesChosen := false;
      parentDir := None;
      parentDirText := "";
      iterationTitle := UntitledIteration;
      titleText := UntitledIteration;
      bootCyclesText := "";
      buttons := ButtonsFor(true, false, None, false, false, false, false);
    }

    /** `enableButtons`, the enabled states only; the caller stores them. Outside editing `enable`
        is never cleared, so the Add FC button is always on and the labels
        check decides only Run all. */
    method EnableButtons() returns (b: Buttons)
      ensures b == ButtonsFor(editingInput, validationMode, tmmLabelsFile, samplesChosen,
                              addFcDone, runPsfDone, generateReportDone)
    {
      var enable := true;
      var inputs := buttons.inputs.(browseParentDir := editingInput, chooseExpMatFile := editingInput,
        geneId := editingInput, refresh := editingInput, iterationTitle := editingInput,
        comment := editingInput, edit := !editingInput, done := editingInput);
      var modes := buttons.modes.(predictionMode := !editingInput, validationMode := !editingInput,
        generateTmmLabels := !editingInput, chooseTmmLabels := !editingInput,
        editTmmLabels := !editingInput, saveSettings := !editingInput);
      var stages := buttons.stages.(addFc := !editingInput, runPsf := !editingInput,
        generateReport := !editingInput, openReport := !editingInput, runAll := !editingInput);
      if !editingInput {
        var enableValidationButtons := validationMode;
        modes := modes.(generateTmmLabels := enableValidationButtons, chooseTmmLabels := enableValidationButtons);
        modes := modes.(editTmmLabels := enableValidationButtons && tmmLabelsFile.Some? && tmmLabelsFile.value.present);
        stages := stages.(addFc := enable, runPsf := enable);
        if validationMode && tmmLabelsFile.None? {
          stages := stages.(generateReport := false, runAll := false);
        } else {
          stages := stages.(generateReport := enable, runAll := enable);
        }
        stages := stages.(runPsf := addFcDone);
        stages := stages.(generateReport := runPsfDone);
        stages := stages.(openReport := generateReportDone);
        stages := stages.(samples := samplesChosen, viz := samplesChosen);
      } else {
        modes := modes.(predictionMode := false, validationMode := false, generateTmmLabels := false,
          chooseTmmLabels := false, editTmmLabels := false, saveSettings := false);
        stages := stages.(addFc := false, runPsf := false, generateReport := false, openReport := false,
          runAll := false, samples := false, viz := false);
      }
      b := Buttons(inputs, modes, stages);
    }

    /** `jtxt_iterationTitleActionPerformed`: takes the field's text as the
        title when it is acceptable, otherwise shows a message and puts the
        current title back into the field. */
    method IterationTitleEntered() returns (message: Option<string>)
      modifies this
      requires Valid()
      ensures Valid()
      ensures message == TitleError(old(titleText))
      ensures message.None? ==> iterationTitle == old(titleText) && titleText == old(titleText)
      ensures message.Some? ==> iterationTitle == old(iterationTitle) && titleText == old(iterationTitle)
      ensures buttons == old(buttons) && editingInput == old(editingInput)
    {
      var newTitle := titleText;
      var setNew := false;
      ContainsChar(newTitle, ' ');
      if newTitle == "" {
        message := Some(TitleEmptyMessage);
      } else if Contains(newTitle, " ") {
        message := Some(TitleSpaceMessage);
      } else if Contains(newTitle, "/") || Contains(newTitle, "\\") || Contains(newTitle, ":") {
        message := Some(TitleCharMessage);
      } else {
        message := None;
        setNew := true;
      }
      if setNew {
        EventTitleLoads(newTitle);
        iterationTitle := newTitle;
      } else {
        titleText := iterationTitle;
      }
    }

    /** The iteration-title part of `loadProps`. */
    method LoadIterationTitle(property: Option<string>)
      modifies this
      requires Valid()
      ensures Valid() && iterationTitle == LoadedTitle(property, old(iterationTitle))
      // `setText(getIterationTitle())` writes the field's own text back.
      ensures titleText == old(titleText)
      ensures old(titleText) == old(iterationTitle) && iterationTitle != old(iterationTitle) ==>
                titleText != iterationTitle
      ensures buttons == old(buttons) && editingInput == old(editingInput)
    {
      ContainsChar(if property.Some? then property.value else "", ' ');
      if property.Some? && property.value != "" && !Contains(property.value, " ") {
        iterationTitle := property.value;
        titleText := GetIterationTitle();
      }
    }

    /** `getIterationTitle`: the text of the title field. */
    function GetIterationTitle(): string
      reads this
    {
      titleText
    }

    /** `jtxt_bootCyclesActionPerformed`: rewrites the field with the count. */
    method BootCyclesEntered()
      modifies this
      ensures bootCyclesText == IntToString(BootCycles(old(bootCyclesText)))
      ensures ParseInt(bootCyclesText) == Some(BootCycles(old(bootCyclesText)))
      ensures buttons == old(buttons) && iterationTitle == old(iterationTitle) && editingInput == old(editingInput)
    {
      var bootCycles: int;
      var parsed := ParseInt(bootCyclesText);
      if parsed.None? {
        bootCycles := BootCyclesDefault;
      } else {
        bootCycles := parsed.value;
        if bootCycles < 1 {
          bootCycles := BootCyclesDefault;
        }
      }
      BootCyclesStable(bootCyclesText);
      bootCyclesText := IntToString(bootCycles);
    }

    /** `jb_editActionPerformed`: back to editing, every stage to be redone. */
    method Edit()
      modifies this
      requires Valid()
      ensures Valid() && editingInput && !addFcDone && !runPsfDone && !generateReportDone
      ensures buttons == ButtonsFor(true, validationMode, tmmLabelsFile, samplesChosen, false, false, false)
      ensures !buttons.stages.runPsf && !buttons.stages.generateReport && !buttons.stages.openReport && buttons.inputs.browseParentDir
    {
      editingInput := true;
      addFcDone := false;
      runPsfDone := false;
      generateReportDone := false;
      buttons := EnableButtons();
    }

    /** `jb_browseParentDirActionPerformed` after the file chooser returns
        `selected`. A directory that does not exist is refused. Choosing one
        while none was set before dereferences the missing previous directory:
        the handler then throws (`ok` false) after the directory and its
        label are set, before the flags and buttons are touched. Otherwise a
        different absolute path clears the three stage flags. */
    method BrowseParentDir(selected: Option<Dir>) returns (ok: bool)
      modifies this
      requires Valid()
      ensures Valid() && iterationTitle == old(iterationTitle) && editingInput == old(editingInput)
      ensures !ok <==> selected.Some? && selected.value.present && old(parentDir).None?
      ensures (selected.None? || !selected.value.present) ==> parentDir == old(parentDir) && parentDirText == old(parentDirText)
      ensures selected.Some? && selected.value.present ==>
        parentDir == selected && parentDirText == DirLabel(selected.value.name)
      ensures var cleared := ok && selected.Some? && selected.value.present &&
                             selected.value.absolutePath != old(parentDir).value.absolutePath;
        (cleared ==> !addFcDone && !runPsfDone && !generateReportDone) &&
        (!cleared ==> addFcDone == old(addFcDone) && runPsfDone == old(runPsfDone) &&
                      generateReportDone == old(generateReportDone))
      ensures ok ==> buttons == ButtonsFor(editingInput, validationMode, tmmLabelsFile, samplesChosen,
                                           addFcDone, runPsfDone, generateReportDone)
      ensures !ok ==> buttons == old(buttons)
    {
      var prevDir := parentDir;
      if selected.Some? && selected.value.present {
        parentDir := selected;
        parentDirText := DirLabel(selected.value.name);
        if prevDir.None? {
          return false;
        }
        if selected.value.absolutePath != prevDir.value.absolutePath {
          addFcDone := false;
          runPsfDone := false;
          generateReportDone := false;
        }
      }
      buttons := EnableButtons();
      return true;
    }

    /** The parent-directory part of `loadProps`; `property` is None when no
        directory was saved. A saved directory that is missing is dropped, and
        whichever directory is then set is shown by its shortened name. */
    method LoadParentDir(property: Option<Dir>)
      modifies this
      requires Valid()
      ensures Valid() && iterationTitle == old(iterationTitle) && buttons == old(buttons)
      ensures parentDir == if property.None? then old(parentDir)
                           else if property.value.present && property.value.isDirectory then property else None
      ensures parentDir.Some? ==> parentDirText == DirLabel(parentDir.value.name)
      ensures parentDir.None? ==> parentDirText == old(parentDirText)
    {
      if property.Some? {
        parentDir := property;
        if !property.value.present || !property.value.isDirectory {
          parentDir := None;
        }
      }
      if parentDir.Some? {
        parentDirText := DirLabel(parentDir.value.name);
      }
    }

    /** `setTmmLabelsFile`: the label shows the shortened name, or says no
        file was chosen. */
    method SetTmmLabelsFile(f: Option<Dir>) returns (text: string)
      ensures f.Some? ==> text == LabelsFileLabel(f.value.name) && |text| <= 20
      ensures f.None? ==> text == "No file chosen"
    {
      if f.Some? {
        text := LabelsFileLabel(f.value.name);
      } else {
        text := "No file chosen";
      }
    }
  }

  /** Restoring a saved title on a new panel: `iterationTitle` takes the saved
      value, but the field, and so `getIterationTitle`, still reads
      "Untitled_iteration". */
  method SavedTitleNotShown() returns (title: string, shown: string)
    ensures title == "run1" && shown == UntitledIteration && title != shown
  {
    var panel := new TmmPanel();
    panel.LoadIterationTitle(Some("run1"));
    title := panel.iterationTitle;
    shown := panel.GetIterationTitle();
  }

}
