/** The record of the parsed input files of one iteration: the chosen files
    and directories, the error message recorded against each input item, and
    the flag that says whether no error has been recorded yet. */
module ParsedFiles {
  import opened Common
  import ExpMat

  /** The item keys of the error messages. */
  const PARENT_DIR: string := "ParentDir"
  const EXP_MAT_FILE: string := "ExpMatFile"
  const GENE_ID: string := "GeneID"
  const ITERATION_TITLE: string := "IterationTitle"

  /** A `java.io.File`, known by its path. */
  datatype File = File(path: string)

  /** `getErrorToolTip`: the message recorded for the item, null (None) when
      there is none. */
  function ToolTipOf(tips: map<string, string>, item: string): (r: Option<string>)
    ensures r.Some? <==> item in tips
    ensures r.Some? ==> r.value == tips[item]
  {
    if item in tips then Some(tips[item]) else None
  }

  /** Recording a message for an item is what that item reads back, and the
      other items read back what they did before. */
  lemma ToolTipAfterSet(tips: map<string, string>, item: string, message: string, other: string)
    ensures ToolTipOf(tips[item := message], other) == if other == item then Some(message) else ToolTipOf(tips, other)
  {
  }

  /** The messages recorded by a sequence of `setErrorToolTip` calls. */
  function Recorded(tips: map<string, string>, calls: seq<(string, string)>): map<string, string>
  {
    if |calls| == 0 then tips
    else Recorded(tips, calls[..|calls| - 1])[calls[|calls| - 1].0 := calls[|calls| - 1].1]
  }

  /** The message of the last call naming the item, if any call does. */
  function LastMessage(calls: seq<(string, string)>, item: string): (r: Option<string>)
    ensures r.None? <==> forall k :: 0 <= k < |calls| ==> calls[k].0 != item
    ensures r.Some? ==> exists k :: 0 <= k < |calls| && calls[k] == (item, r.value)
  {
    if |calls| == 0 then None
    else if calls[|calls| - 1].0 == item then Some(calls[|calls| - 1].1)
    else LastMessage(calls[..|calls| - 1], item)
  }

  /** After any sequence of calls, an item reads back the message of the last
      call that named it, or what it read before when no call named it. */
  lemma {:induction false} LastMessageWins(tips: map<string, string>, calls: seq<(string, string)>, item: string)
    ensures ToolTipOf(Recorded(tips, calls), item) ==
      if LastMessage(calls, item).Some? then LastMessage(calls, item) else ToolTipOf(tips, item)
  {
    if |calls| > 0 {
      LastMessageWins(tips, calls[..|calls| - 1], item);
    }
  }

  /** Every field of the record, for stating what a setter leaves alone. */
  datatype Fields = Fields(parentDir: Option<File>, expMatFile: Option<File>,
                           expMatFileHandler: ExpMat.ExpMatFileHandler?,
                           iterationDir: Option<File>, reportDir: Option<File>,
                           iterationTitle: Option<string>, networkFile: Option<File>,
                           nodeTableFile: Option<File>, fcMatFile: Option<File>,
                           errorToolTips: map<string, string>, allValid: bool)

  class ParsedFilesDirectory {
    var parentDir: Option<File>
    var expMatFile: Option<File>
    var expMatFileHandler: ExpMat.ExpMatFileHandler?
    var iterationDir: Option<File>
    var reportDir: Option<File>
    var iterationTitle: Option<string>
    var networkFile: Option<File>
    var nodeTableFile: Option<File>
    var fcMatFile: Option<File>
    var errorToolTips: map<string, string>
    var allValid: bool

    function Snapshot(): Fields
      reads this
    {
      Fields(parentDir, expMatFile, expMatFileHandler, iterationDir, reportDir, iterationTitle,
             networkFile, nodeTableFile, fcMatFile, errorToolTips, allValid)
    }

    /** `allValid` says that no error message has been recorded. */
    predicate Valid()
      reads this
    {
      allValid <==> errorToolTips == map[]
    }

    constructor ()
      ensures Valid() && allValid && errorToolTips == map[]
      ensures parentDir.None? && expMatFile.None? && expMatFileHandler == null && iterationDir.None?
      ensures reportDir.None? && iterationTitle.None? && networkFile.None? && nodeTableFile.None? && fcMatFile.None?
    {
      parentDir := None;
      expMatFile := None;
      expMatFileHandler := null;
      iterationDir := None;
      reportDir := None;
      iterationTitle := None;
      networkFile := None;
      nodeTableFile := None;
      fcMatFile := None;
      errorToolTips := map[];
      allValid := true;
    }

    method SetFcMatFile(f: Option<File>)
      modifies this
      requires Valid()
      ensures Valid() && Snapshot() == old(Snapshot()).(fcMatFile := f)
    {
      fcMatFile := f;
    }

    method SetNetworkFile(f: Option<File>)
      modifies this
      requires Valid()
      ensures Valid() && Snapshot() == old(Snapshot()).(networkFile := f)
    {
      networkFile := f;
    }

    method SetNodeTableFile(f: Option<File>)
      modifies this
      requires Valid()
      ensures Valid() && Snapshot() == old(Snapshot()).(nodeTableFile := f)
    {
      nodeTableFile := f;
    }

    method SetParentDir(f: Option<File>)
      modifies this
      requires Valid()
      ensures Valid() && Snapshot() == old(Snapshot()).(parentDir := f)
    {
      parentDir := f;
    }

    method SetExpMatFile(f: Option<File>)
      modifies this
      requires Valid()
      ensures Valid() && Snapshot() == old(Snapshot()).(expMatFile := f)
    {
      expMatFile := f;
    }

    method SetExpMatFileHandler(h: ExpMat.ExpMatFileHandler?)
      modifies this
      requires Valid()
      ensures Valid() && Snapshot() == old(Snapshot()).(expMatFileHandler := h)
    {
      expMatFileHandler := h;
    }

    method SetIterationDir(f: Option<File>)
      modifies this
      requires Valid()
      ensures Valid() && Snapshot() == old(Snapshot()).(iterationDir := f)
    {
      iterationDir := f;
    }

    method SetReportDir(f: Option<File>)
      modifies this
      requires Valid()
      ensures Valid() && Snapshot() == old(Snapshot()).(reportDir := f)
    {
      reportDir := f;
    }

    method SetIterationTitle(t: Option<string>)
      modifies this
      requires Valid()
      ensures Valid() && Snapshot() == old(Snapshot()).(iterationTitle := t)
    {
      iterationTitle := t;
    }

    /** `setErrorToolTip`: records the message against the item and clears
        `allValid` for good. */
    method SetErrorToolTip(item: string, errorMessage: string)
      modifies this
      requires Valid()
      ensures Valid() && !allValid
      ensures Snapshot() == old(Snapshot()).(errorToolTips := old(errorToolTips)[item := errorMessage], allValid := false)
      ensures ToolTipOf(errorToolTips, item) == Some(errorMessage)
      ensures forall other :: other != item ==> ToolTipOf(errorToolTips, other) == old(ToolTipOf(errorToolTips, other))
    {
      allValid := false;
      errorToolTips := errorToolTips[item := errorMessage];
      assert item in errorToolTips;
    }

    method GetErrorToolTip(item: string) returns (r: Option<string>)
      ensures r == ToolTipOf(errorToolTips, item)
    {
      if item in errorToolTips {
        return Some(errorToolTips[item]);
      }
      return None;
    }

    method IsAllValid() returns (b: bool)
      requires Valid()
      ensures b <==> forall item :: ToolTipOf(errorToolTips, item).None?
    {
      b := allValid;
      if !b {
        var item :| item in errorToolTips;
        assert ToolTipOf(errorToolTips, item).Some?;
      }
    }
  }
}
