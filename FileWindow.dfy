/** The editor window: one open file per window, its untitled naming, and saving. */
module FileWindows {
  import opened Optional
  import opened Toolkit
  import opened Decimal
  import opened SourceEditors

  // ---------------------------------------------------------------------------
  // Untitled names

  /** The name getUntitled returns for counter `count`, and the counter afterwards. */
  function NextUntitled(count: nat): (r: (string, nat))
    ensures r.0 == "Untitled" <==> count == 0
    ensures r.1 == 0 <==> count == 0
    ensures count > 0 ==> r.1 == count + 1 && r.0 == "Untitled-" + DecimalString(r.1)
  {
    if count == 0 then ("Untitled", 0)
    else ("Untitled-" + DecimalString(count + 1), count + 1)
  }

  /** The names `n` successive calls of getUntitled return, starting from counter `count`. */
  function UntitledNames(count: nat, n: nat): (names: seq<string>)
    decreases n
  {
    if n == 0 then []
    else [NextUntitled(count).0] + UntitledNames(NextUntitled(count).1, n - 1)
  }

  /** From a counter of 0 the counter never moves: every call returns "Untitled". */
  lemma {:induction false} UntitledFromZero(n: nat)
    ensures |UntitledNames(0, n)| == n
    ensures forall i :: 0 <= i < n ==> UntitledNames(0, n)[i] == "Untitled"
    decreases n
  {
    if n > 0 {
      UntitledFromZero(n - 1);
    }
  }

  /** From a positive counter k, the i-th call returns "Untitled-" followed by k + 1 + i. */
  lemma {:induction false} UntitledFromPositive(k: nat, n: nat)
    requires k > 0
    ensures |UntitledNames(k, n)| == n
    ensures forall i :: 0 <= i < n ==> UntitledNames(k, n)[i] == "Untitled-" + DecimalString(k + 1 + i)
    decreases n
  {
    if n > 0 {
      UntitledFromPositive(k + 1, n - 1);
      var rest := UntitledNames(k + 1, n - 1);
      assert UntitledNames(k, n) == ["Untitled-" + DecimalString(k + 1)] + rest;
      forall i | 1 <= i < n
        ensures UntitledNames(k, n)[i] == "Untitled-" + DecimalString(k + 1 + i)
      {
        assert UntitledNames(k, n)[i] == rest[i - 1];
      }
    }
  }

  /** From a positive counter, successive calls return pairwise different names. */
  lemma UntitledNamesDistinct(k: nat, n: nat)
    requires k > 0
    ensures |UntitledNames(k, n)| == n
    ensures forall i, j :: 0 <= i < j < n ==> UntitledNames(k, n)[i] != UntitledNames(k, n)[j]
  {
    UntitledFromPositive(k, n);
    var prefix := "Untitled-";
    forall i, j | 0 <= i < j < n
      ensures UntitledNames(k, n)[i] != UntitledNames(k, n)[j]
    {
      var a, b := prefix + DecimalString(k + 1 + i), prefix + DecimalString(k + 1 + j);
      if a == b {
        assert a[|prefix|..] == DecimalString(k + 1 + i);
        assert b[|prefix|..] == DecimalString(k + 1 + j);
        DecimalStringInjective(k + 1 + i, k + 1 + j);
      }
    }
  }

  /** The storage of FileWindow's static counter of untitled windows. */
  class UntitledCounter {
    var untitledCount: nat

    constructor ()
      ensures untitledCount == 0
    {
      untitledCount := 0;
    }

    /** Returns "Untitled" while the counter is 0, leaving it there; otherwise advances
        the counter and returns "Untitled-" followed by its new value. */
    method GetUntitled() returns (name: string)
      modifies this
      ensures (name, untitledCount) == NextUntitled(old(untitledCount))
      ensures old(untitledCount) == 0 ==> name == "Untitled" && untitledCount == 0
      ensures old(untitledCount) > 0 ==>
        untitledCount == old(untitledCount) + 1 && name == "Untitled-" + DecimalString(untitledCount)
    {
      if untitledCount == 0 {
        return "Untitled";
      }
      untitledCount := untitledCount + 1;
      name := "Untitled-" + DecimalString(untitledCount);
    }
  }

  /** The Project class of Project.swift, as far as a window uses it: the files it was asked
      to load. Its language-server start-up and notification handling are not modelled. */
  class Project {
    var loaded: seq<string>

    constructor ()
      ensures loaded == []
    {
      loaded := [];
    }

    /** Asks the project to open `file` on the language server. */
    method Load(file: string)
      modifies this
      ensures loaded == old(loaded) + [file]
    {
      loaded := loaded + [file];
    }
  }

  // ---------------------------------------------------------------------------
  // The window

  /** A copy of the buffer written to disk. */
  datatype SavedCopy = SavedCopy(path: string, text: string)

  /** The message of the error box shown when writing fails. */
  function SaveErrorMessage(target: string): (m: string) {
    "Could not save the file to " + target
  }

  class FileWindow {
    const project: Project
    /** The static storage that getUntitled uses. */
    const statics: UntitledCounter
    const textView: SwiftSourceEditor
    /** The window's title. */
    const title: string
    var filename: Option<string>
    /** The initial paths of the save dialogs presented, in order. */
    var dialogs: seq<string>
    /** The messages of the error boxes shown, in order. */
    var errorBoxes: seq<string>
    /** The successful writes, in order. */
    var written: seq<SavedCopy>

    ghost predicate Valid()
      reads this, textView, textView.editor
    {
      textView.Valid()
    }

    /** Names the editor and the window after `filename`, or after the untitled name
        (asked for twice: once for the editor, once for the title), fills the editor with
        `contents`, and loads the file when a name is given. */
    constructor (project: Project, statics: UntitledCounter, filename: Option<string>, contents: string)
      modifies project, statics
      ensures Valid() && fresh(textView) && fresh(textView.editor)
      ensures this.project == project && this.statics == statics && this.filename == filename
      ensures textView.editor.view.text == contents && !textView.editor.view.isDirty
      ensures textView.editor.outbound == [] && textView.completions == None
      ensures dialogs == [] && errorBoxes == [] && written == []
      ensures filename.Some? ==>
        && textView.editor.file == filename.value && title == filename.value
        && statics.untitledCount == old(statics.untitledCount)
        && project.loaded == old(project.loaded) + [filename.value]
      ensures filename.None? ==>
        && textView.editor.file == NextUntitled(old(statics.untitledCount)).0
        && title == NextUntitled(NextUntitled(old(statics.untitledCount)).1).0
        && statics.untitledCount == NextUntitled(NextUntitled(old(statics.untitledCount)).1).1
        && project.loaded == old(project.loaded)
    {
      this.filename := filename;
      this.project := project;
      this.statics := statics;
      var file;
      if filename.Some? {
        file := filename.value;
      } else {
        file := statics.GetUntitled();
      }
      var editor := new SwiftSourceEditor(file);
      editor.editor.view := editor.editor.view.(text := contents);
      textView := editor;
      var windowTitle;
      if filename.Some? {
        windowTitle := filename.value;
      } else {
        windowTitle := statics.GetUntitled();
      }
      title := windowTitle;
      dialogs := [];
      errorBoxes := [];
      written := [];
      new;
      if filename.Some? {
        project.Load(filename.value);
      }
    }

    /** The window's debug description, which names its current file. */
    function DebugDescription(): (d: string)
      reads this
      ensures |d| == 13 + |filename.GetOr("Untitled")|
      ensures filename.None? ==> d == "FileWindow (Untitled)"
    {
      "FileWindow (" + filename.GetOr("Untitled") + ")"
    }

    /** The description can be read back: between the fixed "FileWindow (" and ")" stands the
        current file name, or "Untitled". So a window without a name and one whose file is
        called "Untitled" describe themselves alike. */
    lemma DescriptionNamesFile()
      ensures |DebugDescription()| >= 13
      ensures DebugDescription()[..12] == "FileWindow ("
      ensures DebugDescription()[|DebugDescription()| - 1] == ')'
      ensures DebugDescription()[12..|DebugDescription()| - 1] == filename.GetOr("Untitled")
    {
      var name := filename.GetOr("Untitled");
      var d := DebugDescription();
      assert d == "FileWindow (" + name + ")";
      assert d[12..|d| - 1] == name;
    }

    /** The window's dirty flag is the editor's. */
    function IsDirty(): (dirty: bool)
      reads textView.editor
    {
      textView.editor.view.isDirty
    }

    /** Sets the editor's dirty flag; reading it back gives the value set. */
    method SetDirty(value: bool)
      requires Valid()
      modifies textView.editor`view
      ensures Valid()
      ensures IsDirty() == value
      ensures textView.editor.view == old(textView.editor.view).(isDirty := value)
    {
      textView.editor.view := textView.editor.view.(isDirty := value);
    }

    /** What writing the buffer to `target` did: on success the text is on disk and the
        buffer is clean; on failure an error box names the target and nothing else changes. */
    twostate predicate SaveFileDone(target: string, writeOk: bool)
      reads this, textView.editor
    {
      if writeOk then
        && written == old(written) + [SavedCopy(target, old(textView.editor.view.text))]
        && textView.editor.view == old(textView.editor.view).(isDirty := false)
        && errorBoxes == old(errorBoxes)
      else
        && written == old(written)
        && textView.editor.view == old(textView.editor.view)
        && errorBoxes == old(errorBoxes) + [SaveErrorMessage(target)]
    }

    /** Writes the buffer to `target`; `writeOk` is whether the write succeeds. */
    method SaveFile(target: string, writeOk: bool)
      requires Valid()
      modifies this`written, this`errorBoxes, textView.editor`view
      ensures Valid()
      ensures SaveFileDone(target, writeOk)
      ensures writeOk ==> !IsDirty()
      ensures !writeOk ==> IsDirty() == old(IsDirty())
    {
      if writeOk {
        written := written + [SavedCopy(target, textView.editor.view.text)];
        textView.editor.view := textView.editor.view.(isDirty := false);
      } else {
        errorBoxes := errorBoxes + [SaveErrorMessage(target)];
      }
    }

    /** Presents a save dialog starting at `initial`; `chosen` is the file the user picks,
        if any. A chosen file becomes the window's file name and is written. */
    method SaveAs(initial: Option<string>, chosen: Option<string>, writeOk: bool)
      requires Valid()
      modifies this`filename, this`dialogs, this`written, this`errorBoxes, textView.editor`view
      ensures Valid()
      ensures dialogs == old(dialogs) + [initial.GetOr("")]
      ensures chosen.None? ==>
        && filename == old(filename) && written == old(written) && errorBoxes == old(errorBoxes)
        && textView.editor.view == old(textView.editor.view)
      ensures chosen.Some? ==> filename == chosen && SaveFileDone(chosen.value, writeOk)
      ensures chosen.Some? ==> DebugDescription() == "FileWindow (" + chosen.value + ")"
    {
      dialogs := dialogs + [initial.GetOr("")];
      if chosen.None? {
        return;
      }
      filename := chosen;
      SaveFile(chosen.value, writeOk);
    }

    /** Saves under the window's file name, or asks for one when there is none. */
    method Save(chosen: Option<string>, writeOk: bool)
      requires Valid()
      modifies this`filename, this`dialogs, this`written, this`errorBoxes, textView.editor`view
      ensures Valid()
      ensures old(filename).None? ==>
        && dialogs == old(dialogs) + [""]
        && (chosen.None? ==>
              && filename == None && written == old(written) && errorBoxes == old(errorBoxes)
              && textView.editor.view == old(textView.editor.view))
        && (chosen.Some? ==> filename == chosen && SaveFileDone(chosen.value, writeOk))
      ensures old(filename).Some? ==>
        && dialogs == old(dialogs) && filename == old(filename)
        && SaveFileDone(old(filename).value, writeOk)
    {
      if filename.None? {
        SaveAs(None, chosen, writeOk);
      } else {
        SaveFile(filename.value, writeOk);
      }
    }
  }

  /** After Save As, the description names the chosen file, but the window's title and the
      name the editor's change notifications carry keep the untitled name. */
  method SaveAsRenameScenario() {
    var counter := new UntitledCounter();
    var project := new Project();
    var w := new FileWindow(project, counter, None, "let x = 1");
    w.SaveAs(None, Some("main.swift"), true);
    assert w.DebugDescription() == "FileWindow (main.swift)";
    assert w.title == "Untitled" && w.textView.editor.file == "Untitled";
    assert !w.IsDirty();
  }

  /** Two untitled windows opened with a fresh counter are both called "Untitled". */
  method UntitledWindowsScenario() {
    var counter := new UntitledCounter();
    var project := new Project();
    var first := new FileWindow(project, counter, None, "");
    var second := new FileWindow(project, counter, None, "let x = 1");
    assert first.title == "Untitled" && first.textView.editor.file == "Untitled";
    assert second.title == "Untitled" && second.textView.editor.file == "Untitled";
    assert project.loaded == [];
  }
}
