/** The source editor: the text view that forwards every buffer edit to the language
    server as a versioned change notification, and its Swift-specific subclass that
    requests completions and shows them in an overlay list. */
module SourceEditors {
  import opened Optional
  import opened Protocol
  import opened Toolkit

  // ---------------------------------------------------------------------------
  // Change notifications

  /** The protocol range for a buffer range: line to line, column to character. */
  function ToLspRange(r: TextRange): (l: LspRange) {
    LspRange(Position(r.start.line, r.start.column), Position(r.end.line, r.end.column))
  }

  /** The notification textEdited sends for one edit of `file` when the counter reads `version`. */
  function DidChange(file: string, version: int, edit: BufferEdit): (n: DidChangeTextDocumentParams) {
    DidChangeTextDocumentParams(
      VersionedTextDocumentIdentifier(file, version),
      [ContentChangeEvent(Some(ToLspRange(edit.range)), None, edit.text)])
  }

  /** The message textEdited sends for an edit the text view may have reported: its
      notification when there is one, nothing otherwise. */
  function ChangeFor(file: string, version: int, edit: Option<BufferEdit>): (out: seq<Outbound>) {
    if edit.Some? then [ChangeSent(DidChange(file, version, edit.value))] else []
  }

  /** The change notifications among the messages `out`, in order. */
  function Changes(out: seq<Outbound>): (cs: seq<DidChangeTextDocumentParams>)
    decreases |out|
  {
    if out == [] then []
    else Changes(out[..|out| - 1]) + (if out[|out| - 1].ChangeSent? then [out[|out| - 1].change] else [])
  }

  /** The completion requests among the messages `out`, in order. */
  function Requests(out: seq<Outbound>): (rs: seq<CompletionParams>)
    decreases |out|
  {
    if out == [] then []
    else Requests(out[..|out| - 1]) + (if out[|out| - 1].CompletionSent? then [out[|out| - 1].request] else [])
  }

  /** Reading the notifications and the requests off the traffic commutes with appending
      to it, so each kind keeps its own order within the one connection. */
  lemma {:induction false} ChangesAndRequestsAppend(a: seq<Outbound>, b: seq<Outbound>)
    ensures Changes(a + b) == Changes(a) + Changes(b)
    ensures Requests(a + b) == Requests(a) + Requests(b)
    decreases |b|
  {
    if b == [] {
      assert a + b == a;
    } else {
      var front := b[..|b| - 1];
      ChangesAndRequestsAppend(a, front);
      assert (a + b)[..|a + b| - 1] == a + front;
      assert (a + b)[|a + b| - 1] == b[|b| - 1];
    }
  }

  /** The notifications an editor of `file` has sent after the edits `edits`, in order. */
  function Replay(file: string, edits: seq<BufferEdit>): (ns: seq<DidChangeTextDocumentParams>)
    decreases |edits|
  {
    if edits == [] then []
    else Replay(file, edits[..|edits| - 1]) + [DidChange(file, |edits| - 1, edits[|edits| - 1])]
  }

  /** The i-th notification (0-based) carries version i and exactly one change, which holds
      the i-th edit's range, copied field by field, its text, and no range length. */
  lemma {:induction false} ReplayNotifications(file: string, edits: seq<BufferEdit>)
    ensures |Replay(file, edits)| == |edits|
    ensures forall i :: 0 <= i < |edits| ==>
      var n := Replay(file, edits)[i];
      var r := edits[i].range;
      && n.textDocument == VersionedTextDocumentIdentifier(file, i)
      && |n.contentChanges| == 1
      && n.contentChanges[0].range == Some(LspRange(Position(r.start.line, r.start.column), Position(r.end.line, r.end.column)))
      && n.contentChanges[0].rangeLength == None
      && n.contentChanges[0].text == edits[i].text
    decreases |edits|
  {
    if edits != [] {
      ReplayNotifications(file, edits[..|edits| - 1]);
    }
  }

  /** Versions start at 0 and each is exactly one more than the one before: no gaps, no reordering. */
  lemma VersionsContiguous(file: string, edits: seq<BufferEdit>)
    requires |edits| > 0
    ensures |Replay(file, edits)| == |edits|
    ensures Replay(file, edits)[0].textDocument.version == 0
    ensures forall i :: 0 < i < |edits| ==>
      Replay(file, edits)[i].textDocument.version == Replay(file, edits)[i - 1].textDocument.version + 1
  {
    ReplayNotifications(file, edits);
  }

  /** The message logged when a change notification fails. */
  function DidChangeErrorMessage(e: LanguageServerError): (m: string) {
    e.errorDescription.GetOr("error, but no error description")
  }

  /** A text view bound to one file of a project, whose edits become `didChange` notifications. */
  class SourceEditor {
    /** The file name the notifications carry. */
    const file: string
    /** The version the next notification will carry. */
    var changeId: int
    /** The messages sent to the server, in order: the change notifications, and the
        completion requests of the Swift editor built on this one. */
    var outbound: seq<Outbound>
    /** The text view's state (cursor, viewport, buffer, dirty flag). */
    var view: ViewState
    /** Lines written to the log. */
    var log: seq<string>
    /** The edits reported so far, in order. */
    ghost var edits: seq<BufferEdit>

    ghost predicate Valid()
      reads this
    {
      changeId == |edits| && Changes(outbound) == Replay(file, edits)
    }

    constructor (file: string)
      ensures Valid()
      ensures this.file == file && changeId == 0 && outbound == [] && edits == [] && log == []
      ensures view == ViewState("", false, 0, 0, 0)
    {
      this.file := file;
      changeId := 0;
      outbound := [];
      view := ViewState("", false, 0, 0, 0);
      log := [];
      edits := [];
    }

    /** The edit callback: stamps the notification with the current counter, then advances it. */
    method TextEdited(range: TextRange, txt: string)
      requires Valid()
      modifies this`changeId, this`outbound, this`edits
      ensures Valid()
      ensures edits == old(edits) + [BufferEdit(range, txt)]
      ensures changeId == old(changeId) + 1
      ensures outbound == old(outbound) + [ChangeSent(DidChange(file, old(changeId), BufferEdit(range, txt)))]
    {
      var change := DidChange(file, changeId, BufferEdit(range, txt));
      changeId := changeId + 1;
      ChangesAndRequestsAppend(outbound, [ChangeSent(change)]);
      outbound := outbound + [ChangeSent(change)];
      edits := edits + [BufferEdit(range, txt)];
    }

    /** The notifications sent so far carry versions 0, 1, ... in order, one per edit,
        and the counter is the version the next one will carry. */
    lemma SentInOrder()
      requires Valid()
      ensures changeId == |Changes(outbound)|
      ensures forall i :: 0 <= i < |Changes(outbound)| ==>
        var n := Changes(outbound)[i];
        n.textDocument.version == i && n.textDocument.uri == file && |n.contentChanges| == 1
    {
      ReplayNotifications(file, edits);
    }

    /** The text view took the state `v`; the edit it reported, if any, was sent as the next
        notification and only then the messages `after`; the log is untouched. */
    twostate predicate Updated(edit: Option<BufferEdit>, v: ViewState, after: seq<Outbound>)
      reads this
    {
      && view == v
      && log == old(log)
      && changeId == old(changeId) + (if edit.Some? then 1 else 0)
      && outbound == old(outbound) + ChangeFor(file, old(changeId), edit) + after
    }

    /** The text view's insert(text:), whose effect is given: the view takes the state it
        reports, and an edit it made reaches TextEdited. */
    method TextViewInsert(outcome: InsertOutcome)
      requires Valid()
      modifies this`view, this`changeId, this`outbound, this`edits
      ensures Valid()
      ensures Updated(outcome.edit, outcome.view, [])
      ensures edits == old(edits) + (if outcome.edit.Some? then [outcome.edit.value] else [])
    {
      if outcome.edit.Some? {
        TextEdited(outcome.edit.value.range, outcome.edit.value.text);
      }
      view := outcome.view;
    }

    /** The server's answer to a change notification: an error is only logged;
        the counter and the notifications sent stay as they are. */
    method DidChangeReplied(err: Option<LanguageServerError>)
      requires Valid()
      modifies this`log
      ensures Valid()
      ensures log == old(log) + (if err.Some? then [DidChangeErrorMessage(err.value)] else [])
    {
      if err.Some? {
        log := log + [DidChangeErrorMessage(err.value)];
      }
    }

    /** The text view's own key handling, whose answer is given: the view takes the
        state it reports, and an edit it made reaches TextEdited. */
    method TextViewProcessKey(outcome: TextViewKeyOutcome) returns (handled: bool)
      requires Valid()
      modifies this`view, this`changeId, this`outbound, this`edits
      ensures Valid()
      ensures handled == outcome.handled
      ensures Updated(outcome.edit, outcome.view, [])
      ensures edits == old(edits) + (if outcome.edit.Some? then [outcome.edit.value] else [])
    {
      if outcome.edit.Some? {
        TextEdited(outcome.edit.value.range, outcome.edit.value.text);
      }
      view := outcome.view;
      handled := outcome.handled;
    }
  }

  // ---------------------------------------------------------------------------
  // Completion overlay

  /** Width and height of the completion list. */
  const OverlayWidth: nat := 30
  const OverlayHeight: nat := 10

  /** Where the completion list opens, relative to the editor: at the cursor's column, on the
      line below the cursor's screen line. When the cursor is in view the list never covers the
      cursor's line; nothing clamps the position, so when the view is scrolled more than one line
      past the cursor the list opens above the view. */
  function OverlayFrame(currentRow: nat, currentColumn: nat, topRow: nat): (r: Rect)
    ensures r.width == OverlayWidth && r.height == OverlayHeight
    ensures r.x == currentColumn
    ensures topRow <= currentRow ==> r.y >= 1 && r.y > currentRow - topRow
    ensures topRow > currentRow + 1 ==> r.y < 0
  {
    Rect(currentColumn, currentRow + 1 - topRow, OverlayWidth, OverlayHeight)
  }

  /** The list follows the cursor: one line down or one column right moves it by one line or
      one column, and scrolling the view down by one line moves it up by one line. */
  lemma OverlayFollowsCursor(currentRow: nat, currentColumn: nat, topRow: nat)
    ensures OverlayFrame(currentRow + 1, currentColumn, topRow).y == OverlayFrame(currentRow, currentColumn, topRow).y + 1
    ensures OverlayFrame(currentRow, currentColumn + 1, topRow).x == OverlayFrame(currentRow, currentColumn, topRow).x + 1
    ensures OverlayFrame(currentRow, currentColumn, topRow + 1).y == OverlayFrame(currentRow, currentColumn, topRow).y - 1
  {
  }

  /** The label the list's row closure draws for `row`, as written: it draws the item
      only while the item count exceeds row + 1. */
  function RowLabel(data: Option<seq<CompletionItem>>, row: nat): (text: string)
    ensures text != "" ==> data.Some? && row < |data.value| && text == data.value[row].labelText
    ensures data.Some? && row + 1 == |data.value| ==> text == ""
  {
    var count := if data.Some? then |data.value| else 0;
    if count > row + 1 then data.value[row].labelText else ""
  }

  /** As written, every row but the last shows its item's label; the last row is blank. */
  lemma RowLabelAllButLast(items: seq<CompletionItem>, row: nat)
    ensures row + 1 < |items| ==> RowLabel(Some(items), row) == items[row].labelText
    ensures row + 1 >= |items| ==> RowLabel(Some(items), row) == ""
  {
  }

  /** A one-item list draws a blank row although its item has a label. */
  lemma RowLabelHidesOnlyItem()
    ensures RowLabel(Some([CompletionItem("foo")]), 0) == ""
  {
  }

  /** The row closure with the bound the list needs: every item's row draws its label. */
  function IntendedRowLabel(data: Option<seq<CompletionItem>>, row: nat): (text: string) {
    var count := if data.Some? then |data.value| else 0;
    if count > row then data.value[row].labelText else ""
  }

  lemma IntendedRowLabelShowsEveryItem(items: seq<CompletionItem>, row: nat)
    ensures row < |items| ==> IntendedRowLabel(Some(items), row) == items[row].labelText
    ensures row >= |items| ==> IntendedRowLabel(Some(items), row) == ""
  {
  }

  /** The corrected bound changes exactly one row: the last item's, which it draws
      instead of leaving blank. */
  lemma IntendedRowLabelDiffersOnlyAtLastRow(items: seq<CompletionItem>, row: nat)
    ensures row + 1 != |items| ==> RowLabel(Some(items), row) == IntendedRowLabel(Some(items), row)
    ensures row + 1 == |items| ==>
      RowLabel(Some(items), row) == "" && IntendedRowLabel(Some(items), row) == items[row].labelText
  {
  }

  /** The completion context for an optional trigger character: the kind is `invoked`
      exactly when there is no trigger character. */
  function ContextFor(triggerChar: Option<string>): (c: CompletionContext)
    ensures c.triggerCharacter == triggerChar
    ensures c.triggerKind == Invoked <==> triggerChar.None?
    ensures c.triggerKind == TriggerCharacter <==> triggerChar.Some?
  {
    CompletionContext(if triggerChar == None then Invoked else TriggerCharacter, triggerChar)
  }

  /** The completion request a key asks for when no overlay is shown, if any. */
  function CompletionTrigger(key: Key): (t: Option<CompletionContext>)
    ensures t.Some? <==> key == Letter('.') || key == ControlSpace
    ensures key == Letter('.') ==> t == Some(CompletionContext(TriggerCharacter, Some(".")))
    ensures key == ControlSpace ==> t == Some(CompletionContext(Invoked, None))
  {
    match key
    case Letter(c) => if c == '.' then Some(ContextFor(Some("."))) else None
    case ControlSpace => Some(ContextFor(None))
    case _ => None
  }

  /** The message logged when a completion request fails. */
  function CompletionErrorMessage(e: LanguageServerError): (m: string) {
    e.errorDescription.GetOr("unknown")
  }

  /** The state of the overlay list: its selected row and its frame. */
  datatype ListState = ListState(selectedItem: nat, frame: Rect)

  /** The source editor for Swift files: requests completions and shows them in an overlay
      list. The SourceEditor it extends is `editor`. */
  class SwiftSourceEditor {
    const editor: SourceEditor
    /** The overlay list, when shown. */
    var completions: Option<ListState>
    /** The items the overlay list shows. */
    var completionData: Option<seq<CompletionItem>>
    /** The labels inserted into the buffer by accepting a completion, in order. */
    var inserted: seq<string>

    ghost predicate Valid()
      reads this, editor
    {
      && editor.Valid()
      && (completions.Some? <==> completionData.Some?)
      && (completions.Some? ==> completions.value.selectedItem < |completionData.value|)
    }

    constructor (file: string)
      ensures Valid() && fresh(editor)
      ensures editor.file == file && editor.changeId == 0 && editor.outbound == [] && editor.log == []
      ensures editor.view == ViewState("", false, 0, 0, 0)
      ensures completions == None && completionData == None && inserted == []
    {
      editor := new SourceEditor(file);
      completions := None;
      completionData := None;
      inserted := [];
    }

    /** The document identifier completion requests carry, built from the file's path. */
    function DocId(): (id: TextDocumentIdentifier) {
      TextDocumentIdentifier(editor.file)
    }

    /** Closes the overlay; does nothing when none is shown. */
    method RemoveCompletionWindow()
      requires Valid()
      modifies this`completions, this`completionData
      ensures Valid()
      ensures completions == None && completionData == None
      ensures old(completions).None? ==> unchanged(this)
    {
      if completions.None? {
        return;
      }
      completionData := None;
      completions := None;
    }

    /** Opens an overlay showing `items`, replacing any overlay already shown. */
    method AddCompletions(items: seq<CompletionItem>)
      requires Valid()
      requires |items| > 0
      modifies this`completions, this`completionData
      ensures Valid()
      ensures completionData == Some(items)
      ensures completions == Some(ListState(0, OverlayFrame(editor.view.currentRow, editor.view.currentColumn, editor.view.topRow)))
    {
      RemoveCompletionWindow();
      completionData := Some(items);
      var frame := OverlayFrame(editor.view.currentRow, editor.view.currentColumn, editor.view.topRow);
      completions := Some(ListState(0, frame));
    }

    /** Sends a completion request at the cursor. */
    method Complete(triggerChar: Option<string>)
      requires Valid()
      modifies editor`outbound
      ensures Valid()
      ensures editor.outbound == old(editor.outbound) +
        [CompletionSent(CompletionParams(DocId(), Position(editor.view.currentRow, editor.view.currentColumn), ContextFor(triggerChar)))]
    {
      var position := Position(editor.view.currentRow, editor.view.currentColumn);
      var ctx := ContextFor(triggerChar);
      var request := CompletionSent(CompletionParams(DocId(), position, ctx));
      ChangesAndRequestsAppend(editor.outbound, [request]);
      editor.outbound := editor.outbound + [request];
    }

    /** The server's answer to a completion request, whichever request it answers:
        a failure is logged, an empty success is ignored, and a non-empty success
        replaces the overlay with exactly its items. */
    method CompletionReplied(reply: CompletionReply)
      requires Valid()
      modifies this`completions, this`completionData, editor`log
      ensures Valid()
      ensures reply.Failure? ==>
        && editor.log == old(editor.log) + [CompletionErrorMessage(reply.error)]
        && completions == old(completions) && completionData == old(completionData)
      ensures reply.Success? && |reply.items| == 0 ==>
        && editor.log == old(editor.log)
        && completions == old(completions) && completionData == old(completionData)
      ensures reply.Success? && |reply.items| > 0 ==>
        && editor.log == old(editor.log)
        && completionData == Some(reply.items)
        && completions == Some(ListState(0, OverlayFrame(editor.view.currentRow, editor.view.currentColumn, editor.view.topRow)))
    {
      match reply
      case Failure(err) =>
        editor.log := editor.log + [CompletionErrorMessage(err)];
      case Success(items) =>
        if |items| != 0 {
          AddCompletions(items);
        }
    }

    /** Ctrl-J with the overlay shown: inserts the selected item's label through the text view
        (whose answer is `insertOutcome`) and closes the overlay. */
    method AcceptCompletion(insertOutcome: InsertOutcome)
      requires Valid() && completions.Some?
      modifies this`inserted, this`completions, this`completionData, editor`view, editor`changeId, editor`outbound, editor`edits
      ensures Valid()
      ensures inserted == old(inserted) + [old(completionData).value[old(completions).value.selectedItem].labelText]
      ensures completions == None && completionData == None
      ensures editor.Updated(insertOutcome.edit, insertOutcome.view, [])
    {
      inserted := inserted + [completionData.value[completions.value.selectedItem].labelText];
      editor.TextViewInsert(insertOutcome);
      RemoveCompletionWindow();
    }

    /** Any other key with the overlay shown goes to the list, whose answer is `listOutcome`. */
    method ListProcessKey(listOutcome: ListViewKeyOutcome) returns (handled: bool)
      requires Valid() && completions.Some?
      requires listOutcome.selectedItem < |completionData.value|
      modifies this`completions
      ensures Valid()
      ensures handled == listOutcome.handled
      ensures completions == Some(old(completions).value.(selectedItem := listOutcome.selectedItem))
    {
      completions := Some(completions.value.(selectedItem := listOutcome.selectedItem));
      handled := listOutcome.handled;
    }

    /** A key with no overlay: the text view handles it first (its answer is `viewOutcome`),
        then `.` or Ctrl-Space requests a completion at the cursor it leaves. */
    method EditorProcessKey(key: Key, viewOutcome: TextViewKeyOutcome) returns (handled: bool)
      requires Valid() && completions.None?
      modifies editor`view, editor`changeId, editor`outbound, editor`edits
      ensures Valid()
      ensures handled == viewOutcome.handled
      ensures editor.Updated(viewOutcome.edit, viewOutcome.view, RequestsFor(key, viewOutcome.view))
    {
      handled := editor.TextViewProcessKey(viewOutcome);

      match key {
        case Letter(c) =>
          if c == '.' {
            Complete(Some("."));
          }
        case ControlSpace =>
          Complete(None);
        case _ =>
      }
    }

    /** The completion requests a key sends when no overlay is shown, given the view's state
        after the text view handled the key. */
    function RequestsFor(key: Key, view: ViewState): (rs: seq<Outbound>) {
      var t := CompletionTrigger(key);
      if t.Some? then [CompletionSent(CompletionParams(DocId(), Position(view.currentRow, view.currentColumn), t.value))] else []
    }

    /** Routes a key. With the overlay shown, Ctrl-J inserts the selected item's label (the text
        view's insert answers with `insertOutcome`) and closes the overlay, and every other key
        goes to the list (whose answer is `listOutcome`). Otherwise the text view handles the key
        first (its answer is `viewOutcome`), then `.` or Ctrl-Space requests a completion. */
    method ProcessKey(key: Key, viewOutcome: TextViewKeyOutcome, listOutcome: ListViewKeyOutcome, insertOutcome: InsertOutcome)
      returns (handled: bool)
      requires Valid()
      requires completions.Some? ==> listOutcome.selectedItem < |completionData.value|
      modifies this, editor
      ensures Valid()
      ensures old(completions).Some? && key == ControlJ ==>
        && !handled
        && inserted == old(inserted) + [old(completionData).value[old(completions).value.selectedItem].labelText]
        && completions == None && completionData == None
        && editor.Updated(insertOutcome.edit, insertOutcome.view, [])
      ensures old(completions).Some? && key != ControlJ ==>
        && handled == listOutcome.handled
        && completions == Some(old(completions).value.(selectedItem := listOutcome.selectedItem))
        && completionData == old(completionData)
        && inserted == old(inserted)
        && unchanged(editor)
      ensures old(completions).None? ==>
        && handled == viewOutcome.handled
        && editor.Updated(viewOutcome.edit, viewOutcome.view, RequestsFor(key, viewOutcome.view))
        && completions == None && completionData == None && inserted == old(inserted)
    {
      if completions.Some? {
        if key == ControlJ {
          AcceptCompletion(insertOutcome);
          return false;
        }
        handled := ListProcessKey(listOutcome);
        return;
      }
      handled := EditorProcessKey(key, viewOutcome);
    }
  }

  /** Two requests are sent and the reply to the first arrives after the second:
      it is shown all the same. The first notification carries version 0, and accepting
      the completion edits the buffer through the text view, which sends version 1. */
  method StaleReplyScenario() {
    var e := new SwiftSourceEditor("main.swift");
    var dotEdit := BufferEdit(TextRange(TextPosition(0, 5), TextPosition(0, 5)), ".");
    var view := ViewState("let x.", true, 0, 6, 0);
    var noInsert := InsertOutcome(None, view);
    var h := e.ProcessKey(Letter('.'), TextViewKeyOutcome(false, Some(dotEdit), view), ListViewKeyOutcome(false, 0), noInsert);
    var dotRequest := CompletionParams(TextDocumentIdentifier("main.swift"), Position(0, 6), CompletionContext(TriggerCharacter, Some(".")));
    assert e.editor.outbound == [ChangeSent(DidChange("main.swift", 0, dotEdit)), CompletionSent(dotRequest)];
    h := e.ProcessKey(ControlSpace, TextViewKeyOutcome(true, None, view), ListViewKeyOutcome(false, 0), noInsert);
    var spaceRequest := CompletionParams(TextDocumentIdentifier("main.swift"), Position(0, 6), CompletionContext(Invoked, None));
    assert e.editor.outbound == [ChangeSent(DidChange("main.swift", 0, dotEdit)), CompletionSent(dotRequest), CompletionSent(spaceRequest)];
    e.CompletionReplied(Success([CompletionItem("foo"), CompletionItem("bar")]));
    assert e.completionData == Some([CompletionItem("foo"), CompletionItem("bar")]);
    var fooEdit := BufferEdit(TextRange(TextPosition(0, 6), TextPosition(0, 6)), "foo");
    var accepted := InsertOutcome(Some(fooEdit), ViewState("let x.foo", true, 0, 9, 0));
    h := e.ProcessKey(ControlJ, TextViewKeyOutcome(false, None, view), ListViewKeyOutcome(false, 0), accepted);
    assert e.inserted == ["foo"] && e.completions == None && !h;
    assert e.editor.outbound == [ChangeSent(DidChange("main.swift", 0, dotEdit)), CompletionSent(dotRequest),
                                 CompletionSent(spaceRequest), ChangeSent(DidChange("main.swift", 1, fooEdit))];
  }
}
