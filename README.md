# TurboSwift editor core in Dafny

TurboSwift is a terminal editor for Swift. It sits between a terminal UI toolkit (TermKit) and a
language server (sourcekit-lsp, reached through SwiftLSPClient). This project models the small
amount of state the editor keeps between the two, and proves what the code promises about it.

- **Change versioning** (`SourceEditors.SourceEditor`). Every buffer edit the text view reports
  becomes one `didChange` notification. The notification is stamped with the current `changeId`,
  and then the counter advances. A ghost history of the edits ties the notifications sent to
  `Replay`, which is the list of notifications a fresh editor sends for those edits. The lemmas
  about `Replay` give the version and the content of every notification.
- **Completion overlay** (`SourceEditors.SwiftSourceEditor`). The overlay is the pair
  `completions` / `completionData`, and the list owns the selected index. Completion requests go
  out on the same connection as the change notifications. A server reply is an explicit event, `CompletionReplied`. `ProcessKey`
  routes a key to the overlay or to the text view. Completion requests follow from the key.
- **Window naming and saving** (`FileWindows`). `UntitledCounter` holds FileWindow's static
  `untitledCount` and its `getUntitled`. `FileWindow` models `init`, `save`, `saveAs`, `saveFile`
  and the `isDirty` pass-through.

The toolkit's own key handlers are not modelled; their answers are parameters. `TextView.processKey`
answers with a `TextViewKeyOutcome`: whether the view consumed the key, the edit it reported to its
edit callback, and its state afterwards. `ListView.processKey` answers with a `ListViewKeyOutcome`.
The outcome of the save dialog (`chosen`) and of the file write (`writeOk`) are parameters too.
Outbound messages are recorded, not sent. An editor's change notifications and completion requests
are kept in one sequence, `SourceEditor.outbound`, in the order they go out on the connection;
`Changes` and `Requests` read each kind off it. The files a project opens are kept in
`Project.loaded`.
Log lines, error boxes, dialogs and writes are recorded the same way.

Some properties of the code as written, all proved:

- The counter starts at 0 and only `getUntitled` writes it. At 0, `getUntitled` returns
  "Untitled" without advancing, so every untitled window and editor is called "Untitled"
  (`UntitledFromZero`, `UntitledWindowsScenario`). The numbered names only appear from a
  positive counter, and then they are pairwise different (`UntitledNamesDistinct`).
- A completion reply carries no request identity and no document version. A non-empty reply
  replaces the overlay whichever request it answers, however late it arrives
  (`StaleReplyScenario`). No staleness rule is modelled, because the code has none.
- The first change notification carries version 0, not 1.
- Typing `.` sends the `.` edit's change notification before the completion request, because the
  text view reports the edit while it handles the key. The request asks about the text after the
  edit, so it relies on that order (`EditorProcessKey`, `StaleReplyScenario`).
- Accepting a completion inserts the label text through the text view's `insert`. The text
  view's answer to it is a parameter, like its answer to a key. An edit it reports goes
  through the same edit callback, so it becomes the next `didChange`. The editor has no
  select-next/previous or dismiss operations of its own: other keys go to the list.
- Save As changes the file name that the debug description shows. The window's title and the
  name that the editor's change notifications carry keep the old name
  (`SaveAsRenameScenario`).

## Model

| member | source | states |
|---|---|---|
| `SourceEditors.ChangesAndRequestsAppend` | TurboSwift/SourceEditor.swift:33-35 | Appending messages to the connection appends their change notifications to the notifications and their completion requests to the requests, so each kind keeps its order within the shared traffic |
| `SourceEditors.ReplayNotifications` | TurboSwift/SourceEditor.swift:29-35 | The i-th notification (0-based) has version i and the editor's file name. It holds exactly one change: the i-th edit's range field by field, its text, and no range length |
| `SourceEditors.VersionsContiguous` | TurboSwift/SourceEditor.swift:33-34 | Versions start at 0 and each one is exactly one more than the one before: no gaps, in call order |
| `SourceEditors.SourceEditor.constructor` | TurboSwift/SourceEditor.swift:17-27 | A new editor's counter is 0 and it has sent nothing |
| `SourceEditors.SourceEditor.SentInOrder` | TurboSwift/SourceEditor.swift:33-35 | In any editor state the methods keep, the counter equals the number of change notifications on the connection, and the i-th one carries version i, the editor's file and one change |
| `SourceEditors.SourceEditor.TextEdited` | TurboSwift/SourceEditor.swift:29-41 | The edit callback puts one notification on the connection, stamped with the old counter, and the counter goes up by one. The history invariant (the notifications on the connection are the Replay of the edits) is kept |
| `SourceEditors.SourceEditor.DidChangeReplied` | TurboSwift/SourceEditor.swift:36-40 | A transport error on didChange only appends its description, or "error, but no error description", to the log. The counter and the notifications already sent do not change (no rollback) |
| `SourceEditors.SourceEditor.TextViewInsert` | TurboSwift/SourceEditor.swift:115 | The text view's insert: the view takes the reported state, and an edit it reports goes through TextEdited as the next message on the connection; nothing else is sent |
| `SourceEditors.SourceEditor.TextViewProcessKey` | TurboSwift/SourceEditor.swift:124 | The base text view's key handling: the view takes the reported state, and an edit it reports goes through TextEdited as the next message on the connection; nothing else is sent |
| `SourceEditors.OverlayFrame` | TurboSwift/SourceEditor.swift:88 | The list is 30 by 10. When the cursor is in view, the list starts on a screen line below the cursor's own (`currentRow - topRow`), so it never covers the cursor's line, and it starts at the cursor's column. Nothing clamps the position: when the view is scrolled more than one line past the cursor, the list opens above the view |
| `SourceEditors.OverlayFollowsCursor` | TurboSwift/SourceEditor.swift:88 | The list follows the cursor. One more cursor line or column moves it by one line or column. Scrolling the view down by one line moves it up by one line |
| `SourceEditors.RowLabel` | TurboSwift/SourceEditor.swift:79-83 | The row closure as written: a label it draws is always the label of that row's item, and the last item's row is drawn blank |
| `SourceEditors.RowLabelAllButLast` | TurboSwift/SourceEditor.swift:79-83 | As written, row r shows items[r]'s label only when r + 1 < count, so the last item's row is blank |
| `SourceEditors.RowLabelHidesOnlyItem` | TurboSwift/SourceEditor.swift:79-83 | A one-item list draws its only row blank |
| `SourceEditors.IntendedRowLabelShowsEveryItem` | TurboSwift/SourceEditor.swift:78-84 | With the bound r < count, every item's row shows its label and rows past the end are blank |
| `SourceEditors.IntendedRowLabelDiffersOnlyAtLastRow` | TurboSwift/SourceEditor.swift:79-83 | The corrected bound changes exactly one row: every row other than the last item's draws the same as written, and the last item's row is blank as written but shows its label when corrected |
| `SourceEditors.ContextFor` | TurboSwift/SourceEditor.swift:97 | The trigger kind is `invoked` exactly when there is no trigger character, and `triggerCharacter` otherwise. The character is passed through |
| `SourceEditors.CompletionTrigger` | TurboSwift/SourceEditor.swift:126-135 | Only `.` and Ctrl-Space request completion: `.` with kind triggerCharacter and character ".", Ctrl-Space with kind invoked and no character |
| `SourceEditors.SwiftSourceEditor.constructor` | TurboSwift/SourceEditor.swift:46-48 | A new Swift editor has no overlay, no requests, and a fresh SourceEditor for the file |
| `SourceEditors.SwiftSourceEditor.RemoveCompletionWindow` | TurboSwift/SourceEditor.swift:50-57 | Afterwards both `completions` and `completionData` are absent; with no overlay nothing changes. So it is idempotent |
| `SourceEditors.SwiftSourceEditor.AddCompletions` | TurboSwift/SourceEditor.swift:75-92 | Replaces any overlay with one showing exactly the given items, in order, with the first row selected, placed by OverlayFrame |
| `SourceEditors.SwiftSourceEditor.Complete` | TurboSwift/SourceEditor.swift:94-99 | Puts one completion request on the editor's connection, after everything already sent, for the file at (currentRow, currentColumn), with the context ContextFor gives |
| `SourceEditors.SwiftSourceEditor.CompletionReplied` | TurboSwift/SourceEditor.swift:100-109 | A failure logs its description (or "unknown") and leaves the overlay alone. An empty success changes nothing. A non-empty success replaces the overlay with exactly its items, whichever request it answers |
| `SourceEditors.SwiftSourceEditor.AcceptCompletion` | TurboSwift/SourceEditor.swift:114-116 | Ctrl-J with an overlay inserts the selected item's label through the text view. The text view's reported edit is sent as the next notification, nothing is requested, and the overlay is closed |
| `SourceEditors.SwiftSourceEditor.ListProcessKey` | TurboSwift/SourceEditor.swift:117-118 | Any other key with an overlay goes to the list: the list's answer is returned and its selection is taken. The items stay |
| `SourceEditors.SwiftSourceEditor.EditorProcessKey` | TurboSwift/SourceEditor.swift:124-136 | With no overlay, the text view handles the key first and its answer is returned. On the connection, the edit it reported goes out first, then `.` requests completion at the cursor it left with trigger character ".", Ctrl-Space requests it as invoked, and other keys request nothing |
| `SourceEditors.SwiftSourceEditor.ProcessKey` | TurboSwift/SourceEditor.swift:111-137 | With an overlay, Ctrl-J inserts the selected item's label through the text view, sends the edit the view reports, closes the overlay and returns false. Any other key goes to the list, whose answer is returned; nothing is edited or sent. Without an overlay, the text view handles the key first and its answer is returned. On the connection, the reported edit's notification goes out before the completion request that `.` or Ctrl-Space sends at the cursor; other keys request nothing |
| `Decimal.DecimalString` | TurboSwift/FileWindow.swift:48 | Interpolating a count gives a non-empty string of decimal digits with no leading zero |
| `Decimal.DecimalRoundTrip` | TurboSwift/FileWindow.swift:48 | Reading the interpolated digits back gives the count |
| `Decimal.DecimalStringInjective` | TurboSwift/FileWindow.swift:48 | Different counts are interpolated differently |
| `FileWindows.NextUntitled` | TurboSwift/FileWindow.swift:45-49 | One call of getUntitled: it answers "Untitled" exactly when the counter is 0, and the counter stays 0 exactly then. From a positive counter it advances by one and the name is "Untitled-" followed by the new value |
| `FileWindows.UntitledFromZero` | TurboSwift/FileWindow.swift:45-49 | From the initial counter 0, any number of calls all return "Untitled" |
| `FileWindows.UntitledFromPositive` | TurboSwift/FileWindow.swift:47-48 | From a counter k > 0, the i-th call returns "Untitled-" followed by k + 1 + i |
| `FileWindows.UntitledNamesDistinct` | TurboSwift/FileWindow.swift:47-48 | From a positive counter, successive calls return pairwise different names |
| `FileWindows.UntitledCounter.constructor` | TurboSwift/FileWindow.swift:17 | The static counter starts at 0 |
| `FileWindows.UntitledCounter.GetUntitled` | TurboSwift/FileWindow.swift:45-49 | At 0, returns "Untitled" and leaves the counter at 0. At k > 0, sets the counter to k + 1 and returns "Untitled-" followed by k + 1 |
| `FileWindows.Project.Load` | TurboSwift/Project.swift:45-51 | A load request for the file is recorded |
| `FileWindows.FileWindow.constructor` | TurboSwift/FileWindow.swift:21-43 | With a file name, the editor and the title use it, the counter is untouched and the project loads it. Without one, the editor takes a first untitled name and the title a second, and nothing is loaded. The editor holds the given contents |
| `FileWindows.FileWindow.DebugDescription` | TurboSwift/FileWindow.swift:51-55 | The description is 13 characters longer than the file name it shows, and an unnamed window describes itself as "FileWindow (Untitled)" |
| `FileWindows.FileWindow.DescriptionNamesFile` | TurboSwift/FileWindow.swift:51-55 | The file name can be read back from the description: it stands between "FileWindow (" and ")". An unnamed window shows "Untitled" there, so it cannot be told apart from a window whose file is called "Untitled" |
| `FileWindows.FileWindow.SetDirty` | TurboSwift/FileWindow.swift:88-91 | Setting isDirty sets the editor's flag: reading it back gives the value set, and nothing else in the view changes |
| `FileWindows.FileWindow.SaveFile` | TurboSwift/FileWindow.swift:58-65 | When the write succeeds, the buffer text is written to the target and isDirty becomes false. When it fails, an error box names the target and isDirty and the view are unchanged |
| `FileWindows.FileWindow.SaveAs` | TurboSwift/FileWindow.swift:67-78 | Presents a dialog starting at the initial path, or "" without one. With no file chosen, nothing else changes. Otherwise the file name becomes the choice, the description names it, and SaveFile runs on it |
| `FileWindows.FileWindow.Save` | TurboSwift/FileWindow.swift:80-86 | With no file name, behaves as SaveAs with no initial path. Otherwise it runs SaveFile on the current name, with no dialog and the name unchanged |

## Left out

- Toolkit internals: `TextView` editing, rendering, cursor movement and `ListView` selection are not modelled. Their results are given as `TextViewKeyOutcome` / `ListViewKeyOutcome` / `InsertOutcome` parameters. Each outcome carries at most one edit, so the model assumes a key or an inserted label reports at most one edit to the edit callback, and so sends at most one didChange.
- ProcessKey: the buffer change that `insert(text:)` makes on Ctrl-J is given as a parameter, not computed. Whether the reported edit really inserts the label at the cursor is the toolkit's business and is not modelled.
- ProcessKey (and ListProcessKey, which it calls): requires that the list's reported selection lies inside its items. The list view keeps it there; it is not modelled.
- AddCompletions: requires a non-empty item list. Its only caller (line 105) checks this. With an empty list, Swift's Ctrl-J would index an empty array.
- View plumbing is not modelled: colours, the selection marker, `allowMarking`, `canFocus`, `addSubview`, removal from the superview, `fill`, `becomeFirstResponder`, the window's move/close/resize flags, and the error box's buttons.
- FileWindow.constructor: assumes that setting the text view's `text` (FileWindow.swift:28) neither marks the buffer dirty nor reports an edit to the edit callback, so a new window is clean and has sent no didChange. That is TermKit behaviour, which is not part of this model; unlike the key and insert handlers, this setter's outcome is not a parameter.
- Project.Load records the request only. Reading the file and sending didOpen (Project.swift) are I/O in the client library, which is not part of this model.
- Columns: the buffer column is copied into the protocol's `character` as-is. The protocol counts UTF-16 code units. Whether the toolkit's column counts the same units is not modelled, and no conversion is made (lines 30-31).
- The path-to-URI conversion of `TextDocumentIdentifier(path:)` (completion, line 23) and of `TextDocumentItem(contentsOfFile:)` (didOpen, Project.swift:46) belongs to the client library. The model keeps the path as given in both. The source puts the raw file name straight into the URI field of didChange (`VersionedTextDocumentIdentifier(uri: file, …)`, line 33), with no conversion. So on the wire, didChange may name a document differently from didOpen and completion, and the model does not show that difference.
- An untitled window never loads its document (`Project.loaded` stays as it was), yet its edits still send didChange for the untitled name: the server is told about changes to a document it never opened. The model records this as it happens and does not flag it.
- Project.loaded is kept apart from `SourceEditor.outbound`. A window loads its file in its constructor, before its editor can send anything, so the didOpen comes first; interleaving across several windows on the one connection is not modelled.
- Integers are unbounded. Swift's 64-bit `Int` overflow of `changeId` and `untitledCount` is not modelled, because neither value comes near the bound in practice.
- The buffer text is a plain string. The nil case of `textView.text?` in saveFile, where nothing is written but isDirty is still cleared, is not modelled.
- Asynchronous callbacks (the didChange error, the completion reply, the dialog's completion) are single atomic events, and their interleaving is not modelled. Logging is recorded as a per-editor list of lines.
- Application start-up, menus, window placement and message boxes (main.swift) are UI and are not part of this model.

## Findings

| source | as written | input that shows it | evidently intended | confidence | as-written member | corrected member |
|---|---|---|---|---|---|---|
| TurboSwift/SourceEditor.swift:79 | the row closure draws an item only when `count > row + 1` | a reply with one item `foo`: row 0 draws "" | draw every item, `count > row` | medium, not executed | `SourceEditors.RowLabelHidesOnlyItem` | `SourceEditors.IntendedRowLabelShowsEveryItem` |
