/** The terminal toolkit's side of the editor, as values: buffer coordinates, keys, and
    the answers the toolkit's own key handlers give. Those handlers are not modelled;
    the editor receives their answers as parameters. */
module Toolkit {
  import opened Optional

  /** A position in the text buffer: zero-based line and column. */
  datatype TextPosition = TextPosition(line: nat, column: nat)

  datatype TextRange = TextRange(start: TextPosition, end: TextPosition)

  /** One buffer mutation, as the text view reports it to its edit callback. */
  datatype BufferEdit = BufferEdit(range: TextRange, text: string)

  /** The keys the editor tells apart; `OtherKey` stands for every other key. */
  datatype Key = Letter(ch: char) | ControlJ | ControlSpace | OtherKey(code: int)

  /** The text view's state that the editor reads or that the window saves. */
  datatype ViewState = ViewState(text: string, isDirty: bool, currentRow: nat, currentColumn: nat, topRow: nat)

  /** The text view's answer to a key: whether it consumed it, the edit it made
      (reported through the edit callback), and its state afterwards. */
  datatype TextViewKeyOutcome = TextViewKeyOutcome(handled: bool, edit: Option<BufferEdit>, view: ViewState)

  /** The text view's answer to insert(text:): the edit it made (reported through the edit
      callback), if any, and its state afterwards. */
  datatype InsertOutcome = InsertOutcome(edit: Option<BufferEdit>, view: ViewState)

  /** The list view's answer to a key: whether it consumed it and its selected row afterwards. */
  datatype ListViewKeyOutcome = ListViewKeyOutcome(handled: bool, selectedItem: nat)

  /** A view's frame relative to its parent. */
  datatype Rect = Rect(x: int, y: int, width: nat, height: nat)
}
