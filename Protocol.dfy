/** The Language Server Protocol messages the editor builds, as plain values.
    Their JSON-RPC encoding belongs to the client library and is not modelled. */
module Protocol {
  import opened Optional

  /** A zero-based position in a document: line and character offset. */
  datatype Position = Position(line: nat, character: nat)

  datatype LspRange = LspRange(start: Position, end: Position)

  /** One incremental change: the replaced range, its optional length and the new text. */
  datatype ContentChangeEvent = ContentChangeEvent(range: Option<LspRange>, rangeLength: Option<nat>, text: string)

  datatype VersionedTextDocumentIdentifier = VersionedTextDocumentIdentifier(uri: string, version: int)

  /** The parameters of a `textDocument/didChange` notification. */
  datatype DidChangeTextDocumentParams =
    DidChangeTextDocumentParams(textDocument: VersionedTextDocumentIdentifier, contentChanges: seq<ContentChangeEvent>)

  /** A document identifier built from a file path; the path-to-URI conversion is the client library's. */
  datatype TextDocumentIdentifier = TextDocumentIdentifier(path: string)

  datatype CompletionTriggerKind = Invoked | TriggerCharacter | TriggerForIncompleteCompletions

  datatype CompletionContext = CompletionContext(triggerKind: CompletionTriggerKind, triggerCharacter: Option<string>)

  /** The parameters of a `textDocument/completion` request. */
  datatype CompletionParams =
    CompletionParams(textDocument: TextDocumentIdentifier, position: Position, context: CompletionContext)

  /** A message the editor puts on its one connection to the server. */
  datatype Outbound = ChangeSent(change: DidChangeTextDocumentParams) | CompletionSent(request: CompletionParams)

  /** The part of a completion item the editor uses: its label (`label` is a Dafny keyword). */
  datatype CompletionItem = CompletionItem(labelText: string)

  /** An error reported by the client library; its description is optional. */
  datatype LanguageServerError = LanguageServerError(errorDescription: Option<string>)

  /** What the completion request's callback receives. */
  datatype CompletionReply = Failure(error: LanguageServerError) | Success(items: seq<CompletionItem>)
}
