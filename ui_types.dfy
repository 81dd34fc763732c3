/** The task pane's shared record shapes. */
module UiTypes {
  import opened Wrappers
  import WpsAddon

  datatype Role = User | Assistant | System

  /**
   * A code block of an assistant message; `executed` is false while the
   * field is absent.
   */
  datatype CodeBlock = CodeBlock(
    id: string,
    language: string,
    code: string,
    executed: bool,
    result: Option<string>,
    error: Option<string>,
    diff: Option<WpsAddon.DiffResult>)

  /** A chat message; `codeBlocks` is `None` while the field is absent. */
  datatype ChatMessage = ChatMessage(
    id: string,
    role: Role,
    content: string,
    timestamp: int,
    codeBlocks: Option<seq<CodeBlock>>,
    isStreaming: bool,
    isError: bool,
    suggestAgentSwitch: bool)

  /** Font size is kept as its printed form. */
  datatype Font = Font(name: string, size: string, bold: bool, italic: bool)

  datatype SelectionContext = SelectionContext(
    text: string,
    charCount: int,
    start: int,
    end: int,
    paragraphCount: int,
    styleName: string,
    font: Font,
    before: seq<string>,
    after: seq<string>,
    hasSelection: bool)

  datatype OutlineItem = OutlineItem(level: int, text: string)

  datatype DocumentSummary = DocumentSummary(tableCount: int, sectionCount: int)

  datatype WpsContext = WpsContext(
    documentName: string,
    pageCount: int,
    wordCount: int,
    paragraphCount: int,
    selection: Option<SelectionContext>,
    outline: seq<OutlineItem>,
    documentSummary: Option<DocumentSummary>)

  datatype QuickAction = QuickAction(icon: string, caption: string, prompt: string)
}
