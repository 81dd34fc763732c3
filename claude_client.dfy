/**
 * The task pane's side of a chat: the context text sent with each request,
 * the outgoing message list, the event-stream reader that turns the proxy's
 * frames into callbacks, and the extraction of fenced code blocks from an
 * answer.
 */
module ClaudeClient {
  import opened Wrappers
  import opened Strings
  import opened UiTypes

  const SelectionExcerptLimit := 1500

  // ---------------------------------------------------------------------------
  // buildContextString

  /** One outline line: two spaces per level below 1, the text and a line break. */
  function OutlineLine(h: OutlineItem): string
    requires h.level >= 1
  {
    Repeat("  ", h.level - 1) + h.text + "\n"
  }

  predicate LevelsValid(outline: seq<OutlineItem>) {
    forall k :: 0 <= k < |outline| ==> outline[k].level >= 1
  }

  function OutlineLines(outline: seq<OutlineItem>): string
    requires LevelsValid(outline)
  {
    if outline == [] then ""
    else OutlineLines(outline[..|outline| - 1]) + OutlineLine(outline[|outline| - 1])
  }

  /** Each paragraph indented by two spaces on its own line. */
  function IndentedLines(ps: seq<string>): string {
    if ps == [] then "" else IndentedLines(ps[..|ps| - 1]) + "  " + ps[|ps| - 1] + "\n"
  }

  function HeaderPart(ctx: WpsContext): string {
    "文档: " + ctx.documentName + "\n"
    + "页数: " + IntToString(ctx.pageCount) + " | 字数: " + IntToString(ctx.wordCount)
    + " | 段落数: " + IntToString(ctx.paragraphCount) + "\n"
    + (if ctx.documentSummary.Some? then
         "表格数: " + IntToString(ctx.documentSummary.value.tableCount)
         + " | 节数: " + IntToString(ctx.documentSummary.value.sectionCount) + "\n"
       else "")
  }

  function OutlinePart(outline: seq<OutlineItem>): string
    requires LevelsValid(outline)
  {
    if |outline| > 0 then "\n[文档大纲]\n" + OutlineLines(outline) else ""
  }

  const NoSelectionLine := "\n当前无选区（光标处于文档中）\n"

  function TruncationNote(charCount: int): string {
    if charCount > SelectionExcerptLimit then "  ... (共 " + IntToString(charCount) + " 字符，仅展示前 1500)\n" else ""
  }

  function AfterPart(after: seq<string>): string {
    if |after| > 0 then "\n[选区后文]\n" + IndentedLines(after) else ""
  }

  /** Position, length, paragraph count, style and font of the selection. */
  function SelectionInfo(s: SelectionContext): string {
    "\n[当前选区] 字符位置 " + IntToString(s.start) + "-" + IntToString(s.end) + "，共 " + IntToString(s.charCount)
    + " 字符，" + IntToString(s.paragraphCount) + " 个段落\n"
    + "样式: " + (if s.styleName == "" then "未知" else s.styleName) + " | 字体: " + s.font.name + " " + s.font.size + "pt"
    + (if s.font.bold then " 加粗" else "") + (if s.font.italic then " 斜体" else "") + "\n"
  }

  function BeforePart(before: seq<string>): string {
    if |before| > 0 then "\n[选区前文]\n" + IndentedLines(before) else ""
  }

  /** The quoted selection text, at most 1500 characters of it. */
  function Excerpt(s: SelectionContext): string {
    "\n[选区文本]\n  " + Take(s.text, SelectionExcerptLimit) + "\n"
  }

  /** The description of a selection: position, style and font, surrounding paragraphs and the excerpt. */
  function SelectedPart(s: SelectionContext): string {
    SelectionInfo(s) + BeforePart(s.before) + Excerpt(s) + TruncationNote(s.charCount) + AfterPart(s.after)
  }

  predicate HasSelection(sel: Option<SelectionContext>) {
    sel.Some? && sel.value.hasSelection
  }

  /** `buildContextString`'s result. */
  function ContextString(ctx: WpsContext): string
    requires LevelsValid(ctx.outline)
  {
    HeaderPart(ctx) + OutlinePart(ctx.outline)
    + (if HasSelection(ctx.selection) then SelectedPart(ctx.selection.value) else NoSelectionLine)
  }

  /** The outline loop. */
  method WriteOutlineLines(outline: seq<OutlineItem>) returns (out: string)
    requires LevelsValid(outline)
    ensures out == OutlineLines(outline)
  {
    out := "";
    var k := 0;
    while k < |outline|
      invariant 0 <= k <= |outline|
      invariant out == OutlineLines(outline[..k])
    {
      assert outline[..k + 1][..k] == outline[..k];
      out := out + Repeat("  ", outline[k].level - 1) + outline[k].text + "\n";
      k := k + 1;
    }
    assert outline[..|outline|] == outline;
  }

  /** The loop over the paragraphs before or after the selection. */
  method WriteIndentedLines(ps: seq<string>) returns (out: string)
    ensures out == IndentedLines(ps)
  {
    out := "";
    var k := 0;
    while k < |ps|
      invariant 0 <= k <= |ps|
      invariant out == IndentedLines(ps[..k])
    {
      assert ps[..k + 1][..k] == ps[..k];
      out := out + "  " + ps[k] + "\n";
      k := k + 1;
    }
    assert ps[..|ps|] == ps;
  }

  /**
   * `buildContextString`. Outline levels below 1 make `"  ".repeat` throw,
   * so the outline must have levels of at least 1 (the add-in's outline has
   * levels 1 to 4).
   */
  method BuildContextString(ctx: WpsContext) returns (text: string)
    requires LevelsValid(ctx.outline)
    ensures text == ContextString(ctx)
  {
    var header := HeaderPart(ctx);
    var outlinePart := "";
    if |ctx.outline| > 0 {
      var lines := WriteOutlineLines(ctx.outline);
      outlinePart := "\n[文档大纲]\n" + lines;
    }
    var selectionPart := NoSelectionLine;
    if ctx.selection.Some? && ctx.selection.value.hasSelection {
      var s := ctx.selection.value;
      var beforePart, afterPart := "", "";
      if |s.before| > 0 {
        var lines := WriteIndentedLines(s.before);
        beforePart := "\n[选区前文]\n" + lines;
      }
      if |s.after| > 0 {
        var lines := WriteIndentedLines(s.after);
        afterPart := "\n[选区后文]\n" + lines;
      }
      selectionPart := SelectionInfo(s) + beforePart + Excerpt(s) + TruncationNote(s.charCount) + afterPart;
    }
    text := header + outlinePart + selectionPart;
  }

  /** Without a selection the context ends with the no-selection line. */
  lemma NoSelectionContext(ctx: WpsContext)
    requires LevelsValid(ctx.outline) && !HasSelection(ctx.selection)
    ensures EndsWith(ContextString(ctx), NoSelectionLine)
  {
  }

  /** An outline line is 2(level-1) spaces followed by the heading text and a line break. */
  lemma OutlineLineIndent(h: OutlineItem)
    requires h.level >= 1
    ensures var line, n := OutlineLine(h), 2 * (h.level - 1);
      && |line| == n + |h.text| + 1
      && (forall i :: 0 <= i < n ==> line[i] == ' ')
      && line[n..] == h.text + "\n"
  {
    RepeatSpaces(h.level - 1);
  }

  lemma {:induction false} RepeatSpaces(n: nat)
    ensures forall i :: 0 <= i < |Repeat("  ", n)| ==> Repeat("  ", n)[i] == ' '
  {
    if n > 0 {
      RepeatSpaces(n - 1);
    }
  }

  /** The lines of a prefix of the outline are a prefix of all the lines. */
  lemma {:induction false} OutlineLinesPrefix(outline: seq<OutlineItem>, n: nat)
    requires LevelsValid(outline) && n <= |outline|
    ensures StartsWith(OutlineLines(outline), OutlineLines(outline[..n]))
    decreases |outline|
  {
    if n < |outline| {
      OutlineLinesPrefix(outline[..|outline| - 1], n);
      assert outline[..|outline| - 1][..n] == outline[..n];
    } else {
      assert outline[..n] == outline;
    }
  }

  /** Heading `k`'s line follows the lines of the headings before it: outline order is kept. */
  lemma OutlineInOrder(outline: seq<OutlineItem>, k: nat)
    requires LevelsValid(outline) && k < |outline|
    ensures OccursAt(OutlineLines(outline), OutlineLine(outline[k]), |OutlineLines(outline[..k])|)
  {
    OutlineLinesPrefix(outline, k + 1);
    var upTo := OutlineLines(outline[..k + 1]);
    assert outline[..k + 1][..k] == outline[..k];
    assert upTo == OutlineLines(outline[..k]) + OutlineLine(outline[k]);
    assert OutlineLines(outline)[..|upTo|] == upTo;
  }

  /**
   * The selection text is quoted up to 1500 characters, and what follows the
   * excerpt starts with the truncation note exactly when the selection has
   * more than 1500 characters.
   */
  lemma SelectionExcerpt(s: SelectionContext)
    ensures exists i ::
      && OccursAt(SelectedPart(s), Excerpt(s), i)
      && (StartsWith(SelectedPart(s)[i + |Excerpt(s)|..], "  ...") <==> s.charCount > SelectionExcerptLimit)
    ensures |Take(s.text, SelectionExcerptLimit)| <= SelectionExcerptLimit
  {
    var head := SelectionInfo(s) + BeforePart(s.before);
    var tail := TruncationNote(s.charCount) + AfterPart(s.after);
    TailStartsWithNote(s.charCount, s.after);
    QuotedBetween(head, Excerpt(s), tail, s.charCount > SelectionExcerptLimit);
    Regroup(head, Excerpt(s), TruncationNote(s.charCount), AfterPart(s.after));
    assert SelectedPart(s) == head + Excerpt(s) + tail;
  }

  lemma Regroup(a: string, b: string, c: string, d: string)
    ensures a + b + c + d == a + b + (c + d)
  {
  }

  /** A piece between a head and a tail is found where the head ends, and the tail follows it. */
  lemma QuotedBetween(head: string, quoted: string, tail: string, noted: bool)
    requires StartsWith(tail, "  ...") <==> noted
    ensures exists i ::
      && OccursAt(head + quoted + tail, quoted, i)
      && (StartsWith((head + quoted + tail)[i + |quoted|..], "  ...") <==> noted)
  {
    var whole := head + quoted + tail;
    assert whole[|head|..|head| + |quoted|] == quoted;
    assert whole[|head| + |quoted|..] == tail;
    assert OccursAt(whole, quoted, |head|);
  }

  /** What follows the excerpt starts with "  ..." exactly when there is a truncation note. */
  lemma TailStartsWithNote(charCount: int, after: seq<string>)
    ensures StartsWith(TruncationNote(charCount) + AfterPart(after), "  ...") <==> charCount > SelectionExcerptLimit
  {
    var tail := TruncationNote(charCount) + AfterPart(after);
    if charCount > SelectionExcerptLimit {
      var note := TruncationNote(charCount);
      assert note == "  ... (共 " + IntToString(charCount) + " 字符，仅展示前 1500)\n";
      assert note[..5] == "  ...";
      assert tail[..5] == note[..5];
    } else if |tail| > 0 {
      assert tail == "\n[选区后文]\n" + IndentedLines(after);
      assert tail[0] == '\n';
    }
  }

  // ---------------------------------------------------------------------------
  // sendMessage: the request

  /** A message as sent to the proxy. */
  datatype WireMessage = WireMessage(role: Role, content: string)

  /** An attached file; `kind` is the optional `type` field. */
  datatype AttachmentFile = AttachmentFile(name: string, content: string, kind: Option<string>, tempPath: Option<string>)

  datatype SendOptions = SendOptions(
    model: Option<string>,
    attachments: Option<seq<AttachmentFile>>,
    webSearch: Option<bool>,
    mode: Option<string>)

  /** The request body; an absent optional field is `None`. */
  datatype Payload = Payload(
    messages: seq<WireMessage>,
    context: string,
    model: Option<string>,
    mode: Option<string>,
    webSearch: bool,
    attachments: Option<seq<AttachmentFile>>)

  /** The user and assistant turns of the history, in order, as wire messages. */
  function Conversation(history: seq<ChatMessage>): seq<WireMessage> {
    if history == [] then []
    else
      var m := history[|history| - 1];
      Conversation(history[..|history| - 1])
      + (if m.role == User || m.role == Assistant then [WireMessage(m.role, m.content)] else [])
  }

  /** The outgoing messages: the conversation so far, then the new user message. */
  function OutgoingMessages(userMessage: string, history: seq<ChatMessage>): (r: seq<WireMessage>)
    ensures |r| >= 1 && r[|r| - 1] == WireMessage(User, userMessage)
    ensures r[..|r| - 1] == Conversation(history)
  {
    Conversation(history) + [WireMessage(User, userMessage)]
  }

  /**
   * A wire message is in the conversation exactly when some user or
   * assistant message of the history has its role and content; system
   * notices are never sent.
   */
  lemma {:induction false} ConversationMembership(history: seq<ChatMessage>, w: WireMessage)
    ensures w in Conversation(history) <==>
      exists k :: 0 <= k < |history| && history[k].role != System && w == WireMessage(history[k].role, history[k].content)
    decreases |history|
  {
    if history != [] {
      var init := history[..|history| - 1];
      ConversationMembership(init, w);
      if w in Conversation(init) {
        var k :| 0 <= k < |init| && init[k].role != System && w == WireMessage(init[k].role, init[k].content);
        assert history[k] == init[k];
      }
      if exists k :: 0 <= k < |history| && history[k].role != System && w == WireMessage(history[k].role, history[k].content) {
        var k :| 0 <= k < |history| && history[k].role != System && w == WireMessage(history[k].role, history[k].content);
        if k < |init| {
          assert init[k] == history[k];
        }
      }
    }
  }

  /** An attachment as sent: its `type` defaults to "text". */
  function WireAttachment(f: AttachmentFile): AttachmentFile {
    f.(kind := Some(f.kind.GetOr("text")))
  }

  function WireAttachments(fs: seq<AttachmentFile>): (r: seq<AttachmentFile>)
    ensures |r| == |fs|
  {
    if fs == [] then [] else [WireAttachment(fs[0])] + WireAttachments(fs[1..])
  }

  /** `sendMessage`'s request body. */
  function BuildPayload(userMessage: string, history: seq<ChatMessage>, ctx: WpsContext, options: Option<SendOptions>): Payload
    requires LevelsValid(ctx.outline)
  {
    var o := options.GetOr(SendOptions(None, None, None, None));
    Payload(
      OutgoingMessages(userMessage, history),
      ContextString(ctx),
      if Truthy(o.model) then o.model else None,
      if Truthy(o.mode) then o.mode else None,
      o.webSearch == Some(true),
      if o.attachments.Some? && |o.attachments.value| > 0 then Some(WireAttachments(o.attachments.value)) else None)
  }

  /**
   * The optional fields are sent only when set to a non-empty value; each
   * attachment keeps its name, content and path and gets a type.
   */
  lemma PayloadFields(userMessage: string, history: seq<ChatMessage>, ctx: WpsContext, options: Option<SendOptions>)
    requires LevelsValid(ctx.outline)
    ensures var p := BuildPayload(userMessage, history, ctx, options);
      && (p.model.Some? <==> options.Some? && Truthy(options.value.model))
      && (p.model.Some? ==> p.model == options.value.model)
      && (p.mode.Some? <==> options.Some? && Truthy(options.value.mode))
      && (p.webSearch <==> options.Some? && options.value.webSearch == Some(true))
      && (p.attachments.Some? <==> options.Some? && options.value.attachments.Some? && |options.value.attachments.value| > 0)
      && (p.attachments.Some? ==>
            forall k :: 0 <= k < |p.attachments.value| ==>
              var f, g := options.value.attachments.value[k], p.attachments.value[k];
              g.name == f.name && g.content == f.content && g.tempPath == f.tempPath
              && g.kind.Some? && (f.kind.Some? ==> g.kind == f.kind) && (f.kind.None? ==> g.kind == Some("text")))
  {
    var p := BuildPayload(userMessage, history, ctx, options);
    if p.attachments.Some? {
      WireAttachmentsAt(options.value.attachments.value);
    }
  }

  lemma {:induction false} WireAttachmentsAt(fs: seq<AttachmentFile>)
    ensures forall k :: 0 <= k < |fs| ==> WireAttachments(fs)[k] == WireAttachment(fs[k])
  {
    if fs != [] {
      WireAttachmentsAt(fs[1..]);
      forall k | 0 <= k < |fs| ensures WireAttachments(fs)[k] == WireAttachment(fs[k]) {
        if k > 0 {
          assert WireAttachments(fs)[k] == WireAttachments(fs[1..])[k - 1];
        }
      }
    }
  }

  // ---------------------------------------------------------------------------
  // sendMessage: reading the event stream

  /** A `data:` payload as `JSON.parse` reads it. */
  datatype StreamEvent =
    | ModeEvent(mode: string)
    | TokenEvent(text: string)
    | ThinkingEvent(text: string)
    | DoneEvent(fullText: Option<string>)
    | ErrorEvent(message: string)
    | UnknownEvent

  datatype JsonLine = Malformed(message: string) | Event(event: StreamEvent)

  /** The callbacks `sendMessage` invokes, in order. */
  datatype Callback =
    | ModeInfo(mode: string)
    | Token(text: string)
    | Thinking(text: string)
    | Complete(fullText: string)
    | Failure(message: string)

  predicate IsTerminal(c: Callback) {
    c.Complete? || c.Failure?
  }

  /** An error raised while handling one line: the parser's, or one thrown for an `error` event. */
  datatype LineError = SyntaxError(message: string) | EventError(message: string)

  /** Which errors the per-line `catch` passes on, as written and as intended. */
  datatype CatchRule = AsWritten | Intended

  /** The catch as written: everything but an error whose message is exactly "Unexpected token" escapes. */
  predicate RethrowsAsWritten(e: LineError) {
    e.message != "Unexpected token"
  }

  /** The catch as intended: parse errors are skipped, `error` events end the stream. */
  predicate Rethrows(e: LineError) {
    e.EventError?
  }

  predicate Escapes(rule: CatchRule, e: LineError) {
    if rule.AsWritten? then RethrowsAsWritten(e) else Rethrows(e)
  }

  /** The reader's state: carried-over partial line, accumulated text, callbacks so far, and an escaped error. */
  datatype Reader = Reader(buffer: string, fullText: string, calls: seq<Callback>, thrown: Option<string>)

  const StartReader := Reader("", "", [], None)

  function Raise(r: Reader, e: LineError, rule: CatchRule): Reader {
    if Escapes(rule, e) then r.(thrown := Some(e.message)) else r
  }

  /** One complete line: only `data: ` lines are read, their payload trimmed and parsed. */
  function HandleLine(r: Reader, line: string, parse: string -> JsonLine, rule: CatchRule): Reader {
    match LineEvent(line, parse)
    case None => r
    case Some(j) => HandleEvent(r, j, rule)
  }

  /** The parsed payload of a `data: ` line, trimmed; other lines carry none. */
  function LineEvent(line: string, parse: string -> JsonLine): Option<JsonLine> {
    if StartsWith(line, "data: ") then Some(parse(Trim(line[6..]))) else None
  }

  /** The effect of one parsed `data:` payload. */
  function HandleEvent(r: Reader, j: JsonLine, rule: CatchRule): Reader {
    match j
    case Malformed(msg) => Raise(r, SyntaxError(msg), rule)
    case Event(ModeEvent(m)) => r.(calls := r.calls + [ModeInfo(m)])
    case Event(TokenEvent(t)) => r.(fullText := r.fullText + t, calls := r.calls + [Token(t)])
    case Event(ThinkingEvent(t)) => r.(calls := r.calls + [Thinking(t)])
    case Event(DoneEvent(ft)) => if Truthy(ft) && r.fullText == "" then r.(fullText := ft.value) else r
    case Event(ErrorEvent(m)) => Raise(r, EventError(m), rule)
    case Event(UnknownEvent) => r
  }

  /** The lines of one read, in order, up to the first escaped error. */
  function HandleLines(r: Reader, lines: seq<string>, parse: string -> JsonLine, rule: CatchRule): Reader {
    if lines == [] then r
    else
      var before := HandleLines(r, lines[..|lines| - 1], parse, rule);
      if before.thrown.Some? then before else HandleLine(before, lines[|lines| - 1], parse, rule)
  }

  /** One read: the decoded chunk is added to the buffer, the complete lines handled and the last piece kept. */
  function ReadChunk(r: Reader, chunk: string, parse: string -> JsonLine, rule: CatchRule): Reader {
    var pieces := Split(r.buffer + chunk, '\n');
    HandleLines(r.(buffer := pieces[|pieces| - 1]), pieces[..|pieces| - 1], parse, rule)
  }

  /** The reads of a response body, up to the first escaped error. */
  function ReadChunks(r: Reader, chunks: seq<string>, parse: string -> JsonLine, rule: CatchRule): Reader {
    if chunks == [] then r
    else
      var before := ReadChunks(r, chunks[..|chunks| - 1], parse, rule);
      if before.thrown.Some? then before else ReadChunk(before, chunks[|chunks| - 1], parse, rule)
  }

  /** How the body ends: all read, aborted by the caller's signal, or a network failure. */
  datatype StreamEnd = Finished | AbortedMidway | FailedMidway(message: string)

  /** What `fetch` yields. Chunks are the decoder's output for each read. */
  datatype Response =
    | FetchAborted
    | FetchFailed(message: string)
    | HttpError(status: int, body: string)
    | Stream(chunks: seq<string>, end: StreamEnd)

  const AbortedText := "（已中止生成）"

  /** On abort the text so far completes the message, or a note when there is none. */
  function AbortText(fullText: string): string {
    if fullText != "" then fullText else AbortedText
  }

  function HttpErrorMessage(status: int, body: string): string {
    "代理服务器错误 " + IntToString(status) + ": " + body
  }

  function Terminal(r: Reader, end: StreamEnd): Callback {
    if r.thrown.Some? then Failure(r.thrown.value)
    else
      match end
      case Finished => Complete(r.fullText)
      case AbortedMidway => Complete(AbortText(r.fullText))
      case FailedMidway(m) => Failure(m)
  }

  /** Every callback `sendMessage` invokes for a response, in order. */
  function Outcome(resp: Response, parse: string -> JsonLine, rule: CatchRule): seq<Callback> {
    match resp
    case FetchAborted => [Complete(AbortText(""))]
    case FetchFailed(m) => [Failure(m)]
    case HttpError(status, body) => [Failure(HttpErrorMessage(status, body))]
    case Stream(chunks, end) =>
      var r := ReadChunks(StartReader, chunks, parse, rule);
      r.calls + [Terminal(r, end)]
  }

  /** The streamed token texts, concatenated. */
  function TokenTexts(calls: seq<Callback>): string {
    if calls == [] then ""
    else TokenTexts(calls[..|calls| - 1]) + (if calls[|calls| - 1].Token? then calls[|calls| - 1].text else "")
  }

  /** No terminal callback yet, and the accumulated text ends with every token streamed so far. */
  predicate Tracked(r: Reader) {
    (forall k :: 0 <= k < |r.calls| ==> !IsTerminal(r.calls[k]))
    && EndsWith(r.fullText, TokenTexts(r.calls))
  }

  lemma HandleLineTracked(r: Reader, line: string, parse: string -> JsonLine, rule: CatchRule)
    requires Tracked(r)
    ensures Tracked(HandleLine(r, line, parse, rule))
  {
    if LineEvent(line, parse).Some? {
      HandleEventTracked(r, LineEvent(line, parse).value, rule);
    }
  }

  lemma HandleEventTracked(r: Reader, j: JsonLine, rule: CatchRule)
    requires Tracked(r)
    ensures Tracked(HandleEvent(r, j, rule))
  {
    match j
    case Malformed(msg) => TrackedSameLog(r, Raise(r, SyntaxError(msg), rule));
    case Event(ModeEvent(m)) => TrackedSnoc(r, ModeInfo(m));
    case Event(TokenEvent(t)) => TrackedSnoc(r, Token(t));
    case Event(ThinkingEvent(t)) => TrackedSnoc(r, Thinking(t));
    case Event(DoneEvent(ft)) =>
      if Truthy(ft) && r.fullText == "" {
        assert TokenTexts(r.calls) == "";
      }
    case Event(ErrorEvent(m)) => TrackedSameLog(r, Raise(r, EventError(m), rule));
    case Event(UnknownEvent) =>
  }

  /** A reader with the same text and callbacks, such as one that only records a thrown error, stays tracked. */
  lemma TrackedSameLog(r: Reader, r': Reader)
    requires Tracked(r) && r'.fullText == r.fullText && r'.calls == r.calls
    ensures Tracked(r')
  {
  }

  /** A callback that does not end the stream keeps the reader tracked; a token also extends the text. */
  lemma TrackedSnoc(r: Reader, c: Callback)
    requires Tracked(r) && !IsTerminal(c)
    ensures c.Token? ==> Tracked(r.(fullText := r.fullText + c.text, calls := r.calls + [c]))
    ensures !c.Token? ==> Tracked(r.(calls := r.calls + [c]))
  {
    var calls := r.calls + [c];
    assert calls[..|calls| - 1] == r.calls;
    if c.Token? {
      assert TokenTexts(calls) == TokenTexts(r.calls) + c.text;
      EndsWithAppend(r.fullText, TokenTexts(r.calls), c.text);
    } else {
      assert TokenTexts(calls) == TokenTexts(r.calls) + "";
      assert TokenTexts(r.calls) + "" == TokenTexts(r.calls);
    }
  }

  lemma EndsWithAppend(s: string, suffix: string, t: string)
    requires EndsWith(s, suffix)
    ensures EndsWith(s + t, suffix + t)
  {
    assert (s + t)[|s + t| - |suffix + t|..] == s[|s| - |suffix|..] + t;
  }

  lemma {:induction false} HandleLinesTracked(r: Reader, lines: seq<string>, parse: string -> JsonLine, rule: CatchRule)
    requires Tracked(r)
    ensures Tracked(HandleLines(r, lines, parse, rule))
  {
    if lines != [] {
      HandleLinesTracked(r, lines[..|lines| - 1], parse, rule);
      var before := HandleLines(r, lines[..|lines| - 1], parse, rule);
      if before.thrown.None? {
        HandleLineTracked(before, lines[|lines| - 1], parse, rule);
      }
    }
  }

  lemma {:induction false} ReadChunksTracked(chunks: seq<string>, parse: string -> JsonLine, rule: CatchRule)
    ensures Tracked(ReadChunks(StartReader, chunks, parse, rule))
  {
    if chunks != [] {
      ReadChunksTracked(chunks[..|chunks| - 1], parse, rule);
      var before := ReadChunks(StartReader, chunks[..|chunks| - 1], parse, rule);
      if before.thrown.None? {
        var pieces := Split(before.buffer + chunks[|chunks| - 1], '\n');
        HandleLinesTracked(before.(buffer := pieces[|pieces| - 1]), pieces[..|pieces| - 1], parse, rule);
      }
    }
  }

  /**
   * Every response ends in exactly one terminal callback, `onComplete` or
   * `onError`, and nothing follows it. A completed stream's text ends with
   * all the streamed tokens, in order (a `done` event's text can precede
   * them only when it arrived before any token).
   */
  lemma ExactlyOneTerminal(resp: Response, parse: string -> JsonLine, rule: CatchRule)
    ensures var calls := Outcome(resp, parse, rule);
      && |calls| >= 1 && IsTerminal(calls[|calls| - 1])
      && (forall k :: 0 <= k < |calls| - 1 ==> !IsTerminal(calls[k]))
    ensures var calls := Outcome(resp, parse, rule);
      resp.Stream? && calls[|calls| - 1].Complete? && resp.end.Finished? ==>
        EndsWith(calls[|calls| - 1].fullText, TokenTexts(calls[..|calls| - 1]))
  {
    if resp.Stream? {
      ReadChunksTracked(resp.chunks, parse, rule);
      var r := ReadChunks(StartReader, resp.chunks, parse, rule);
      var calls := Outcome(resp, parse, rule);
      assert calls[..|calls| - 1] == r.calls;
    }
  }

  /** A line that does not parse is skipped. */
  lemma MalformedLineSkipped(r: Reader, m: string)
    ensures HandleEvent(r, Malformed(m), Intended) == r
  {
  }

  /**
   * An `error` event ends the stream with `onError` carrying its message;
   * as written, one whose message is exactly "Unexpected token" is swallowed
   * by the catch and changes nothing.
   */
  lemma ErrorEventFails(r: Reader, m: string, rule: CatchRule)
    ensures rule.Intended? || m != "Unexpected token" ==>
      && HandleEvent(r, Event(ErrorEvent(m)), rule).thrown == Some(m)
      && Terminal(HandleEvent(r, Event(ErrorEvent(m)), rule), Finished) == Failure(m)
    ensures rule.AsWritten? && m == "Unexpected token" ==> HandleEvent(r, Event(ErrorEvent(m)), rule) == r
  {
  }

  /** A `data: ` line carries its trimmed payload, parsed. */
  lemma DataLine(payload: string, parse: string -> JsonLine)
    ensures LineEvent("data: " + payload, parse) == Some(parse(Trim(payload)))
  {
    var line := "data: " + payload;
    assert line[..6] == "data: " && line[6..] == payload;
  }

  /**
   * A body of three lines whose second payload does not parse (a truncated
   * "{", which `JSON.parse` reports as "Unexpected end of JSON input"): as
   * written the parser's error escapes and the request fails after the
   * first token; as intended the line is skipped and the answer completes
   * with both tokens.
   */
  lemma MalformedLineAbortsAsWritten(a: string, bad: string, b: string, parse: string -> JsonLine, ta: string, tb: string, m: string)
    requires '\n' !in a && '\n' !in bad && '\n' !in b
    requires LineEvent(a, parse) == Some(Event(TokenEvent(ta))) && LineEvent(b, parse) == Some(Event(TokenEvent(tb)))
    requires LineEvent(bad, parse) == Some(Malformed(m)) && m != "Unexpected token"
    ensures var body := Lines([a, bad, b], '\n');
      && Outcome(Stream([body], Finished), parse, AsWritten) == [Token(ta), Failure(m)]
      && Outcome(Stream([body], Finished), parse, Intended) == [Token(ta), Token(tb), Complete(ta + tb)]
  {
    var lines := [a, bad, b];
    var body := Lines(lines, '\n');
    SplitOfLines(lines, '\n');
    assert "" + body == body;
    assert [body][..0] == [];
    var r0 := Reader("", "", [], None);
    assert (lines + [""])[..3] == lines;
    assert ReadChunks(StartReader, [body], parse, AsWritten) == HandleLines(r0, lines, parse, AsWritten);
    assert ReadChunks(StartReader, [body], parse, Intended) == HandleLines(r0, lines, parse, Intended);
    HandleThree(r0, a, bad, b, parse, ta, tb, m);
  }

  lemma HandleThree(r0: Reader, a: string, bad: string, b: string, parse: string -> JsonLine, ta: string, tb: string, m: string)
    requires r0 == Reader("", "", [], None)
    requires LineEvent(a, parse) == Some(Event(TokenEvent(ta))) && LineEvent(b, parse) == Some(Event(TokenEvent(tb)))
    requires LineEvent(bad, parse) == Some(Malformed(m)) && m != "Unexpected token"
    ensures HandleLines(r0, [a, bad, b], parse, AsWritten) == Reader("", ta, [Token(ta)], Some(m))
    ensures HandleLines(r0, [a, bad, b], parse, Intended) == Reader("", ta + tb, [Token(ta), Token(tb)], None)
  {
    var lines := [a, bad, b];
    assert lines[..2] == [a, bad] && lines[..2][..1] == [a] && lines[..1][..0] == [];
    var rA := Reader("", ta, [Token(ta)], None);
    assert r0.fullText + ta == ta && r0.calls + [Token(ta)] == [Token(ta)];
    assert HandleLine(r0, a, parse, AsWritten) == rA;
    assert HandleLine(r0, a, parse, Intended) == rA;
    assert HandleLines(r0, lines[..1], parse, AsWritten) == rA;
    assert HandleLines(r0, lines[..2], parse, AsWritten) == rA.(thrown := Some(m));
    assert HandleLines(r0, lines[..1], parse, Intended) == rA;
    assert HandleLines(r0, lines[..2], parse, Intended) == rA;
  }

  /** Once an error has escaped, later lines change nothing. */
  lemma {:induction false} HandleLinesStop(r: Reader, lines: seq<string>, i: nat, parse: string -> JsonLine, rule: CatchRule)
    requires i <= |lines| && HandleLines(r, lines[..i], parse, rule).thrown.Some?
    ensures HandleLines(r, lines, parse, rule) == HandleLines(r, lines[..i], parse, rule)
    decreases |lines|
  {
    if i < |lines| {
      assert lines[..|lines| - 1][..i] == lines[..i];
      HandleLinesStop(r, lines[..|lines| - 1], i, parse, rule);
    } else {
      assert lines[..i] == lines;
    }
  }

  /** Once an error has escaped, later reads change nothing. */
  lemma {:induction false} ReadChunksStop(r: Reader, chunks: seq<string>, i: nat, parse: string -> JsonLine, rule: CatchRule)
    requires i <= |chunks| && ReadChunks(r, chunks[..i], parse, rule).thrown.Some?
    ensures ReadChunks(r, chunks, parse, rule) == ReadChunks(r, chunks[..i], parse, rule)
    decreases |chunks|
  {
    if i < |chunks| {
      assert chunks[..|chunks| - 1][..i] == chunks[..i];
      ReadChunksStop(r, chunks[..|chunks| - 1], i, parse, rule);
    } else {
      assert chunks[..i] == chunks;
    }
  }

  /** The `for (const line of lines)` loop; an escaped error leaves it. */
  method ReadLines(r: Reader, lines: seq<string>, parse: string -> JsonLine, rule: CatchRule) returns (out: Reader)
    requires r.thrown.None?
    ensures out == HandleLines(r, lines, parse, rule)
  {
    out := r;
    var k := 0;
    while k < |lines|
      invariant 0 <= k <= |lines|
      invariant out == HandleLines(r, lines[..k], parse, rule)
      invariant out.thrown.None?
    {
      assert lines[..k + 1][..k] == lines[..k];
      var line := lines[k];
      if StartsWith(line, "data: ") {
        match parse(Trim(line[6..]))
        case Malformed(msg) =>
          if Escapes(rule, SyntaxError(msg)) {
            out := out.(thrown := Some(msg));
            HandleLinesStop(r, lines, k + 1, parse, rule);
            return;
          }
        case Event(ModeEvent(m)) =>
          out := out.(calls := out.calls + [ModeInfo(m)]);
        case Event(TokenEvent(t)) =>
          out := out.(fullText := out.fullText + t, calls := out.calls + [Token(t)]);
        case Event(ThinkingEvent(t)) =>
          out := out.(calls := out.calls + [Thinking(t)]);
        case Event(DoneEvent(ft)) =>
          if Truthy(ft) && out.fullText == "" {
            out := out.(fullText := ft.value);
          }
        case Event(ErrorEvent(m)) =>
          if Escapes(rule, EventError(m)) {
            out := out.(thrown := Some(m));
            HandleLinesStop(r, lines, k + 1, parse, rule);
            return;
          }
        case Event(UnknownEvent) =>
      }
      k := k + 1;
    }
    assert lines[..k] == lines;
  }

  /** The `while (true)` read loop over the response body. */
  method ReadBody(chunks: seq<string>, parse: string -> JsonLine, rule: CatchRule) returns (r: Reader)
    ensures r == ReadChunks(StartReader, chunks, parse, rule)
  {
    r := StartReader;
    var i := 0;
    while i < |chunks|
      invariant 0 <= i <= |chunks|
      invariant r == ReadChunks(StartReader, chunks[..i], parse, rule)
      invariant r.thrown.None?
    {
      assert chunks[..i + 1][..i] == chunks[..i];
      var pieces := Split(r.buffer + chunks[i], '\n');
      r := ReadLines(r.(buffer := pieces[|pieces| - 1]), pieces[..|pieces| - 1], parse, rule);
      i := i + 1;
      if r.thrown.Some? {
        ReadChunksStop(StartReader, chunks, i, parse, rule);
        return;
      }
    }
    assert chunks[..i] == chunks;
  }

  /**
   * `sendMessage`: the request body it posts and the callbacks it invokes for
   * the proxy's response. The response (including the moment an abort
   * signal fires) is a parameter, and so is the per-line catch: `AsWritten`
   * is the code's rule, `Intended` the corrected one.
   */
  method SendMessage(
    userMessage: string, history: seq<ChatMessage>, ctx: WpsContext, options: Option<SendOptions>,
    resp: Response, parse: string -> JsonLine, rule: CatchRule)
    returns (payload: Payload, calls: seq<Callback>)
    requires LevelsValid(ctx.outline)
    ensures payload == BuildPayload(userMessage, history, ctx, options)
    ensures calls == Outcome(resp, parse, rule)
  {
    var context := BuildContextString(ctx);
    var o := options.GetOr(SendOptions(None, None, None, None));
    payload := Payload(OutgoingMessages(userMessage, history), context, None, None, false, None);
    if Truthy(o.model) {
      payload := payload.(model := o.model);
    }
    if Truthy(o.mode) {
      payload := payload.(mode := o.mode);
    }
    if o.webSearch == Some(true) {
      payload := payload.(webSearch := true);
    }
    if o.attachments.Some? && |o.attachments.value| > 0 {
      payload := payload.(attachments := Some(WireAttachments(o.attachments.value)));
    }
    match resp
    case FetchAborted =>
      calls := [Complete(AbortText(""))];
    case FetchFailed(m) =>
      calls := [Failure(m)];
    case HttpError(status, body) =>
      calls := [Failure(HttpErrorMessage(status, body))];
    case Stream(chunks, end) =>
      var r := ReadBody(chunks, parse, rule);
      calls := r.calls + [Terminal(r, end)];
  }

  // ---------------------------------------------------------------------------
  // extractCodeBlocks

  /** Three backticks start at `i`. */
  predicate FenceAt(text: string, i: int) {
    0 <= i && i + 3 <= |text| && text[i] == '`' && text[i + 1] == '`' && text[i + 2] == '`'
  }

  /** The end of the run of `\w` characters starting at `i` (the greedy `(\w+)?`). */
  function WordRunEnd(text: string, i: nat): (j: nat)
    requires i <= |text|
    ensures i <= j <= |text|
    decreases |text| - i
  {
    if i == |text| || !IsWordChar(text[i]) then i else WordRunEnd(text, i + 1)
  }

  /** The run is as long as it can be: word characters up to its end, then none. */
  lemma {:induction false} WordRunEndSpec(text: string, i: nat)
    requires i <= |text|
    ensures forall k :: i <= k < WordRunEnd(text, i) ==> IsWordChar(text[k])
    ensures WordRunEnd(text, i) == |text| || !IsWordChar(text[WordRunEnd(text, i)])
    decreases |text| - i
  {
    if i < |text| && IsWordChar(text[i]) {
      WordRunEndSpec(text, i + 1);
    }
  }

  /** The first closing fence at or after `q` (the lazy `[\s\S]*?` followed by three backticks). */
  function CloseFrom(text: string, q: nat): (r: Option<nat>)
    requires q <= |text|
    ensures r.Some? ==> q <= r.value && FenceAt(text, r.value)
    decreases |text| - q
  {
    if q + 3 > |text| then None
    else if FenceAt(text, q) then Some(q)
    else CloseFrom(text, q + 1)
  }

  /** The lazy search finds the first closing fence, and finds none only when there is none. */
  lemma {:induction false} CloseFromSpec(text: string, q: nat)
    requires q <= |text|
    ensures CloseFrom(text, q).Some? ==> forall k :: q <= k < CloseFrom(text, q).value ==> !FenceAt(text, k)
    ensures CloseFrom(text, q).None? ==> forall k :: q <= k ==> !FenceAt(text, k)
    decreases |text| - q
  {
    if q + 3 <= |text| && !FenceAt(text, q) {
      CloseFromSpec(text, q + 1);
    }
  }

  /** A match of the code-block pattern: language (possibly empty), body, and the position after it. */
  datatype Match = Match(lang: string, body: string, end: nat)

  /** The pattern tried at position `p`. */
  function MatchAt(text: string, p: nat): (r: Option<Match>)
    requires p <= |text|
    ensures r.Some? ==> p + 7 <= r.value.end <= |text|
  {
    if !FenceAt(text, p) then None
    else
      var e := WordRunEnd(text, p + 3);
      if e == |text| || text[e] != '\n' then None
      else
        match CloseFrom(text, e + 1)
        case None => None
        case Some(j) => Some(Match(text[p + 3..e], text[e + 1..j], j + 3))
  }

  /** What one match captures: the language group (empty when absent) and the body. */
  datatype RawBlock = RawBlock(lang: string, body: string)

  /** The global search: the leftmost match at or after `from`, then the search goes on after it. */
  function Scan(text: string, from: nat): seq<RawBlock>
    requires from <= |text|
    decreases |text| - from
  {
    if from == |text| then []
    else
      match MatchAt(text, from)
      case Some(m) => [RawBlock(m.lang, m.body)] + Scan(text, m.end)
      case None => Scan(text, from + 1)
  }

  /** An extracted block: the language defaults to "javascript", the code is trimmed. */
  datatype Snippet = Snippet(language: string, code: string)

  function SnippetOf(r: RawBlock): Snippet {
    Snippet(if r.lang == "" then "javascript" else r.lang, Trim(r.body))
  }

  function Snippets(raws: seq<RawBlock>): (r: seq<Snippet>)
    ensures |r| == |raws|
  {
    if raws == [] then [] else [SnippetOf(raws[0])] + Snippets(raws[1..])
  }

  lemma {:induction false} SnippetsAppend(x: seq<RawBlock>, y: seq<RawBlock>)
    ensures Snippets(x + y) == Snippets(x) + Snippets(y)
    decreases |x|
  {
    if x != [] {
      SnippetsAppend(x[1..], y);
      assert (x + y)[1..] == x[1..] + y;
    } else {
      assert x + y == y;
    }
  }

  /** `extractCodeBlocks`: the `while ((match = regex.exec(text)) !== null)` loop. */
  method ExtractCodeBlocks(text: string) returns (blocks: seq<Snippet>)
    ensures blocks == Snippets(Scan(text, 0))
  {
    blocks := [];
    var pos := 0;
    ghost var seen: seq<RawBlock> := [];
    while pos < |text|
      invariant 0 <= pos <= |text|
      invariant seen + Scan(text, pos) == Scan(text, 0)
      invariant blocks == Snippets(seen)
      decreases |text| - pos
    {
      var found := MatchAt(text, pos);
      ScanAt(text, pos, seen);
      if found.Some? {
        var raw := RawBlock(found.value.lang, found.value.body);
        SnippetsAppend(seen, [raw]);
        blocks := blocks + [SnippetOf(raw)];
        seen := seen + [raw];
        pos := found.value.end;
      } else {
        pos := pos + 1;
      }
    }
    assert seen == Scan(text, 0);
  }

  /** One step of the search keeps "matches so far, then the rest of the search" equal to the whole search. */
  lemma ScanAt(text: string, pos: nat, seen: seq<RawBlock>)
    requires pos < |text| && seen + Scan(text, pos) == Scan(text, 0)
    ensures MatchAt(text, pos).Some? ==>
      seen + [RawBlock(MatchAt(text, pos).value.lang, MatchAt(text, pos).value.body)] + Scan(text, MatchAt(text, pos).value.end)
        == Scan(text, 0)
    ensures MatchAt(text, pos).None? ==> seen + Scan(text, pos + 1) == Scan(text, 0)
  {
    var found := MatchAt(text, pos);
    if found.Some? {
      var b := RawBlock(found.value.lang, found.value.body);
      assert Scan(text, pos) == [b] + Scan(text, found.value.end);
      assert seen + [b] + Scan(text, found.value.end) == seen + ([b] + Scan(text, found.value.end));
    }
  }

  predicate NoFence(s: string) {
    forall k :: 0 <= k < |s| ==> !FenceAt(s, k)
  }

  /** A match's body contains no fence: the lazy body stops at the first one. */
  lemma MatchBodyHasNoFence(text: string, p: nat)
    requires p <= |text| && MatchAt(text, p).Some?
    ensures NoFence(MatchAt(text, p).value.body)
  {
    var m := MatchAt(text, p).value;
    var e := WordRunEnd(text, p + 3);
    var j := CloseFrom(text, e + 1).value;
    CloseFromSpec(text, e + 1);
    assert m.body == text[e + 1..j];
    forall k | 0 <= k < |m.body| ensures !FenceAt(m.body, k) {
      if k + 3 <= |m.body| {
        assert !FenceAt(text, e + 1 + k);
        assert m.body[k] == text[e + 1 + k] && m.body[k + 1] == text[e + 2 + k] && m.body[k + 2] == text[e + 3 + k];
      }
    }
  }

  /** An infix of a text without a fence has none. */
  lemma InfixHasNoFence(s: string, t: string, i: int)
    requires NoFence(s) && OccursAt(s, t, i)
    ensures NoFence(t)
  {
    forall k | 0 <= k < |t| ensures !FenceAt(t, k) {
      if k + 3 <= |t| {
        assert !FenceAt(s, i + k);
        assert t[k] == s[i + k] && t[k + 1] == s[i + k + 1] && t[k + 2] == s[i + k + 2];
      }
    }
  }

  /** No matched body contains three backticks. */
  lemma {:induction false} ScannedBodiesHaveNoFence(text: string, from: nat)
    requires from <= |text|
    ensures forall k :: 0 <= k < |Scan(text, from)| ==> NoFence(Scan(text, from)[k].body)
    decreases |text| - from
  {
    if from < |text| {
      match MatchAt(text, from)
      case Some(m) =>
        ScannedBodiesHaveNoFence(text, m.end);
        MatchBodyHasNoFence(text, from);
      case None =>
        ScannedBodiesHaveNoFence(text, from + 1);
    }
  }

  /** No extracted code contains three backticks. */
  lemma ExtractedCodeHasNoFence(text: string)
    ensures forall k :: 0 <= k < |Snippets(Scan(text, 0))| ==> NoFence(Snippets(Scan(text, 0))[k].code)
  {
    ScannedBodiesHaveNoFence(text, 0);
    var raws := Scan(text, 0);
    SnippetsAt(raws);
    forall k | 0 <= k < |raws| ensures NoFence(Snippets(raws)[k].code) {
      TrimIsInfix(raws[k].body);
      var i :| OccursAt(raws[k].body, Trim(raws[k].body), i);
      InfixHasNoFence(raws[k].body, Trim(raws[k].body), i);
    }
  }

  lemma {:induction false} SnippetsAt(raws: seq<RawBlock>)
    ensures forall k :: 0 <= k < |raws| ==> Snippets(raws)[k] == SnippetOf(raws[k])
  {
    if raws != [] {
      SnippetsAt(raws[1..]);
      forall k | 0 <= k < |raws| ensures Snippets(raws)[k] == SnippetOf(raws[k]) {
        if k > 0 {
          assert Snippets(raws)[k] == Snippets(raws[1..])[k - 1];
        }
      }
    }
  }

  /** A fenced block as an answer writes it. */
  function Fenced(lang: string, code: string): string {
    "```" + lang + "\n" + code + "```"
  }

  /** A piece of an answer: prose, or a fenced code block. */
  datatype Part = Prose(text: string) | Code(lang: string, code: string)

  function RenderPart(p: Part): string {
    match p
    case Prose(t) => t
    case Code(l, c) => Fenced(l, c)
  }

  function Render(parts: seq<Part>): string {
    if parts == [] then "" else RenderPart(parts[0]) + Render(parts[1..])
  }

  /** Prose and code without backticks, and languages made of `\w` characters. */
  predicate PlainPart(p: Part) {
    match p
    case Prose(t) => '`' !in t
    case Code(l, c) => (forall k :: 0 <= k < |l| ==> IsWordChar(l[k])) && '`' !in c
  }

  /** The blocks an answer was written with. */
  function WrittenBlocks(parts: seq<Part>): seq<RawBlock> {
    if parts == [] then []
    else (if parts[0].Code? then [RawBlock(parts[0].lang, parts[0].code)] else []) + WrittenBlocks(parts[1..])
  }

  lemma {:induction false} WordRunEndShift(a: string, b: string, i: nat)
    requires i <= |b|
    ensures WordRunEnd(a + b, |a| + i) == |a| + WordRunEnd(b, i)
    decreases |b| - i
  {
    if i < |b| {
      assert (a + b)[|a| + i] == b[i];
      if IsWordChar(b[i]) {
        WordRunEndShift(a, b, i + 1);
      }
    }
  }

  lemma FenceAtShift(a: string, b: string, k: nat)
    ensures FenceAt(a + b, |a| + k) <==> FenceAt(b, k)
  {
    if k + 3 <= |b| {
      assert (a + b)[|a| + k] == b[k] && (a + b)[|a| + k + 1] == b[k + 1] && (a + b)[|a| + k + 2] == b[k + 2];
    }
  }

  lemma {:induction false} CloseFromShift(a: string, b: string, q: nat)
    requires q <= |b|
    ensures CloseFrom(a + b, |a| + q) == if CloseFrom(b, q).Some? then Some(|a| + CloseFrom(b, q).value) else None
    decreases |b| - q
  {
    FenceAtShift(a, b, q);
    if q + 3 <= |b| && !FenceAt(b, q) {
      CloseFromShift(a, b, q + 1);
    }
  }

  /** A match moved `d` positions on: same language and body, end `d` later. */
  function ShiftMatch(r: Option<Match>, d: nat): Option<Match> {
    match r
    case None => None
    case Some(m) => Some(Match(m.lang, m.body, d + m.end))
  }

  /** The pattern matches the same way after any prefix; only the end position moves. */
  lemma MatchAtShift(a: string, b: string, p: nat)
    requires p <= |b|
    ensures MatchAt(a + b, |a| + p) == ShiftMatch(MatchAt(b, p), |a|)
  {
    FenceAtShift(a, b, p);
    if FenceAt(b, p) {
      WordRunEndShift(a, b, p + 3);
      var e := WordRunEnd(b, p + 3);
      if e < |b| && b[e] == '\n' {
        CloseFromShift(a, b, e + 1);
        MatchAtShiftBody(a, b, p, e);
      } else if e < |b| {
        assert (a + b)[|a| + e] == b[e];
      }
    }
  }

  /** The case of `MatchAtShift` where a fence, a language and a line break start at `p`. */
  lemma MatchAtShiftBody(a: string, b: string, p: nat, e: nat)
    requires p <= |b| && FenceAt(b, p) && FenceAt(a + b, |a| + p)
    requires e == WordRunEnd(b, p + 3) && WordRunEnd(a + b, |a| + p + 3) == |a| + e
    requires e < |b| && b[e] == '\n'
    requires CloseFrom(a + b, |a| + e + 1) == if CloseFrom(b, e + 1).Some? then Some(|a| + CloseFrom(b, e + 1).value) else None
    ensures MatchAt(a + b, |a| + p) == ShiftMatch(MatchAt(b, p), |a|)
  {
    var t := a + b;
    assert t[|a| + e] == b[e];
    if CloseFrom(b, e + 1).Some? {
      var j := CloseFrom(b, e + 1).value;
      SliceShift(a, b, p + 3, e);
      SliceShift(a, b, e + 1, j);
      assert MatchAt(b, p) == Some(Match(b[p + 3..e], b[e + 1..j], j + 3));
      assert MatchAt(t, |a| + p) == Some(Match(t[|a| + p + 3..|a| + e], t[|a| + e + 1..|a| + j], |a| + j + 3));
    } else {
      assert MatchAt(b, p) == None && MatchAt(t, |a| + p) == None;
    }
  }

  lemma SliceShift(a: string, b: string, lo: nat, hi: nat)
    requires lo <= hi <= |b|
    ensures (a + b)[|a| + lo..|a| + hi] == b[lo..hi]
  { }

  /** The search over `a + b` from inside `b` finds what the search over `b` alone finds. */
  lemma {:induction false} ScanShift(a: string, b: string, i: nat)
    requires i <= |b|
    ensures Scan(a + b, |a| + i) == Scan(b, i)
    decreases |b| - i
  {
    if i < |b| {
      var found := MatchAt(b, i);
      if found.Some? {
        ScanShift(a, b, found.value.end);
        ScanShiftHit(a, b, i, found.value);
      } else {
        ScanShift(a, b, i + 1);
        ScanShiftMiss(a, b, i);
      }
    }
  }

  /** A match in `b` is a match in `a + b`, after which both searches go on alike. */
  lemma ScanShiftHit(a: string, b: string, i: nat, m: Match)
    requires i < |b| && MatchAt(b, i) == Some(m)
    requires m.end <= |b| && Scan(a + b, |a| + m.end) == Scan(b, m.end)
    ensures Scan(a + b, |a| + i) == Scan(b, i)
  {
    MatchAtShift(a, b, i);
    assert MatchAt(a + b, |a| + i) == Some(Match(m.lang, m.body, |a| + m.end));
  }

  /** No match in `b` is no match in `a + b`, and both searches move one position on. */
  lemma ScanShiftMiss(a: string, b: string, i: nat)
    requires i < |b| && MatchAt(b, i).None?
    requires Scan(a + b, |a| + i + 1) == Scan(b, i + 1)
    ensures Scan(a + b, |a| + i) == Scan(b, i)
  {
    MatchAtShift(a, b, i);
  }

  /** No match starts on a character other than a backtick. */
  lemma {:induction false} ScanSkip(text: string, lo: nat, hi: nat)
    requires lo <= hi <= |text|
    requires forall k :: lo <= k < hi ==> text[k] != '`'
    ensures Scan(text, lo) == Scan(text, hi)
    decreases hi - lo
  {
    if lo < hi {
      ScanSkip(text, lo + 1, hi);
    }
  }

  /** A written fence is matched whole: its language, its code, and the search resumes after it. */
  lemma FencedMatch(lang: string, code: string, rest: string)
    requires forall k :: 0 <= k < |lang| ==> IsWordChar(lang[k])
    requires '`' !in code
    ensures MatchAt(Fenced(lang, code) + rest, 0) == Some(Match(lang, code, |Fenced(lang, code)|))
  {
    var text := Fenced(lang, code) + rest;
    var e := 3 + |lang|;
    assert text[..3] == "```";
    assert text[3..e] == lang;
    assert text[e] == '\n';
    assert WordRunEnd(text, 3) == e by {
      WordRunEndOver(text, 3, e);
    }
    var j := e + 1 + |code|;
    assert text[e + 1..j] == code;
    assert FenceAt(text, j);
    assert CloseFrom(text, e + 1) == Some(j) by {
      forall k | e + 1 <= k < j ensures !FenceAt(text, k) {
        assert text[k] == code[k - e - 1];
      }
      CloseFromFirst(text, e + 1, j);
    }
  }

  lemma {:induction false} WordRunEndOver(text: string, i: nat, e: nat)
    requires i <= e < |text|
    requires forall k :: i <= k < e ==> IsWordChar(text[k])
    requires !IsWordChar(text[e])
    ensures WordRunEnd(text, i) == e
    decreases e - i
  {
    if i < e {
      WordRunEndOver(text, i + 1, e);
    }
  }

  lemma {:induction false} CloseFromFirst(text: string, q: nat, j: nat)
    requires q <= j && FenceAt(text, j)
    requires forall k :: q <= k < j ==> !FenceAt(text, k)
    ensures CloseFrom(text, q) == Some(j)
    decreases j - q
  {
    if q < j {
      CloseFromFirst(text, q + 1, j);
    }
  }

  /**
   * The search recovers exactly the blocks an answer was written with, in
   * order; extraction then fills in the default language and trims the code.
   */
  lemma {:induction false} ExtractWrittenBlocks(parts: seq<Part>)
    requires forall k :: 0 <= k < |parts| ==> PlainPart(parts[k])
    ensures Scan(Render(parts), 0) == WrittenBlocks(parts)
    decreases |parts|
  {
    if parts != [] {
      var head, tail := RenderPart(parts[0]), Render(parts[1..]);
      assert Render(parts) == head + tail;
      ExtractWrittenBlocks(parts[1..]);
      ScanShift(head, tail, 0);
      ScanPartHead(parts[0], tail);
    }
  }

  /** The search over one written part followed by more text: a code part is one match, prose none. */
  lemma ScanPartHead(p: Part, tail: string)
    requires PlainPart(p)
    ensures Scan(RenderPart(p) + tail, 0)
         == (if p.Code? then [RawBlock(p.lang, p.code)] else []) + Scan(RenderPart(p) + tail, |RenderPart(p)|)
  {
    var head := RenderPart(p);
    match p
    case Prose(t) =>
      forall k | 0 <= k < |t| ensures (head + tail)[k] != '`' {
        assert (head + tail)[k] == t[k];
      }
      ScanSkip(head + tail, 0, |t|);
    case Code(l, c) =>
      FencedMatch(l, c, tail);
  }

}
