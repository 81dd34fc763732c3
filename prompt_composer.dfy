/**
 * The proxy's `/chat` front half: request validation, the model allow-list,
 * skill selection (`matchSkills`), the system prompt (`buildSystemPrompt`)
 * and the assembly of the full prompt written to the CLI's stdin.
 *
 * Skills are inputs in their loading order (the iteration order of the
 * skill maps); their YAML front matter is already parsed into `SkillContext`.
 * The memory file, the image files and the path check are inputs too.
 */
module PromptComposer {
  import opened Wrappers
  import opened Strings
  import opened Sequences

  const DefaultModel := "claude-sonnet-4-6"
  const AllowedModels: set<string> := {"claude-sonnet-4-6", "claude-opus-4-6", "claude-haiku-4-5"}
  const DefaultMode := "agent"
  /** Characters of an image's base64 text quoted in the prompt. */
  const Base64Preview := 200

  // ---------------------------------------------------------------------------
  // Skills

  /**
   * A skill's activation conditions. `always`, `hasSelection` and
   * `hasHeadings` are true when the front matter sets them to `true` or to
   * the string "true"; `minParagraphs` and `minCharCount` are their numeric
   * values, 0 when absent.
   */
  datatype SkillContext = SkillContext(
    always: bool,
    keywords: Option<seq<string>>,
    hasSelection: bool,
    hasHeadings: bool,
    minParagraphs: int,
    minCharCount: int)

  /**
   * A loaded skill; `modes` is `None` when the front matter has no list of
   * modes; `maxTurns` is a mode skill's `enforcement.maxTurns`, 0 when absent.
   */
  datatype Skill = Skill(id: string, body: string, modes: Option<seq<string>>, context: SkillContext, maxTurns: nat)

  /** The selection part of a WPS context as `matchSkills` reads it. */
  datatype SelectionFacts = SelectionFacts(hasSelection: bool, paragraphCount: int, charCount: int)

  /** A WPS context: its selection (`None` for `null`) and the length of its outline. */
  datatype MatchContext = MatchContext(selection: Option<SelectionFacts>, outlineLength: nat)

  /** The skill lists modes and the (truthy) current mode is not among them. */
  predicate ModeExcluded(skill: Skill, mode: Option<string>) {
    Truthy(mode) && skill.modes.Some? && mode.value !in skill.modes.value
  }

  /** Some keyword, lower-cased, is a substring of the lower-cased message. */
  predicate KeywordHit(ctx: SkillContext, message: string) {
    ctx.keywords.Some? && AnyKeywordIn(ToLower(message), ctx.keywords.value)
  }

  predicate AnyKeywordIn(lowered: string, keywords: seq<string>)
    ensures AnyKeywordIn(lowered, keywords) <==>
      exists k :: 0 <= k < |keywords| && Contains(lowered, ToLower(keywords[k]))
  {
    if keywords == [] then false
    else Contains(lowered, ToLower(keywords[0])) || AnyKeywordIn(lowered, keywords[1..])
  }

  /** A context condition holds; every one of them needs a WPS context with a selection. */
  predicate ContextHit(ctx: SkillContext, wps: Option<MatchContext>) {
    wps.Some? && wps.value.selection.Some? &&
    var sel := wps.value.selection.value;
    || (ctx.hasSelection && sel.hasSelection)
    || (ctx.hasHeadings && wps.value.outlineLength > 0)
    || (ctx.minParagraphs != 0 && sel.paragraphCount >= ctx.minParagraphs)
    || (ctx.minCharCount != 0 && sel.charCount >= ctx.minCharCount)
  }

  /** Whether `matchSkills` picks `skill`. */
  predicate Selected(skill: Skill, message: string, wps: Option<MatchContext>, mode: Option<string>) {
    !ModeExcluded(skill, mode)
    && (skill.context.always || KeywordHit(skill.context, message) || ContextHit(skill.context, wps))
  }

  /** The skills `matchSkills` returns, in iteration order. */
  function Matched(skills: seq<Skill>, message: string, wps: Option<MatchContext>, mode: Option<string>): seq<Skill>
  {
    if skills == [] then []
    else
      var last := skills[|skills| - 1];
      Matched(skills[..|skills| - 1], message, wps, mode) + (if Selected(last, message, wps, mode) then [last] else [])
  }

  /** `matchSkills`: one pass over the skills, pushing each one that is picked. */
  method MatchSkills(skills: seq<Skill>, message: string, wps: Option<MatchContext>, mode: Option<string>)
    returns (matched: seq<Skill>)
    ensures matched == Matched(skills, message, wps, mode)
  {
    matched := [];
    var k := 0;
    while k < |skills|
      invariant 0 <= k <= |skills|
      invariant matched == Matched(skills[..k], message, wps, mode)
    {
      var skill := skills[k];
      assert skills[..k + 1][..k] == skills[..k];
      if ModeExcluded(skill, mode) {
        k := k + 1;
        continue;
      }
      if skill.context.always {
        matched := matched + [skill];
        k := k + 1;
        continue;
      }
      var keywordHit := KeywordHit(skill.context, message);
      var contextHit := ContextHit(skill.context, wps);
      if keywordHit || contextHit {
        matched := matched + [skill];
      }
      k := k + 1;
    }
    assert skills[..|skills|] == skills;
  }

  /** A skill is matched exactly when it is one of the skills and is picked. */
  lemma {:induction false} MatchedMembership(skills: seq<Skill>, message: string, wps: Option<MatchContext>,
                                             mode: Option<string>, s: Skill)
    ensures s in Matched(skills, message, wps, mode) <==> s in skills && Selected(s, message, wps, mode)
  {
    if skills != [] {
      MatchedMembership(skills[..|skills| - 1], message, wps, mode, s);
      assert skills == skills[..|skills| - 1] + [skills[|skills| - 1]];
    }
  }

  /** `matchSkills` returns a subsequence of the skills: it never reorders or repeats them. */
  lemma {:induction false} MatchedIsSubsequence(skills: seq<Skill>, message: string, wps: Option<MatchContext>,
                                                mode: Option<string>)
    ensures IsSubsequence(Matched(skills, message, wps, mode), skills)
  {
    if skills != [] {
      var p, x := skills[..|skills| - 1], skills[|skills| - 1];
      MatchedIsSubsequence(p, message, wps, mode);
      var m := Matched(p, message, wps, mode);
      assert skills[..|skills| - 1] == p;
      if Selected(x, message, wps, mode) {
        assert Matched(skills, message, wps, mode) == m + [x];
        assert (m + [x])[..|m|] == m;
      } else {
        assert Matched(skills, message, wps, mode) == m;
        SubsequenceExtend(m, p, x);
        assert p + [x] == skills;
      }
    }
  }

  /**
   * Without a WPS context (as `/chat` calls it) a skill is picked exactly
   * when its modes allow the mode and it is always on or a keyword hits.
   */
  lemma NullContextSelection(skill: Skill, message: string, mode: Option<string>)
    ensures Selected(skill, message, None, mode) <==>
      !ModeExcluded(skill, mode) && (skill.context.always || KeywordHit(skill.context, message))
  {
  }

  // ---------------------------------------------------------------------------
  // System prompt

  const PreambleIntro := "你是 Claude，嵌入在 WPS Office Writer 中的 AI 文档助手。你的代码直接运行在 WPS Plugin Host 上下文，可同步访问完整 Writer JS API。\n今天的日期是 "
  /** The fixed guidance after the date, line by line; the lines are joined with line breaks. */
  const PreambleGuidanceLines: seq<string> := [
    "。",
    "",
    "## ⚠️ 上下文优先级（最重要）",
    "每次请求都会附带「当前 Writer 上下文」，其中包含文档名称、选区文本、文档大纲和段落结构。",
    "- 你必须**基于当前选区**进行操作，除非用户明确要求操作全文",
    "- 不要覆盖用户未选中的内容",
    "- 使用 Application.ActiveDocument 和 Application.Selection 操作文档",
    "",
    "## ⚠️ 代码规范（必须遵守）",
    "- 代码在 `new Function(code)()` 中执行",
    "- 使用 `var` 声明变量（不支持 let/const）",
    "- 每次回复最多一个代码块",
    "- 代码最后一行必须返回结果字符串",
    "- 总长度控制在 3000 字符以内",
    "",
    "## ⚠️ Writer 核心 API",
    "```",
    "Application.ActiveDocument    — 当前文档",
    "Application.Selection         — 当前选区/光标",
    "Document.Content              — 全文 Range",
    "Document.Paragraphs           — 段落集合",
    "Document.Tables               — 表格集合",
    "Selection.Text                — 选区文本",
    "Selection.TypeText(text)      — 在光标处输入",
    "Selection.InsertAfter(text)   — 在选区后插入",
    "Range.Font                    — 字体格式",
    "Range.ParagraphFormat         — 段落格式",
    "Range.Style                   — 样式",
    "```",
    "",
    "",
    ""
  ]

  const PreambleGuidance := Join(PreambleGuidanceLines, '\n')

  /** The fixed preamble, dated `today`. */
  function Preamble(today: string): string {
    PreambleIntro + today + PreambleGuidance
  }

  /** The bodies of `skills`, each followed by a blank line. */
  function SkillSections(skills: seq<Skill>): string {
    if skills == [] then ""
    else SkillSections(skills[..|skills| - 1]) + skills[|skills| - 1].body + "\n\n"
  }

  /** The mode skill's section: its body and a blank line, nothing when it has no body. */
  function ModeSection(modeSkill: Option<Skill>): string {
    if modeSkill.Some? && modeSkill.value.body != "" then modeSkill.value.body + "\n\n" else ""
  }

  /** `buildSystemPrompt`: the preamble, the mode section, then one section per matched skill. */
  method BuildSystemPrompt(skills: seq<Skill>, today: string, modeSkill: Option<Skill>) returns (prompt: string)
    ensures prompt == Preamble(today) + ModeSection(modeSkill) + SkillSections(skills)
  {
    var mode := "";
    if modeSkill.Some? && modeSkill.value.body != "" {
      mode := modeSkill.value.body + "\n\n";
    }
    assert mode == ModeSection(modeSkill);
    prompt := AppendSkillSections(Preamble(today) + mode, skills);
  }

  /** The loop of `buildSystemPrompt`: append each skill's body and a blank line. */
  method AppendSkillSections(head: string, skills: seq<Skill>) returns (prompt: string)
    ensures prompt == head + SkillSections(skills)
  {
    prompt := head;
    var k := 0;
    while k < |skills|
      invariant 0 <= k <= |skills|
      invariant prompt == head + SkillSections(skills[..k])
    {
      assert skills[..k + 1][..k] == skills[..k];
      prompt := prompt + skills[k].body + "\n\n";
      k := k + 1;
    }
    assert skills[..|skills|] == skills;
  }

  /** The sections of a prefix of the skills are a prefix of the sections of all of them. */
  lemma {:induction false} SkillSectionsPrefix(skills: seq<Skill>, n: nat)
    requires n <= |skills|
    ensures StartsWith(SkillSections(skills), SkillSections(skills[..n]))
    decreases |skills|
  {
    if n < |skills| {
      SkillSectionsPrefix(skills[..|skills| - 1], n);
      assert skills[..|skills| - 1][..n] == skills[..n];
    } else {
      assert skills[..n] == skills;
    }
  }

  /**
   * Skill `k`'s body appears in the sections right after the sections of
   * the skills before it, so the bodies appear in the order of the skills.
   */
  lemma SkillBodyInOrder(skills: seq<Skill>, k: nat)
    requires k < |skills|
    ensures OccursAt(SkillSections(skills), skills[k].body + "\n\n", |SkillSections(skills[..k])|)
  {
    SkillSectionsPrefix(skills, k + 1);
    var whole, upTo := SkillSections(skills), SkillSections(skills[..k + 1]);
    assert skills[..k + 1][..k] == skills[..k];
    assert upTo == SkillSections(skills[..k]) + skills[k].body + "\n\n";
    assert whole[..|upTo|] == upTo;
  }

  // ---------------------------------------------------------------------------
  // The /chat request

  /** A chat message; `content` is `None` when the field is missing. */
  datatype ChatMessage = ChatMessage(role: string, content: Option<string>)

  /** The request's `messages` field: missing (or falsy), not an array, or a list. */
  datatype MessagesField = MessagesMissing | MessagesNotArray | MessageList(items: seq<ChatMessage>)

  /** An attachment; `kind` is its `type` field. */
  datatype Attachment = Attachment(kind: Option<string>, name: Option<string>, content: Option<string>, tempPath: Option<string>)

  /** Reading an uploaded image: its size and base64 text, or the error message. */
  datatype ImageRead = ImageBytes(byteLength: nat, base64: string) | ImageUnreadable(message: string)

  datatype ChatRequest = ChatRequest(
    messages: MessagesField,
    context: Option<string>,
    model: Option<string>,
    attachments: Option<seq<Attachment>>,
    webSearch: bool,
    mode: Option<string>)

  /**
   * What the handler reads besides the request: the skill, connector and mode
   * maps, today's date, the stored preferences (in key order), the upload
   * directory check and the file reader.
   */
  datatype ChatEnv = ChatEnv(
    skills: seq<Skill>,
    connectors: seq<Skill>,
    modes: map<string, Skill>,
    today: string,
    preferences: seq<(string, string)>,
    pathSafe: string -> bool,
    readImage: string -> ImageRead)

  /** The handler's outcome: a 400 refusal, or the CLI launch with its arguments and stdin prompt. */
  datatype ChatPlan = Rejected | Launch(mode: string, args: seq<string>, prompt: string)

  /** A request is served only with a non-empty list of messages. */
  predicate ValidMessages(m: MessagesField) {
    m.MessageList? && |m.items| > 0
  }

  /** The allow-list check: the requested model if allowed, otherwise the default. */
  function SelectModel(requested: Option<string>): string {
    if requested.Some? && requested.value in AllowedModels then requested.value else DefaultModel
  }

  /** The model used is always allowed, and is the requested one exactly when that one is allowed. */
  lemma SelectModelAllowed(requested: Option<string>)
    ensures SelectModel(requested) in AllowedModels
    ensures SelectModel(requested) == requested.GetOr("") <==> requested.Some? && requested.value in AllowedModels
  {
  }

  function CurrentMode(mode: Option<string>): string {
    if Truthy(mode) then mode.value else DefaultMode
  }

  /** The mode skill: the current mode's, else the agent mode's, else none. */
  function ModeSkillFor(modes: map<string, Skill>, mode: string): Option<Skill> {
    if mode in modes then Some(modes[mode]) else if DefaultMode in modes then Some(modes[DefaultMode]) else None
  }

  /** A template's rendering of a possibly missing string. */
  function Rendered(s: Option<string>): string {
    s.GetOr("undefined")
  }

  /** `--max-turns`: the mode's setting, else 1 in ask mode and 5 otherwise. */
  function MaxTurns(modeSkill: Option<Skill>, mode: string): nat {
    if modeSkill.Some? && modeSkill.value.maxTurns != 0 then modeSkill.value.maxTurns
    else if mode == "ask" then 1 else 5
  }

  function CliArgs(maxTurns: nat, model: string, webSearch: bool): seq<string> {
    ["-p", "--verbose", "--output-format", "stream-json", "--include-partial-messages",
     "--max-turns", NatToString(maxTurns), "--model", model]
    + (if webSearch then ["--allowedTools", "WebSearch"] else [])
  }

  /** The preference block: a header, one `- key: value` line each, and a blank line; nothing without preferences. */
  function MemorySection(prefs: seq<(string, string)>): string {
    if prefs == [] then "" else "[用户偏好记忆]\n" + PreferenceLines(prefs) + "\n"
  }

  function PreferenceLines(prefs: seq<(string, string)>): string {
    if prefs == [] then ""
    else PreferenceLines(prefs[..|prefs| - 1]) + "- " + prefs[|prefs| - 1].0 + ": " + prefs[|prefs| - 1].1 + "\n"
  }

  function ContextSection(context: Option<string>): string {
    if Truthy(context) then "[当前 Writer 上下文]\n" + context.value + "\n\n" else ""
  }

  predicate IsImage(a: Attachment) {
    a.kind == Some("image")
  }

  function TextAttachments(atts: seq<Attachment>): (r: seq<Attachment>)
    ensures forall k :: 0 <= k < |r| ==> !IsImage(r[k])
  {
    if atts == [] then []
    else TextAttachments(atts[..|atts| - 1]) + (if IsImage(atts[|atts| - 1]) then [] else [atts[|atts| - 1]])
  }

  function ImageAttachments(atts: seq<Attachment>): (r: seq<Attachment>)
    ensures forall k :: 0 <= k < |r| ==> IsImage(r[k])
  {
    if atts == [] then []
    else ImageAttachments(atts[..|atts| - 1]) + (if IsImage(atts[|atts| - 1]) then [atts[|atts| - 1]] else [])
  }

  /** Every attachment is either a text or an image attachment. */
  lemma {:induction false} AttachmentsPartition(atts: seq<Attachment>)
    ensures |TextAttachments(atts)| + |ImageAttachments(atts)| == |atts|
  {
    if atts != [] {
      AttachmentsPartition(atts[..|atts| - 1]);
    }
  }

  function TextBlocks(atts: seq<Attachment>): string {
    if atts == [] then ""
    else
      var a := atts[|atts| - 1];
      TextBlocks(atts[..|atts| - 1]) + "--- " + Rendered(a.name) + " ---\n" + Rendered(a.content) + "\n\n"
  }

  /** The extension of an image's name, lower-cased: the text after its last '.', "png" when empty or nameless. */
  function ImageExtension(name: Option<string>): string {
    if name.None? then "png"
    else
      var pieces := Split(name.value, '.');
      var ext := ToLower(pieces[|pieces| - 1]);
      if ext == "" then "png" else ext
  }

  /** The MIME subtype for an image extension, "png" for unknown ones. */
  function MimeSubtype(ext: string): (mime: string)
    ensures mime in {"jpeg", "png", "gif", "webp", "bmp", "svg+xml"}
  {
    if ext == "jpg" || ext == "jpeg" then "jpeg"
    else if ext == "png" then "png"
    else if ext == "gif" then "gif"
    else if ext == "webp" then "webp"
    else if ext == "bmp" then "bmp"
    else if ext == "svg" then "svg+xml"
    else "png"
  }

  /** The line an image attachment contributes: none without an upload path. */
  function ImageLine(a: Attachment, pathSafe: string -> bool, readImage: string -> ImageRead): string {
    if !Truthy(a.tempPath) then ""
    else if !pathSafe(a.tempPath.value) then "图片 " + Rendered(a.name) + ": 路径无效，已跳过\n"
    else match readImage(a.tempPath.value)
      case ImageBytes(n, b64) =>
        "图片 " + Rendered(a.name) + ": data:image/" + MimeSubtype(ImageExtension(a.name)) + ";base64,"
        + Take(b64, Base64Preview) + "... (" + NatToString(n) + " bytes, 已作为附件传入)\n"
      case ImageUnreadable(msg) => "图片 " + Rendered(a.name) + ": 无法读取 (" + msg + ")\n"
  }

  function ImageLines(images: seq<Attachment>, pathSafe: string -> bool, readImage: string -> ImageRead): string {
    if images == [] then ""
    else ImageLines(images[..|images| - 1], pathSafe, readImage) + ImageLine(images[|images| - 1], pathSafe, readImage)
  }

  lemma ImageLinesNext(images: seq<Attachment>, k: nat, pathSafe: string -> bool, readImage: string -> ImageRead)
    requires k < |images|
    ensures ImageLines(images[..k + 1], pathSafe, readImage)
      == ImageLines(images[..k], pathSafe, readImage) + ImageLine(images[k], pathSafe, readImage)
  {
    assert images[..k + 1][..k] == images[..k];
  }

  const ImageInstruction := "请根据图片描述和用户指令来完成任务。如果用户要求参考图片中的表格/界面来创建模板，请尽量还原图片中的布局和字段。\n\n"

  /** The attachment part: text attachments first, then the image header, lines and instruction. */
  function AttachmentSection(atts: Option<seq<Attachment>>, pathSafe: string -> bool, readImage: string -> ImageRead): string {
    if atts.None? || atts.value == [] then ""
    else
      var texts, images := TextAttachments(atts.value), ImageAttachments(atts.value);
      (if texts == [] then "" else "[用户附件]\n" + TextBlocks(texts))
      + (if images == [] then ""
         else "[用户上传了 " + NatToString(|images|) + " 张图片]\n" + ImageLines(images, pathSafe, readImage) + ImageInstruction)
  }

  function RoleLabel(role: string): string {
    if role == "user" then "用户" else "助手"
  }

  function HistoryEntry(m: ChatMessage): string {
    RoleLabel(m.role) + ": " + Rendered(m.content) + "\n\n"
  }

  function HistoryEntries(ms: seq<ChatMessage>): string {
    if ms == [] then "" else HistoryEntries(ms[..|ms| - 1]) + HistoryEntry(ms[|ms| - 1])
  }

  /** The conversation history: every message but the last, when there is more than one. */
  function HistorySection(ms: seq<ChatMessage>): string {
    if |ms| > 1 then "[对话历史]\n" + HistoryEntries(ms[..|ms| - 1]) else ""
  }

  /** The prompt written to the CLI: system prompt, memory, context, attachments, history, final turn. */
  function FullPrompt(system: string, req: ChatRequest, env: ChatEnv): string
    requires ValidMessages(req.messages)
  {
    var ms := req.messages.items;
    system + "\n"
    + MemorySection(env.preferences)
    + ContextSection(req.context)
    + AttachmentSection(req.attachments, env.pathSafe, env.readImage)
    + HistorySection(ms)
    + "用户: " + Rendered(ms[|ms| - 1].content)
  }

  /** The text skills are matched against: the last message's content, "" when missing or empty. */
  function LastUserText(ms: seq<ChatMessage>): string
    requires |ms| > 0
  {
    ms[|ms| - 1].content.GetOr("")
  }

  /** What `/chat` does with a request, before the CLI runs. */
  function ChatPlanOf(req: ChatRequest, env: ChatEnv): ChatPlan {
    if !ValidMessages(req.messages) then Rejected
    else
      var ms := req.messages.items;
      var mode := CurrentMode(req.mode);
      var modeSkill := ModeSkillFor(env.modes, mode);
      var text := LastUserText(ms);
      var matched := Matched(env.skills, text, None, Some(mode)) + Matched(env.connectors, text, None, Some(mode));
      var system := Preamble(env.today) + ModeSection(modeSkill) + SkillSections(matched);
      Launch(mode, LaunchArgs(req, env), FullPrompt(system, req, env))
  }

  /** The CLI arguments of a launch: the mode's turn limit, the selected model, web search on request. */
  function LaunchArgs(req: ChatRequest, env: ChatEnv): seq<string> {
    var mode := CurrentMode(req.mode);
    CliArgs(MaxTurns(ModeSkillFor(env.modes, mode), mode), SelectModel(req.model), req.webSearch)
  }

  /** The preference loop: one `- key: value` line per entry, in order. */
  method WritePreferenceLines(prefs: seq<(string, string)>) returns (out: string)
    ensures out == PreferenceLines(prefs)
  {
    out := "";
    var k := 0;
    while k < |prefs|
      invariant 0 <= k <= |prefs|
      invariant out == PreferenceLines(prefs[..k])
    {
      assert prefs[..k + 1][..k] == prefs[..k];
      out := out + "- " + prefs[k].0 + ": " + prefs[k].1 + "\n";
      k := k + 1;
    }
    assert prefs[..|prefs|] == prefs;
  }

  /** The text-attachment loop: one `--- name ---` block per attachment. */
  method WriteTextBlocks(atts: seq<Attachment>) returns (out: string)
    ensures out == TextBlocks(atts)
  {
    out := "";
    var k := 0;
    while k < |atts|
      invariant 0 <= k <= |atts|
      invariant out == TextBlocks(atts[..k])
    {
      assert atts[..k + 1][..k] == atts[..k];
      out := out + "--- " + Rendered(atts[k].name) + " ---\n" + Rendered(atts[k].content) + "\n\n";
      k := k + 1;
    }
    assert atts[..|atts|] == atts;
  }

  /** The image loop: one line per image with an upload path. */
  method WriteImageLines(images: seq<Attachment>, pathSafe: string -> bool, readImage: string -> ImageRead)
    returns (out: string)
    ensures out == ImageLines(images, pathSafe, readImage)
  {
    out := "";
    var k := 0;
    while k < |images|
      invariant 0 <= k <= |images|
      invariant out == ImageLines(images[..k], pathSafe, readImage)
    {
      ImageLinesNext(images, k, pathSafe, readImage);
      var a := images[k];
      var line := "";
      if Truthy(a.tempPath) {
        if !pathSafe(a.tempPath.value) {
          line := "图片 " + Rendered(a.name) + ": 路径无效，已跳过\n";
        } else {
          match readImage(a.tempPath.value)
          case ImageBytes(n, b64) =>
            var mime := MimeSubtype(ImageExtension(a.name));
            line := "图片 " + Rendered(a.name) + ": data:image/" + mime + ";base64,"
              + Take(b64, Base64Preview) + "... (" + NatToString(n) + " bytes, 已作为附件传入)\n";
          case ImageUnreadable(msg) =>
            line := "图片 " + Rendered(a.name) + ": 无法读取 (" + msg + ")\n";
        }
      }
      out := out + line;
      k := k + 1;
    }
    assert images[..|images|] == images;
  }

  /** The history loop: one entry per message before the last. */
  method WriteHistoryEntries(ms: seq<ChatMessage>) returns (out: string)
    ensures out == HistoryEntries(ms)
  {
    out := "";
    var k := 0;
    while k < |ms|
      invariant 0 <= k <= |ms|
      invariant out == HistoryEntries(ms[..k])
    {
      assert ms[..k + 1][..k] == ms[..k];
      out := out + RoleLabel(ms[k].role) + ": " + Rendered(ms[k].content) + "\n\n";
      k := k + 1;
    }
    assert ms[..|ms|] == ms;
  }

  /** The attachment part of the prompt: text blocks, then the image lines. */
  method WriteAttachments(atts: Option<seq<Attachment>>, pathSafe: string -> bool, readImage: string -> ImageRead)
    returns (out: string)
    ensures out == AttachmentSection(atts, pathSafe, readImage)
  {
    out := "";
    if atts.None? || atts.value == [] {
      return;
    }
    var texts, images := TextAttachments(atts.value), ImageAttachments(atts.value);
    var textPart, imagePart := "", "";
    if texts != [] {
      var blocks := WriteTextBlocks(texts);
      textPart := "[用户附件]\n" + blocks;
    }
    if images != [] {
      var lines := WriteImageLines(images, pathSafe, readImage);
      imagePart := "[用户上传了 " + NatToString(|images|) + " 张图片]\n" + lines + ImageInstruction;
    }
    out := textPart + imagePart;
  }

  /** The prompt assembly of `/chat`, section by section, from an already built system prompt. */
  method AssemblePrompt(system: string, req: ChatRequest, env: ChatEnv) returns (prompt: string)
    requires ValidMessages(req.messages)
    ensures prompt == FullPrompt(system, req, env)
  {
    var ms := req.messages.items;
    var memory, context, history := "", "", "";
    if env.preferences != [] {
      var lines := WritePreferenceLines(env.preferences);
      memory := "[用户偏好记忆]\n" + lines + "\n";
    }
    if Truthy(req.context) {
      context := "[当前 Writer 上下文]\n" + req.context.value + "\n\n";
    }
    var attachments := WriteAttachments(req.attachments, env.pathSafe, env.readImage);
    if |ms| > 1 {
      var entries := WriteHistoryEntries(ms[..|ms| - 1]);
      history := "[对话历史]\n" + entries;
    }
    prompt := system + "\n" + memory + context + attachments + history + "用户: " + Rendered(ms[|ms| - 1].content);
  }

  /** The `/chat` handler up to launching the CLI. */
  method Chat(req: ChatRequest, env: ChatEnv) returns (plan: ChatPlan)
    ensures plan == ChatPlanOf(req, env)
  {
    if !ValidMessages(req.messages) {
      return Rejected;
    }
    var ms := req.messages.items;
    var model := SelectModel(req.model);
    var mode := CurrentMode(req.mode);
    var modeSkill := ModeSkillFor(env.modes, mode);
    var text := LastUserText(ms);
    var matchedSkills := MatchSkills(env.skills, text, None, Some(mode));
    var matchedConnectors := MatchSkills(env.connectors, text, None, Some(mode));
    var system := BuildSystemPrompt(matchedSkills + matchedConnectors, env.today, modeSkill);
    var prompt := AssemblePrompt(system, req, env);
    plan := Launch(mode, CliArgs(MaxTurns(modeSkill, mode), model, req.webSearch), prompt);
  }

  /** A request is refused exactly when its messages are missing, not a list, or empty. */
  lemma ChatRejectsInvalid(req: ChatRequest, env: ChatEnv)
    ensures ChatPlanOf(req, env).Rejected? <==> !ValidMessages(req.messages)
  {
  }

  /** The CLI arguments carry the turn limit and the model, and ask for web search exactly when requested. */
  lemma CliArgsShape(maxTurns: nat, model: string, webSearch: bool)
    ensures var args := CliArgs(maxTurns, model, webSearch);
      && |args| >= 9 && args[5] == "--max-turns" && args[6] == NatToString(maxTurns)
      && args[7] == "--model" && args[8] == model
      && ("WebSearch" in args <==> webSearch || model == "WebSearch")
  {
    var args := CliArgs(maxTurns, model, webSearch);
    if !webSearch && model != "WebSearch" {
      forall i | 0 <= i < |args| ensures args[i] != "WebSearch" {
        if i == 6 {
          assert IsDigit(args[6][0]);
        }
      }
    }
  }

  /** A launch names an allowed model, the one requested when that one is allowed, and web search only on request. */
  lemma ChatLaunchModel(req: ChatRequest, env: ChatEnv)
    requires ValidMessages(req.messages)
    ensures var args := ChatPlanOf(req, env).args;
      && |args| >= 9 && args[7] == "--model" && args[8] in AllowedModels
      && (args[8] == req.model.GetOr("") <==> req.model.Some? && req.model.value in AllowedModels)
      && ("WebSearch" in args <==> req.webSearch)
  {
    LaunchArgsModel(req, env);
  }

  lemma LaunchArgsModel(req: ChatRequest, env: ChatEnv)
    ensures var args := LaunchArgs(req, env);
      && |args| >= 9 && args[7] == "--model" && args[8] in AllowedModels
      && (args[8] == req.model.GetOr("") <==> req.model.Some? && req.model.value in AllowedModels)
      && ("WebSearch" in args <==> req.webSearch)
  {
    var mode := CurrentMode(req.mode);
    var model := SelectModel(req.model);
    SelectModelAllowed(req.model);
    CliArgsShape(MaxTurns(ModeSkillFor(env.modes, mode), mode), model, req.webSearch);
  }

  /** The prompt opens with the system prompt and a line break and closes with the final user turn. */
  lemma FullPromptShape(system: string, req: ChatRequest, env: ChatEnv)
    requires ValidMessages(req.messages)
    ensures var ms := req.messages.items;
      var prompt := FullPrompt(system, req, env);
      && StartsWith(prompt, system + "\n")
      && EndsWith(prompt, "用户: " + Rendered(ms[|ms| - 1].content))
  {
    var ms := req.messages.items;
    var mem, ctx := MemorySection(env.preferences), ContextSection(req.context);
    var att, hist := AttachmentSection(req.attachments, env.pathSafe, env.readImage), HistorySection(ms);
    var user := Rendered(ms[|ms| - 1].content);
    Regroup(system, "\n", mem, ctx, att, hist, "用户: ", user);
    Framed(system + "\n", mem + ctx + att + hist, "用户: " + user);
  }

  lemma Regroup(a: string, b: string, c: string, d: string, e: string, f: string, g: string, h: string)
    ensures a + b + c + d + e + f + g + h == (a + b) + (c + d + e + f) + (g + h)
  { }

  /** A text made of three parts starts with the first and ends with the last. */
  lemma Framed(head: string, middle: string, last: string)
    ensures StartsWith(head + middle + last, head) && EndsWith(head + middle + last, last)
  {
    var whole := head + middle + last;
    assert whole[..|head|] == head;
    assert whole[|whole| - |last|..] == last;
  }

  /** The entries of a prefix of the messages are a prefix of the entries of all of them. */
  lemma {:induction false} HistoryEntriesPrefix(ms: seq<ChatMessage>, n: nat)
    requires n <= |ms|
    ensures StartsWith(HistoryEntries(ms), HistoryEntries(ms[..n]))
    decreases |ms|
  {
    if n < |ms| {
      HistoryEntriesPrefix(ms[..|ms| - 1], n);
      assert ms[..|ms| - 1][..n] == ms[..n];
    } else {
      assert ms[..n] == ms;
    }
  }

  /** Message `k`'s entry follows the entries of the messages before it: history keeps message order. */
  lemma HistoryInOrder(ms: seq<ChatMessage>, k: nat)
    requires k < |ms|
    ensures OccursAt(HistoryEntries(ms), HistoryEntry(ms[k]), |HistoryEntries(ms[..k])|)
  {
    HistoryEntriesPrefix(ms, k + 1);
    var upTo := HistoryEntries(ms[..k + 1]);
    assert ms[..k + 1][..k] == ms[..k];
    assert upTo == HistoryEntries(ms[..k]) + HistoryEntry(ms[k]);
    assert HistoryEntries(ms)[..|upTo|] == upTo;
  }

  /** The lines of a prefix of the preferences are a prefix of all the lines. */
  lemma {:induction false} PreferenceLinesPrefix(prefs: seq<(string, string)>, n: nat)
    requires n <= |prefs|
    ensures StartsWith(PreferenceLines(prefs), PreferenceLines(prefs[..n]))
    decreases |prefs|
  {
    if n < |prefs| {
      PreferenceLinesPrefix(prefs[..|prefs| - 1], n);
      assert prefs[..|prefs| - 1][..n] == prefs[..n];
    } else {
      assert prefs[..n] == prefs;
    }
  }

  /** Every stored preference appears as its own `- key: value` line, in key order. */
  lemma PreferenceInOrder(prefs: seq<(string, string)>, k: nat)
    requires k < |prefs|
    ensures OccursAt(PreferenceLines(prefs), "- " + prefs[k].0 + ": " + prefs[k].1 + "\n", |PreferenceLines(prefs[..k])|)
  {
    PreferenceLinesPrefix(prefs, k + 1);
    var upTo := PreferenceLines(prefs[..k + 1]);
    assert prefs[..k + 1][..k] == prefs[..k];
    assert upTo == PreferenceLines(prefs[..k]) + ("- " + prefs[k].0 + ": " + prefs[k].1 + "\n");
    assert PreferenceLines(prefs)[..|upTo|] == upTo;
  }

  /** The extension is the text after the last '.', lower-cased; "png" when that text is empty. */
  lemma ImageExtensionLastDot(stem: string, ext: string)
    requires '.' !in ext
    ensures ImageExtension(Some(stem + "." + ext)) == if ext == "" then "png" else ToLower(ext)
  {
    SplitAtSeparator(stem, ext, '.');
    SplitWithoutSeparator(ext, '.');
    assert stem + "." + ext == stem + ['.'] + ext;
  }

  /** Case does not matter: an extension names the same type as its lower-case form (`a.JPG` is `jpeg`). */
  lemma ImageExtensionUpperCase(stem: string, ext: string)
    requires '.' !in ext
    ensures ImageExtension(Some(stem + "." + ext)) == ImageExtension(Some(stem + "." + ToLower(ext)))
  {
    var lower := ToLower(ext);
    forall k | 0 <= k < |lower| ensures lower[k] != '.' {
      assert lower[k] == LowerChar(ext[k]);
    }
    ImageExtensionLastDot(stem, ext);
    ImageExtensionLastDot(stem, lower);
    assert ToLower(lower) == lower;
  }

  /** A name without a dot is its own extension, lower-cased; an empty name gives "png". */
  lemma ImageExtensionNoDot(name: string)
    requires '.' !in name
    ensures ImageExtension(Some(name)) == if name == "" then "png" else ToLower(name)
  {
    SplitWithoutSeparator(name, '.');
  }
}
