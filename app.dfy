/**
 * The chat panel's handlers: sending a message, streaming the answer into
 * it, finishing it in "ask" mode (code masked) or in "agent" mode (code
 * blocks extracted and run in order until one fails), reporting an error,
 * stopping a reply, and splicing pasted text into the input.
 */
module ChatApp {
  import opened Wrappers
  import opened Strings
  import opened Sequences
  import opened UiTypes
  import ClaudeClient
  import WpsAdapter
  import WpsAddon

  // ---------------------------------------------------------------------------
  // handleSend: the text sent and the text shown

  /** `(text ?? input).trim()`. */
  function SendText(text: Option<string>, input: string): string {
    Trim(text.GetOr(input))
  }

  /** `pieces.join(sep)`. */
  function JoinWith(pieces: seq<string>, sep: string): string {
    if pieces == [] then ""
    else if |pieces| == 1 then pieces[0]
    else pieces[0] + sep + JoinWith(pieces[1..], sep)
  }

  const PinnedMark := "\n\n📎 引用选区: "
  const AttachmentsOpen := "\n\n[附件: "

  /** The user's bubble: the text, the pinned selection's label, the attached file names. */
  function DisplayContent(userText: string, pinned: Option<string>, names: seq<string>): string {
    userText
    + (if pinned.Some? then PinnedMark + pinned.value else "")
    + (if |names| > 0 then AttachmentsOpen + JoinWith(names, ", ") + "]" else "")
  }

  /**
   * The bubble starts with the text sent; it is exactly that text iff
   * nothing was pinned or attached; the pinned label follows the text;
   * the attachment list closes the bubble.
   */
  lemma DisplayContentShape(userText: string, pinned: Option<string>, names: seq<string>)
    ensures var d := DisplayContent(userText, pinned, names);
      && StartsWith(d, userText)
      && (d == userText <==> pinned.None? && names == [])
      && (pinned.Some? ==> StartsWith(d[|userText|..], PinnedMark + pinned.value))
      && (names != [] ==> EndsWith(d, AttachmentsOpen + JoinWith(names, ", ") + "]"))
      && (names == [] && pinned.Some? ==> d == userText + PinnedMark + pinned.value)
  {
    var d := DisplayContent(userText, pinned, names);
    var p := if pinned.Some? then PinnedMark + pinned.value else "";
    var a := if |names| > 0 then AttachmentsOpen + JoinWith(names, ", ") + "]" else "";
    assert d == userText + p + a;
    assert d[..|userText|] == userText;
    assert d[|userText|..] == p + a;
    if pinned.Some? {
      assert (p + a)[..|p|] == p;
    }
    if names != [] {
      assert d == (userText + p) + a;
      assert d[|d| - |a|..] == a;
    }
  }

  // ---------------------------------------------------------------------------
  // onComplete in "ask" mode: code blocks are masked

  const Placeholder := "_(此处为代码操作，请切换至 Agent 模式执行)_"

  /**
   * `text.replace(/```[\w]*\n[\s\S]*?```/g, mark)` from `from` on:
   * `[\w]*` before the line break matches exactly where the extraction
   * pattern's `(\w+)?` does, so the search is the one `Scan` performs.
   */
  function Replace(text: string, from: nat, mark: string): string
    requires from <= |text|
    decreases |text| - from
  {
    if from == |text| then ""
    else
      match ClaudeClient.MatchAt(text, from)
      case Some(m) => mark + Replace(text, m.end, mark)
      case None => [text[from]] + Replace(text, from + 1, mark)
  }

  /** The masked answer of ask mode: every code block replaced by the placeholder. */
  function Strip(text: string): string {
    Replace(text, 0, Placeholder)
  }

  /**
   * `hadCode`: the masked text differs from the answer exactly when the
   * answer holds a code block, because the placeholder never starts with a
   * backtick.
   */
  lemma StripChangesIff(text: string)
    ensures Strip(text) == text <==> ClaudeClient.Scan(text, 0) == []
  {
    assert Placeholder[0] == '_';
    ReplaceChangesIff(text, 0, Placeholder);
    assert text[0..] == text;
  }

  /** Replacing changes the text exactly when a block is found, for a mark not starting with a backtick. */
  lemma {:induction false} ReplaceChangesIff(text: string, from: nat, mark: string)
    requires from <= |text| && |mark| > 0 && mark[0] != '`'
    ensures Replace(text, from, mark) == text[from..] <==> ClaudeClient.Scan(text, from) == []
    decreases |text| - from
  {
    if from < |text| {
      ReplaceChangesIff(text, from + 1, mark);
      match ClaudeClient.MatchAt(text, from)
      case Some(m) =>
        assert Replace(text, from, mark)[0] == mark[0];
        assert text[from] == '`';
      case None =>
        assert text[from..] == [text[from]] + text[from + 1..];
    }
  }

  /** Replacing after any prefix gives the same text as replacing in the rest alone. */
  lemma {:induction false} ReplaceShift(a: string, b: string, i: nat, mark: string)
    requires i <= |b|
    ensures Replace(a + b, |a| + i, mark) == Replace(b, i, mark)
    decreases |b| - i
  {
    if i < |b| {
      var found := ClaudeClient.MatchAt(b, i);
      if found.Some? {
        ReplaceShift(a, b, found.value.end, mark);
        ReplaceShiftHit(a, b, i, found.value, mark);
      } else {
        ReplaceShift(a, b, i + 1, mark);
        ReplaceShiftMiss(a, b, i, mark);
      }
    }
  }

  /** A block found in `b` is found in `a + b` and replaced alike; both go on after it. */
  lemma ReplaceShiftHit(a: string, b: string, i: nat, m: ClaudeClient.Match, mark: string)
    requires i < |b| && ClaudeClient.MatchAt(b, i) == Some(m)
    requires m.end <= |b| && Replace(a + b, |a| + m.end, mark) == Replace(b, m.end, mark)
    ensures Replace(a + b, |a| + i, mark) == Replace(b, i, mark)
  {
    ClaudeClient.MatchAtShift(a, b, i);
    assert ClaudeClient.MatchAt(a + b, |a| + i) == Some(ClaudeClient.Match(m.lang, m.body, |a| + m.end));
  }

  /** No block at `i` of `b` is none in `a + b`; both copy the same character. */
  lemma ReplaceShiftMiss(a: string, b: string, i: nat, mark: string)
    requires i < |b| && ClaudeClient.MatchAt(b, i).None?
    requires Replace(a + b, |a| + i + 1, mark) == Replace(b, i + 1, mark)
    ensures Replace(a + b, |a| + i, mark) == Replace(b, i, mark)
  {
    ClaudeClient.MatchAtShift(a, b, i);
    assert (a + b)[|a| + i] == b[i];
  }

  /** Characters other than backticks are copied as they are. */
  lemma {:induction false} ReplaceSkip(text: string, lo: nat, hi: nat, mark: string)
    requires lo <= hi <= |text|
    requires forall k :: lo <= k < hi ==> text[k] != '`'
    ensures Replace(text, lo, mark) == text[lo..hi] + Replace(text, hi, mark)
    decreases hi - lo
  {
    if lo < hi {
      assert !ClaudeClient.FenceAt(text, lo);
      assert Replace(text, lo, mark) == [text[lo]] + Replace(text, lo + 1, mark);
      ReplaceSkip(text, lo + 1, hi, mark);
      assert text[lo..hi] == [text[lo]] + text[lo + 1..hi];
    }
  }

  /** An answer with every code part replaced by prose `mark`. */
  function Masked(parts: seq<ClaudeClient.Part>, mark: string): seq<ClaudeClient.Part> {
    if parts == [] then []
    else [if parts[0].Code? then ClaudeClient.Prose(mark) else parts[0]] + Masked(parts[1..], mark)
  }

  /**
   * Masking an answer written as prose and fenced blocks replaces each
   * block, whole, by the placeholder and keeps all prose as written.
   */
  lemma StripWritten(parts: seq<ClaudeClient.Part>)
    requires forall k :: 0 <= k < |parts| ==> ClaudeClient.PlainPart(parts[k])
    ensures Strip(ClaudeClient.Render(parts)) == ClaudeClient.Render(Masked(parts, Placeholder))
  {
    ReplaceWritten(parts, Placeholder);
  }

  lemma {:induction false} ReplaceWritten(parts: seq<ClaudeClient.Part>, mark: string)
    requires forall k :: 0 <= k < |parts| ==> ClaudeClient.PlainPart(parts[k])
    ensures Replace(ClaudeClient.Render(parts), 0, mark) == ClaudeClient.Render(Masked(parts, mark))
    decreases |parts|
  {
    if parts != [] {
      var head, tail := ClaudeClient.RenderPart(parts[0]), ClaudeClient.Render(parts[1..]);
      var text := head + tail;
      assert ClaudeClient.Render(parts) == text;
      ReplaceWritten(parts[1..], mark);
      ReplaceShift(head, tail, 0, mark);
      assert Masked(parts, mark)[1..] == Masked(parts[1..], mark);
      match parts[0]
      case Prose(t) =>
        forall k | 0 <= k < |t| ensures text[k] != '`' {
          assert text[k] == t[k];
        }
        ReplaceSkip(text, 0, |t|, mark);
        assert text[0..|t|] == t;
      case Code(l, c) =>
        ClaudeClient.FencedMatch(l, c, tail);
        assert Replace(text, 0, mark) == mark + Replace(text, |head|, mark);
    }
  }

  /** The regex's `.{0,max}` followed by `word`: up to `max` characters, none a line terminator. */
  predicate GapThen(t: string, j: int, max: nat, word: string) {
    exists g :: 0 <= g <= max && GapAt(t, j, g, word)
  }

  /** `g` characters other than line terminators from `j` on, then `word`. */
  predicate GapAt(t: string, j: int, g: nat, word: string) {
    && 0 <= j
    && OccursAt(t, word, j + g)
    && forall k :: j <= k < j + g ==> !IsLineTerminator(t[k])
  }

  /** One alternative of the hint pattern starts at `i` of the lower-cased text. */
  predicate HintAt(t: string, i: int) {
    || (OccursAt(t, "切换", i) && GapThen(t, i + 2, 4, "agent"))
    || (OccursAt(t, "switch", i) && GapThen(t, i + 6, 6, "agent"))
    || OccursAt(t, "需要执行", i)
    || OccursAt(t, "需要操作", i)
    || (OccursAt(t, "建议", i) && GapThen(t, i + 2, 4, "agent"))
  }

  /**
   * `ACTION_HINTS.test(text)`; the `i` flag folds ASCII letters only, so
   * it is matching against the lower-cased text.
   */
  predicate ActionHint(text: string) {
    exists i :: 0 <= i < |text| && HintAt(ToLower(text), i)
  }

  /** `suggestSwitch = hadCode || ACTION_HINTS.test(text)`. */
  predicate SuggestSwitch(text: string) {
    Strip(text) != text || ActionHint(text)
  }

  /**
   * The switch to agent mode is suggested exactly when the answer held a
   * code block or hints at an action; a text asking outright for it
   * ("需要执行") or naming the mode in any letter case always does.
   */
  lemma SuggestSwitchIff(text: string)
    ensures SuggestSwitch(text) <==> ClaudeClient.Scan(text, 0) != [] || ActionHint(text)
  {
    StripChangesIff(text);
  }

  /** An answer saying "需要执行" anywhere suggests the switch. */
  lemma HintNeedsRun(a: string, b: string)
    ensures SuggestSwitch(a + "需要执行" + b)
  {
    var s := a + "需要执行" + b;
    assert OccursAt(s, "需要执行", |a|) by {
      assert s[|a|..|a| + 4] == "需要执行";
    }
    ToLowerAt(s, "需要执行", |a|);
    assert ToLower("需要执行") == "需要执行";
    assert HintAt(ToLower(s), |a|);
  }

  /** "Switch to Agent", in any letter case, suggests the switch. */
  lemma HintSwitchTo(a: string, b: string)
    ensures SuggestSwitch(a + "Switch to Agent" + b)
  {
    var u := a + "Switch to Agent" + b;
    assert OccursAt(u, "Switch to Agent", |a|) by {
      assert u[|a|..|a| + 15] == "Switch to Agent";
    }
    PhraseParts(u, |a|);
    ToLowerAt(u, "Switch", |a|);
    ToLowerAt(u, "Agent", |a| + 10);
    LowerWords();
    HintFromParts(ToLower(u), |a|);
  }

  lemma LowerWords()
    ensures ToLower("Switch") == "switch" && ToLower("Agent") == "agent"
  { }

  /** Where the phrase occurs, its two words occur and the gap between them is spaces and letters. */
  lemma PhraseParts(u: string, i: int)
    requires OccursAt(u, "Switch to Agent", i)
    ensures OccursAt(u, "Switch", i) && OccursAt(u, "Agent", i + 10)
    ensures forall k :: i + 6 <= k < i + 10 ==> !IsLineTerminator(ToLower(u)[k])
  {
    var p := "Switch to Agent";
    assert u[i..i + 15] == p;
    assert u[i..i + 6] == p[..6] == "Switch";
    assert u[i + 10..i + 15] == p[10..] == "Agent";
    forall k | i + 6 <= k < i + 10 ensures !IsLineTerminator(ToLower(u)[k]) {
      assert u[k] == p[k - i];
    }
  }

  /** "switch", a short gap without line breaks, then "agent": the pattern's second alternative. */
  lemma HintFromParts(t: string, i: int)
    requires OccursAt(t, "switch", i) && OccursAt(t, "agent", i + 10)
    requires forall k :: i + 6 <= k < i + 10 ==> !IsLineTerminator(t[k])
    ensures HintAt(t, i)
  {
    assert GapAt(t, i + 6, 4, "agent");
  }

  /** A word found in the text is found, lower-cased, in the lower-cased text. */
  lemma ToLowerAt(s: string, w: string, i: int)
    requires OccursAt(s, w, i)
    ensures OccursAt(ToLower(s), ToLower(w), i)
  {
    assert forall k :: 0 <= k < |w| ==> s[i + k] == w[k];
  }

  // ---------------------------------------------------------------------------
  // handleStop: the pending exchange is dropped

  /** `prev.findIndex(m => m.isStreaming)`, as an index when there is one. */
  function FirstStreaming(msgs: seq<ChatMessage>): (r: Option<nat>)
    ensures r.Some? ==>
      && r.value < |msgs| && msgs[r.value].isStreaming
      && forall j :: 0 <= j < r.value ==> !msgs[j].isStreaming
    ensures r.None? ==> forall j :: 0 <= j < |msgs| ==> !msgs[j].isStreaming
  {
    if msgs == [] then None
    else if msgs[0].isStreaming then Some(0)
    else match FirstStreaming(msgs[1..])
      case None => None
      case Some(k) => Some(k + 1)
  }

  /** `prev.filter((_, i) => i !== s && i !== s - 1)`, over the first `n` messages. */
  function WithoutPair(msgs: seq<ChatMessage>, s: nat, n: nat): seq<ChatMessage>
    requires n <= |msgs|
  {
    if n == 0 then []
    else WithoutPair(msgs, s, n - 1) + (if n - 1 == s || n == s then [] else [msgs[n - 1]])
  }

  /** The messages left after stopping. */
  function DropStreaming(msgs: seq<ChatMessage>): seq<ChatMessage> {
    match FirstStreaming(msgs)
    case None => msgs
    case Some(s) => WithoutPair(msgs, s, |msgs|)
  }

  /**
   * The filter removes just the two indices: the first `n` messages minus
   * position `s` and the one before it.
   */
  lemma {:induction false} WithoutPairSlices(msgs: seq<ChatMessage>, s: nat, n: nat)
    requires n <= |msgs|
    ensures WithoutPair(msgs, s, n) ==
      if n < s then msgs[..n]
      else if n == 0 then []
      else if s == 0 then msgs[1..n]
      else if n == s then msgs[..s - 1]
      else msgs[..s - 1] + msgs[s + 1..n]
    decreases n
  {
    if n > 0 {
      WithoutPairSlices(msgs, s, n - 1);
      if n - 1 < s {
        assert msgs[..n] == msgs[..n - 1] + [msgs[n - 1]];
      } else if s == 0 {
        if n > 1 {
          assert msgs[1..n] == msgs[1..n - 1] + [msgs[n - 1]];
        }
      } else if n - 1 > s {
        assert msgs[s + 1..n] == msgs[s + 1..n - 1] + [msgs[n - 1]];
      }
    }
  }

  /**
   * Stopping removes the first streaming reply and the message just before
   * it (the question it answers), keeping every other message in order;
   * without a streaming reply nothing is removed.
   */
  lemma DropStreamingShape(msgs: seq<ChatMessage>)
    ensures FirstStreaming(msgs).None? ==> DropStreaming(msgs) == msgs
    ensures FirstStreaming(msgs).Some? ==>
      var s := FirstStreaming(msgs).value;
      && DropStreaming(msgs) == (if s == 0 then msgs[1..] else msgs[..s - 1] + msgs[s + 1..])
      && |DropStreaming(msgs)| == |msgs| - (if s == 0 then 1 else 2)
  {
    if FirstStreaming(msgs).Some? {
      var s := FirstStreaming(msgs).value;
      WithoutPairSlices(msgs, s, |msgs|);
      assert msgs[s + 1..|msgs|] == msgs[s + 1..];
      if s == 0 {
        assert msgs[1..|msgs|] == msgs[1..];
      }
    }
  }

  // ---------------------------------------------------------------------------
  // Pasting and inserting text into the input box

  /** `s.slice(a, b)` for non-negative bounds: both are clamped to the length. */
  function Slice(s: string, a: nat, b: nat): string {
    var lo := if a <= |s| then a else |s|;
    var hi := if b <= |s| then b else |s|;
    if lo <= hi then s[lo..hi] else ""
  }

  /** `prev.slice(0, start) + text + prev.slice(end)`. */
  function Splice(prev: string, start: nat, end: nat, text: string): string {
    Slice(prev, 0, start) + text + Slice(prev, end, |prev|)
  }

  /** The caret after the insertion. */
  function Caret(start: nat, text: string): nat {
    start + |text|
  }

  /**
   * With the selection inside the input, the selected characters are
   * replaced by the text, the rest is kept on both sides, and the caret
   * lands right after the inserted text.
   */
  lemma SpliceReplacesSelection(prev: string, start: nat, end: nat, text: string)
    requires start <= end <= |prev|
    ensures var r := Splice(prev, start, end, text);
      var c := Caret(start, text);
      && |r| == |prev| - (end - start) + |text|
      && c <= |r|
      && r[..start] == prev[..start]
      && r[start..c] == text
      && r[c..] == prev[end..]
  {
    var r := Splice(prev, start, end, text);
    assert r == prev[..start] + text + prev[end..];
  }

  // ---------------------------------------------------------------------------
  // Code block updates

  /**
   * The update of one code block: a run that returned (the error is kept),
   * a run that threw (result and diff are kept), or a report from the
   * block's own run button (`handleCodeExecuted`, which sets all three).
   */
  datatype Patch =
    | Ran(result: string, diff: Option<WpsAddon.DiffResult>)
    | Failed(message: string)
    | Reported(result: string, error: Option<string>, diff: Option<WpsAddon.DiffResult>)

  function ApplyPatch(b: CodeBlock, p: Patch): CodeBlock {
    match p
    case Ran(r, d) => b.(executed := true, result := Some(r), diff := d)
    case Failed(m) => b.(executed := true, error := Some(m))
    case Reported(r, e, d) => b.(executed := true, result := Some(r), error := e, diff := d)
  }

  /** `codeBlocks.map(b => b.id === blockId ? patched : b)`. */
  function PatchBlocks(cbs: seq<CodeBlock>, blockId: string, p: Patch): seq<CodeBlock> {
    seq(|cbs|, i requires 0 <= i < |cbs| => if cbs[i].id == blockId then ApplyPatch(cbs[i], p) else cbs[i])
  }

  /** `prev.map(m => m.id !== msgId ? m : {...m, codeBlocks: m.codeBlocks?.map(...)})`. */
  function PatchMessages(msgs: seq<ChatMessage>, msgId: string, blockId: string, p: Patch): seq<ChatMessage> {
    seq(|msgs|, i requires 0 <= i < |msgs| =>
      if msgs[i].id != msgId then msgs[i]
      else msgs[i].(codeBlocks := if msgs[i].codeBlocks.Some? then Some(PatchBlocks(msgs[i].codeBlocks.value, blockId, p)) else None))
  }

  /**
   * `handleCodeExecuted`: only the blocks with that id, in the messages
   * with that id, change; they are marked executed with the reported
   * result, error and diff, and keep their id, language and code.
   */
  lemma CodeExecutedTargets(msgs: seq<ChatMessage>, msgId: string, blockId: string,
                            result: string, error: Option<string>, diff: Option<WpsAddon.DiffResult>)
    ensures var r := PatchMessages(msgs, msgId, blockId, Reported(result, error, diff));
      && |r| == |msgs|
      && (forall k :: 0 <= k < |msgs| && msgs[k].id != msgId ==> r[k] == msgs[k])
      && (forall k :: 0 <= k < |msgs| ==> r[k].(codeBlocks := msgs[k].codeBlocks) == msgs[k])
      && (forall k :: 0 <= k < |msgs| ==> (r[k].codeBlocks.Some? <==> msgs[k].codeBlocks.Some?))
      && (forall k, i :: 0 <= k < |msgs| && msgs[k].id == msgId && msgs[k].codeBlocks.Some? && 0 <= i < |msgs[k].codeBlocks.value| ==>
            var b := msgs[k].codeBlocks.value[i];
            var b' := r[k].codeBlocks.value[i];
            && (b.id != blockId ==> b' == b)
            && (b.id == blockId ==> b' == b.(executed := true, result := Some(result), error := error, diff := diff)))
  {
  }

  // ---------------------------------------------------------------------------
  // Running a message's blocks in order until one fails

  /** The run's failures: an exception, or the 30-second timeout. */
  predicate Fails(o: WpsAdapter.ExecOutcome) {
    o.Threw? || o.TimedOut?
  }

  /** One update the run issues. */
  datatype Step = Step(blockId: string, patch: Patch)

  /** The updates a run issues, and whether it is still awaiting a block. */
  datatype RunPlan = RunPlan(steps: seq<Step>, pending: bool)

  /**
   * The `for (const block of blocks)` loop of `handleApplyCode` and of the
   * agent-mode `onComplete`: `outcomes[i]` is what `executeCode` does for
   * block `i`. A returned run patches the block and goes on, a failure
   * patches it and breaks, a call that has not settled holds the loop.
   */
  function RunOrder(blocks: seq<CodeBlock>, outcomes: seq<WpsAdapter.ExecOutcome>): RunPlan
    requires |outcomes| == |blocks|
  {
    if blocks == [] then RunPlan([], false)
    else
      match outcomes[0]
      case StillPolling => RunPlan([], true)
      case Returned(r, d) =>
        var rest := RunOrder(blocks[1..], outcomes[1..]);
        RunPlan([Step(blocks[0].id, Ran(r, d))] + rest.steps, rest.pending)
      case _ => RunPlan([Step(blocks[0].id, Failed(WpsAdapter.ErrorMessage(outcomes[0])))], false)
  }

  /**
   * The run visits the blocks in order and stops at the first failure:
   * the `n` updates are for the first `n` blocks; each is the block's
   * returned result, except a failure, which is the last update; after
   * the updates the run is either waiting on the next block, or done
   * because it ran them all or the last one failed.
   */
  lemma {:induction false} RunStopsAtFirstFailure(blocks: seq<CodeBlock>, outcomes: seq<WpsAdapter.ExecOutcome>)
    requires |outcomes| == |blocks|
    ensures var p := RunOrder(blocks, outcomes);
      var n := |p.steps|;
      && n <= |blocks|
      && (forall j :: 0 <= j < n ==> p.steps[j].blockId == blocks[j].id)
      && (forall j :: 0 <= j < n && outcomes[j].Returned? ==> p.steps[j].patch == Ran(outcomes[j].result, outcomes[j].diff))
      && (forall j :: 0 <= j < n && !outcomes[j].Returned? ==>
            j == n - 1 && Fails(outcomes[j]) && p.steps[j].patch == Failed(WpsAdapter.ErrorMessage(outcomes[j])))
      && (p.pending ==> n < |blocks| && outcomes[n].StillPolling?)
      && (!p.pending && n < |blocks| ==> n > 0 && Fails(outcomes[n - 1]))
    decreases |blocks|
  {
    if blocks != [] && outcomes[0].Returned? {
      RunStopsAtFirstFailure(blocks[1..], outcomes[1..]);
    }
  }

  /** One turn of the loop, seen from block `i` on. */
  lemma {:induction false} RunOrderStep(blocks: seq<CodeBlock>, outcomes: seq<WpsAdapter.ExecOutcome>, i: nat)
    requires |outcomes| == |blocks| && i < |blocks|
    ensures var here := RunOrder(blocks[i..], outcomes[i..]);
      var o := outcomes[i];
      && (o.StillPolling? ==> here == RunPlan([], true))
      && (o.Returned? ==>
            var rest := RunOrder(blocks[i + 1..], outcomes[i + 1..]);
            here == RunPlan([Step(blocks[i].id, Ran(o.result, o.diff))] + rest.steps, rest.pending))
      && (Fails(o) ==> here == RunPlan([Step(blocks[i].id, Failed(WpsAdapter.ErrorMessage(o)))], false))
  {
    assert blocks[i..][1..] == blocks[i + 1..] && outcomes[i..][1..] == outcomes[i + 1..];
  }

  /**
   * The loop itself: each settled block's update is applied to `msgs` in
   * turn; `holding` says the loop waits on a block that has not settled.
   */
  method RunSteps(msgs: seq<ChatMessage>, msgId: string, blocks: seq<CodeBlock>, outcomes: seq<WpsAdapter.ExecOutcome>)
    returns (patched: seq<ChatMessage>, holding: bool)
    requires |outcomes| == |blocks|
    ensures patched == ApplySteps(msgs, msgId, RunOrder(blocks, outcomes).steps)
    ensures holding == RunOrder(blocks, outcomes).pending
  {
    patched, holding := msgs, false;
    var i := 0;
    ghost var done: seq<Step> := [];
    assert blocks[0..] == blocks && outcomes[0..] == outcomes;
    while i < |blocks|
      invariant 0 <= i <= |blocks|
      invariant RunOrder(blocks, outcomes).steps == done + RunOrder(blocks[i..], outcomes[i..]).steps
      invariant RunOrder(blocks, outcomes).pending == RunOrder(blocks[i..], outcomes[i..]).pending
      invariant patched == ApplySteps(msgs, msgId, done)
    {
      var o := outcomes[i];
      if o.StillPolling? {
        RunHolds(blocks, outcomes, i, done);
        holding := true;
        return;
      }
      var step := if o.Returned? then Step(blocks[i].id, Ran(o.result, o.diff))
                  else Step(blocks[i].id, Failed(WpsAdapter.ErrorMessage(o)));
      RunAdvances(blocks, outcomes, i, done);
      patched := PatchMessages(patched, msgId, step.blockId, step.patch);
      ApplyStepsSnoc(msgs, msgId, done, step);
      done := done + [step];
      i := i + 1;
      if !o.Returned? {
        return;
      }
    }
    RunEnds(blocks, outcomes, done);
  }

  /** Where the run still waits on block `i`, the steps so far are all of them and the run is pending. */
  lemma {:induction false} RunHolds(blocks: seq<CodeBlock>, outcomes: seq<WpsAdapter.ExecOutcome>, i: nat, done: seq<Step>)
    requires |outcomes| == |blocks| && i < |blocks| && outcomes[i].StillPolling?
    requires RunOrder(blocks, outcomes).steps == done + RunOrder(blocks[i..], outcomes[i..]).steps
    requires RunOrder(blocks, outcomes).pending == RunOrder(blocks[i..], outcomes[i..]).pending
    ensures RunOrder(blocks, outcomes).steps == done && RunOrder(blocks, outcomes).pending
  {
    RunOrderStep(blocks, outcomes, i);
    assert done + [] == done;
  }

  /**
   * A settled block `i` adds its update after the ones so far: a returned
   * run leaves the rest of the run to come, a failure ends it there.
   */
  lemma {:induction false} RunAdvances(blocks: seq<CodeBlock>, outcomes: seq<WpsAdapter.ExecOutcome>, i: nat, done: seq<Step>)
    requires |outcomes| == |blocks| && i < |blocks| && !outcomes[i].StillPolling?
    requires RunOrder(blocks, outcomes).steps == done + RunOrder(blocks[i..], outcomes[i..]).steps
    requires RunOrder(blocks, outcomes).pending == RunOrder(blocks[i..], outcomes[i..]).pending
    ensures var o := outcomes[i];
      var step := if o.Returned? then Step(blocks[i].id, Ran(o.result, o.diff))
                  else Step(blocks[i].id, Failed(WpsAdapter.ErrorMessage(o)));
      if o.Returned? then
        && RunOrder(blocks, outcomes).steps == done + [step] + RunOrder(blocks[i + 1..], outcomes[i + 1..]).steps
        && RunOrder(blocks, outcomes).pending == RunOrder(blocks[i + 1..], outcomes[i + 1..]).pending
      else RunOrder(blocks, outcomes).steps == done + [step] && !RunOrder(blocks, outcomes).pending
  {
    RunOrderStep(blocks, outcomes, i);
    var o := outcomes[i];
    if o.Returned? {
      var step := Step(blocks[i].id, Ran(o.result, o.diff));
      var rest := RunOrder(blocks[i + 1..], outcomes[i + 1..]).steps;
      assert done + ([step] + rest) == done + [step] + rest;
    }
  }

  /** A run past the last block is over, with every update issued. */
  lemma {:induction false} RunEnds(blocks: seq<CodeBlock>, outcomes: seq<WpsAdapter.ExecOutcome>, done: seq<Step>)
    requires |outcomes| == |blocks|
    requires RunOrder(blocks, outcomes).steps == done + RunOrder(blocks[|blocks|..], outcomes[|blocks|..]).steps
    requires RunOrder(blocks, outcomes).pending == RunOrder(blocks[|blocks|..], outcomes[|blocks|..]).pending
    ensures RunOrder(blocks, outcomes).steps == done && !RunOrder(blocks, outcomes).pending
  {
    var rest := RunOrder(blocks[|blocks|..], outcomes[|blocks|..]);
    assert blocks[|blocks|..] == [];
    assert rest == RunPlan([], false);
    assert done + [] == done;
  }

  lemma ApplyStepsSnoc(msgs: seq<ChatMessage>, msgId: string, steps: seq<Step>, step: Step)
    ensures ApplySteps(msgs, msgId, steps + [step]) == PatchMessages(ApplySteps(msgs, msgId, steps), msgId, step.blockId, step.patch)
  {
    assert (steps + [step])[..|steps|] == steps;
  }

  /** The messages after the run's updates, issued in order. */
  function ApplySteps(msgs: seq<ChatMessage>, msgId: string, steps: seq<Step>): (r: seq<ChatMessage>)
    ensures |r| == |msgs|
    ensures forall k :: 0 <= k < |msgs| ==> (r[k].codeBlocks.Some? <==> msgs[k].codeBlocks.Some?)
    ensures forall k :: 0 <= k < |msgs| && msgs[k].codeBlocks.Some? ==> |r[k].codeBlocks.value| == |msgs[k].codeBlocks.value|
    decreases |steps|
  {
    if steps == [] then msgs
    else
      var last := steps[|steps| - 1];
      PatchMessages(ApplySteps(msgs, msgId, steps[..|steps| - 1]), msgId, last.blockId, last.patch)
  }

  /** A block after the run's updates. */
  function BlockAfter(b: CodeBlock, steps: seq<Step>): CodeBlock
    decreases |steps|
  {
    if steps == [] then b
    else
      var last := steps[|steps| - 1];
      var before := BlockAfter(b, steps[..|steps| - 1]);
      if before.id == last.blockId then ApplyPatch(before, last.patch) else before
  }

  /**
   * The run changes only the message it runs for, and in it only the
   * blocks; each block ends as its updates leave it.
   */
  lemma {:induction false} ApplyStepsPerBlock(msgs: seq<ChatMessage>, msgId: string, steps: seq<Step>)
    ensures var r := ApplySteps(msgs, msgId, steps);
      && |r| == |msgs|
      && (forall k :: 0 <= k < |msgs| && msgs[k].id != msgId ==> r[k] == msgs[k])
      && (forall k :: 0 <= k < |msgs| ==> r[k].(codeBlocks := msgs[k].codeBlocks) == msgs[k])
      && (forall k :: 0 <= k < |msgs| ==> (r[k].codeBlocks.Some? <==> msgs[k].codeBlocks.Some?))
      && (forall k :: 0 <= k < |msgs| && msgs[k].codeBlocks.Some? ==> |r[k].codeBlocks.value| == |msgs[k].codeBlocks.value|)
      && (forall k, i :: 0 <= k < |msgs| && msgs[k].id == msgId && msgs[k].codeBlocks.Some? && 0 <= i < |msgs[k].codeBlocks.value| ==>
            r[k].codeBlocks.value[i] == BlockAfter(msgs[k].codeBlocks.value[i], steps))
    decreases |steps|
  {
    if steps != [] {
      ApplyStepsPerBlock(msgs, msgId, steps[..|steps| - 1]);
    }
  }

  /** The ids of the updated blocks. */
  function StepIds(steps: seq<Step>): seq<string> {
    seq(|steps|, j requires 0 <= j < |steps| => steps[j].blockId)
  }

  predicate Distinct(ids: seq<string>) {
    forall i, j :: 0 <= i < j < |ids| ==> ids[i] != ids[j]
  }

  /**
   * With one update per block id, a block ends as its own update leaves
   * it, and a block without an update is untouched.
   */
  lemma {:induction false} BlockAfterDistinct(b: CodeBlock, steps: seq<Step>)
    requires Distinct(StepIds(steps))
    ensures forall j :: 0 <= j < |steps| && steps[j].blockId == b.id ==> BlockAfter(b, steps) == ApplyPatch(b, steps[j].patch)
    ensures (forall j :: 0 <= j < |steps| ==> steps[j].blockId != b.id) ==> BlockAfter(b, steps) == b
    decreases |steps|
  {
    if steps != [] {
      var init := steps[..|steps| - 1];
      assert StepIds(init) == StepIds(steps)[..|steps| - 1];
      BlockAfterDistinct(b, init);
      var last := steps[|steps| - 1];
      if last.blockId == b.id {
        assert forall j :: 0 <= j < |init| ==> init[j].blockId != b.id by {
          forall j | 0 <= j < |init| ensures init[j].blockId != b.id {
            assert StepIds(steps)[j] != StepIds(steps)[|steps| - 1];
          }
        }
      }
    }
  }

  /**
   * The fate of each block of the message being run, when block ids are
   * distinct: blocks before the first failure carry their result, the
   * failing one carries the error message, and the blocks after it, or
   * not yet reached, are left as they were.
   */
  lemma AgentRunFate(msgs: seq<ChatMessage>, msgId: string, blocks: seq<CodeBlock>,
                     outcomes: seq<WpsAdapter.ExecOutcome>, k: nat, i: nat, j: nat)
    requires |outcomes| == |blocks| && Distinct(BlockIds(blocks))
    requires k < |msgs| && msgs[k].id == msgId && msgs[k].codeBlocks.Some?
    requires i < |msgs[k].codeBlocks.value| && j < |blocks| && blocks[j].id == msgs[k].codeBlocks.value[i].id
    ensures var p := RunOrder(blocks, outcomes);
      var b := msgs[k].codeBlocks.value[i];
      var after := ApplySteps(msgs, msgId, p.steps)[k].codeBlocks.value[i];
      && (j < |p.steps| && outcomes[j].Returned? ==>
            after == b.(executed := true, result := Some(outcomes[j].result), diff := outcomes[j].diff))
      && (j < |p.steps| && Fails(outcomes[j]) ==>
            after == b.(executed := true, error := Some(WpsAdapter.ErrorMessage(outcomes[j]))))
      && (j >= |p.steps| ==> after == b)
      && (j < |p.steps| ==> outcomes[j].Returned? || Fails(outcomes[j]))
  {
    var p := RunOrder(blocks, outcomes);
    RunStopsAtFirstFailure(blocks, outcomes);
    ApplyStepsPerBlock(msgs, msgId, p.steps);
    var b := msgs[k].codeBlocks.value[i];
    assert Distinct(StepIds(p.steps)) by {
      forall x, y | 0 <= x < y < |p.steps| ensures StepIds(p.steps)[x] != StepIds(p.steps)[y] {
        assert BlockIds(blocks)[x] != BlockIds(blocks)[y];
      }
    }
    BlockAfterDistinct(b, p.steps);
    if j >= |p.steps| {
      forall x | 0 <= x < |p.steps| ensures p.steps[x].blockId != b.id {
        assert BlockIds(blocks)[x] != BlockIds(blocks)[j];
      }
    }
  }

  function BlockIds(blocks: seq<CodeBlock>): seq<string> {
    seq(|blocks|, j requires 0 <= j < |blocks| => blocks[j].id)
  }

  /** `codeBlocks.filter(b => !b.executed)`. */
  function Unexecuted(cbs: seq<CodeBlock>): seq<CodeBlock>
    decreases |cbs|
  {
    if cbs == [] then []
    else Unexecuted(cbs[..|cbs| - 1]) + (if cbs[|cbs| - 1].executed then [] else [cbs[|cbs| - 1]])
  }

  /** The blocks still to run are exactly the unexecuted ones, in their order. */
  lemma {:induction false} UnexecutedExact(cbs: seq<CodeBlock>)
    ensures forall b :: b in Unexecuted(cbs) <==> b in cbs && !b.executed
    ensures IsSubsequence(Unexecuted(cbs), cbs)
    decreases |cbs|
  {
    if cbs != [] {
      var init, last := cbs[..|cbs| - 1], cbs[|cbs| - 1];
      UnexecutedExact(init);
      assert cbs == init + [last];
      if last.executed {
        assert Unexecuted(cbs) == Unexecuted(init) + [];
        assert Unexecuted(init) + [] == Unexecuted(init);
        SubsequenceExtend(Unexecuted(init), init, last);
      } else {
        var u := Unexecuted(init);
        assert (u + [last])[..|u|] == u;
      }
    }
  }

  /** `messagesRef.current.find(m => m.id === msgId)`, as an index. */
  function FindMessage(msgs: seq<ChatMessage>, msgId: string): (r: Option<nat>)
    ensures r.Some? ==>
      && r.value < |msgs| && msgs[r.value].id == msgId
      && forall j :: 0 <= j < r.value ==> msgs[j].id != msgId
    ensures r.None? ==> forall j :: 0 <= j < |msgs| ==> msgs[j].id != msgId
  {
    if msgs == [] then None
    else if msgs[0].id == msgId then Some(0)
    else match FindMessage(msgs[1..], msgId)
      case None => None
      case Some(k) => Some(k + 1)
  }

  /** The blocks `handleApplyCode` runs: the unexecuted blocks of the first message with that id. */
  function RunnableBlocks(msgs: seq<ChatMessage>, msgId: string): seq<CodeBlock> {
    match FindMessage(msgs, msgId)
    case None => []
    case Some(k) => if msgs[k].codeBlocks.Some? then Unexecuted(msgs[k].codeBlocks.value) else []
  }

  // ---------------------------------------------------------------------------
  // The panel's state

  /** The interaction mode the message was sent in. */
  datatype Mode = Agent | Plan | Ask

  const ErrorPrefix := "**错误**："
  const ProxyHelp := ErrorPrefix + "无法连接代理服务器。\n\n请在终端运行：\n```\ncd ~/需求讨论/claude-wps-word-plugin\nnode proxy-server.js\n```"

  /** `isProxyError`: the message names fetching, a failure, or the proxy. */
  predicate ProxyError(message: string) {
    Contains(message, "fetch") || Contains(message, "Failed") || Contains(message, "代理")
  }

  /** The assistant bubble's text after an error. */
  function ErrorContent(message: string): string {
    if ProxyError(message) then ProxyHelp else ErrorPrefix + message
  }

  /** An error bubble always starts with the bold error mark; other errors show their message. */
  lemma ErrorContentShape(message: string)
    ensures StartsWith(ErrorContent(message), ErrorPrefix)
    ensures !ProxyError(message) ==> ErrorContent(message)[|ErrorPrefix|..] == message
    ensures ProxyError(message) ==> ErrorContent(message) == ProxyHelp
  {
    var c := ErrorContent(message);
    assert c[..|ErrorPrefix|] == ErrorPrefix;
  }

  /** One change to the assistant message being answered. */
  datatype Change =
    | Content(content: string)
    | AskDone(content: string, suggest: bool)
    | AgentDone(content: string, blocks: seq<CodeBlock>)
    | ErrorDone(content: string)

  function ApplyChange(m: ChatMessage, c: Change): ChatMessage {
    match c
    case Content(t) => m.(content := t)
    case AskDone(t, s) => m.(content := t, isStreaming := false, codeBlocks := Some([]), suggestAgentSwitch := s)
    case AgentDone(t, bs) => m.(content := t, isStreaming := false, codeBlocks := Some(bs))
    case ErrorDone(t) => m.(content := t, isStreaming := false, isError := true)
  }

  /** `prev.map(m => m.id === id ? {...m, ...change} : m)`. */
  function ChangeMessage(msgs: seq<ChatMessage>, id: string, c: Change): seq<ChatMessage> {
    seq(|msgs|, i requires 0 <= i < |msgs| => if msgs[i].id == id then ApplyChange(msgs[i], c) else msgs[i])
  }

  function UserMessage(id: string, content: string, now: int): ChatMessage {
    ChatMessage(id, User, content, now, None, false, false, false)
  }

  function AssistantDraft(id: string, now: int): ChatMessage {
    ChatMessage(id, Assistant, "", now, None, true, false, false)
  }

  /** The extracted blocks with their generated ids, not yet executed. */
  function NewBlocks(ids: seq<string>, snippets: seq<ClaudeClient.Snippet>): (r: seq<CodeBlock>)
    requires |ids| == |snippets|
    ensures |r| == |ids|
    ensures forall i :: 0 <= i < |r| ==> r[i].id == ids[i] && !r[i].executed
  {
    seq(|ids|, i requires 0 <= i < |ids| =>
      CodeBlock(ids[i], snippets[i].language, snippets[i].code, false, None, None, None))
  }

  /**
   * The chat panel's React state and refs: the message list, the input
   * box, the loading flag, the attachments and pinned selection waiting
   * to be sent, the last sent text, the reply text streamed so far, the
   * message whose blocks are running, and the missing-proxy banner.
   */
  class ChatState {
    var messages: seq<ChatMessage>
    var input: string
    var loading: bool
    var attached: seq<ClaudeClient.AttachmentFile>
    var pinned: Option<string>
    var lastSentInput: string
    var streamText: string
    var tokenSeen: bool
    var applyingMsgId: Option<string>
    var proxyMissing: bool

    constructor(initial: seq<ChatMessage>)
      ensures messages == initial && input == "" && !loading && attached == [] && pinned.None?
      ensures lastSentInput == "" && streamText == "" && !tokenSeen && applyingMsgId.None? && !proxyMissing
    {
      messages := initial;
      input := "";
      loading := false;
      attached := [];
      pinned := None;
      lastSentInput := "";
      streamText := "";
      tokenSeen := false;
      applyingMsgId := None;
      proxyMissing := false;
    }

    /** Typing into the input box. */
    method Type(text: string)
      modifies this
      ensures input == text
      ensures messages == old(messages) && loading == old(loading) && lastSentInput == old(lastSentInput)
      ensures attached == old(attached) && pinned == old(pinned)
      ensures streamText == old(streamText) && tokenSeen == old(tokenSeen)
      ensures applyingMsgId == old(applyingMsgId) && proxyMissing == old(proxyMissing)
    {
      input := text;
    }

    /**
     * `handleSend`: the trimmed text is sent unless it is empty or a reply
     * is loading; then the input, attachments and pinned selection are
     * cleared, and the user's bubble and an empty streaming reply are
     * appended.
     */
    method Send(text: Option<string>, userId: string, assistantId: string, now: int) returns (sent: Option<string>)
      modifies this
      ensures var u := SendText(text, old(input));
        (u == "" || old(loading)) ==> sent.None? && unchanged(this)
      ensures var u := SendText(text, old(input));
        !(u == "" || old(loading)) ==>
          && sent == Some(u)
          && messages == old(messages)
               + [UserMessage(userId, DisplayContent(u, old(pinned), AttachmentNames(old(attached))), now), AssistantDraft(assistantId, now)]
          && input == "" && attached == [] && pinned.None? && loading
          && lastSentInput == u && streamText == "" && !tokenSeen
          && applyingMsgId == old(applyingMsgId) && proxyMissing == old(proxyMissing)
    {
      var u := SendText(text, input);
      if u == "" || loading {
        return None;
      }
      var shown := DisplayContent(u, pinned, AttachmentNames(attached));
      lastSentInput := u;
      input := "";
      attached := [];
      pinned := None;
      messages := messages + [UserMessage(userId, shown, now), AssistantDraft(assistantId, now)];
      loading := true;
      streamText := "";
      tokenSeen := false;
      sent := Some(u);
    }

    /** `onToken`: the reply shows all the text streamed so far; the first token hides the banner. */
    method Token(assistantId: string, token: string)
      modifies this
      ensures streamText == old(streamText) + token
      ensures messages == ChangeMessage(old(messages), assistantId, Content(streamText))
      ensures tokenSeen && proxyMissing == (old(tokenSeen) && old(proxyMissing))
      ensures input == old(input) && loading == old(loading) && lastSentInput == old(lastSentInput)
      ensures applyingMsgId == old(applyingMsgId)
      ensures attached == old(attached) && pinned == old(pinned)
    {
      streamText := streamText + token;
      messages := ChangeMessage(messages, assistantId, Content(streamText));
      if !tokenSeen {
        tokenSeen := true;
        proxyMissing := false;
      }
    }

    /**
     * `onComplete`: in ask mode the code is masked and no blocks are kept;
     * otherwise the blocks are extracted (with the generated `ids`) and, in
     * agent mode, run in order until one fails.
     */
    method Complete(mode: Mode, assistantId: string, text: string, ids: seq<string>, outcomes: seq<WpsAdapter.ExecOutcome>)
      requires |ids| == |ClaudeClient.Scan(text, 0)| && |outcomes| == |ids|
      modifies this
      ensures !loading
      ensures mode == Ask ==>
        && messages == ChangeMessage(old(messages), assistantId, AskDone(Strip(text), SuggestSwitch(text)))
        && applyingMsgId == old(applyingMsgId)
      ensures mode != Ask ==>
        var blocks := NewBlocks(ids, ClaudeClient.Snippets(ClaudeClient.Scan(text, 0)));
        var shown := ChangeMessage(old(messages), assistantId, AgentDone(text, blocks));
        if mode == Agent && blocks != [] then
          && messages == ApplySteps(shown, assistantId, RunOrder(blocks, outcomes).steps)
          && applyingMsgId == (if RunOrder(blocks, outcomes).pending then Some(assistantId) else None)
        else
          messages == shown && applyingMsgId == old(applyingMsgId)
      ensures input == old(input) && lastSentInput == old(lastSentInput) && proxyMissing == old(proxyMissing)
      ensures attached == old(attached) && pinned == old(pinned)
      ensures streamText == old(streamText) && tokenSeen == old(tokenSeen)
    {
      if mode == Ask {
        messages := ChangeMessage(messages, assistantId, AskDone(Strip(text), SuggestSwitch(text)));
        loading := false;
        return;
      }
      var snippets := ClaudeClient.ExtractCodeBlocks(text);
      var blocks := NewBlocks(ids, snippets);
      messages := ChangeMessage(messages, assistantId, AgentDone(text, blocks));
      loading := false;
      if mode == Agent && blocks != [] {
        RunBlocks(assistantId, blocks, outcomes);
      }
    }

    /**
     * The run loop: `applyingMsgId` is set while it runs and cleared when
     * it ends; each settled block is patched in turn, and a failure ends
     * the loop.
     */
    method RunBlocks(msgId: string, blocks: seq<CodeBlock>, outcomes: seq<WpsAdapter.ExecOutcome>)
      requires |outcomes| == |blocks|
      modifies this
      ensures messages == ApplySteps(old(messages), msgId, RunOrder(blocks, outcomes).steps)
      ensures applyingMsgId == (if RunOrder(blocks, outcomes).pending then Some(msgId) else None)
      ensures input == old(input) && loading == old(loading) && lastSentInput == old(lastSentInput)
      ensures proxyMissing == old(proxyMissing)
      ensures attached == old(attached) && pinned == old(pinned)
      ensures streamText == old(streamText) && tokenSeen == old(tokenSeen)
    {
      applyingMsgId := Some(msgId);
      var patched, holding := RunSteps(messages, msgId, blocks, outcomes);
      messages := patched;
      if !holding {
        applyingMsgId := None;
      }
    }

    /** `handleApplyCode`: runs the message's unexecuted blocks, if any. */
    method ApplyCode(msgId: string, outcomes: seq<WpsAdapter.ExecOutcome>)
      requires |outcomes| == |RunnableBlocks(messages, msgId)|
      modifies this
      ensures var blocks := RunnableBlocks(old(messages), msgId);
        if blocks == [] then unchanged(this)
        else
          && messages == ApplySteps(old(messages), msgId, RunOrder(blocks, outcomes).steps)
          && applyingMsgId == (if RunOrder(blocks, outcomes).pending then Some(msgId) else None)
      ensures input == old(input) && loading == old(loading)
      ensures lastSentInput == old(lastSentInput) && proxyMissing == old(proxyMissing)
      ensures attached == old(attached) && pinned == old(pinned)
      ensures streamText == old(streamText) && tokenSeen == old(tokenSeen)
    {
      var blocks := RunnableBlocks(messages, msgId);
      if blocks == [] {
        return;
      }
      RunBlocks(msgId, blocks, outcomes);
    }

    /** `handleCodeExecuted`: a block's own run button reported. */
    method CodeExecuted(msgId: string, blockId: string, result: string, error: Option<string>, diff: Option<WpsAddon.DiffResult>)
      modifies this
      ensures messages == PatchMessages(old(messages), msgId, blockId, Reported(result, error, diff))
      ensures input == old(input) && loading == old(loading) && applyingMsgId == old(applyingMsgId)
      ensures lastSentInput == old(lastSentInput) && proxyMissing == old(proxyMissing)
      ensures attached == old(attached) && pinned == old(pinned)
      ensures streamText == old(streamText) && tokenSeen == old(tokenSeen)
    {
      messages := PatchMessages(messages, msgId, blockId, Reported(result, error, diff));
    }

    /** `onError`: the reply becomes an error bubble and the missing-proxy banner shows. */
    method Fail(assistantId: string, message: string)
      modifies this
      ensures messages == ChangeMessage(old(messages), assistantId, ErrorDone(ErrorContent(message)))
      ensures proxyMissing && !loading
      ensures input == old(input) && lastSentInput == old(lastSentInput) && applyingMsgId == old(applyingMsgId)
      ensures attached == old(attached) && pinned == old(pinned)
      ensures streamText == old(streamText) && tokenSeen == old(tokenSeen)
    {
      messages := ChangeMessage(messages, assistantId, ErrorDone(ErrorContent(message)));
      proxyMissing := true;
      loading := false;
    }

    /** After `sendMessage` settled: the sent text is forgotten. */
    method Settle()
      modifies this
      ensures lastSentInput == ""
      ensures messages == old(messages) && input == old(input) && loading == old(loading)
      ensures applyingMsgId == old(applyingMsgId) && proxyMissing == old(proxyMissing)
      ensures attached == old(attached) && pinned == old(pinned)
      ensures streamText == old(streamText) && tokenSeen == old(tokenSeen)
    {
      lastSentInput := "";
    }

    /**
     * `handleStop`: the streaming reply and its question are dropped and
     * the sent text goes back into the input box.
     */
    method Stop()
      modifies this
      ensures messages == DropStreaming(old(messages))
      ensures input == old(lastSentInput) && lastSentInput == "" && !loading
      ensures applyingMsgId == old(applyingMsgId) && proxyMissing == old(proxyMissing)
      ensures attached == old(attached) && pinned == old(pinned)
      ensures streamText == old(streamText) && tokenSeen == old(tokenSeen)
    {
      var saved := lastSentInput;
      lastSentInput := "";
      messages := DropStreaming(messages);
      input := saved;
      loading := false;
    }

    /** Pasting or inserting text over the selection `[start, end)`; empty text changes nothing. */
    method Insert(start: nat, end: nat, text: string) returns (caret: Option<nat>)
      modifies this
      ensures text == "" ==> caret.None? && input == old(input)
      ensures text != "" ==> input == Splice(old(input), start, end, text) && caret == Some(Caret(start, text))
      ensures messages == old(messages) && loading == old(loading)
      ensures lastSentInput == old(lastSentInput) && applyingMsgId == old(applyingMsgId) && proxyMissing == old(proxyMissing)
      ensures attached == old(attached) && pinned == old(pinned)
      ensures streamText == old(streamText) && tokenSeen == old(tokenSeen)
    {
      if text == "" {
        return None;
      }
      input := Splice(input, start, end, text);
      caret := Some(Caret(start, text));
    }
  }

  /** The names of the attached files, in order. */
  function AttachmentNames(files: seq<ClaudeClient.AttachmentFile>): seq<string> {
    seq(|files|, i requires 0 <= i < |files| => files[i].name)
  }

  /**
   * Stopping right after sending, before any token, undoes the send: the
   * two new bubbles go away and the sent (trimmed) text is back in the
   * input box.
   */
  method StopUndoesSend(initial: seq<ChatMessage>, draft: string, userId: string, assistantId: string, now: int)
      returns (messages: seq<ChatMessage>, input: string)
    requires forall j :: 0 <= j < |initial| ==> !initial[j].isStreaming
    requires Trim(draft) != ""
    ensures messages == initial && input == Trim(draft)
  {
    var chat := new ChatState(initial);
    chat.Type(draft);
    var sent := chat.Send(None, userId, assistantId, now);
    var all := chat.messages;
    assert FirstStreaming(all) == Some(|initial| + 1) by {
      assert all[|initial|].isStreaming == false && all[|initial| + 1].isStreaming;
      assert forall j :: 0 <= j < |initial| ==> all[j] == initial[j];
      FirstStreamingAt(all, |initial| + 1);
    }
    DropStreamingShape(all);
    assert all[..|initial|] == initial;
    chat.Stop();
    messages, input := chat.messages, chat.input;
  }

  lemma {:induction false} FirstStreamingAt(msgs: seq<ChatMessage>, s: nat)
    requires s < |msgs| && msgs[s].isStreaming
    requires forall j :: 0 <= j < s ==> !msgs[j].isStreaming
    ensures FirstStreaming(msgs) == Some(s)
  {
    var r := FirstStreaming(msgs);
    assert r.Some?;
    assert !(r.value < s);
  }
}
