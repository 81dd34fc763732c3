/**
 * The proxy's relay from the CLI's stdout to the browser's event stream:
 * stdout arrives in chunks; complete lines are parsed one by one and turned
 * into `token` and `thinking` frames; the process exit or a spawn failure
 * ends the response with a `done` or an `error` frame; a client disconnect
 * kills a still running process.
 *
 * `JSON.parse` and the field reads on its result are the parameter `parse`,
 * which classifies one line.
 */
module StreamRelay {
  import opened Wrappers
  import opened Strings

  /** One stdout line as the relay understands it. */
  datatype CliLine =
    | Unparsable
      /** A `stream_event` whose event is a `content_block_delta`, with its delta's type, text and thinking. */
    | ContentDelta(deltaType: Option<string>, text: Option<string>, thinking: Option<string>)
      /** A `result` event with its `result` field. */
    | ResultEvent(result: Option<string>)
      /** Any other parsed line. */
    | OtherEvent

  /** A frame written to the browser (`data: <json>` and a blank line). */
  datatype Frame =
    | ModeFrame(mode: string)
    | TokenFrame(text: string)
    | ThinkingFrame(text: string)
    | DoneFrame(fullText: string)
    | ErrorFrame(message: string)

  /** What the line handler accumulates: the answer text, the thinking text and the frames written. */
  datatype RelayOutput = RelayOutput(resultText: string, thinkingText: string, frames: seq<Frame>)

  /** The handling of one complete line. */
  function Step(out: RelayOutput, line: string, parse: string -> CliLine): RelayOutput {
    if Trim(line) == "" then out
    else match parse(line)
      case ContentDelta(kind, text, thinking) =>
        if kind == Some("text_delta") && Truthy(text) then
          out.(resultText := out.resultText + text.value, frames := out.frames + [TokenFrame(text.value)])
        else if kind == Some("thinking_delta") && Truthy(thinking) then
          out.(thinkingText := out.thinkingText + thinking.value, frames := out.frames + [ThinkingFrame(thinking.value)])
        else out
      case ResultEvent(result) =>
        if Truthy(result) then out.(resultText := result.value) else out
      case _ => out
  }

  /** The handling of a run of complete lines, in order. */
  function Process(out: RelayOutput, lines: seq<string>, parse: string -> CliLine): RelayOutput {
    if lines == [] then out
    else Step(Process(out, lines[..|lines| - 1], parse), lines[|lines| - 1], parse)
  }

  /** The complete lines of the buffered text: every piece but the last. */
  function CompleteLines(text: string): seq<string> {
    var pieces := Split(text, '\n');
    pieces[..|pieces| - 1]
  }

  /** The carried-over partial line: the last piece. */
  function PartialLine(text: string): (rest: string)
    ensures '\n' !in rest
  {
    var pieces := Split(text, '\n');
    pieces[|pieces| - 1]
  }

  /**
   * Nothing is lost or reordered by the line buffer: the complete lines,
   * each with its line break, followed by the carried-over rest, are exactly
   * the buffered text.
   */
  lemma LineBufferRoundTrip(text: string)
    ensures Lines(CompleteLines(text), '\n') + PartialLine(text) == text
    ensures forall k :: 0 <= k < |CompleteLines(text)| ==> '\n' !in CompleteLines(text)[k]
  {
    JoinSplit(text, '\n');
    JoinAsLines(Split(text, '\n'), '\n');
  }

  /** A blank line changes nothing; a text delta appends its text and emits one token frame. */
  lemma StepCases(out: RelayOutput, line: string, parse: string -> CliLine)
    ensures Trim(line) == "" ==> Step(out, line, parse) == out
    ensures Trim(line) != "" && parse(line).ContentDelta? && parse(line).deltaType == Some("text_delta")
            && Truthy(parse(line).text) ==>
      Step(out, line, parse) == RelayOutput(out.resultText + parse(line).text.value, out.thinkingText,
                                            out.frames + [TokenFrame(parse(line).text.value)])
    ensures Trim(line) != "" && parse(line).ResultEvent? && Truthy(parse(line).result) ==>
      Step(out, line, parse) == out.(resultText := parse(line).result.value)
    ensures parse(line).Unparsable? || parse(line).OtherEvent? ==> Step(out, line, parse) == out
  {
  }

  /** The frames written so far are never changed, only added to. */
  lemma {:induction false} ProcessExtendsFrames(out: RelayOutput, lines: seq<string>, parse: string -> CliLine)
    ensures var r := Process(out, lines, parse);
      |out.frames| <= |r.frames| && r.frames[..|out.frames|] == out.frames
  {
    if lines != [] {
      ProcessExtendsFrames(out, lines[..|lines| - 1], parse);
      var mid := Process(out, lines[..|lines| - 1], parse);
      var r := Step(mid, lines[|lines| - 1], parse);
      assert r.frames[..|mid.frames|] == mid.frames;
      assert r.frames[..|out.frames|] == mid.frames[..|out.frames|];
    }
  }

  /** The concatenated texts of the token frames. */
  function TokenText(frames: seq<Frame>): string {
    if frames == [] then ""
    else TokenText(frames[..|frames| - 1]) + (if frames[|frames| - 1].TokenFrame? then frames[|frames| - 1].text else "")
  }

  /** No line of `lines` is a `result` event that would replace the answer text. */
  predicate NoResultReplacement(lines: seq<string>, parse: string -> CliLine) {
    forall k :: 0 <= k < |lines| ==> !(Trim(lines[k]) != "" && parse(lines[k]).ResultEvent? && Truthy(parse(lines[k]).result))
  }

  lemma {:induction false} TokenTextAppend(a: seq<Frame>, b: seq<Frame>)
    ensures TokenText(a + b) == TokenText(a) + TokenText(b)
    decreases |b|
  {
    if b == [] {
      assert a + b == a;
    } else {
      var init, last := b[..|b| - 1], b[|b| - 1];
      TokenTextAppend(a, init);
      assert (a + b)[..|a + b| - 1] == a + init;
      assert (a + b)[|a + b| - 1] == last;
      var t := if last.TokenFrame? then last.text else "";
      assert TokenText(a + b) == TokenText(a + init) + t;
      assert TokenText(b) == TokenText(init) + t;
      assert TokenText(a) + TokenText(init) + t == TokenText(a) + (TokenText(init) + t);
    }
  }

  /** `r` extends the frames of `out`, and the answer grew by the text of the added token frames. */
  predicate TracksTokens(out: RelayOutput, r: RelayOutput) {
    |out.frames| <= |r.frames| && r.frames[..|out.frames|] == out.frames
    && r.resultText == out.resultText + TokenText(r.frames[|out.frames|..])
  }

  /** The frames added over two stretches are those of the first followed by those of the second. */
  lemma TokensCompose(fa: seq<Frame>, fb: seq<Frame>, fc: seq<Frame>)
    requires |fa| <= |fb| <= |fc| && fb[..|fa|] == fa && fc[..|fb|] == fb
    ensures fc[..|fa|] == fa
    ensures TokenText(fc[|fa|..]) == TokenText(fb[|fa|..]) + TokenText(fc[|fb|..])
  {
    var x, y := fb[|fa|..], fc[|fb|..];
    assert fc[|fa|..] == x + y;
    TokenTextAppend(x, y);
  }

  lemma Regroup(a: string, b: string, c: string)
    ensures (a + b) + c == a + (b + c)
  { }

  /** Tracking composes over successive stretches of processing. */
  lemma TracksTokensTransitive(a: RelayOutput, b: RelayOutput, c: RelayOutput)
    requires TracksTokens(a, b) && TracksTokens(b, c)
    ensures TracksTokens(a, c)
  {
    TokensCompose(a.frames, b.frames, c.frames);
    Regroup(a.resultText, TokenText(b.frames[|a.frames|..]), TokenText(c.frames[|b.frames|..]));
  }

  /** A line that is not a replacing `result` event adds to the answer exactly the text of the token frame it sends. */
  lemma StepAddsTokens(out: RelayOutput, line: string, parse: string -> CliLine)
    requires !(Trim(line) != "" && parse(line).ResultEvent? && Truthy(parse(line).result))
    ensures TracksTokens(out, Step(out, line, parse))
  {
    var r := Step(out, line, parse);
    if r.frames == out.frames {
      assert r.frames[|out.frames|..] == [];
    } else {
      assert r.frames[|out.frames|..] == [r.frames[|r.frames| - 1]];
      assert TokenText([r.frames[|r.frames| - 1]]) == TokenText([]) + (if r.frames[|r.frames| - 1].TokenFrame? then r.frames[|r.frames| - 1].text else "");
    }
  }

  /**
   * Until a `result` event replaces it, the answer text grows by exactly the
   * token frames sent, in the order they were sent.
   */
  lemma {:induction false} AnswerIsTokens(out: RelayOutput, lines: seq<string>, parse: string -> CliLine)
    requires NoResultReplacement(lines, parse)
    ensures TracksTokens(out, Process(out, lines, parse))
  {
    if lines == [] {
      assert out.frames[|out.frames|..] == [];
    } else {
      var init := lines[..|lines| - 1];
      assert NoResultReplacement(init, parse) by {
        forall k | 0 <= k < |init| ensures !(Trim(init[k]) != "" && parse(init[k]).ResultEvent? && Truthy(parse(init[k]).result)) {
          assert init[k] == lines[k];
        }
      }
      AnswerIsTokens(out, init, parse);
      var mid := Process(out, init, parse);
      StepAddsTokens(mid, lines[|lines| - 1], parse);
      TracksTokensTransitive(out, mid, Step(mid, lines[|lines| - 1], parse));
    }
  }

  /** A possibly missing value as a template prints it. */
  function RenderedInt(v: Option<int>): string {
    if v.Some? then IntToString(v.value) else "null"
  }

  function RenderedString(v: Option<string>): string {
    if v.Some? then v.value else "null"
  }

  /** The frame written when the process exits (`code` is `None` when it ended by a signal). */
  function CloseFrame(resultText: string, code: Option<int>, signal: Option<string>): Frame {
    if code != Some(0) && resultText == "" then
      ErrorFrame("claude CLI 退出 (code=" + RenderedInt(code) + ", signal=" + RenderedString(signal)
                 + ")，请确认已登录：运行 claude 命令")
    else DoneFrame(Trim(resultText))
  }

  /** An exit reports an error exactly when the process failed without producing any answer text. */
  lemma CloseFrameCases(resultText: string, code: Option<int>, signal: Option<string>)
    ensures CloseFrame(resultText, code, signal).ErrorFrame? <==> code != Some(0) && resultText == ""
    ensures CloseFrame(resultText, code, signal).DoneFrame? ==>
      CloseFrame(resultText, code, signal).fullText == Trim(resultText)
  {
  }

  /** One `/chat` response's relay state. */
  class Relay {
    var lineBuf: string
    var output: RelayOutput
    var responseDone: bool
    var childKilled: bool

    /** The response opens with the mode frame. */
    constructor(mode: string)
      ensures lineBuf == "" && output == RelayOutput("", "", [ModeFrame(mode)])
      ensures !responseDone && !childKilled
    {
      lineBuf := "";
      output := RelayOutput("", "", [ModeFrame(mode)]);
      responseDone := false;
      childKilled := false;
    }

    /** A stdout chunk: split the buffered text into lines, keep the last piece, handle the others in order. */
    method OnData(chunk: string, parse: string -> CliLine)
      modifies this
      ensures lineBuf == PartialLine(old(lineBuf) + chunk)
      ensures output == Process(old(output), CompleteLines(old(lineBuf) + chunk), parse)
      ensures responseDone == old(responseDone) && childKilled == old(childKilled)
    {
      var text := lineBuf + chunk;
      var lines := Split(text, '\n');
      lineBuf := lines[|lines| - 1];
      var complete := lines[..|lines| - 1];
      var out := output;
      var k := 0;
      while k < |complete|
        invariant 0 <= k <= |complete|
        invariant out == Process(output, complete[..k], parse)
      {
        assert complete[..k + 1][..k] == complete[..k];
        var line := complete[k];
        if Trim(line) != "" {
          match parse(line)
          case ContentDelta(kind, t, th) =>
            if kind == Some("text_delta") && Truthy(t) {
              out := out.(resultText := out.resultText + t.value, frames := out.frames + [TokenFrame(t.value)]);
            } else if kind == Some("thinking_delta") && Truthy(th) {
              out := out.(thinkingText := out.thinkingText + th.value, frames := out.frames + [ThinkingFrame(th.value)]);
            }
          case ResultEvent(result) =>
            if Truthy(result) {
              out := out.(resultText := result.value);
            }
          case _ =>
        }
        k := k + 1;
      }
      assert complete[..|complete|] == complete;
      output := out;
    }

    /** The process exited: write the closing frame and mark the response done. */
    method OnClose(code: Option<int>, signal: Option<string>)
      modifies this
      ensures output == old(output).(frames := old(output).frames + [CloseFrame(old(output).resultText, code, signal)])
      ensures responseDone
      ensures lineBuf == old(lineBuf) && childKilled == old(childKilled)
    {
      output := output.(frames := output.frames + [CloseFrame(output.resultText, code, signal)]);
      responseDone := true;
    }

    /** The process could not be started: write an error frame and mark the response done. */
    method OnSpawnError(message: string)
      modifies this
      ensures output == old(output).(frames := old(output).frames + [ErrorFrame("无法启动 claude CLI: " + message)])
      ensures responseDone
      ensures lineBuf == old(lineBuf) && childKilled == old(childKilled)
    {
      output := output.(frames := output.frames + [ErrorFrame("无法启动 claude CLI: " + message)]);
      responseDone := true;
    }

    /** The browser went away: kill the process only while the response is still open and it is not yet killed. */
    method OnClientClose() returns (kill: bool)
      modifies this
      ensures kill <==> !old(responseDone) && !old(childKilled)
      ensures childKilled == (old(childKilled) || kill)
      ensures lineBuf == old(lineBuf) && output == old(output) && responseDone == old(responseDone)
    {
      kill := !responseDone && !childKilled;
      if kill {
        childKilled := true;
      }
    }
  }
}
