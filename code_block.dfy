/**
 * One code block card in an assistant message: its line count and
 * collapse rule, the expand/collapse state across streaming, the status
 * label, and the outcome of pressing "run".
 */
module CodeBlockCard {
  import opened Wrappers
  import opened Strings
  import opened UiTypes
  import WpsAddon
  import WpsAdapter

  const CollapseThreshold := 12

  /** `code.split("\n").length`. */
  function LineCount(code: string): nat {
    |Split(code, '\n')|
  }

  predicate ShouldCollapse(code: string) {
    LineCount(code) > CollapseThreshold
  }

  lemma {:induction false} CountAppend(a: string, b: string, c: char)
    ensures Count(a + b, c) == Count(a, c) + Count(b, c)
    decreases |a|
  {
    if a != [] {
      assert (a + b)[1..] == a[1..] + b;
      CountAppend(a[1..], b, c);
    } else {
      assert a + b == b;
    }
  }

  /**
   * The line count is one more than the number of newlines, so a block is
   * collapsible iff it has at least 12 newlines; and code that grows while
   * streaming never loses lines, so a collapsible block stays collapsible.
   */
  lemma LineCountGrows(code: string, more: string)
    ensures LineCount(code) == Count(code, '\n') + 1
    ensures ShouldCollapse(code) <==> Count(code, '\n') >= CollapseThreshold
    ensures LineCount(code) <= LineCount(code + more)
    ensures ShouldCollapse(code) ==> ShouldCollapse(code + more)
  {
    SplitLength(code, '\n');
    SplitLength(code + more, '\n');
    CountAppend(code, more, '\n');
  }

  /** The header's status: none before running, then failure or success. */
  function StatusLabel(block: CodeBlock): Option<string> {
    if !block.executed then None
    else if Truthy(block.error) then Some("执行失败")
    else Some("已执行")
  }

  predicate RunButtonShown(block: CodeBlock) {
    !block.executed
  }

  /**
   * A block that has not run shows no status and offers the run button; a
   * block that has run shows "执行失败" exactly when it carries an error
   * message, and offers no run button.
   */
  lemma StatusAndButton(block: CodeBlock)
    ensures StatusLabel(block).None? <==> RunButtonShown(block)
    ensures StatusLabel(block) == Some("执行失败") <==> block.executed && Truthy(block.error)
    ensures StatusLabel(block) == Some("已执行") <==> block.executed && !Truthy(block.error)
  {
  }

  /** The arguments of an `onExecuted(blockId, result, error, diff)` call. */
  datatype Executed = Executed(blockId: string, result: string, error: Option<string>, diff: Option<WpsAddon.DiffResult>)

  /** What the run button reports once `executeCode` settled; nothing while it is pending. */
  function RunReport(block: CodeBlock, outcome: WpsAdapter.ExecOutcome): Option<Executed> {
    match outcome
    case StillPolling => None
    case Returned(result, diff) => Some(Executed(block.id, result, None, diff))
    case _ => Some(Executed(block.id, "", Some(WpsAdapter.ErrorMessage(outcome)), None))
  }

  /**
   * A settled run always reports for this block: a success with the
   * returned result and diff and no error, a failure with an empty result,
   * the error's message and no diff.
   */
  lemma RunReportShape(block: CodeBlock, outcome: WpsAdapter.ExecOutcome)
    ensures var r := RunReport(block, outcome);
      && (r.None? <==> outcome.StillPolling?)
      && (r.Some? ==> r.value.blockId == block.id)
      && (r.Some? ==> (r.value.error.Some? <==> !outcome.Returned?))
      && (outcome.Returned? ==> r.value.result == outcome.result && r.value.diff == outcome.diff)
      && (outcome.TimedOut? ==> r.value.error == Some(WpsAdapter.TimeoutMessage) && r.value.result == "")
      && (outcome.Threw? ==> r.value.error == Some(outcome.message) && r.value.diff.None?)
  {
  }

  /** The card's React state: `expanded`, the `wasStreaming` ref and `running`. */
  class Card {
    var expanded: bool
    var wasStreaming: bool
    var running: bool

    constructor(code: string, isStreaming: bool)
      ensures expanded == (isStreaming || !ShouldCollapse(code))
      ensures wasStreaming == isStreaming && !running
    {
      expanded := isStreaming || !ShouldCollapse(code);
      wasStreaming := isStreaming;
      running := false;
    }

    /**
     * A render with the current code and streaming flag, running the layout
     * effect: streaming that just ended collapses a collapsible block. (The
     * effect is skipped when its inputs are unchanged, which changes
     * nothing, since `wasStreaming` already equals the flag then.)
     */
    method Render(code: string, isStreaming: bool)
      modifies this
      ensures wasStreaming == isStreaming && running == old(running)
      ensures old(wasStreaming) && !isStreaming && ShouldCollapse(code) ==> !expanded
      ensures !(old(wasStreaming) && !isStreaming && ShouldCollapse(code)) ==> expanded == old(expanded)
    {
      if wasStreaming && !isStreaming && ShouldCollapse(code) {
        expanded := false;
      }
      wasStreaming := isStreaming;
    }

    /** The arrow button in the header. */
    method Toggle()
      modifies this
      ensures expanded == !old(expanded)
      ensures wasStreaming == old(wasStreaming) && running == old(running)
    {
      expanded := !expanded;
    }

    /** The "expand N lines" prompt shown in place of collapsed code. */
    method Expand()
      modifies this
      ensures expanded
      ensures wasStreaming == old(wasStreaming) && running == old(running)
    {
      expanded := true;
    }

    /**
     * Pressing "run": `running` is set, and once the call settles it is
     * cleared again (the `finally`) and the outcome is reported.
     */
    method HandleRun(block: CodeBlock, outcome: WpsAdapter.ExecOutcome) returns (report: Option<Executed>)
      modifies this
      ensures report == RunReport(block, outcome)
      ensures running <==> outcome.StillPolling?
      ensures expanded == old(expanded) && wasStreaming == old(wasStreaming)
    {
      running := true;
      if outcome.StillPolling? {
        return None;
      }
      if outcome.Returned? {
        report := Some(Executed(block.id, outcome.result, None, outcome.diff));
      } else {
        var message := if outcome.Threw? then outcome.message else WpsAdapter.TimeoutMessage;
        report := Some(Executed(block.id, "", Some(message), None));
      }
      running := false;
    }
  }

  /**
   * A long block streamed in is shown expanded while it streams and
   * collapsed once streaming ends.
   */
  method StreamThenSettle(partial: string, full: string) returns (during: bool, after: bool)
    requires ShouldCollapse(full)
    ensures during && !after
  {
    var card := new Card(partial, true);
    card.Render(full, true);
    during := card.expanded;
    card.Render(full, false);
    after := card.expanded;
  }
}
