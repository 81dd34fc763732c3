/**
 * The task pane's side of the relay: reading the document context with a
 * fallback to a built-in example, running code through the relay and
 * waiting for its result until a deadline, and watching the selection.
 *
 * Network replies and clock readings are parameters: a `ContextFetch` is what
 * one `GET /wps-context` produced, and a `Round` is one test of the wait
 * loop's clock followed by the reply of the poll it allows.
 */
module WpsAdapter {
  import opened Wrappers
  import opened Strings
  import opened UiTypes
  import WpsAddon

  // ---------------------------------------------------------------------
  // getWpsContext
  // ---------------------------------------------------------------------

  /** The JSON body of `/wps-context`; `None` is a field that is absent or null. */
  datatype RawContext = RawContext(
    error: Option<string>,
    documentName: Option<string>,
    pageCount: Option<int>,
    wordCount: Option<int>,
    paragraphCount: Option<int>,
    selection: Option<SelectionContext>,
    outline: Option<seq<OutlineItem>>,
    documentSummary: Option<DocumentSummary>)

  /** How one context request ended: thrown (network, time-out, bad JSON), non-2xx, or parsed. */
  datatype ContextFetch = FetchThrew | FetchNotOk(status: int) | Fetched(data: RawContext)

  /** The example context shown while WPS is not reachable. */
  function MockContext(): WpsContext {
    WpsContext(
      "示例文档.docx", 3, 1250, 28,
      Some(SelectionContext(
        "这是一段示例选中的文本，用于预览效果。", 18, 120, 138, 1, "正文",
        Font("微软雅黑", "12", false, false),
        ["上一段的内容在这里。"], ["下一段的内容在这里。"], true)),
      [OutlineItem(1, "第一章 引言"), OutlineItem(2, "1.1 背景"),
       OutlineItem(2, "1.2 目的"), OutlineItem(1, "第二章 正文")],
      Some(DocumentSummary(2, 1)))
  }

  /** A parsed reply describes a live document: no error, and a name or a selection. */
  predicate Usable(data: RawContext) {
    !Truthy(data.error) && (Truthy(data.documentName) || data.selection.Some?)
  }

  /** The context the pane uses, and whether WPS counts as available. */
  datatype ContextRead = ContextRead(ctx: WpsContext, available: bool)

  function ReadContext(f: ContextFetch): (r: ContextRead)
    ensures r.available <==> f.Fetched? && Usable(f.data)
  {
    if f.Fetched? && Usable(f.data) then
      var d := f.data;
      ContextRead(
        WpsContext(
          d.documentName.GetOr(""), d.pageCount.GetOr(0), d.wordCount.GetOr(0),
          d.paragraphCount.GetOr(0), d.selection, d.outline.GetOr([]), d.documentSummary),
        true)
    else
      ContextRead(MockContext(), false)
  }

  /**
   * Whenever WPS is unavailable the pane shows the example document; when it
   * is available the context is the document's own, naming it or carrying
   * its selection, with an absent name read as "", absent counts as 0, an
   * absent outline as empty, and the selection and summary passed through.
   */
  lemma ReadContextFallback(f: ContextFetch)
    ensures var r := ReadContext(f);
      && (!r.available ==> r.ctx == MockContext())
      && (r.available ==>
            && (r.ctx.documentName != "" || r.ctx.selection.Some?)
            && r.ctx.documentName == f.data.documentName.GetOr("")
            && r.ctx.pageCount == f.data.pageCount.GetOr(0)
            && r.ctx.wordCount == f.data.wordCount.GetOr(0)
            && r.ctx.paragraphCount == f.data.paragraphCount.GetOr(0)
            && r.ctx.selection == f.data.selection
            && r.ctx.outline == f.data.outline.GetOr([])
            && r.ctx.documentSummary == f.data.documentSummary)
  {
  }

  // ---------------------------------------------------------------------
  // executeCode
  // ---------------------------------------------------------------------

  const PollMs := 300
  const TimeoutMs := 30000
  const DefaultResult := "执行成功"
  const TimeoutMessage := "代码执行超时（30秒）"

  /** The reply to `POST /execute-code`. */
  datatype SubmitReply = SubmitThrew(message: string) | SubmitNotOk(status: int) | Submitted(id: string)

  /** The reply to one `GET /code-result/:id`. */
  datatype PollReply =
    | PollThrew(message: string)
    | PollNotOk
    | PollEntry(ready: bool, result: Option<string>, error: Option<string>, diff: Option<WpsAddon.DiffResult>)

  /** One pass of the wait loop: the clock read by its test, and the reply of the poll that follows if the test passes. */
  datatype Round = Round(checkedAt: int, reply: PollReply)

  /**
   * How `executeCode` ends. `StillPolling` means the given rounds ran out
   * while the clock was still before the deadline.
   */
  datatype ExecOutcome =
    | Returned(result: string, diff: Option<WpsAddon.DiffResult>)
    | Threw(message: string)
    | TimedOut
    | StillPolling

  function SubmitFailure(status: int): string {
    "提交代码失败: HTTP " + IntToString(status)
  }

  /** A poll reply that ends the wait: an exception, or an entry marked ready. */
  predicate Finishes(r: PollReply) {
    r.PollThrew? || (r.PollEntry? && r.ready)
  }

  function Finish(r: PollReply): ExecOutcome
    requires Finishes(r)
  {
    if r.PollThrew? then Threw(r.message)
    else if Truthy(r.error) then Threw(r.error.value)
    else Returned(r.result.GetOr(DefaultResult), r.diff)
  }

  /** The wait loop from round `i` on. */
  function WaitFrom(rounds: seq<Round>, i: nat, deadline: int): ExecOutcome
    requires i <= |rounds|
    decreases |rounds| - i
  {
    if i == |rounds| then StillPolling
    else if rounds[i].checkedAt >= deadline then TimedOut
    else if Finishes(rounds[i].reply) then Finish(rounds[i].reply)
    else WaitFrom(rounds, i + 1, deadline)
  }

  /** The number of result polls the wait loop sends from round `i` on. */
  function PollsFrom(rounds: seq<Round>, i: nat, deadline: int): nat
    requires i <= |rounds|
    decreases |rounds| - i
  {
    if i == |rounds| || rounds[i].checkedAt >= deadline then 0
    else if Finishes(rounds[i].reply) then 1
    else 1 + PollsFrom(rounds, i + 1, deadline)
  }

  /** `start` is the clock reading the deadline is computed from. */
  function ExecuteOutcome(submit: SubmitReply, start: int, rounds: seq<Round>): ExecOutcome {
    match submit
    case SubmitThrew(m) => Threw(m)
    case SubmitNotOk(status) => Threw(SubmitFailure(status))
    case Submitted(_) => WaitFrom(rounds, 0, start + TimeoutMs)
  }

  function ExecutePolls(submit: SubmitReply, start: int, rounds: seq<Round>): nat {
    if submit.Submitted? then PollsFrom(rounds, 0, start + TimeoutMs) else 0
  }

  /** The message the pane shows for an outcome that is an error. */
  function ErrorMessage(o: ExecOutcome): string
    requires o.Threw? || o.TimedOut?
  {
    if o.Threw? then o.message else TimeoutMessage
  }

  method ExecuteCode(submit: SubmitReply, start: int, rounds: seq<Round>)
      returns (outcome: ExecOutcome, polls: nat)
    ensures outcome == ExecuteOutcome(submit, start, rounds)
    ensures polls == ExecutePolls(submit, start, rounds)
    ensures !submit.Submitted? ==> polls == 0 && outcome.Threw?
  {
    if submit.SubmitThrew? {
      return Threw(submit.message), 0;
    }
    if submit.SubmitNotOk? {
      return Threw(SubmitFailure(submit.status)), 0;
    }
    var deadline := start + TimeoutMs;
    polls := 0;
    var i := 0;
    while i < |rounds|
      invariant i <= |rounds|
      invariant WaitFrom(rounds, i, deadline) == WaitFrom(rounds, 0, deadline)
      invariant polls + PollsFrom(rounds, i, deadline) == PollsFrom(rounds, 0, deadline)
    {
      if rounds[i].checkedAt >= deadline {
        return TimedOut, polls;
      }
      polls := polls + 1;
      var reply := rounds[i].reply;
      if reply.PollThrew? {
        return Threw(reply.message), polls;
      }
      if reply.PollEntry? && reply.ready {
        if Truthy(reply.error) {
          return Threw(reply.error.value), polls;
        }
        return Returned(reply.result.GetOr(DefaultResult), reply.diff), polls;
      }
      i := i + 1;
    }
    return StillPolling, polls;
  }

  /** The first `k` rounds all passed the clock test and did not end the wait. */
  predicate Waiting(rounds: seq<Round>, k: nat, deadline: int)
    requires k <= |rounds|
  {
    forall j :: 0 <= j < k ==> rounds[j].checkedAt < deadline && !Finishes(rounds[j].reply)
  }

  lemma {:induction false} WaitSkips(rounds: seq<Round>, i: nat, k: nat, deadline: int)
    requires i <= k <= |rounds| && Waiting(rounds, k, deadline)
    ensures WaitFrom(rounds, i, deadline) == WaitFrom(rounds, k, deadline)
    ensures PollsFrom(rounds, i, deadline) == (k - i) + PollsFrom(rounds, k, deadline)
    decreases k - i
  {
    if i < k {
      WaitSkips(rounds, i + 1, k, deadline);
    }
  }

  /**
   * The first round that stops the wait decides the outcome: a clock
   * reading at or past the deadline times out after `k` polls, and a
   * finishing reply before it gives that reply's result or error after
   * `k + 1` polls.
   */
  lemma WaitStopsAt(rounds: seq<Round>, k: nat, deadline: int)
    requires k < |rounds| && Waiting(rounds, k, deadline)
    requires rounds[k].checkedAt >= deadline || Finishes(rounds[k].reply)
    ensures rounds[k].checkedAt >= deadline ==>
      WaitFrom(rounds, 0, deadline) == TimedOut && PollsFrom(rounds, 0, deadline) == k
    ensures rounds[k].checkedAt < deadline ==>
      WaitFrom(rounds, 0, deadline) == Finish(rounds[k].reply) && PollsFrom(rounds, 0, deadline) == k + 1
  {
    WaitSkips(rounds, 0, k, deadline);
  }

  /** The wait is still going exactly when no given round stopped it. */
  lemma {:induction false} StillPollingIff(rounds: seq<Round>, deadline: int)
    ensures WaitFrom(rounds, 0, deadline) == StillPolling <==> Waiting(rounds, |rounds|, deadline)
  {
    if Waiting(rounds, |rounds|, deadline) {
      WaitSkips(rounds, 0, |rounds|, deadline);
    } else {
      var k :| 0 <= k < |rounds| && !(rounds[k].checkedAt < deadline && !Finishes(rounds[k].reply))
            && forall j :: 0 <= j < k ==> rounds[j].checkedAt < deadline && !Finishes(rounds[j].reply) by {
        FirstStop(rounds, deadline);
      }
      WaitStopsAt(rounds, k, deadline);
      assert rounds[k].checkedAt < deadline ==> Finish(rounds[k].reply) != StillPolling;
    }
  }

  /** When some round stops the wait, there is a first one. */
  lemma {:induction false} FirstStop(rounds: seq<Round>, deadline: int)
    requires !Waiting(rounds, |rounds|, deadline)
    ensures exists k :: 0 <= k < |rounds| && !(rounds[k].checkedAt < deadline && !Finishes(rounds[k].reply))
                        && forall j :: 0 <= j < k ==> rounds[j].checkedAt < deadline && !Finishes(rounds[j].reply)
  {
    var n := 0;
    while n < |rounds| && rounds[n].checkedAt < deadline && !Finishes(rounds[n].reply)
      invariant n <= |rounds| && Waiting(rounds, n, deadline)
    {
      n := n + 1;
    }
    assert n < |rounds|;
  }

  /**
   * The call times out exactly when the clock reaches the deadline before
   * any poll brought a ready entry (or an exception).
   */
  lemma TimedOutIff(submit: SubmitReply, start: int, rounds: seq<Round>)
    requires submit.Submitted?
    ensures var deadline := start + TimeoutMs;
      ExecuteOutcome(submit, start, rounds) == TimedOut <==>
        exists k :: 0 <= k < |rounds| && rounds[k].checkedAt >= deadline && Waiting(rounds, k, deadline)
  {
    var deadline := start + TimeoutMs;
    if exists k :: 0 <= k < |rounds| && rounds[k].checkedAt >= deadline && Waiting(rounds, k, deadline) {
      var k :| 0 <= k < |rounds| && rounds[k].checkedAt >= deadline && Waiting(rounds, k, deadline);
      WaitStopsAt(rounds, k, deadline);
    } else if Waiting(rounds, |rounds|, deadline) {
      StillPollingIff(rounds, deadline);
    } else {
      FirstStop(rounds, deadline);
      var k :| 0 <= k < |rounds| && !(rounds[k].checkedAt < deadline && !Finishes(rounds[k].reply))
            && forall j :: 0 <= j < k ==> rounds[j].checkedAt < deadline && !Finishes(rounds[j].reply);
      assert Waiting(rounds, k, deadline);
      WaitStopsAt(rounds, k, deadline);
    }
  }

  /**
   * Each loop test comes at least `PollMs` after the previous one (the loop
   * sleeps before each poll), and the first comes no earlier than the
   * reading the deadline was computed from.
   */
  predicate Paced(start: int, rounds: seq<Round>) {
    && (|rounds| > 0 ==> rounds[0].checkedAt >= start)
    && forall k :: 0 < k < |rounds| ==> rounds[k].checkedAt >= rounds[k - 1].checkedAt + PollMs
  }

  lemma {:induction false} PollsWithin(rounds: seq<Round>, i: nat, m: nat, deadline: int)
    requires i <= |rounds|
    requires forall k :: 0 < k < |rounds| ==> rounds[k].checkedAt >= rounds[k - 1].checkedAt + PollMs
    requires i < |rounds| ==> rounds[i].checkedAt + PollMs * m >= deadline
    ensures PollsFrom(rounds, i, deadline) <= m
    ensures i + m < |rounds| ==> WaitFrom(rounds, i, deadline) != StillPolling
    decreases |rounds| - i
  {
    if i < |rounds| && rounds[i].checkedAt < deadline && !Finishes(rounds[i].reply) {
      assert m >= 1;
      PollsWithin(rounds, i + 1, m - 1, deadline);
    }
  }

  /**
   * With polls paced by the sleep, one call sends at most
   * 30000 / 300 = 100 result polls, and 101 loop tests always settle it.
   */
  lemma PollBudget(submit: SubmitReply, start: int, rounds: seq<Round>)
    requires Paced(start, rounds)
    ensures ExecutePolls(submit, start, rounds) <= TimeoutMs / PollMs
    ensures |rounds| > TimeoutMs / PollMs ==> ExecuteOutcome(submit, start, rounds) != StillPolling
  {
    if submit.Submitted? {
      PollsWithin(rounds, 0, TimeoutMs / PollMs, start + TimeoutMs);
    }
  }

  // ---------------------------------------------------------------------
  // onSelectionChange
  // ---------------------------------------------------------------------

  const SelNullGrace := 2
  const PollIntervalMs := 2500

  /**
   * The fields the change key is built from. `JSON.stringify` drops the four
   * selection fields together when there is no selection, and is injective
   * on these values, so two keys are equal exactly when their strings are.
   */
  datatype ContextKey = ContextKey(
    documentName: string,
    selStart: Option<int>,
    selEnd: Option<int>,
    selCharCount: Option<int>,
    selStyle: Option<string>)

  function KeyOf(ctx: WpsContext): ContextKey {
    match ctx.selection
    case None => ContextKey(ctx.documentName, None, None, None, None)
    case Some(s) => ContextKey(ctx.documentName, Some(s.start), Some(s.end), Some(s.charCount), Some(s.styleName))
  }

  /**
   * The watcher's module state: the last reported key (`None` before the
   * first report, when the stored string is empty and matches no key), the
   * last context that had a selection, and the run of missing selections.
   */
  datatype WatchState = WatchState(lastKey: Option<ContextKey>, lastSelection: Option<WpsContext>, nullCount: nat)

  /** A poll's effect: the new state, and the context handed to the callback, if any. */
  datatype WatchStep = WatchStep(state: WatchState, delivered: Option<WpsContext>)

  /** A missing selection right after a present one, still within the grace run. */
  predicate Suppressed(s: WatchState, ctx: WpsContext) {
    ctx.selection.None? && s.lastSelection.Some? && s.nullCount + 1 <= SelNullGrace
  }

  function Report(s: WatchState, ctx: WpsContext): WatchStep {
    var s1 := if ctx.selection.Some? then s.(lastSelection := Some(ctx)) else s;
    var key := KeyOf(ctx);
    if s1.lastKey != Some(key) then WatchStep(s1.(lastKey := Some(key)), Some(ctx))
    else WatchStep(s1, None)
  }

  /** One poll of the selection watcher, given the context it read. */
  function Watch(s: WatchState, ctx: WpsContext): WatchStep {
    if ctx.selection.None? && s.lastSelection.Some? then
      var s1 := s.(nullCount := s.nullCount + 1);
      if s1.nullCount <= SelNullGrace then WatchStep(s1, None) else Report(s1, ctx)
    else
      Report(s.(nullCount := 0), ctx)
  }

  /**
   * The callback fires with the polled context exactly when the poll is not
   * in the grace run and the key differs from the last reported one; the
   * stored key then becomes this context's key, and otherwise it stays.
   */
  lemma WatchDelivery(s: WatchState, ctx: WpsContext)
    ensures var r := Watch(s, ctx);
      && (r.delivered.Some? <==> !Suppressed(s, ctx) && s.lastKey != Some(KeyOf(ctx)))
      && (r.delivered.Some? ==> r.delivered.value == ctx)
      && r.state.lastKey == (if Suppressed(s, ctx) then s.lastKey else Some(KeyOf(ctx)))
  {
  }

  /**
   * The grace counter counts missing selections after a present one and
   * resets on any other poll; a context with a selection is remembered.
   */
  lemma WatchCounter(s: WatchState, ctx: WpsContext)
    ensures var r := Watch(s, ctx);
      && (ctx.selection.None? && s.lastSelection.Some? ==> r.state.nullCount == s.nullCount + 1)
      && (!(ctx.selection.None? && s.lastSelection.Some?) ==> r.state.nullCount == 0)
      && (ctx.selection.Some? ==> r.state.lastSelection == Some(ctx))
      && (ctx.selection.None? ==> r.state.lastSelection == s.lastSelection)
  {
  }

  /**
   * After a selection has been seen, the first two polls without one are
   * swallowed without touching the stored key, and the third is reported
   * unless its key is the one last reported.
   */
  lemma {:induction false} GraceRun(s: WatchState, c1: WpsContext, c2: WpsContext, c3: WpsContext)
    requires s.lastSelection.Some? && s.nullCount == 0
    requires c1.selection.None? && c2.selection.None? && c3.selection.None?
    ensures var r1 := Watch(s, c1);
      var r2 := Watch(r1.state, c2);
      var r3 := Watch(r2.state, c3);
      && r1.delivered.None? && r2.delivered.None?
      && r2.state.lastKey == s.lastKey
      && (r3.delivered.Some? <==> s.lastKey != Some(KeyOf(c3)))
  {
    WatchDelivery(s, c1);
    var r1 := Watch(s, c1);
    WatchCounter(s, c1);
    WatchDelivery(r1.state, c2);
    var r2 := Watch(r1.state, c2);
    WatchCounter(r1.state, c2);
    WatchDelivery(r2.state, c3);
  }

  /** A reported context is not reported again by a following poll with the same key. */
  lemma NoRepeatedReport(s: WatchState, c1: WpsContext, c2: WpsContext)
    requires Watch(s, c1).delivered.Some?
    requires KeyOf(c1) == KeyOf(c2)
    ensures Watch(Watch(s, c1).state, c2).delivered.None?
  {
    WatchDelivery(s, c1);
    WatchDelivery(Watch(s, c1).state, c2);
  }

  /** The adapter's module-level state. */
  class Adapter {
    var wpsAvailable: bool
    var lastKey: Option<ContextKey>
    var lastSelection: Option<WpsContext>
    var nullCount: nat

    constructor()
      ensures !wpsAvailable && lastKey.None? && lastSelection.None? && nullCount == 0
    {
      wpsAvailable := false;
      lastKey := None;
      lastSelection := None;
      nullCount := 0;
    }

    function Watched(): WatchState
      reads this
    {
      WatchState(lastKey, lastSelection, nullCount)
    }

    method GetWpsContext(f: ContextFetch) returns (ctx: WpsContext)
      modifies this
      ensures ContextRead(ctx, wpsAvailable) == ReadContext(f)
      ensures Watched() == old(Watched())
    {
      var r := ReadContext(f);
      wpsAvailable := r.available;
      return r.ctx;
    }
  }

  /** One `onSelectionChange` subscription. */
  class Subscription {
    var active: bool
    const adapter: Adapter

    constructor(adapter: Adapter)
      ensures active && this.adapter == adapter
    {
      active := true;
      this.adapter := adapter;
    }

    /**
     * One timer tick. `cancelledInFlight` says the unsubscribe function ran
     * while the context request was pending; the callback may still fire
     * then, but no further tick is scheduled.
     */
    method Poll(f: ContextFetch, cancelledInFlight: bool)
        returns (delivered: Option<WpsContext>, rescheduled: bool)
      modifies this, adapter
      ensures !old(active) ==> delivered.None? && !rescheduled && unchanged(this, adapter)
      ensures old(active) ==>
        var ctx := ReadContext(f).ctx;
        && WatchStep(adapter.Watched(), delivered) == Watch(old(adapter.Watched()), ctx)
        && adapter.wpsAvailable == ReadContext(f).available
        && active == !cancelledInFlight
      ensures rescheduled <==> old(active) && !cancelledInFlight
    {
      if !active {
        return None, false;
      }
      var ctx := adapter.GetWpsContext(f);
      if cancelledInFlight {
        active := false;
      }
      if ctx.selection.None? && adapter.lastSelection.Some? {
        adapter.nullCount := adapter.nullCount + 1;
        if adapter.nullCount <= SelNullGrace {
          return None, active;
        }
      } else {
        adapter.nullCount := 0;
      }
      if ctx.selection.Some? {
        adapter.lastSelection := Some(ctx);
      }
      var key := KeyOf(ctx);
      delivered := None;
      if adapter.lastKey != Some(key) {
        adapter.lastKey := Some(key);
        delivered := Some(ctx);
      }
      rescheduled := active;
    }

    method Unsubscribe()
      modifies this
      ensures !active
    {
      active := false;
    }
  }
}
