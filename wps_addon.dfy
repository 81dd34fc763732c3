/**
 * The WPS Writer add-in's side of the code-execution bridge: document
 * snapshots, the index-aligned paragraph diff, the heading outline, and one
 * tick of the pending-code poller. Reads of the host document are inputs
 * (`HostDocument`, `ParagraphRead`); a read that throws is an absent value.
 */
module WpsAddon {
  import opened Wrappers
  import opened Strings

  const ParagraphCaptureLimit := 100
  const SelectionTextLimit := 2000
  const ChangeTextLimit := 300
  const ChangeListLimit := 50
  const OutlineScanLimit := 500
  const HeadingTextLimit := 120
  const ExecutedDefault := "执行成功"

  datatype Snapshot = Snapshot(
    documentName: string,
    paragraphCount: nat,
    selectionText: string,
    selectionStart: int,
    selectionEnd: int,
    paragraphTexts: seq<string>)

  datatype ParagraphChange = ParagraphChange(paragraph: nat, before: string, after: string)

  datatype DiffResult = DiffResult(
    documentName: string,
    changeCount: nat,
    addedParagraphs: int,
    changes: seq<ParagraphChange>,
    hasMore: bool)

  /** What reading `Application.Selection` yields: its text (absent when empty or null), start and end, or a failure. */
  datatype SelectionRead = SelectionFails | SelectionRead(text: Option<string>, start: int, end: int)

  /**
   * The host document as the add-in sees it. `paragraphCount` is `None` when
   * reading the count throws; `paragraphs[i]` is the text of paragraph i+1,
   * `None` when reading it throws or yields an empty value; a paragraph past
   * the end of `paragraphs` reads as `None`.
   */
  datatype HostDocument = HostDocument(
    name: Option<string>,
    paragraphCount: Option<nat>,
    paragraphs: seq<Option<string>>,
    selection: SelectionRead)

  function Min(a: int, b: int): int { if a <= b then a else b }
  function Max(a: int, b: int): int { if a >= b then a else b }

  predicate IsCrLf(c: char) { c == '\r' || c == '\n' }

  /** `text.replace(/[\r\n]+$/, "")`: drop the trailing run of CR and LF characters. */
  function StripTrailingNewlines(s: string): (r: string)
    ensures |r| <= |s| && r == s[..|r|]
    ensures r == [] || !IsCrLf(r[|r| - 1])
    ensures forall i :: |r| <= i < |s| ==> IsCrLf(s[i])
  {
    if s == [] || !IsCrLf(s[|s| - 1]) then s else StripTrailingNewlines(s[..|s| - 1])
  }

  /** `text.replace(/[\r\n]+/g, "")`: drop every CR and LF character. */
  function RemoveNewlines(s: string): (r: string)
    ensures forall i :: 0 <= i < |r| ==> !IsCrLf(r[i])
    ensures |r| <= |s|
  {
    if s == [] then [] else (if IsCrLf(s[0]) then [] else [s[0]]) + RemoveNewlines(s[1..])
  }

  /** Text of paragraph `i` (0-based) as the capture loop stores it. */
  function CapturedText(paragraphs: seq<Option<string>>, i: nat): string {
    if i < |paragraphs| && paragraphs[i].Some? then StripTrailingNewlines(paragraphs[i].value) else ""
  }

  /** The snapshot `snapshotDocument` takes of a document, as a value. */
  function SnapshotOf(doc: Option<HostDocument>): Option<Snapshot> {
    if doc.None? then None
    else
      var d := doc.value;
      var total := d.paragraphCount.GetOr(0);
      var sel := d.selection;
      Some(Snapshot(
        d.name.GetOr(""),
        total,
        if sel.SelectionRead? then Take(sel.text.GetOr(""), SelectionTextLimit) else "",
        if sel.SelectionRead? then sel.start else 0,
        if sel.SelectionRead? then sel.end else 0,
        seq(Min(total, ParagraphCaptureLimit), i requires 0 <= i => CapturedText(d.paragraphs, i))))
  }

  /**
   * `snapshotDocument`: no document gives no snapshot; otherwise the first
   * min(count, 100) paragraph texts with trailing line breaks removed ("" for
   * an unreadable paragraph), the selection text cut to 2000 characters, and a
   * count of 0 when the count cannot be read.
   */
  method SnapshotDocument(doc: Option<HostDocument>) returns (snap: Option<Snapshot>)
    ensures doc.None? <==> snap.None?
    ensures doc.Some? ==> (
      var d, s := doc.value, snap.value;
      var total := d.paragraphCount.GetOr(0);
      && s.documentName == d.name.GetOr("")
      && s.paragraphCount == total
      && |s.paragraphTexts| == Min(total, ParagraphCaptureLimit)
      && (forall i :: 0 <= i < |s.paragraphTexts| ==> s.paragraphTexts[i] == CapturedText(d.paragraphs, i))
      && s.selectionText == (if d.selection.SelectionRead? then Take(d.selection.text.GetOr(""), SelectionTextLimit) else "")
      && |s.selectionText| <= SelectionTextLimit
      && s.selectionStart == (if d.selection.SelectionRead? then d.selection.start else 0)
      && s.selectionEnd == (if d.selection.SelectionRead? then d.selection.end else 0))
    ensures snap == SnapshotOf(doc)
  {
    if doc.None? {
      return None;
    }
    var d := doc.value;
    var selText, selStart, selEnd := "", 0, 0;
    if d.selection.SelectionRead? {
      selText, selStart, selEnd := d.selection.text.GetOr(""), d.selection.start, d.selection.end;
    }
    var totalParas := d.paragraphCount.GetOr(0);
    var texts: seq<string> := [];
    var limit := Min(totalParas, ParagraphCaptureLimit);
    var i := 1;
    while i <= limit
      invariant 1 <= i <= limit + 1
      invariant |texts| == i - 1
      invariant forall k :: 0 <= k < |texts| ==> texts[k] == CapturedText(d.paragraphs, k)
    {
      if i - 1 < |d.paragraphs| && d.paragraphs[i - 1].Some? {
        texts := texts + [StripTrailingNewlines(d.paragraphs[i - 1].value)];
      } else {
        texts := texts + [""];
      }
      i := i + 1;
    }
    assert texts == seq(limit, k requires 0 <= k => CapturedText(d.paragraphs, k));
    snap := Some(Snapshot(d.name.GetOr(""), totalParas, Take(selText, SelectionTextLimit), selStart, selEnd, texts));
  }

  // ---------------------------------------------------------------------------
  // computeDiff

  /** Paragraph text at index `i`, the empty text past the end. */
  function TextAt(ps: seq<string>, i: nat): string {
    if i < |ps| then ps[i] else ""
  }

  /** Every change among the first `n` indices, in index order (the uncapped list). */
  function ChangesUpTo(before: seq<string>, after: seq<string>, n: nat): seq<ParagraphChange>
  {
    if n == 0 then []
    else
      var b, a := TextAt(before, n - 1), TextAt(after, n - 1);
      ChangesUpTo(before, after, n - 1)
        + (if b != a then [ParagraphChange(n, Take(b, ChangeTextLimit), Take(a, ChangeTextLimit))] else [])
  }

  /** The diff of two captured paragraph lists: the whole change list, its first 50 entries and the overflow flag. */
  function Diff(before: Snapshot, after: Snapshot): DiffResult {
    var all := ChangesUpTo(before.paragraphTexts, after.paragraphTexts,
                           Max(|before.paragraphTexts|, |after.paragraphTexts|));
    DiffResult(after.documentName, |all|, |after.paragraphTexts| - |before.paragraphTexts|,
               all[..Min(|all|, ChangeListLimit)], |all| > ChangeListLimit)
  }

  function DiffOf(before: Option<Snapshot>, after: Option<Snapshot>): Option<DiffResult> {
    if before.None? || after.None? then None else Some(Diff(before.value, after.value))
  }

  /** `computeDiff`, the loop that pushes one change per differing index. */
  method ComputeDiff(before: Option<Snapshot>, after: Option<Snapshot>) returns (r: Option<DiffResult>)
    ensures r == DiffOf(before, after)
  {
    if before.None? || after.None? {
      return None;
    }
    var b, a := before.value.paragraphTexts, after.value.paragraphTexts;
    var changes: seq<ParagraphChange> := [];
    var maxParas := Max(|b|, |a|);
    var i := 0;
    while i < maxParas
      invariant 0 <= i <= maxParas
      invariant changes == ChangesUpTo(b, a, i)
    {
      var bText := if i < |b| then b[i] else "";
      var aText := if i < |a| then a[i] else "";
      if bText != aText {
        changes := changes + [ParagraphChange(i + 1, Take(bText, ChangeTextLimit), Take(aText, ChangeTextLimit))];
      }
      i := i + 1;
    }
    var added := |a| - |b|;
    r := Some(DiffResult(after.value.documentName, |changes|, added,
                         changes[..Min(|changes|, ChangeListLimit)], |changes| > ChangeListLimit));
  }

  /** The change recorded for index `i` (0-based), whose paragraph number is i+1. */
  predicate IsChangeFor(c: ParagraphChange, before: seq<string>, after: seq<string>, i: nat) {
    && c.paragraph == i + 1
    && c.before == Take(TextAt(before, i), ChangeTextLimit)
    && c.after == Take(TextAt(after, i), ChangeTextLimit)
  }

  /** `c` is a genuine change among the first `n` indices. */
  predicate ValidChange(c: ParagraphChange, before: seq<string>, after: seq<string>, n: nat) {
    && 1 <= c.paragraph <= n
    && TextAt(before, c.paragraph - 1) != TextAt(after, c.paragraph - 1)
    && IsChangeFor(c, before, after, c.paragraph - 1)
  }

  /** The uncapped list extends the list for one index fewer. */
  lemma ChangesUpToStep(before: seq<string>, after: seq<string>, n: nat)
    requires n > 0
    ensures var prev, cs := ChangesUpTo(before, after, n - 1), ChangesUpTo(before, after, n);
      && cs[..|prev|] == prev
      && (TextAt(before, n - 1) != TextAt(after, n - 1) ==> |cs| == |prev| + 1 && IsChangeFor(cs[|prev|], before, after, n - 1))
      && (TextAt(before, n - 1) == TextAt(after, n - 1) ==> cs == prev)
  {
  }

  /**
   * Every entry of the uncapped change list is a genuine change carrying the
   * first 300 characters of both sides, and there are at most `n` of them.
   */
  lemma {:induction false} ChangesAreValid(before: seq<string>, after: seq<string>, n: nat)
    ensures |ChangesUpTo(before, after, n)| <= n
    ensures forall k :: 0 <= k < |ChangesUpTo(before, after, n)| ==>
      ValidChange(ChangesUpTo(before, after, n)[k], before, after, n)
  {
    if n > 0 {
      ChangesAreValid(before, after, n - 1);
      ChangesUpToStep(before, after, n);
      var prev, cs := ChangesUpTo(before, after, n - 1), ChangesUpTo(before, after, n);
      forall k | 0 <= k < |cs| ensures ValidChange(cs[k], before, after, n) {
        if k < |prev| {
          assert cs[k] == prev[k];
          assert ValidChange(prev[k], before, after, n - 1);
        }
      }
    }
  }

  /** Changes appear in strictly increasing paragraph order. */
  lemma {:induction false} ChangesAscending(before: seq<string>, after: seq<string>, n: nat)
    ensures forall k, l :: 0 <= k < l < |ChangesUpTo(before, after, n)| ==>
      ChangesUpTo(before, after, n)[k].paragraph < ChangesUpTo(before, after, n)[l].paragraph
  {
    if n > 0 {
      ChangesAscending(before, after, n - 1);
      ChangesAreValid(before, after, n - 1);
      ChangesUpToStep(before, after, n);
      var prev := ChangesUpTo(before, after, n - 1);
      forall k | 0 <= k < |prev| ensures prev[k].paragraph <= n - 1 {
        assert ValidChange(prev[k], before, after, n - 1);
      }
      AscendingExtend(prev, ChangesUpTo(before, after, n), n - 1);
    }
  }

  /** Appending a change for a paragraph past every earlier one keeps the order strict. */
  lemma AscendingExtend(prev: seq<ParagraphChange>, cs: seq<ParagraphChange>, bound: nat)
    requires forall k, l :: 0 <= k < l < |prev| ==> prev[k].paragraph < prev[l].paragraph
    requires forall k :: 0 <= k < |prev| ==> prev[k].paragraph <= bound
    requires cs == prev || (|cs| == |prev| + 1 && cs[..|prev|] == prev && cs[|prev|].paragraph == bound + 1)
    ensures forall k, l :: 0 <= k < l < |cs| ==> cs[k].paragraph < cs[l].paragraph
  {
    forall k, l | 0 <= k < l < |cs| ensures cs[k].paragraph < cs[l].paragraph {
      assert cs[k] == prev[k];
      if l < |prev| {
        assert cs[l] == prev[l];
      }
    }
  }

  /** Every index below `n` where the texts differ is recorded. */
  lemma {:induction false} ChangesComplete(before: seq<string>, after: seq<string>, n: nat, i: nat)
    requires i < n && TextAt(before, i) != TextAt(after, i)
    ensures exists k :: 0 <= k < |ChangesUpTo(before, after, n)| && ChangesUpTo(before, after, n)[k].paragraph == i + 1
  {
    ChangesUpToStep(before, after, n);
    var prev, cs := ChangesUpTo(before, after, n - 1), ChangesUpTo(before, after, n);
    if i == n - 1 {
      assert cs[|prev|].paragraph == i + 1;
    } else {
      ChangesComplete(before, after, n - 1, i);
      var k :| 0 <= k < |prev| && prev[k].paragraph == i + 1;
      assert cs[k] == prev[k];
    }
  }

  /**
   * What a diff promises: the change count is at most the longer list's
   * length, `addedParagraphs` is the exact signed length change, at most 50
   * changes are returned and they are the first ones, and `hasMore` holds
   * exactly when the full count exceeds 50.
   */
  lemma DiffBounds(before: Snapshot, after: Snapshot)
    ensures var d := Diff(before, after);
      var m, n := |before.paragraphTexts|, |after.paragraphTexts|;
      && d.changeCount <= Max(m, n)
      && d.addedParagraphs == n - m
      && |d.changes| <= ChangeListLimit
      && |d.changes| == Min(d.changeCount, ChangeListLimit)
      && d.changes == ChangesUpTo(before.paragraphTexts, after.paragraphTexts, Max(m, n))[..|d.changes|]
      && (d.hasMore <==> d.changeCount > ChangeListLimit)
      && d.documentName == after.documentName
  {
    ChangesAreValid(before.paragraphTexts, after.paragraphTexts,
                    Max(|before.paragraphTexts|, |after.paragraphTexts|));
  }

  /** Index i is reported (within the uncapped list) exactly when the texts at i differ. */
  lemma DiffRecordsExactlyDifferences(before: Snapshot, after: Snapshot, i: nat)
    requires i < Max(|before.paragraphTexts|, |after.paragraphTexts|)
    ensures var all := ChangesUpTo(before.paragraphTexts, after.paragraphTexts,
                                   Max(|before.paragraphTexts|, |after.paragraphTexts|));
      (exists k :: 0 <= k < |all| && all[k].paragraph == i + 1)
        <==> TextAt(before.paragraphTexts, i) != TextAt(after.paragraphTexts, i)
  {
    var n := Max(|before.paragraphTexts|, |after.paragraphTexts|);
    var all := ChangesUpTo(before.paragraphTexts, after.paragraphTexts, n);
    if TextAt(before.paragraphTexts, i) != TextAt(after.paragraphTexts, i) {
      ChangesComplete(before.paragraphTexts, after.paragraphTexts, n, i);
    } else {
      ChangesAreValid(before.paragraphTexts, after.paragraphTexts, n);
      forall k | 0 <= k < |all| ensures all[k].paragraph != i + 1 {
        assert ValidChange(all[k], before.paragraphTexts, after.paragraphTexts, n);
      }
    }
  }

  /** A missing snapshot on either side gives no diff. */
  lemma DiffOfMissing(before: Option<Snapshot>, after: Option<Snapshot>)
    ensures DiffOf(before, after).None? <==> (before.None? || after.None?)
  {
  }

  /** The worked example: ["A","B"] against ["A","C","D"]. */
  lemma DiffExample()
    ensures var before := Snapshot("d", 2, "", 0, 0, ["A", "B"]);
      var after := Snapshot("d", 3, "", 0, 0, ["A", "C", "D"]);
      Diff(before, after) == DiffResult("d", 2, 1, [ParagraphChange(2, "B", "C"), ParagraphChange(3, "", "D")], false)
  {
    var b, a := ["A", "B"], ["A", "C", "D"];
    assert TextAt(b, 0) == "A" && TextAt(a, 0) == "A";
    assert TextAt(b, 2) == "";
    assert ChangesUpTo(b, a, 1) == [];
    assert ChangesUpTo(b, a, 2) == [ParagraphChange(2, "B", "C")];
    assert ChangesUpTo(b, a, 3) == [ParagraphChange(2, "B", "C"), ParagraphChange(3, "", "D")];
  }

  // ---------------------------------------------------------------------------
  // getHeadingsOutline

  datatype Heading = Heading(level: int, text: string)

  /**
   * One paragraph as the outline scan reads it: `ItemFails` when fetching the
   * paragraph throws; otherwise its style name (`None` when reading the style
   * throws) and its text (`None` when the read throws or yields nothing).
   */
  datatype ParagraphRead = ItemFails | ParagraphRead(style: Option<string>, text: Option<string>)

  /**
   * Heading level of a style name by the patterns `^(标题|Heading)\s*N`
   * (case-insensitive) tried for N = 1..4 in order; -1 when none matches.
   */
  function StyleLevel(style: string): (level: int)
    ensures level == -1 || 1 <= level <= 4
  {
    var rest :=
      if StartsWith(style, "标题") then Some(style[2..])
      else if |style| >= 7 && ToLower(style[..7]) == "heading" then Some(style[7..])
      else None;
    if rest.None? then -1
    else
      var t := TrimStart(rest.value);
      if t != [] && '1' <= t[0] <= '4' then t[0] as int - '0' as int else -1
  }

  /** The outline entry a paragraph contributes, if any. */
  function HeadingOf(p: ParagraphRead): Option<Heading> {
    if p.ItemFails? || p.style.None? then None
    else
      var level := StyleLevel(p.style.value);
      if level <= 0 then None
      else
        var text := Trim(RemoveNewlines(p.text.GetOr("")));
        if |text| > 0 then Some(Heading(level, Take(text, HeadingTextLimit))) else None
  }

  /** The outline of a run of paragraphs, in document order. */
  function OutlineOf(ps: seq<ParagraphRead>): seq<Heading> {
    if ps == [] then []
    else
      var last := HeadingOf(ps[|ps| - 1]);
      OutlineOf(ps[..|ps| - 1]) + (if last.Some? then [last.value] else [])
  }

  /** `getHeadingsOutline`: scan at most 500 paragraphs; nothing when the count cannot be read. */
  method GetHeadingsOutline(count: Option<nat>, paragraphs: seq<ParagraphRead>) returns (headings: seq<Heading>)
    ensures count.None? ==> headings == []
    ensures count.Some? ==> headings == OutlineOf(ScannedParagraphs(count.value, paragraphs))
  {
    headings := [];
    if count.None? {
      return;
    }
    var limit := Min(count.value, OutlineScanLimit);
    var scanned := ScannedParagraphs(count.value, paragraphs);
    var i := 1;
    while i <= limit
      invariant 1 <= i <= limit + 1
      invariant headings == OutlineOf(scanned[..i - 1])
    {
      var p := if i - 1 < |paragraphs| then paragraphs[i - 1] else ItemFails;
      assert scanned[..i] == scanned[..i - 1] + [p];
      if p.ParagraphRead? && p.style.Some? {
        var level := StyleLevel(p.style.value);
        if level > 0 {
          var text := Trim(RemoveNewlines(p.text.GetOr("")));
          if |text| > 0 {
            headings := headings + [Heading(level, Take(text, HeadingTextLimit))];
          }
        }
      }
      i := i + 1;
    }
    assert scanned[..limit] == scanned;
  }

  /** The paragraphs the outline scan visits: the first min(count, 500), unreadable past the input. */
  function ScannedParagraphs(count: nat, paragraphs: seq<ParagraphRead>): (s: seq<ParagraphRead>)
    ensures |s| == Min(count, OutlineScanLimit)
  {
    seq(Min(count, OutlineScanLimit), i requires 0 <= i => if i < |paragraphs| then paragraphs[i] else ItemFails)
  }

  /** An outline entry as `getHeadingsOutline` promises it. */
  predicate WellFormedHeading(h: Heading) {
    && 1 <= h.level <= 4
    && 0 < |h.text| <= HeadingTextLimit
    && !IsSpace(h.text[0])
    && (forall j :: 0 <= j < |h.text| ==> !IsCrLf(h.text[j]))
  }

  /** The entry one paragraph contributes is well formed. */
  lemma HeadingOfWellFormed(p: ParagraphRead)
    requires HeadingOf(p).Some?
    ensures WellFormedHeading(HeadingOf(p).value)
  {
    var raw := RemoveNewlines(p.text.GetOr(""));
    var text := Trim(raw);
    TrimIsInfix(raw);
    var i :| OccursAt(raw, text, i);
    assert forall j :: 0 <= j < |text| ==> text[j] == raw[i + j];
  }

  /**
   * Every outline entry has a level from 1 to 4 and a non-empty text of at
   * most 120 characters without line breaks that does not start with white
   * space; there is at most one entry per scanned paragraph.
   */
  lemma {:induction false} OutlineWellFormed(ps: seq<ParagraphRead>)
    ensures |OutlineOf(ps)| <= |ps|
    ensures forall k :: 0 <= k < |OutlineOf(ps)| ==> WellFormedHeading(OutlineOf(ps)[k])
  {
    if ps != [] {
      OutlineWellFormed(ps[..|ps| - 1]);
      var last := HeadingOf(ps[|ps| - 1]);
      if last.Some? {
        HeadingOfWellFormed(ps[|ps| - 1]);
      }
    }
  }

  // ---------------------------------------------------------------------------
  // pollAndExecuteCode / executeInWps

  /** The reply to `GET /pending-code` as the add-in reads it. */
  datatype PendingReply = NoResponse | Unparsable | NotPending | PendingTask(id: string, code: string)

  /** Running the task's code: it returned a value (`None` for `undefined`, else `String(value)`) or threw a message. */
  datatype Execution = Returned(value: Option<string>) | Threw(message: string)

  /** The body the add-in posts to `/code-result`. */
  datatype HostReport =
    | ResultReport(id: string, result: string, diff: Option<DiffResult>)
    | ErrorReport(id: string, error: string)

  /** `executeInWps`'s result mapping: `undefined` becomes the success text, anything else its string form. */
  function ExecutionText(value: Option<string>): (text: string)
    ensures value.None? ==> text == ExecutedDefault
    ensures value.Some? ==> text == value.value
  {
    value.GetOr(ExecutedDefault)
  }

  /**
   * One tick of `pollAndExecuteCode`: with no pending task nothing is posted;
   * otherwise the result with the diff of the snapshots taken before and
   * after execution, or the error message when execution throws.
   */
  method PollAndExecute(reply: PendingReply, beforeDoc: Option<HostDocument>, exec: Execution,
                        afterDoc: Option<HostDocument>) returns (post: Option<HostReport>)
    ensures !reply.PendingTask? ==> post.None?
    ensures reply.PendingTask? && exec.Threw? ==> post == Some(ErrorReport(reply.id, exec.message))
    ensures reply.PendingTask? && exec.Returned? ==>
      post.Some? && post.value.ResultReport? && post.value.id == reply.id
      && post.value.result == ExecutionText(exec.value)
      && post.value.diff == DiffOf(SnapshotOf(beforeDoc), SnapshotOf(afterDoc))
      && (post.value.diff.Some? <==> beforeDoc.Some? && afterDoc.Some?)
  {
    if !reply.PendingTask? {
      return None;
    }
    var beforeSnap := SnapshotDocument(beforeDoc);
    match exec {
      case Threw(message) =>
        post := Some(ErrorReport(reply.id, message));
      case Returned(value) =>
        var afterSnap := SnapshotDocument(afterDoc);
        var diff := ComputeDiff(beforeSnap, afterSnap);
        post := Some(ResultReport(reply.id, ExecutionText(value), diff));
    }
  }
}
