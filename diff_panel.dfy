/**
 * The table of paragraph changes shown under an executed code block: its
 * header, the collapsed view of the first eight rows and the cell format.
 */
module DiffPanel {
  import opened Wrappers
  import opened Strings
  import WpsAddon

  const CollapsedLimit := 8
  const CellLimit := 100
  const EmptyCell := "(空)"

  /** A cell: empty or missing text shows "(空)", text over 100 characters is cut and marked "...". */
  function FormatVal(v: Option<string>): (r: string)
    ensures r != ""
  {
    if !Truthy(v) then EmptyCell
    else if |v.value| > CellLimit then v.value[..CellLimit] + "..."
    else v.value
  }

  /**
   * A cell never runs past 103 characters; text that fits is shown as is,
   * and longer text shows exactly its first 100 characters before the mark.
   */
  lemma FormatValShape(v: Option<string>)
    ensures var r := FormatVal(v);
      && |r| <= CellLimit + 3
      && (!Truthy(v) ==> r == EmptyCell)
      && (Truthy(v) && |v.value| <= CellLimit ==> r == v.value)
      && (Truthy(v) && |v.value| > CellLimit ==>
            |r| == CellLimit + 3 && r[..CellLimit] == v.value[..CellLimit] && r[CellLimit..] == "...")
  {
  }

  /** The rows the table shows: all when expanded, otherwise the first eight. */
  function VisibleChanges(changes: seq<WpsAddon.ParagraphChange>, expanded: bool): seq<WpsAddon.ParagraphChange> {
    if expanded || |changes| <= CollapsedLimit then changes else changes[..CollapsedLimit]
  }

  /** One shown row: "P<n>", then the formatted old and new text. */
  datatype Row = Row(caption: string, before: string, after: string)

  function RowOf(c: WpsAddon.ParagraphChange): Row {
    Row("P" + NatToString(c.paragraph), FormatVal(Some(c.before)), FormatVal(Some(c.after)))
  }

  function Rows(changes: seq<WpsAddon.ParagraphChange>): (rows: seq<Row>)
    ensures |rows| == |changes|
    ensures forall i :: 0 <= i < |changes| ==> rows[i] == RowOf(changes[i])
  {
    if changes == [] then [] else [RowOf(changes[0])] + Rows(changes[1..])
  }

  /** The header's remark on the paragraph count change, if any. */
  function CountNote(added: int): Option<string> {
    if added > 0 then Some("，新增 " + NatToString(added) + " 段")
    else if added < 0 then Some("，删除 " + NatToString(-added) + " 段")
    else None
  }

  function Header(diff: WpsAddon.DiffResult): string {
    "已修改 " + NatToString(diff.changeCount) + " 个段落" + CountNote(diff.addedParagraphs).GetOr("")
  }

  /** The toggle's caption, present only when there are more than eight changes. */
  function Toggle(diff: WpsAddon.DiffResult, expanded: bool): Option<string> {
    if |diff.changes| <= CollapsedLimit then None
    else if expanded then Some("收起")
    else Some("展开全部 " + NatToString(|diff.changes|) + " 项变更" + (if diff.hasMore then " (更多变更未显示)" else ""))
  }

  /** What the panel shows. */
  datatype PanelView = PanelView(header: string, rows: seq<Row>, toggle: Option<string>)

  function Panel(diff: WpsAddon.DiffResult, expanded: bool): PanelView {
    PanelView(Header(diff), Rows(VisibleChanges(diff.changes, expanded)), Toggle(diff, expanded))
  }

  /**
   * Collapsed, the panel shows the first min(8, n) changes and expanded it
   * shows them all, each as its own row; the toggle exists iff there are
   * more than eight, and the "more not shown" note appears only collapsed
   * and only when the diff itself was cut.
   */
  lemma PanelShowsPrefix(diff: WpsAddon.DiffResult, expanded: bool)
    ensures var p := Panel(diff, expanded);
      var n := |diff.changes|;
      && |p.rows| == (if expanded || n <= CollapsedLimit then n else CollapsedLimit)
      && (forall i :: 0 <= i < |p.rows| ==> p.rows[i] == RowOf(diff.changes[i]))
      && (p.toggle.Some? <==> n > CollapsedLimit)
      && (p.toggle.Some? && expanded ==> p.toggle.value == "收起")
      && (p.toggle.Some? && !expanded ==> (EndsWithNote(p.toggle.value) <==> diff.hasMore))
  {
    if |diff.changes| > CollapsedLimit && !expanded && !diff.hasMore {
      var t := Toggle(diff, expanded).value;
      assert t[|t| - 1] == '更';
    }
  }

  predicate EndsWithNote(s: string) {
    var note := " (更多变更未显示)";
    |note| <= |s| && s[|s| - |note|..] == note
  }

  /**
   * The header remark is absent exactly when the paragraph count did not
   * change, and different changes read differently, so it shows the
   * signed change without loss.
   */
  lemma {:induction false} CountNoteFaithful(a: int, b: int)
    ensures CountNote(a).None? <==> a == 0
    ensures CountNote(a) == CountNote(b) ==> a == b
  {
    if CountNote(a) == CountNote(b) && a != 0 {
      var na := if a > 0 then a else -a;
      var nb := if b > 0 then b else -b;
      var pa := if a > 0 then "，新增 " else "，删除 ";
      var pb := if b > 0 then "，新增 " else "，删除 ";
      var s := CountNote(a).value;
      assert s == pa + NatToString(na) + " 段";
      assert s == pb + NatToString(nb) + " 段";
      assert s[1] == pa[1] && s[1] == pb[1];
      assert (a > 0) == (b > 0);
      assert |pa| == |pb| == 4;
      var mid := s[4..|s| - 2];
      assert mid == NatToString(na) by {
        assert s[4..] == NatToString(na) + " 段";
      }
      assert mid == NatToString(nb) by {
        assert s[4..] == NatToString(nb) + " 段";
      }
      NatToStringInjective(na, nb);
    }
  }
}
