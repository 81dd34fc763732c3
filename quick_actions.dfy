/**
 * The quick-action cards above the input box: the command lists fetched
 * from the relay and the per-mode actions, merged into one list without
 * repeated captions, the collapsed view, and the debounced selection flag
 * that decides the group order.
 */
module QuickActions {
  import opened Wrappers
  import opened Strings
  import opened Sequences
  import opened UiTypes

  const DebounceMs := 1500
  const VisibleCount := 4

  const FallbackGeneral: seq<QuickAction> := [
    QuickAction("📝", "生成内容", "帮我根据当前文档主题生成一段内容"),
    QuickAction("📋", "文档摘要", "总结当前文档的主要内容和结构"),
    QuickAction("📐", "格式排版", "优化当前文档的格式和排版"),
    QuickAction("🌐", "翻译全文", "将当前文档翻译成英文")]

  const FallbackSelection: seq<QuickAction> := [
    QuickAction("✨", "润色", "润色选中的文本，使其更流畅专业"),
    QuickAction("🔄", "改写", "用不同的表达方式改写选中文本"),
    QuickAction("📏", "扩写", "将选中文本扩写为更详细的内容"),
    QuickAction("✂️", "缩写", "将选中文本精简为更简洁的表达"),
    QuickAction("🔍", "校对", "检查选中文本的语法和拼写错误")]

  // ---------------------------------------------------------------------
  // Merging without repeated captions
  // ---------------------------------------------------------------------

  function Captions(xs: seq<QuickAction>): set<string> {
    set a | a in xs :: a.caption
  }

  /**
   * The actions of `xs`, left to right, that `addUnique` keeps when the
   * captions in `seen` are already taken: each caption's first action wins.
   */
  function Dedup(xs: seq<QuickAction>, seen: set<string>): seq<QuickAction>
    decreases |xs|
  {
    if xs == [] then []
    else
      var d := Dedup(xs[..|xs| - 1], seen);
      var a := xs[|xs| - 1];
      if a.caption in seen || a.caption in Captions(d) then d else d + [a]
  }

  /** Adding two lists one after the other is adding their concatenation. */
  lemma {:induction false} DedupAppend(a: seq<QuickAction>, b: seq<QuickAction>, seen: set<string>)
    ensures Dedup(a + b, seen) == Dedup(a, seen) + Dedup(b, seen + Captions(Dedup(a, seen)))
    decreases |b|
  {
    if b != [] {
      var b' := b[..|b| - 1];
      assert (a + b)[..|a + b| - 1] == a + b';
      DedupAppend(a, b', seen);
    } else {
      assert a + b == a;
    }
  }

  /**
   * The kept actions have pairwise different captions, none of them taken
   * beforehand, and they keep the input's order.
   */
  lemma {:induction false} DedupDistinct(xs: seq<QuickAction>, seen: set<string>)
    ensures var r := Dedup(xs, seen);
      && (forall i, j :: 0 <= i < j < |r| ==> r[i].caption != r[j].caption)
      && (forall i :: 0 <= i < |r| ==> r[i].caption !in seen)
      && IsSubsequence(r, xs)
    decreases |xs|
  {
    if xs != [] {
      var p := xs[..|xs| - 1];
      DedupDistinct(p, seen);
      var d := Dedup(p, seen);
      assert xs == p + [xs[|xs| - 1]];
      SubsequenceExtend(d, p, xs[|xs| - 1]);
    }
  }

  /**
   * No caption is lost, and the action kept for a caption is the first one
   * in the input that carries it.
   */
  lemma {:induction false} DedupFirstWins(xs: seq<QuickAction>, seen: set<string>)
    ensures var r := Dedup(xs, seen);
      && (forall i :: 0 <= i < |xs| ==> xs[i].caption in seen || xs[i].caption in Captions(r))
      && (forall j :: 0 <= j < |r| ==>
            exists i :: 0 <= i < |xs| && xs[i] == r[j] && forall k :: 0 <= k < i ==> xs[k].caption != r[j].caption)
    decreases |xs|
  {
    if xs != [] {
      var p := xs[..|xs| - 1];
      var a := xs[|xs| - 1];
      DedupFirstWins(p, seen);
      var d := Dedup(p, seen);
      var r := Dedup(xs, seen);
      forall i | 0 <= i < |xs| ensures xs[i].caption in seen || xs[i].caption in Captions(r) {
        if i < |p| {
          assert xs[i] == p[i];
        }
      }
      forall j | 0 <= j < |r|
        ensures exists i :: 0 <= i < |xs| && xs[i] == r[j] && forall k :: 0 <= k < i ==> xs[k].caption != r[j].caption
      {
        if j < |d| {
          var i :| 0 <= i < |p| && p[i] == d[j] && forall k :: 0 <= k < i ==> p[k].caption != d[j].caption;
          assert xs[i] == r[j];
          assert forall k :: 0 <= k < i ==> xs[k] == p[k];
        } else {
          assert r[j] == a && a.caption !in seen && a.caption !in Captions(d);
          forall k | 0 <= k < |xs| - 1 ensures xs[k].caption != a.caption {
            assert xs[k] == p[k];
          }
          assert xs[|xs| - 1] == r[j];
        }
      }
    }
  }

  /** The `allActions` list and `seen` set that `addUnique` fills. */
  class Collector {
    var actions: seq<QuickAction>
    var seen: set<string>

    constructor()
      ensures actions == [] && seen == {}
    {
      actions := [];
      seen := {};
    }

    /** The set holds exactly the captions of the collected actions. */
    predicate Valid()
      reads this
    {
      seen == Captions(actions)
    }

    method AddUnique(list: seq<QuickAction>)
      requires Valid()
      modifies this
      ensures Valid()
      ensures actions == old(actions) + Dedup(list, old(seen))
    {
      var i := 0;
      while i < |list|
        invariant i <= |list|
        invariant actions == old(actions) + Dedup(list[..i], old(seen))
        invariant seen == old(seen) + Captions(Dedup(list[..i], old(seen)))
        invariant Valid()
      {
        var a := list[i];
        assert list[..i + 1][..i] == list[..i];
        if a.caption !in seen {
          seen := seen + {a.caption};
          actions := actions + [a];
        }
        i := i + 1;
      }
      assert list[..|list|] == list;
    }
  }

  /** A mode's own quick actions, split by scope. */
  datatype ModeActions = ModeActions(general: seq<QuickAction>, selection: seq<QuickAction>)

  function ModeGeneral(m: Option<ModeActions>): seq<QuickAction> {
    if m.Some? then m.value.general else []
  }

  function ModeSelection(m: Option<ModeActions>): seq<QuickAction> {
    if m.Some? then m.value.selection else []
  }

  /**
   * The four groups in merge order: selection groups first while a
   * selection is (stably) present, general groups first otherwise; the
   * mode's own group precedes the command group of the same scope.
   */
  function MergeOrder(stableHasSelection: bool, mode: Option<ModeActions>,
                      general: seq<QuickAction>, selection: seq<QuickAction>): seq<QuickAction>
  {
    if stableHasSelection then ModeSelection(mode) + selection + ModeGeneral(mode) + general
    else ModeGeneral(mode) + general + ModeSelection(mode) + selection
  }

  method MergeActions(stableHasSelection: bool, mode: Option<ModeActions>,
                      general: seq<QuickAction>, selection: seq<QuickAction>)
      returns (actions: seq<QuickAction>)
    ensures actions == Dedup(MergeOrder(stableHasSelection, mode, general, selection), {})
  {
    var first, second, third, fourth;
    if stableHasSelection {
      first, second, third, fourth := ModeSelection(mode), selection, ModeGeneral(mode), general;
    } else {
      first, second, third, fourth := ModeGeneral(mode), general, ModeSelection(mode), selection;
    }
    var c := new Collector();
    if |first| > 0 {
      c.AddUnique(first);
    }
    assert c.actions == Dedup(first, {});
    c.AddUnique(second);
    Appended(first, second, c.actions);
    if |third| > 0 {
      c.AddUnique(third);
    }
    Appended(first + second, third, c.actions);
    c.AddUnique(fourth);
    Appended(first + second + third, fourth, c.actions);
    actions := c.actions;
  }

  /** One `addUnique` call after the earlier ones, from the collector's point of view. */
  lemma Appended(a: seq<QuickAction>, b: seq<QuickAction>, collected: seq<QuickAction>)
    requires collected == Dedup(a, {}) + Dedup(b, Captions(Dedup(a, {})))
    ensures collected == Dedup(a + b, {})
  {
    DedupAppend(a, b, {});
    assert {} + Captions(Dedup(a, {})) == Captions(Dedup(a, {}));
  }

  /**
   * With a selection the actions that work on it come first, without one
   * the general ones: the merged list starts with the deduplicated
   * preferred groups.
   */
  lemma PreferredGroupsFirst(stableHasSelection: bool, mode: Option<ModeActions>,
                             general: seq<QuickAction>, selection: seq<QuickAction>)
    ensures var merged := Dedup(MergeOrder(stableHasSelection, mode, general, selection), {});
      var front := if stableHasSelection then ModeSelection(mode) + selection else ModeGeneral(mode) + general;
      var lead := Dedup(front, {});
      |lead| <= |merged| && merged[..|lead|] == lead
  {
    var front := if stableHasSelection then ModeSelection(mode) + selection else ModeGeneral(mode) + general;
    var back := if stableHasSelection then ModeGeneral(mode) + general else ModeSelection(mode) + selection;
    assert MergeOrder(stableHasSelection, mode, general, selection) == front + back;
    DedupAppend(front, back, {});
  }

  // ---------------------------------------------------------------------
  // The collapsed view
  // ---------------------------------------------------------------------

  function Visible(actions: seq<QuickAction>, expanded: bool): seq<QuickAction> {
    if expanded || |actions| <= VisibleCount then actions else actions[..VisibleCount]
  }

  /** The caption of the "more" card, or `None` when it is not shown. */
  function MoreCaption(actions: seq<QuickAction>, expanded: bool): Option<string> {
    if |actions| <= VisibleCount then None
    else if expanded then Some("收起")
    else Some("更多+" + NatToString(|actions| - VisibleCount))
  }

  /**
   * Collapsed, the first four actions show and the "more" card counts
   * exactly the hidden rest; expanded, everything shows. The card exists
   * iff there are more than four actions.
   */
  lemma ViewShowsAll(actions: seq<QuickAction>, expanded: bool)
    ensures var v := Visible(actions, expanded);
      && v == actions[..|v|]
      && (expanded ==> v == actions)
      && (!expanded ==> |v| == if |actions| < VisibleCount then |actions| else VisibleCount)
      && (MoreCaption(actions, expanded).Some? <==> |actions| > VisibleCount)
      && (!expanded && |actions| > VisibleCount ==>
            MoreCaption(actions, expanded) == Some("更多+" + NatToString(|actions| - |v|)))
  {
  }

  // ---------------------------------------------------------------------
  // Commands and mode actions from the relay
  // ---------------------------------------------------------------------

  datatype CommandDef = CommandDef(id: string, icon: string, caption: string, description: string, scope: string, prompt: string)

  function ToQuickAction(c: CommandDef): QuickAction {
    QuickAction(c.icon, c.caption, c.prompt)
  }

  /** `cmds.filter(c => c.scope === scope).map(toQuickAction)`. */
  function CommandsOfScope(cmds: seq<CommandDef>, scope: string): (r: seq<QuickAction>)
    ensures |r| <= |cmds|
  {
    if cmds == [] then []
    else
      var rest := CommandsOfScope(cmds[..|cmds| - 1], scope);
      var c := cmds[|cmds| - 1];
      if c.scope == scope then rest + [ToQuickAction(c)] else rest
  }

  /** Every command of the scope, and nothing else, turns into an action, in order. */
  lemma {:induction false} CommandsOfScopeExact(cmds: seq<CommandDef>, scope: string)
    ensures var r := CommandsOfScope(cmds, scope);
      && (forall a :: a in r <==> exists c :: c in cmds && c.scope == scope && a == ToQuickAction(c))
      && (|r| == 0 <==> forall c :: c in cmds ==> c.scope != scope)
    decreases |cmds|
  {
    if cmds != [] {
      var p := cmds[..|cmds| - 1];
      CommandsOfScopeExact(p, scope);
      assert cmds == p + [cmds[|cmds| - 1]];
    }
  }

  /** The two command lists shown: a fetched partition replaces its list only when non-empty. */
  datatype CommandLists = CommandLists(general: seq<QuickAction>, selection: seq<QuickAction>)

  function AdoptCommands(current: CommandLists, cmds: seq<CommandDef>): CommandLists {
    var gen := CommandsOfScope(cmds, "general");
    var sel := CommandsOfScope(cmds, "selection");
    CommandLists(if |gen| > 0 then gen else current.general, if |sel| > 0 then sel else current.selection)
  }

  /**
   * A list is kept when no fetched command has its scope, and replaced by
   * that scope's commands otherwise; commands of any other scope are not
   * shown.
   */
  lemma AdoptCommandsKeepsFallback(current: CommandLists, cmds: seq<CommandDef>)
    ensures var r := AdoptCommands(current, cmds);
      && ((forall c :: c in cmds ==> c.scope != "general") ==> r.general == current.general)
      && ((exists c :: c in cmds && c.scope == "general") ==> r.general == CommandsOfScope(cmds, "general"))
      && ((forall c :: c in cmds ==> c.scope != "selection") ==> r.selection == current.selection)
      && ((exists c :: c in cmds && c.scope == "selection") ==> r.selection == CommandsOfScope(cmds, "selection"))
  {
    CommandsOfScopeExact(cmds, "general");
    CommandsOfScopeExact(cmds, "selection");
  }

  /** A quick action as declared by a mode; `scope` may be missing. */
  datatype ModeQuickAction = ModeQuickAction(icon: string, caption: string, prompt: string, scope: Option<string>)

  datatype ModeDef = ModeDef(id: string, quickActions: Option<seq<ModeQuickAction>>)

  /** A missing or empty scope counts as general. */
  predicate IsGeneralScope(a: ModeQuickAction) {
    !Truthy(a.scope) || a.scope == Some("general")
  }

  /** The card a mode quick action shows: its icon, caption and prompt. */
  function WithoutModes(a: ModeQuickAction): QuickAction {
    QuickAction(a.icon, a.caption, a.prompt)
  }

  function Scoped(xs: seq<ModeQuickAction>, general: bool): (r: seq<QuickAction>)
    ensures |r| <= |xs|
  {
    if xs == [] then []
    else
      var rest := Scoped(xs[..|xs| - 1], general);
      var a := xs[|xs| - 1];
      var keep := if general then IsGeneralScope(a) else a.scope == Some("selection");
      if keep then rest + [WithoutModes(a)] else rest
  }

  function ModeEntry(m: ModeDef): ModeActions
    requires m.quickActions.Some?
  {
    ModeActions(Scoped(m.quickActions.value, true), Scoped(m.quickActions.value, false))
  }

  predicate HasActions(m: ModeDef) {
    m.quickActions.Some? && |m.quickActions.value| > 0
  }

  /** The table the `for` loop over the modes builds; a later mode with the same id overwrites. */
  function ModeTable(modes: seq<ModeDef>): map<string, ModeActions>
    decreases |modes|
  {
    if modes == [] then map[]
    else
      var t := ModeTable(modes[..|modes| - 1]);
      var m := modes[|modes| - 1];
      if HasActions(m) then t[m.id := ModeEntry(m)] else t
  }

  method BuildModeTable(modes: seq<ModeDef>) returns (table: map<string, ModeActions>)
    ensures table == ModeTable(modes)
  {
    table := map[];
    var i := 0;
    while i < |modes|
      invariant i <= |modes|
      invariant table == ModeTable(modes[..i])
    {
      assert modes[..i + 1][..i] == modes[..i];
      var m := modes[i];
      if m.quickActions.Some? && |m.quickActions.value| > 0 {
        table := table[m.id := ModeEntry(m)];
      }
      i := i + 1;
    }
    assert modes[..|modes|] == modes;
  }

  /**
   * A mode id has an entry exactly when some mode with that id declares
   * actions, and the entry comes from the last such mode.
   */
  lemma {:induction false} ModeTableEntries(modes: seq<ModeDef>, id: string)
    ensures id in ModeTable(modes) <==> exists i :: 0 <= i < |modes| && modes[i].id == id && HasActions(modes[i])
    ensures id in ModeTable(modes) ==>
      exists i :: 0 <= i < |modes| && modes[i].id == id && HasActions(modes[i])
        && ModeTable(modes)[id] == ModeEntry(modes[i])
        && forall j :: i < j < |modes| ==> !(modes[j].id == id && HasActions(modes[j]))
    decreases |modes|
  {
    if modes != [] {
      var p := modes[..|modes| - 1];
      ModeTableEntries(p, id);
      forall i | 0 <= i < |p| ensures modes[i] == p[i] { }
    }
  }

  /**
   * Each mode action goes to exactly one side when its scope is missing,
   * "general" or "selection", and to neither side otherwise.
   */
  lemma {:induction false} ScopedPartition(xs: seq<ModeQuickAction>)
    ensures |Scoped(xs, true)| + |Scoped(xs, false)| <= |xs|
    ensures (forall a :: a in xs ==> IsGeneralScope(a) || a.scope == Some("selection")) ==>
      |Scoped(xs, true)| + |Scoped(xs, false)| == |xs|
    decreases |xs|
  {
    if xs != [] {
      ScopedPartition(xs[..|xs| - 1]);
      assert forall a :: a in xs[..|xs| - 1] ==> a in xs;
    }
  }

  // ---------------------------------------------------------------------
  // The debounced selection flag
  // ---------------------------------------------------------------------

  /** The timer that will adopt `value` at `fireAt`. */
  datatype PendingFlip = PendingFlip(value: bool, fireAt: int)

  /**
   * `hasSelection` as last passed in, the flag the cards use, and the
   * timer in `timerRef`.
   */
  class SelectionDebounce {
    var hasSelection: bool
    var stable: bool
    var pending: Option<PendingFlip>

    constructor(hasSelection: bool)
      ensures this.hasSelection == hasSelection && stable == hasSelection && pending.None?
      ensures Valid()
    {
      this.hasSelection := hasSelection;
      stable := hasSelection;
      pending := None;
    }

    /** A timer runs exactly while the two flags differ, and it would adopt the current input. */
    predicate Valid()
      reads this
    {
      (pending.Some? <==> hasSelection != stable)
      && (pending.Some? ==> pending.value.value == hasSelection)
    }

    /**
     * A render with input `h` at time `now`. The effect runs only when the
     * input changed: its clean-up cancels the old timer, and then a new one
     * is armed unless the input is back at the stable value.
     */
    method Render(h: bool, now: int)
      requires Valid()
      modifies this
      ensures Valid()
      ensures stable == old(stable) && hasSelection == h
      ensures h == old(hasSelection) ==> pending == old(pending)
      ensures h != old(hasSelection) ==>
        pending == (if h == stable then None else Some(PendingFlip(h, now + DebounceMs)))
    {
      if h == hasSelection {
        return;
      }
      hasSelection := h;
      if hasSelection == stable {
        pending := None;
      } else {
        pending := Some(PendingFlip(hasSelection, now + DebounceMs));
      }
    }

    /** The clock reaches `now`; a due timer adopts its value. */
    method Tick(now: int)
      requires Valid()
      modifies this
      ensures Valid()
      ensures hasSelection == old(hasSelection)
      ensures stable != old(stable) <==> old(pending).Some? && now >= old(pending).value.fireAt
      ensures stable != old(stable) ==> stable == hasSelection && pending.None?
      ensures stable == old(stable) ==> pending == old(pending)
    {
      if pending.Some? && now >= pending.value.fireAt {
        stable := pending.value.value;
        pending := None;
      }
    }
  }
}
