/**
 * The client's session helpers: the title a conversation is saved under,
 * and the update of one remembered preference.
 */
module SessionStore {
  import opened Wrappers
  import opened Strings
  import opened UiTypes

  const DefaultTitle := "新会话"
  const TitleLimit := 30
  const Ellipsis := '…'

  /** `messages.find(m => m.role === "user")`. */
  function FirstUser(messages: seq<ChatMessage>): (r: Option<nat>)
    ensures r.Some? ==>
      && r.value < |messages| && messages[r.value].role == User
      && forall j :: 0 <= j < r.value ==> messages[j].role != User
    ensures r.None? ==> forall j :: 0 <= j < |messages| ==> messages[j].role != User
  {
    if messages == [] then None
    else if messages[0].role == User then Some(0)
    else match FirstUser(messages[1..])
      case None => None
      case Some(k) => Some(k + 1)
  }

  /** The content with newlines turned into spaces and the ends trimmed. */
  function TitleText(content: string): string {
    Trim(ReplaceChar(content, '\n', ' '))
  }

  /** A text over 30 characters is cut to 30 and marked with an ellipsis. */
  function Shorten(text: string): string {
    if |text| > TitleLimit then text[..TitleLimit] + [Ellipsis] else text
  }

  function GenerateTitle(messages: seq<ChatMessage>): string {
    match FirstUser(messages)
    case None => DefaultTitle
    case Some(k) => Shorten(TitleText(messages[k].content))
  }

  /**
   * A title is "新会话" exactly when there is no user message; otherwise it
   * is one line of at most 31 characters: the first user message's trimmed
   * text when that fits in 30, and else its first 30 characters and "…".
   */
  lemma {:induction false} TitleShape(messages: seq<ChatMessage>)
    ensures var t := GenerateTitle(messages);
      match FirstUser(messages)
      case None => t == DefaultTitle
      case Some(k) =>
        var text := TitleText(messages[k].content);
        && |t| <= TitleLimit + 1
        && (forall i :: 0 <= i < |t| ==> t[i] != '\n')
        && (|text| <= TitleLimit ==> t == text)
        && (|text| > TitleLimit ==> |t| == TitleLimit + 1 && StartsWith(text, t[..TitleLimit]) && t[TitleLimit] == Ellipsis)
  {
    match FirstUser(messages)
    case None =>
    case Some(k) =>
      var s := ReplaceChar(messages[k].content, '\n', ' ');
      NoNewlineAfterTrim(s);
  }

  lemma {:induction false} NoNewlineAfterTrim(s: string)
    requires forall i :: 0 <= i < |s| ==> s[i] != '\n'
    ensures forall i :: 0 <= i < |Trim(s)| ==> Trim(s)[i] != '\n'
  {
    TrimIsInfix(s);
    var i :| OccursAt(s, Trim(s), i);
    forall j | 0 <= j < |Trim(s)| ensures Trim(s)[j] != '\n' {
      assert Trim(s)[j] == s[i + j];
    }
  }

  /** Later messages never change the title once a user message is present. */
  lemma {:induction false} TitleIgnoresLaterMessages(messages: seq<ChatMessage>, later: seq<ChatMessage>)
    requires FirstUser(messages).Some?
    ensures GenerateTitle(messages + later) == GenerateTitle(messages)
  {
    var k := FirstUser(messages).value;
    var all := messages + later;
    assert all[k] == messages[k];
    FirstUserUnique(all, k);
  }

  /** The first user message is the one at an index where all earlier messages are not the user's. */
  lemma {:induction false} FirstUserUnique(messages: seq<ChatMessage>, k: nat)
    requires k < |messages| && messages[k].role == User
    requires forall j :: 0 <= j < k ==> messages[j].role != User
    ensures FirstUser(messages) == Some(k)
  {
    var r := FirstUser(messages);
    assert r.Some?;
    assert !(r.value < k);
    assert !(r.value > k);
  }

  /**
   * A title, sent back as the first user message, gives the same title:
   * titles are fixed points of title generation.
   */
  lemma {:induction false} TitleIsStable(content: string)
    ensures var t := Shorten(TitleText(content));
      Shorten(TitleText(t)) == t
  {
    var s := ReplaceChar(content, '\n', ' ');
    var text := Trim(s);
    TrimIsInfix(s);
    NoNewlineAfterTrim(s);
    var t := Shorten(text);
    assert forall i :: 0 <= i < |t| ==> t[i] != '\n';
    assert ReplaceChar(t, '\n', ' ') == t;
    assert t == [] || (!IsSpace(t[0]) && !IsSpace(t[|t| - 1]));
    TrimOfTrimmed(t);
  }

  // ---------------------------------------------------------------------
  // updateMemory
  // ---------------------------------------------------------------------

  /**
   * The result of reading `/memory`: failed (network error or non-2xx), or
   * the stored object, whose `preferences` may be missing.
   */
  datatype MemoryRead = ReadFailed | ReadOk(preferences: Option<map<string, string>>)

  /**
   * Sets one preference and returns the preferences it writes back, or
   * `None` when the read failed and nothing is written.
   */
  method UpdateMemory(read: MemoryRead, key: string, value: string)
      returns (written: Option<map<string, string>>)
    ensures written.None? <==> read.ReadFailed?
    ensures written.Some? ==>
      var before := read.preferences.GetOr(map[]);
      && key in written.value && written.value[key] == value
      && written.value.Keys == before.Keys + {key}
      && forall k :: k in before && k != key ==> written.value[k] == before[k]
  {
    if read.ReadFailed? {
      return None;
    }
    var prefs := read.preferences.GetOr(map[]);
    prefs := prefs[key := value];
    return Some(prefs);
  }
}
