/** Option type used for JavaScript's `undefined`/`null` and for reads that may fail. */
module Wrappers {

  datatype Option<+T> = None | Some(value: T) {

    /** The value, or `default` when absent (JavaScript's `x ?? default`). */
    function GetOr(default: T): T {
      match this
      case Some(v) => v
      case None => default
    }
  }

  /** JavaScript truthiness of an optional string: present and non-empty. */
  predicate Truthy(s: Option<string>) {
    s.Some? && s.value != ""
  }
}

/**
 * The JavaScript string operations the plug-in relies on, over `seq<char>`.
 * Lengths count characters; for text in the Basic Multilingual Plane this is
 * JavaScript's UTF-16 length.
 */
module Strings {

  /** Characters JavaScript's `String.prototype.trim` and the regex class `\s` treat as white space. */
  predicate IsSpace(c: char) {
    c == ' ' || c == '\t' || c == '\n' || c == '\r' || c == '\U{000B}' || c == '\U{000C}'
    || c == '\U{00A0}' || c == '\U{1680}' || ('\U{2000}' <= c <= '\U{200A}')
    || c == '\U{2028}' || c == '\U{2029}' || c == '\U{202F}' || c == '\U{205F}'
    || c == '\U{3000}' || c == '\U{FEFF}'
  }

  /** Characters the regex `.` does not match (line terminators). */
  predicate IsLineTerminator(c: char) {
    c == '\n' || c == '\r' || c == '\U{2028}' || c == '\U{2029}'
  }

  /** Regex `\w`: ASCII letters, digits and underscore. */
  predicate IsWordChar(c: char) {
    ('a' <= c <= 'z') || ('A' <= c <= 'Z') || ('0' <= c <= '9') || c == '_'
  }

  predicate IsDigit(c: char) {
    '0' <= c <= '9'
  }

  function TrimStart(s: string): string {
    if s == [] || !IsSpace(s[0]) then s else TrimStart(s[1..])
  }

  function TrimEnd(s: string): string {
    if s == [] || !IsSpace(s[|s| - 1]) then s else TrimEnd(s[..|s| - 1])
  }

  /** `TrimStart` drops a run of white space from the front and stops at the first other character. */
  lemma {:induction false} TrimStartIsSuffix(s: string)
    ensures var r := TrimStart(s);
      |r| <= |s| && r == s[|s| - |r|..] && (r == [] || !IsSpace(r[0]))
    decreases |s|
  {
    if s != [] && IsSpace(s[0]) {
      TrimStartIsSuffix(s[1..]);
    }
  }

  /** `TrimEnd` drops a run of white space from the back and stops at the last other character. */
  lemma {:induction false} TrimEndIsPrefix(s: string)
    ensures var r := TrimEnd(s);
      |r| <= |s| && r == s[..|r|] && (r == [] || !IsSpace(r[|r| - 1]))
    decreases |s|
  {
    if s != [] && IsSpace(s[|s| - 1]) {
      TrimEndIsPrefix(s[..|s| - 1]);
    }
  }

  /** `s.trim()`: the longest infix of `s` without white space at either end. */
  function Trim(s: string): string {
    TrimEnd(TrimStart(s))
  }

  /** `Trim` removes only white space at the two ends and keeps the middle. */
  lemma TrimIsInfix(s: string)
    ensures exists i :: OccursAt(s, Trim(s), i)
    ensures Trim(s) == [] || (!IsSpace(Trim(s)[0]) && !IsSpace(Trim(s)[|Trim(s)| - 1]))
  {
    var t := TrimStart(s);
    TrimStartIsSuffix(s);
    TrimEndIsPrefix(t);
    var i := |s| - |t|;
    assert OccursAt(s, Trim(s), i);
  }

  /** A string without white space at its ends is its own trim. */
  lemma TrimOfTrimmed(s: string)
    requires s == [] || (!IsSpace(s[0]) && !IsSpace(s[|s| - 1]))
    ensures Trim(s) == s
  {
  }

  /** Trimming twice is trimming once. */
  lemma TrimIdempotent(s: string)
    ensures Trim(Trim(s)) == Trim(s)
  {
    TrimIsInfix(s);
    TrimOfTrimmed(Trim(s));
  }

  /** `s.substring(0, n)` for `n >= 0`. */
  function Take(s: string, n: nat): (r: string)
    ensures |r| == if |s| <= n then |s| else n
    ensures r == s[..|r|]
  {
    if |s| <= n then s else s[..n]
  }

  /** ASCII upper case to lower case; other characters are kept. */
  function LowerChar(c: char): char {
    if 'A' <= c <= 'Z' then (c as int - 'A' as int + 'a' as int) as char else c
  }

  /** `s.toLowerCase()` restricted to ASCII letters. */
  function ToLower(s: string): (r: string)
    ensures |r| == |s|
    ensures forall i :: 0 <= i < |s| ==> r[i] == LowerChar(s[i])
  {
    if s == [] then [] else [LowerChar(s[0])] + ToLower(s[1..])
  }

  predicate StartsWith(s: string, prefix: string) {
    |prefix| <= |s| && s[..|prefix|] == prefix
  }

  predicate EndsWith(s: string, suffix: string) {
    |suffix| <= |s| && s[|s| - |suffix|..] == suffix
  }

  /** `needle` occurs in `hay` starting at position `i`. */
  predicate OccursAt(hay: string, needle: string, i: int) {
    0 <= i && i + |needle| <= |hay| && hay[i..i + |needle|] == needle
  }

  /** `hay.includes(needle)`: some position of `hay` starts a copy of `needle`. */
  predicate Contains(hay: string, needle: string)
    ensures Contains(hay, needle) <==> exists i :: OccursAt(hay, needle, i)
  {
    ContainsFrom(hay, needle, 0)
  }

  /** The executable search behind `Contains`, scanning positions left to right. */
  function ContainsFrom(hay: string, needle: string, from: nat): (b: bool)
    requires from <= |hay| + 1
    ensures b <==> exists i :: from <= i && OccursAt(hay, needle, i)
    decreases |hay| + 1 - from
  {
    if from + |needle| > |hay| then false
    else if hay[from..from + |needle|] == needle then (assert OccursAt(hay, needle, from); true)
    else ContainsFrom(hay, needle, from + 1)
  }

  /** `s.split(c)`: the pieces between occurrences of `c`; there is always at least one piece. */
  function Split(s: string, c: char): (pieces: seq<string>)
    ensures |pieces| >= 1
    ensures forall k :: 0 <= k < |pieces| ==> c !in pieces[k]
    decreases |s|
  {
    if s == [] then [""]
    else
      var rest := Split(s[1..], c);
      if s[0] == c then [""] + rest
      else [[s[0]] + rest[0]] + rest[1..]
  }

  /** Text without the separator splits into itself alone. */
  lemma {:induction false} SplitWithoutSeparator(s: string, c: char)
    requires c !in s
    ensures Split(s, c) == [s]
    decreases |s|
  {
    if s != [] {
      SplitWithoutSeparator(s[1..], c);
      assert [s[0]] + s[1..] == s;
    }
  }

  /** Splitting at a separator splits the text before it and the text after it separately. */
  lemma {:induction false} SplitAtSeparator(a: string, b: string, c: char)
    ensures Split(a + [c] + b, c) == Split(a, c) + Split(b, c)
    decreases |a|
  {
    if a == [] {
      SplitCons(c, b, c);
      assert a + [c] + b == [c] + b;
    } else {
      SplitAtSeparator(a[1..], b, c);
      assert a + [c] + b == [a[0]] + (a[1..] + [c] + b);
      assert a == [a[0]] + a[1..];
      SplitCons(a[0], a[1..] + [c] + b, c);
      SplitCons(a[0], a[1..], c);
      if a[0] != c {
        GlueFirst([a[0]], Split(a[1..], c), Split(b, c));
      }
    }
  }

  /** One step of `Split`: the first character either ends a piece or joins the first piece. */
  lemma SplitCons(x: char, t: string, c: char)
    ensures Split([x] + t, c) ==
      if x == c then [""] + Split(t, c) else [[x] + Split(t, c)[0]] + Split(t, c)[1..]
  {
    assert ([x] + t)[1..] == t;
  }

  lemma GlueFirst(x: string, head: seq<string>, tail: seq<string>)
    requires |head| >= 1
    ensures [x + (head + tail)[0]] + (head + tail)[1..] == ([x + head[0]] + head[1..]) + tail
  {
    assert (head + tail)[1..] == head[1..] + tail;
  }

  /** `pieces.join(c)` for a one-character separator. */
  function Join(pieces: seq<string>, c: char): string
    decreases |pieces|
  {
    if pieces == [] then ""
    else if |pieces| == 1 then pieces[0]
    else pieces[0] + [c] + Join(pieces[1..], c)
  }

  /** Splitting and re-joining on the same character gives the original text back. */
  lemma {:induction false} JoinSplit(s: string, c: char)
    ensures Join(Split(s, c), c) == s
    decreases |s|
  {
    if s != [] {
      JoinSplit(s[1..], c);
      var rest := Split(s[1..], c);
      if s[0] == c {
        assert Split(s, c) == [""] + rest;
        assert s == [c] + s[1..];
      } else {
        var pieces := Split(s, c);
        assert pieces == [[s[0]] + rest[0]] + rest[1..];
        if |rest| == 1 {
          assert pieces == [[s[0]] + rest[0]];
        } else {
          assert pieces[1..] == rest[1..];
          assert Join(rest, c) == rest[0] + [c] + Join(rest[1..], c);
        }
      }
    }
  }

  /** The number of pieces of `s.split(c)` is one more than the number of occurrences of `c`. */
  function Count(s: string, c: char): nat {
    if s == [] then 0 else (if s[0] == c then 1 else 0) + Count(s[1..], c)
  }

  lemma {:induction false} SplitLength(s: string, c: char)
    ensures |Split(s, c)| == Count(s, c) + 1
    decreases |s|
  {
    if s != [] {
      SplitLength(s[1..], c);
    }
  }

  /** Concatenation of `pieces[k] + [c]` for every piece: what a line reader has consumed. */
  function Lines(pieces: seq<string>, c: char): string
    decreases |pieces|
  {
    if pieces == [] then "" else pieces[0] + [c] + Lines(pieces[1..], c)
  }

  /** `Join` of a non-empty list is the terminated lines of all but the last, then the last. */
  lemma {:induction false} JoinAsLines(pieces: seq<string>, c: char)
    requires |pieces| >= 1
    ensures Join(pieces, c) == Lines(pieces[..|pieces| - 1], c) + pieces[|pieces| - 1]
    decreases |pieces|
  {
    if |pieces| > 1 {
      JoinAsLines(pieces[1..], c);
      assert pieces[1..][..|pieces| - 2] == pieces[..|pieces| - 1][1..];
    }
  }

  /** Terminated lines without the separator split back into those lines and an empty rest. */
  lemma {:induction false} SplitOfLines(pieces: seq<string>, c: char)
    requires forall k :: 0 <= k < |pieces| ==> c !in pieces[k]
    ensures Split(Lines(pieces, c), c) == pieces + [""]
    decreases |pieces|
  {
    if pieces == [] {
      assert Split("", c) == [""];
    } else {
      SplitOfLines(pieces[1..], c);
      SplitAtSeparator(pieces[0], Lines(pieces[1..], c), c);
      SplitWithoutSeparator(pieces[0], c);
      assert pieces == [pieces[0]] + pieces[1..];
    }
  }

  /** `"  ".repeat(n)` style repetition. */
  function Repeat(s: string, n: nat): (r: string)
    ensures |r| == n * |s|
  {
    if n == 0 then "" else s + Repeat(s, n - 1)
  }

  /** Replace every occurrence of character `a` by `b` (`s.replace(/a/g, b)`). */
  function ReplaceChar(s: string, a: char, b: char): (r: string)
    ensures |r| == |s|
    ensures forall i :: 0 <= i < |s| ==> r[i] == (if s[i] == a then b else s[i])
  {
    if s == [] then [] else [if s[0] == a then b else s[0]] + ReplaceChar(s[1..], a, b)
  }

  function DigitChar(d: nat): char
    requires d < 10
  {
    "0123456789"[d]
  }

  /** Decimal rendering of a natural number, as `String(n)` prints it. */
  function NatToString(n: nat): (r: string)
    ensures |r| >= 1
    ensures forall i :: 0 <= i < |r| ==> IsDigit(r[i])
    decreases n
  {
    if n < 10 then [DigitChar(n)] else NatToString(n / 10) + [DigitChar(n % 10)]
  }

  /** Decimal rendering of an integer, with a leading '-' for negatives. */
  function IntToString(n: int): string {
    if n < 0 then "-" + NatToString(-n) else NatToString(n)
  }

  function DigitValue(c: char): nat
    requires IsDigit(c)
  {
    c as int - '0' as int
  }

  /** Reads back a string of decimal digits. */
  function ParseDigits(s: string): nat
    requires forall i :: 0 <= i < |s| ==> IsDigit(s[i])
  {
    if s == [] then 0 else ParseDigits(s[..|s| - 1]) * 10 + DigitValue(s[|s| - 1])
  }

  lemma {:induction false} ParseNatToString(n: nat)
    ensures ParseDigits(NatToString(n)) == n
    decreases n
  {
    if n >= 10 {
      ParseNatToString(n / 10);
      var r := NatToString(n);
      assert r[..|r| - 1] == NatToString(n / 10);
    }
  }

  /** Different numbers print differently. */
  lemma NatToStringInjective(m: nat, n: nat)
    requires NatToString(m) == NatToString(n)
    ensures m == n
  {
    ParseNatToString(m);
    ParseNatToString(n);
  }

  /** `String(n).padStart(2, "0")` for a natural number. */
  function Pad2(n: nat): (r: string)
    ensures |r| >= 2
  {
    if n < 10 then "0" + NatToString(n) else NatToString(n)
  }
}

/** Order-preserving selection from a sequence. */
module Sequences {

  /** `m` is `s` with some elements left out and the rest kept in order. */
  predicate IsSubsequence<T(==)>(m: seq<T>, s: seq<T>)
    decreases |s|
  {
    if m == [] then true
    else if s == [] then false
    else if m[|m| - 1] == s[|s| - 1] then IsSubsequence(m[..|m| - 1], s[..|s| - 1])
    else IsSubsequence(m, s[..|s| - 1])
  }

  /** Appending an element to the longer sequence keeps a subsequence one. */
  lemma {:induction false} SubsequenceExtend<T>(m: seq<T>, s: seq<T>, x: T)
    requires IsSubsequence(m, s)
    ensures IsSubsequence(m, s + [x])
    decreases |s|, 2
  {
    assert (s + [x])[..|s|] == s;
    if m != [] && m[|m| - 1] == x {
      SubsequenceDropLast(m, s);
    }
  }

  /** Dropping the last element of a subsequence leaves a subsequence. */
  lemma {:induction false} SubsequenceDropLast<T>(m: seq<T>, s: seq<T>)
    requires m != [] && IsSubsequence(m, s)
    ensures IsSubsequence(m[..|m| - 1], s)
    decreases |s|, 1
  {
    var p, y := s[..|s| - 1], s[|s| - 1];
    assert s == p + [y];
    if m[|m| - 1] != y {
      SubsequenceDropLast(m, p);
    }
    SubsequenceExtend(m[..|m| - 1], p, y);
  }

}
