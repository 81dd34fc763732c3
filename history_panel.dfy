/**
 * The saved-conversation list: the relative time shown for each entry and
 * the removal of a deleted entry.
 */
module HistoryPanel {
  import opened Strings
  import opened Sequences

  const MinuteMs := 60000
  const HourMs := 3600000
  const DayMs := 86400000

  /**
   * The local calendar fields `Date` reports for a time stamp: full year,
   * month counted from 0, day of month, hours and minutes.
   */
  datatype Calendar = Calendar(year: int, month: nat, day: nat, hours: nat, minutes: nat)

  predicate ValidCalendar(c: Calendar) {
    c.month < 12 && 1 <= c.day <= 31 && c.hours < 24 && c.minutes < 60
  }

  /**
   * The age of a time stamp `ts` at `now`: "刚刚" under a minute (also for
   * time stamps in the future), whole minutes under an hour, whole hours
   * under a day, then the date, with the year only when it differs from
   * this year's.
   */
  function FormatTime(ts: int, now: int, stamp: Calendar, thisYear: int): string {
    var age := now - ts;
    if age < MinuteMs then "刚刚"
    else if age < HourMs then NatToString(age / MinuteMs) + " 分钟前"
    else if age < DayMs then NatToString(age / HourMs) + " 小时前"
    else if stamp.year == thisYear then
      NatToString(stamp.month + 1) + "/" + NatToString(stamp.day) + " "
        + Pad2(stamp.hours) + ":" + Pad2(stamp.minutes)
    else
      IntToString(stamp.year) + "/" + NatToString(stamp.month + 1) + "/" + NatToString(stamp.day)
  }

  /** A number printed in front of `suffix`: the text splits back into the digits and the suffix. */
  predicate ReadsAs(s: string, n: nat, suffix: string) {
    && |suffix| < |s| && s[|s| - |suffix|..] == suffix
    && var digits := s[..|s| - |suffix|];
       (forall i :: 0 <= i < |digits| ==> IsDigit(digits[i])) && ParseDigits(digits) == n
  }

  /**
   * The minute and hour buckets print a count that reads back as the whole
   * number of minutes (1 to 59) or hours (1 to 23) elapsed.
   */
  lemma {:induction false} RelativeBuckets(ts: int, now: int, stamp: Calendar, thisYear: int)
    ensures var age := now - ts;
      var s := FormatTime(ts, now, stamp, thisYear);
      && (age < MinuteMs ==> s == "刚刚")
      && (MinuteMs <= age < HourMs ==> 1 <= age / MinuteMs <= 59 && ReadsAs(s, age / MinuteMs, " 分钟前"))
      && (HourMs <= age < DayMs ==> 1 <= age / HourMs <= 23 && ReadsAs(s, age / HourMs, " 小时前"))
  {
    var age := now - ts;
    if MinuteMs <= age < HourMs {
      ParseNatToString(age / MinuteMs);
      var s := FormatTime(ts, now, stamp, thisYear);
      assert s == NatToString(age / MinuteMs) + " 分钟前";
      assert s[..|s| - 4] == NatToString(age / MinuteMs);
    } else if HourMs <= age < DayMs {
      ParseNatToString(age / HourMs);
      var s := FormatTime(ts, now, stamp, thisYear);
      assert s == NatToString(age / HourMs) + " 小时前";
      assert s[..|s| - 4] == NatToString(age / HourMs);
    }
  }

  /** Hours and minutes are printed with exactly two digits that read back as the number. */
  lemma {:induction false} Pad2ReadsBack(n: nat)
    requires n < 100
    ensures |Pad2(n)| == 2
    ensures forall i :: 0 <= i < 2 ==> IsDigit(Pad2(n)[i])
    ensures ParseDigits(Pad2(n)) == n
  {
    if n < 10 {
      var p := Pad2(n);
      assert p == ['0', DigitChar(n)];
      assert p[..1] == ['0'] && p[..1][..0] == [];
      assert ParseDigits(p) == ParseDigits(p[..1]) * 10 + DigitValue(p[1]);
    } else {
      ParseNatToString(n);
      assert NatToString(n / 10) == [DigitChar(n / 10)];
    }
  }

  /**
   * Older than a day in the current year, the text is "M/D HH:MM": it ends
   * in the two-digit hour, a colon and the two-digit minutes of the stamp.
   */
  lemma {:induction false} SameYearClock(ts: int, now: int, stamp: Calendar, thisYear: int)
    requires ValidCalendar(stamp)
    requires now - ts >= DayMs && stamp.year == thisYear
    ensures var s := FormatTime(ts, now, stamp, thisYear);
      && |s| >= 5
      && s[|s| - 3] == ':'
      && ParseDigits(s[|s| - 5..|s| - 3]) == stamp.hours
      && ParseDigits(s[|s| - 2..]) == stamp.minutes
  {
    Pad2ReadsBack(stamp.hours);
    Pad2ReadsBack(stamp.minutes);
    var s := FormatTime(ts, now, stamp, thisYear);
    var head := NatToString(stamp.month + 1) + "/" + NatToString(stamp.day) + " ";
    assert s == head + Pad2(stamp.hours) + ":" + Pad2(stamp.minutes);
    assert s[|s| - 5..|s| - 3] == Pad2(stamp.hours);
    assert s[|s| - 2..] == Pad2(stamp.minutes);
  }

  /** Another year: no clock time, and the text starts with the year. */
  lemma OtherYearDate(ts: int, now: int, stamp: Calendar, thisYear: int)
    requires now - ts >= DayMs && stamp.year != thisYear
    ensures var s := FormatTime(ts, now, stamp, thisYear);
      && ':' !in s
      && StartsWith(s, IntToString(stamp.year) + "/")
  {
    var s := FormatTime(ts, now, stamp, thisYear);
    var y, m, d := IntToString(stamp.year), NatToString(stamp.month + 1), NatToString(stamp.day);
    assert s == y + "/" + m + "/" + d;
    assert ':' !in y by {
      if stamp.year < 0 {
        assert y == "-" + NatToString(-stamp.year);
      }
    }
  }

  /** A saved conversation as listed. */
  datatype SessionMeta = SessionMeta(id: string, title: string, createdAt: int, updatedAt: int, messageCount: nat, preview: string)

  /** `prev.filter(s => s.id !== id)`. */
  function DeleteSession(sessions: seq<SessionMeta>, id: string): seq<SessionMeta>
    decreases |sessions|
  {
    if sessions == [] then []
    else
      var rest := DeleteSession(sessions[..|sessions| - 1], id);
      var s := sessions[|sessions| - 1];
      if s.id != id then rest + [s] else rest
  }

  /** Deleting removes exactly the entries with that id and keeps every other one. */
  lemma {:induction false} DeleteExactly(sessions: seq<SessionMeta>, id: string)
    ensures forall x :: x in DeleteSession(sessions, id) <==> x in sessions && x.id != id
    decreases |sessions|
  {
    if sessions != [] {
      var p := sessions[..|sessions| - 1];
      var last := sessions[|sessions| - 1];
      DeleteExactly(p, id);
      assert sessions == p + [last];
      forall x ensures x in sessions <==> x in p || x == last {
      }
    }
  }

  /** The kept entries stay in their order, and nothing changes when no entry has the id. */
  lemma {:induction false} DeleteKeepsOrder(sessions: seq<SessionMeta>, id: string)
    ensures IsSubsequence(DeleteSession(sessions, id), sessions)
    ensures (forall i :: 0 <= i < |sessions| ==> sessions[i].id != id) ==> DeleteSession(sessions, id) == sessions
    decreases |sessions|
  {
    if sessions != [] {
      var p := sessions[..|sessions| - 1];
      var last := sessions[|sessions| - 1];
      DeleteKeepsOrder(p, id);
      assert sessions == p + [last];
      var kept := DeleteSession(p, id);
      if last.id != id {
        assert (kept + [last])[..|kept|] == kept;
        assert IsSubsequence(kept + [last], p + [last]);
      } else {
        SubsequenceExtend(kept, p, last);
      }
    }
  }
}
