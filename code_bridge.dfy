/**
 * The proxy's in-memory relays between the task pane and the WPS add-in:
 * the code-execution bridge (a FIFO of submitted code, a result table whose
 * entries are deleted 60 s after they are reported, and a read-only lookup),
 * the add-to-chat queue capped at 10 entries, and the stored WPS context.
 *
 * `Date.now()` is the bridge's logical clock `clock`; time passes only
 * through `Tick`, which fires the deletion timers that have come due, in the
 * order `setTimeout` fires them.
 */
module CodeBridge {
  import opened Wrappers
  import opened Strings
  import WpsAddon

  /** Milliseconds between a report and the deletion of its entry. */
  const ResultTtl := 60000
  /** The add-to-chat queue keeps at most this many entries. */
  const ChatQueueCap := 10

  /** An id issued by `POST /execute-code`: `exec-<counter>-<time>`. */
  function ExecId(counter: nat, stamp: nat): string {
    "exec-" + NatToString(counter) + "-" + NatToString(stamp)
  }

  predicate AllDigits(s: string) {
    forall i :: 0 <= i < |s| ==> IsDigit(s[i])
  }

  /** A shorter digit prefix puts its '-' where the longer one has a digit. */
  lemma DashBeforeDigit(a: string, b: string, c: string, d: string)
    requires AllDigits(c) && |a| < |c|
    ensures (a + "-" + b)[|a|] != (c + "-" + d)[|a|]
  {
    assert (a + "-" + b)[|a|] == '-';
    assert (c + "-" + d)[|a|] == c[|a|];
  }

  /** Two digit strings each followed by '-' cannot overlap differently. */
  lemma DashSplitUnique(a: string, b: string, c: string, d: string)
    requires AllDigits(a) && AllDigits(c)
    requires a + "-" + b == c + "-" + d
    ensures a == c && b == d
  {
    var x := a + "-" + b;
    if |a| < |c| {
      DashBeforeDigit(a, b, c, d);
      assert false;
    } else if |c| < |a| {
      DashBeforeDigit(c, d, a, b);
      assert false;
    }
    assert a == x[..|a|];
    assert c == x[..|c|];
    assert b == x[|a| + 1..];
    assert d == x[|c| + 1..];
  }

  /** Different counters or times give different ids: the id can be read back. */
  lemma {:induction false} ExecIdInjective(n: nat, s: nat, m: nat, t: nat)
    requires ExecId(n, s) == ExecId(m, t)
    ensures n == m && s == t
  {
    var x, y := ExecId(n, s), ExecId(m, t);
    assert x[5..] == NatToString(n) + "-" + NatToString(s);
    assert y[5..] == NatToString(m) + "-" + NatToString(t);
    DashSplitUnique(NatToString(n), NatToString(s), NatToString(m), NatToString(t));
    NatToStringInjective(n, m);
    NatToStringInjective(s, t);
  }

  /** A queued task as `/pending-code` hands it out. */
  datatype CodeTask = CodeTask(id: string, code: string, submittedAt: int)

  /** A stored report; an absent field of the report is stored as `null` (`None`). */
  datatype CodeResult = CodeResult(
    result: Option<string>,
    error: Option<string>,
    diff: Option<WpsAddon.DiffResult>,
    completedAt: int)

  /** A pending `setTimeout` that deletes the entry for `id` at time `fireAt`. */
  datatype Timer = Timer(id: string, fireAt: int)

  /** Timers are kept in the order they fire: by time, ties by scheduling order. */
  predicate FireOrdered(timers: seq<Timer>) {
    forall j, k :: 0 <= j < k < |timers| ==> timers[j].fireAt <= timers[k].fireAt
  }

  predicate HasTimer(timers: seq<Timer>, id: string, at: int) {
    exists k :: 0 <= k < |timers| && timers[k] == Timer(id, at)
  }

  predicate FiredFor(fired: seq<Timer>, id: string) {
    exists k :: 0 <= k < |fired| && fired[k].id == id
  }

  /** The table after the timers `fired` have run, one `delete` each. */
  function Evict(results: map<string, CodeResult>, fired: seq<Timer>): (r: map<string, CodeResult>)
    ensures forall id :: id in r <==> id in results && !FiredFor(fired, id)
    ensures forall id :: id in r ==> r[id] == results[id]
  {
    if fired == [] then results
    else
      var rest := Evict(results, fired[..|fired| - 1]);
      var last := fired[|fired| - 1];
      assert forall id :: FiredFor(fired, id) <==> FiredFor(fired[..|fired| - 1], id) || id == last.id by {
        forall id | FiredFor(fired, id) && id != last.id ensures FiredFor(fired[..|fired| - 1], id) {
          var k :| 0 <= k < |fired| && fired[k].id == id;
          assert fired[..|fired| - 1][k] == fired[k];
        }
        forall id | FiredFor(fired[..|fired| - 1], id) ensures FiredFor(fired, id) {
          var k :| 0 <= k < |fired| - 1 && fired[..|fired| - 1][k].id == id;
          assert fired[k].id == id;
        }
      }
      rest - {last.id}
  }

  /** Firing one more timer deletes one more entry. */
  lemma EvictStep(results: map<string, CodeResult>, fired: seq<Timer>, t: Timer)
    ensures Evict(results, fired + [t]) == Evict(results, fired) - {t.id}
  {
    assert (fired + [t])[..|fired|] == fired;
  }

  /** Firing one more timer of the list removes that timer's entry. */
  lemma EvictNext(results: map<string, CodeResult>, timers: seq<Timer>, n: nat)
    requires n < |timers|
    ensures Evict(results, timers[..n + 1]) == Evict(results, timers[..n]) - {timers[n].id}
  {
    assert timers[..n + 1] == timers[..n] + [timers[n]];
    EvictStep(results, timers[..n], timers[n]);
  }

  /** How many timers at the front of the list are due at time `now`. */
  function DueCount(timers: seq<Timer>, now: int): (n: nat)
    ensures n <= |timers|
    ensures forall k :: 0 <= k < n ==> timers[k].fireAt <= now
    ensures n < |timers| ==> timers[n].fireAt > now
  {
    if timers == [] || timers[0].fireAt > now then 0 else 1 + DueCount(timers[1..], now)
  }

  /** With the timers in firing order, every timer left after the due ones is later than `now`. */
  lemma {:induction false} RemainingTimersAreLater(timers: seq<Timer>, now: int)
    requires FireOrdered(timers)
    ensures forall k :: DueCount(timers, now) <= k < |timers| ==> timers[k].fireAt > now
  {
  }

  /** The pending timers are in firing order, all in the future and at most 60 s ahead. */
  predicate TimersPending(timers: seq<Timer>, clock: int) {
    && FireOrdered(timers)
    && (forall k :: 0 <= k < |timers| ==> clock < timers[k].fireAt <= clock + ResultTtl)
  }

  /** Every stored entry was reported no later than now and its own deletion timer is pending. */
  predicate EntriesTimed(results: map<string, CodeResult>, timers: seq<Timer>, clock: int) {
    forall id :: id in results ==>
      results[id].completedAt <= clock && HasTimer(timers, id, results[id].completedAt + ResultTtl)
  }

  /** Every queued task carries an id issued with one of `stamps`, and no two share one. */
  predicate QueueIdsIssued(queue: seq<CodeTask>, stamps: seq<nat>) {
    && (forall k :: 0 <= k < |queue| ==> exists j :: 0 <= j < |stamps| && queue[k].id == ExecId(j + 1, stamps[j]))
    && (forall j, k :: 0 <= j < k < |queue| ==> queue[j].id != queue[k].id)
  }

  /** The next id, issued after every stamp so far, belongs to no queued task. */
  lemma FreshIdUnqueued(queue: seq<CodeTask>, stamps: seq<nat>, now: nat)
    requires QueueIdsIssued(queue, stamps)
    ensures forall k :: 0 <= k < |queue| ==> queue[k].id != ExecId(|stamps| + 1, now)
  {
    forall k | 0 <= k < |queue| ensures queue[k].id != ExecId(|stamps| + 1, now) {
      var j :| 0 <= j < |stamps| && queue[k].id == ExecId(j + 1, stamps[j]);
      if queue[k].id == ExecId(|stamps| + 1, now) {
        ExecIdInjective(j + 1, stamps[j], |stamps| + 1, now);
      }
    }
  }

  /** Queueing a task under the next id, and recording its stamp, keeps the queue's ids issued and distinct. */
  lemma QueueIdsExtend(queue: seq<CodeTask>, stamps: seq<nat>, code: string, now: nat)
    requires QueueIdsIssued(queue, stamps)
    requires forall k :: 0 <= k < |queue| ==> queue[k].id != ExecId(|stamps| + 1, now)
    ensures QueueIdsIssued(queue + [CodeTask(ExecId(|stamps| + 1, now), code, now)], stamps + [now])
  {
    var q, st := queue + [CodeTask(ExecId(|stamps| + 1, now), code, now)], stamps + [now];
    forall k | 0 <= k < |q| ensures exists j :: 0 <= j < |st| && q[k].id == ExecId(j + 1, st[j]) {
      if k == |queue| {
        assert q[k].id == ExecId(|stamps| + 1, st[|stamps|]);
      } else {
        var j :| 0 <= j < |stamps| && queue[k].id == ExecId(j + 1, stamps[j]);
        assert q[k].id == ExecId(j + 1, st[j]);
      }
    }
    forall j, k | 0 <= j < k < |q| ensures q[j].id != q[k].id {
      if k < |queue| {
        assert q[j] == queue[j] && q[k] == queue[k];
      }
    }
    assert forall k :: 0 <= k < |q| ==> exists j :: 0 <= j < |st| && q[k].id == ExecId(j + 1, st[j]);
    assert forall j, k :: 0 <= j < k < |q| ==> q[j].id != q[k].id;
  }

  /**
   * After the first `i` timers fired, every surviving entry still has its own
   * timer among the remaining ones.
   */
  lemma EvictKeepsOwnTimers(results: map<string, CodeResult>, ts: seq<Timer>, i: nat, now: int)
    requires i <= |ts| && EntriesTimed(results, ts, now)
    ensures var table := Evict(results, ts[..i]);
      forall id :: id in table ==> HasTimer(ts[i..], id, table[id].completedAt + ResultTtl)
  {
    var table := Evict(results, ts[..i]);
    forall id | id in table ensures HasTimer(ts[i..], id, table[id].completedAt + ResultTtl) {
      KeepsOwnTimer(results, ts, i, now, id);
    }
  }

  lemma KeepsOwnTimer(results: map<string, CodeResult>, ts: seq<Timer>, i: nat, now: int, id: string)
    requires i <= |ts| && EntriesTimed(results, ts, now) && id in Evict(results, ts[..i])
    ensures HasTimer(ts[i..], id, results[id].completedAt + ResultTtl)
  {
    var k :| 0 <= k < |ts| && ts[k] == Timer(id, results[id].completedAt + ResultTtl);
    ListedFired(ts[..i], k);
    assert ts[i..][k - i] == ts[k];
  }

  /** A timer in the list has fired for its id. */
  lemma ListedFired(fired: seq<Timer>, k: int)
    ensures 0 <= k < |fired| ==> FiredFor(fired, fired[k].id)
  { }

  /**
   * When time moves on to `now`, the due timers fire and the rest stay
   * pending, and every surviving entry keeps its own timer.
   */
  lemma TickKeepsTimers(results: map<string, CodeResult>, timers: seq<Timer>, before: int, now: int)
    requires TimersPending(timers, before) && EntriesTimed(results, timers, before) && before <= now
    ensures var n := DueCount(timers, now);
      && TimersPending(timers[n..], now)
      && EntriesTimed(Evict(results, timers[..n]), timers[n..], now)
  {
    var n := DueCount(timers, now);
    TimersAfterTick(timers, before, now);
    EntriesAfterTick(results, timers, n, before, now);
  }

  lemma TimersAfterTick(timers: seq<Timer>, before: int, now: int)
    requires TimersPending(timers, before) && before <= now
    ensures TimersPending(timers[DueCount(timers, now)..], now)
  {
    var n := DueCount(timers, now);
    RemainingTimersAreLater(timers, now);
    var rest := timers[n..];
    forall j, k | 0 <= j < k < |rest| ensures rest[j].fireAt <= rest[k].fireAt {
      assert rest[j] == timers[n + j] && rest[k] == timers[n + k];
    }
    forall k | 0 <= k < |rest| ensures now < rest[k].fireAt <= now + ResultTtl {
      assert rest[k] == timers[n + k];
    }
  }

  lemma EntriesAfterTick(results: map<string, CodeResult>, timers: seq<Timer>, n: nat, before: int, now: int)
    requires n <= |timers| && EntriesTimed(results, timers, before) && before <= now
    ensures EntriesTimed(Evict(results, timers[..n]), timers[n..], now)
  {
    var table := Evict(results, timers[..n]);
    forall id | id in table
      ensures table[id].completedAt <= now && HasTimer(timers[n..], id, table[id].completedAt + ResultTtl)
    {
      KeepsOwnTimer(results, timers, n, before, id);
    }
  }

  class Bridge {
    var queue: seq<CodeTask>
    var results: map<string, CodeResult>
    var counter: nat
    var timers: seq<Timer>
    var clock: nat
    /** The time stamp embedded in each issued id, in issue order. */
    ghost var stamps: seq<nat>

    /**
     * The bridge's invariant: deletion timers are in firing order and all in
     * the future, at most 60 s ahead; every stored entry was reported no later
     * than now and its own deletion timer is pending; every queued task
     * carries an issued id, and no two queued tasks share one.
     */
    ghost predicate Valid()
      reads this
    {
      && TimersPending(timers, clock)
      && EntriesTimed(results, timers, clock)
      && |stamps| == counter
      && QueueIdsIssued(queue, stamps)
    }

    constructor(start: nat)
      ensures Valid()
      ensures queue == [] && results == map[] && counter == 0 && timers == [] && clock == start
    {
      queue, results, counter, timers, clock := [], map[], 0, [], start;
      stamps := [];
    }

    /**
     * `POST /execute-code`: missing or empty code is refused (400) and
     * nothing changes; otherwise the counter is pre-incremented and one task
     * with the new id is appended at the tail of the queue.
     */
    method Submit(code: Option<string>) returns (id: Option<string>)
      requires Valid()
      modifies this
      ensures Valid()
      ensures !Truthy(code) ==> id.None? && unchanged(this)
      ensures Truthy(code) ==>
        && id == Some(ExecId(old(counter) + 1, clock))
        && counter == old(counter) + 1
        && queue == old(queue) + [CodeTask(id.value, code.value, clock)]
        && (forall k :: 0 <= k < |old(queue)| ==> old(queue)[k].id != id.value)
        && results == old(results) && timers == old(timers) && clock == old(clock)
    {
      if !Truthy(code) {
        return None;
      }
      var newId := ExecId(counter + 1, clock);
      FreshIdUnqueued(queue, stamps, clock);
      QueueIdsExtend(queue, stamps, code.value, clock);
      counter := counter + 1;
      stamps := stamps + [clock];
      queue := queue + [CodeTask(newId, code.value, clock)];
      id := Some(newId);
    }

    /** `GET /pending-code`: nothing on an empty queue; otherwise the head, removed. */
    method PollPending() returns (task: Option<CodeTask>)
      requires Valid()
      modifies this
      ensures Valid()
      ensures old(queue) == [] ==> task.None? && unchanged(this)
      ensures old(queue) != [] ==>
        && task == Some(old(queue)[0])
        && queue == old(queue)[1..]
        && results == old(results) && counter == old(counter) && timers == old(timers) && clock == old(clock)
    {
      if queue == [] {
        return None;
      }
      task := Some(queue[0]);
      queue := queue[1..];
      assert forall k :: 0 <= k < |queue| ==> queue[k] == old(queue)[k + 1];
    }

    /**
     * `POST /code-result`: a report without an id is refused; otherwise the
     * entry for the id is (over)written with the absent fields as `null`, and
     * a deletion timer is set 60 s ahead.
     */
    method ReportResult(id: Option<string>, result: Option<string>, error: Option<string>,
                        diff: Option<WpsAddon.DiffResult>) returns (accepted: bool)
      requires Valid()
      modifies this
      ensures Valid()
      ensures accepted <==> Truthy(id)
      ensures !accepted ==> unchanged(this)
      ensures accepted ==>
        && results == old(results)[id.value := CodeResult(result, error, diff, clock)]
        && timers == old(timers) + [Timer(id.value, clock + ResultTtl)]
        && queue == old(queue) && counter == old(counter) && clock == old(clock)
    {
      if !Truthy(id) {
        return false;
      }
      var key := id.value;
      var entry := CodeResult(result, error, diff, clock);
      var t := Timer(key, clock + ResultTtl);
      forall i | key != i && i in results ensures HasTimer(timers + [t], i, results[i].completedAt + ResultTtl) {
        var k :| 0 <= k < |timers| && timers[k] == Timer(i, results[i].completedAt + ResultTtl);
        assert (timers + [t])[k] == timers[k];
      }
      assert (timers + [t])[|timers|] == t;
      results := results[key := entry];
      timers := timers + [t];
      accepted := true;
    }

    /** `GET /code-result/:id`: the stored entry, or not ready; the table is only read. */
    function Lookup(id: string): (entry: Option<CodeResult>)
      reads this
      ensures entry.Some? <==> id in results
      ensures entry.Some? ==> entry.value == results[id]
    {
      if id in results then Some(results[id]) else None
    }

    /**
     * Let `elapsed` milliseconds pass: every deletion timer due by the new
     * time fires, in order, and deletes the entry for its id.
     */
    method Tick(elapsed: nat)
      requires Valid()
      modifies this
      ensures Valid()
      ensures clock == old(clock) + elapsed
      ensures var n := DueCount(old(timers), clock);
        && timers == old(timers)[n..]
        && results == Evict(old(results), old(timers)[..n])
      ensures queue == old(queue) && counter == old(counter)
    {
      clock := clock + elapsed;
      var n, table := FireDueTimers(results, timers, clock);
      TickKeepsTimers(results, timers, old(clock), clock);
      timers, results := timers[n..], table;
    }

    /** No entry outlives its report by 60 s or more. */
    lemma EntriesExpireWithinTtl()
      requires Valid()
      ensures forall id :: id in results ==> clock < results[id].completedAt + ResultTtl
    {
      forall id | id in results ensures clock < results[id].completedAt + ResultTtl {
        var k :| 0 <= k < |timers| && timers[k] == Timer(id, results[id].completedAt + ResultTtl);
      }
    }
  }

  /**
   * The timer loop of `setTimeout`: fire the due timers at the front of the
   * list, each deleting its entry, and report how many fired.
   */
  method FireDueTimers(results: map<string, CodeResult>, timers: seq<Timer>, now: int)
    returns (n: nat, table: map<string, CodeResult>)
    ensures n == DueCount(timers, now)
    ensures table == Evict(results, timers[..n])
  {
    n, table := 0, results;
    while n < |timers| && timers[n].fireAt <= now
      invariant 0 <= n <= |timers|
      invariant forall k :: 0 <= k < n ==> timers[k].fireAt <= now
      invariant table == Evict(results, timers[..n])
    {
      EvictNext(results, timers, n);
      table := table - {timers[n].id};
      n := n + 1;
    }
    DueCountIsFirstLater(timers, now, n);
  }

  /** `DueCount` is the index of the first timer that is still in the future. */
  lemma {:induction false} DueCountIsFirstLater(timers: seq<Timer>, now: int, i: nat)
    requires i <= |timers|
    requires forall k :: 0 <= k < i ==> timers[k].fireAt <= now
    requires i == |timers| || timers[i].fireAt > now
    ensures DueCount(timers, now) == i
  {
    if i > 0 {
      DueCountIsFirstLater(timers[1..], now, i - 1);
    }
  }

  // ---------------------------------------------------------------------------
  // Add to Chat

  /** An add-to-chat request body with its arrival time. */
  datatype ChatEntry<T> = ChatEntry(body: T, receivedAt: int)

  /** The queue after a push: the new entry at the tail, the oldest dropped past 10. */
  function PushCapped<T>(items: seq<ChatEntry<T>>, e: ChatEntry<T>): (r: seq<ChatEntry<T>>)
  {
    var grown := items + [e];
    if |grown| > ChatQueueCap then grown[1..] else grown
  }

  /**
   * A push onto a queue within the cap keeps it within the cap, ends with the
   * new entry and keeps the previous entries in order, less at most the oldest.
   */
  lemma PushCappedBounds<T>(items: seq<ChatEntry<T>>, e: ChatEntry<T>)
    requires |items| <= ChatQueueCap
    ensures var r := PushCapped(items, e);
      && |r| <= ChatQueueCap
      && r[|r| - 1] == e
      && (|items| < ChatQueueCap ==> r == items + [e])
      && (|items| == ChatQueueCap ==> r == items[1..] + [e])
  {
  }

  class AddToChatQueue<T> {
    var items: seq<ChatEntry<T>>

    ghost predicate Valid()
      reads this
    {
      |items| <= ChatQueueCap
    }

    constructor()
      ensures Valid() && items == []
    {
      items := [];
    }

    /** `POST /add-to-chat`: append the body stamped with `now`, then drop the oldest beyond 10. */
    method Push(body: T, now: int)
      requires Valid()
      modifies this
      ensures Valid()
      ensures items == PushCapped(old(items), ChatEntry(body, now))
    {
      items := items + [ChatEntry(body, now)];
      if |items| > ChatQueueCap {
        items := items[1..];
      }
    }

    /** `GET /add-to-chat/poll`: nothing when empty, otherwise the oldest entry, removed. */
    method Poll() returns (e: Option<ChatEntry<T>>)
      requires Valid()
      modifies this
      ensures Valid()
      ensures old(items) == [] ==> e.None? && items == []
      ensures old(items) != [] ==> e == Some(old(items)[0]) && items == old(items)[1..]
    {
      if items == [] {
        return None;
      }
      e := Some(items[0]);
      items := items[1..];
    }
  }

  // ---------------------------------------------------------------------------
  // WPS context relay

  /** A posted context: its document name and the rest of the body; `timestamp` is added on storing. */
  datatype WpsContext<T> = WpsContext(documentName: Option<string>, rest: T, timestamp: int)

  /**
   * `POST /wps-context`: a body without a document name does not replace a
   * stored context that has one (`skipped`); any other body replaces it.
   */
  function PostContext<T>(stored: WpsContext<T>, name: Option<string>, rest: T, now: int): (r: (WpsContext<T>, bool))
  {
    if !Truthy(name) && Truthy(stored.documentName) then (stored, true)
    else (WpsContext(name, rest, now), false)
  }

  /** A named document is never replaced by an unnamed one; a skip keeps the context as it was. */
  lemma PostContextKeepsName<T>(stored: WpsContext<T>, name: Option<string>, rest: T, now: int)
    ensures var (next, skipped) := PostContext(stored, name, rest, now);
      && (Truthy(stored.documentName) ==> Truthy(next.documentName))
      && (skipped <==> !Truthy(name) && Truthy(stored.documentName))
      && (skipped ==> next == stored)
      && (!skipped ==> next == WpsContext(name, rest, now))
  {
  }
}
