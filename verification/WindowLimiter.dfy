/** The sliding-window limiter of the demo API.

    It keeps a bounded table of recent accepted calls. It is compared with a
    limiter that forgets nothing: what pruning and eviction throw away never
    changes an answer. Instants come from a clock that does not run backwards;
    `period` is the common window length. */
module WindowLimiter {
  import opened Basics

  type Key = string
  type Instant = real
  type Table = map<Key, seq<Instant>>

  datatype Call = Call(key: Key, maximum: int, now: Instant)

  const LIMIT := 4096

  function Of(table: Table, key: Key): seq<Instant> {
    if key in table then table[key] else []
  }

  function Live(table: Table, since: Instant): Table {
    map key | key in table && table[key] != [] && table[key][|table[key]| - 1] > since :: table[key]
  }

  function Pruned(queue: seq<Instant>, since: Instant): seq<Instant> {
    if queue != [] && queue[0] <= since then Pruned(queue[1..], since) else queue
  }

  /** Old keys go only when a new key finds the table full. */
  function Swept(table: Table, call: Call, period: real): Table {
    if call.key !in table && |table| >= LIMIT then Live(table, call.now - period) else table
  }

  predicate Refused(swept: Table, call: Call) {
    call.key !in swept && |swept| >= LIMIT
  }

  predicate Admits(table: Table, call: Call, period: real) {
    var swept := Swept(table, call, period);
    !Refused(swept, call) && |Pruned(Of(swept, call.key), call.now - period)| < call.maximum
  }

  function Next(table: Table, call: Call, period: real): Table {
    var swept := Swept(table, call, period);
    if Refused(swept, call) then swept
    else
      var queue := Pruned(Of(swept, call.key), call.now - period);
      swept[call.key := if |queue| < call.maximum then queue + [call.now] else queue]
  }

  // ---- the program ----

  class Limiter {
    const period: real
    var events: Table

    constructor (period: real)
      ensures this.period == period && events == map[]
    {
      this.period := period;
      events := map[];
    }

    method Check(key: Key, maximum: int, now: Instant) returns (accepted: bool)
      modifies this
      ensures accepted == Admits(old(events), Call(key, maximum, now), period)
      ensures events == Next(old(events), Call(key, maximum, now), period)
    {
      if key !in events && |events| >= LIMIT {
        events := Live(events, now - period);
        if |events| >= LIMIT {
          return false;
        }
      }
      if key !in events {
        events := events[key := []];
      }
      ghost var queue := events[key];
      while events[key] != [] && events[key][0] <= now - period
        invariant key in events && events == Swept(old(events), Call(key, maximum, now), period)[key := events[key]]
        invariant Pruned(events[key], now - period) == Pruned(queue, now - period)
        decreases |events[key]|
      {
        events := events[key := events[key][1..]];
      }
      if |events[key]| >= maximum {
        return false;
      }
      events := events[key := events[key] + [now]];
      return true;
    }
  }

  // ---- a run, and its whole history ----

  ghost function TableAfter(calls: seq<Call>, period: real): Table {
    if calls == [] then map[]
    else Next(TableAfter(calls[..|calls| - 1], period), calls[|calls| - 1], period)
  }

  /** Every call of the key that was ever accepted. */
  ghost function History(calls: seq<Call>, period: real, key: Key): seq<Instant> {
    if calls == [] then []
    else
      var before, call := calls[..|calls| - 1], calls[|calls| - 1];
      var past := History(before, period, key);
      if call.key == key && Admits(TableAfter(before, period), call, period) then past + [call.now] else past
  }

  ghost predicate Monotone(calls: seq<Call>) {
    forall i, j :: 0 <= i < j < |calls| ==> calls[i].now <= calls[j].now
  }

  /** Accepted instants in the window that reaches back from `until` to, but not
      including, `since`. */
  function Between(history: seq<Instant>, since: Instant, until: Instant): nat {
    if history == [] then 0
    else
      var t := history[|history| - 1];
      Between(history[..|history| - 1], since, until) + if since < t <= until then 1 else 0
  }

  function Recent(history: seq<Instant>, since: Instant): nat {
    if history == [] then 0
    else Recent(history[..|history| - 1], since) + if history[|history| - 1] > since then 1 else 0
  }

  // ---- what the table keeps ----

  predicate Ordered(queue: seq<Instant>) {
    forall i, j :: 0 <= i < j < |queue| ==> queue[i] <= queue[j]
  }

  /** The queue is the history without a prefix that can no longer count. */
  ghost predicate Remembers(queue: seq<Instant>, history: seq<Instant>, since: Instant, now: Instant) {
    && Ordered(history)
    && (forall t :: t in history ==> t <= now)
    && |queue| <= |history|
    && queue == history[|history| - |queue|..]
    && forall i :: 0 <= i < |history| - |queue| ==> history[i] <= since
  }

  lemma {:induction false} PrunedRemembers(queue: seq<Instant>, history: seq<Instant>, since: Instant, now: Instant)
    requires Remembers(queue, history, since, now)
    ensures var kept := Pruned(queue, since);
      Remembers(kept, history, since, now) && forall i :: 0 <= i < |kept| ==> kept[i] > since
    decreases |queue|
  {
    if queue != [] && queue[0] <= since {
      PrunedRemembers(queue[1..], history, since, now);
    } else {
      forall i | 0 <= i < |queue| ensures queue[i] > since {
        var n := |history| - |queue|;
        assert history[n] == queue[0] && history[n + i] == queue[i];
      }
    }
  }

  lemma {:induction false} RecentSplits(stale: seq<Instant>, young: seq<Instant>, since: Instant)
    requires forall i :: 0 <= i < |stale| ==> stale[i] <= since
    requires forall i :: 0 <= i < |young| ==> young[i] > since
    ensures Recent(stale + young, since) == |young|
  {
    if young != [] {
      assert (stale + young)[..|stale + young| - 1] == stale + young[..|young| - 1];
      RecentSplits(stale, young[..|young| - 1], since);
    } else if stale != [] {
      assert stale + young == stale;
      RecentSplits(stale[..|stale| - 1], [], since);
      assert stale[..|stale| - 1] + [] == stale[..|stale| - 1];
    }
  }

  /** Once pruned, the length of the queue is the number of accepted calls in the window. */
  lemma PrunedCounts(queue: seq<Instant>, history: seq<Instant>, since: Instant, now: Instant)
    requires Remembers(queue, history, since, now)
    ensures |Pruned(queue, since)| == Recent(history, since)
  {
    PrunedRemembers(queue, history, since, now);
    var kept := Pruned(queue, since);
    var dropped := history[..|history| - |kept|];
    assert history == dropped + kept;
    RecentSplits(dropped, kept, since);
  }

  /** A key whose last queued instant is too old, or whose queue is empty, has
      nothing left in the window. */
  lemma StaleKeysAreIdle(queue: seq<Instant>, history: seq<Instant>, since: Instant, now: Instant)
    requires Remembers(queue, history, since, now)
    ensures (queue != [] && queue[|queue| - 1] > since) <==> Recent(history, since) > 0
    ensures Recent(history, since) == 0 ==> Remembers([], history, since, now)
  {
    PrunedRemembers(queue, history, since, now);
    PrunedCounts(queue, history, since, now);
    var kept := Pruned(queue, since);
    if kept == [] {
      assert forall i :: 0 <= i < |history| ==> history[i] <= since;
      assert queue != [] ==> queue[|queue| - 1] == history[|history| - 1];
    } else {
      assert kept[|kept| - 1] == history[|history| - 1] == queue[|queue| - 1];
    }
  }

  ghost predicate TableOk(calls: seq<Call>, period: real, now: Instant) {
    var table := TableAfter(calls, period);
    && |table| <= LIMIT
    && forall key :: Remembers(Of(table, key), History(calls, period, key), now - period, now)
  }

  lemma LaterStillOk(calls: seq<Call>, period: real, now: Instant, later: Instant)
    requires TableOk(calls, period, now) && now <= later
    ensures TableOk(calls, period, later)
  {
    var table := TableAfter(calls, period);
    forall key ensures Remembers(Of(table, key), History(calls, period, key), later - period, later) {
      assert Remembers(Of(table, key), History(calls, period, key), now - period, now);
    }
  }

  lemma SweptRemembers(calls: seq<Call>, call: Call, period: real)
    requires TableOk(calls, period, call.now)
    ensures var swept := Swept(TableAfter(calls, period), call, period);
      && |swept| <= LIMIT
      && forall key :: Remembers(Of(swept, key), History(calls, period, key), call.now - period, call.now)
  {
    var table := TableAfter(calls, period);
    var swept := Swept(table, call, period);
    forall key ensures Remembers(Of(swept, key), History(calls, period, key), call.now - period, call.now) {
      StaleKeysAreIdle(Of(table, key), History(calls, period, key), call.now - period, call.now);
    }
    assert swept.Keys <= table.Keys;
    FewerKeys(swept, table);
  }

  lemma FewerKeys(small: Table, large: Table)
    requires small.Keys <= large.Keys
    ensures |small| <= |large|
  {
    assert large.Keys == small.Keys + (large.Keys - small.Keys);
    assert |small| == |small.Keys| && |large| == |large.Keys|;
  }

  lemma AppendRemembers(queue: seq<Instant>, history: seq<Instant>, since: Instant, now: Instant)
    requires Remembers(queue, history, since, now)
    ensures Remembers(queue + [now], history + [now], since, now)
  {
    forall i, j | 0 <= i < j < |history + [now]| ensures (history + [now])[i] <= (history + [now])[j] {
      assert history[i] in history;
    }
  }

  lemma SizeStaysBounded(table: Table, call: Call, period: real)
    requires |Swept(table, call, period)| <= LIMIT
    ensures |Next(table, call, period)| <= LIMIT
  {
    var swept, next := Swept(table, call, period), Next(table, call, period);
    if !Refused(swept, call) {
      assert next.Keys == swept.Keys + {call.key};
      assert |next| == |next.Keys| && |swept| == |swept.Keys|;
    }
  }

  /** One more call, seen by the table and by the history of each key. */
  lemma OneMoreCall(calls: seq<Call>, call: Call, period: real, key: Key)
    ensures var after, table := calls + [call], TableAfter(calls, period);
      && TableAfter(after, period) == Next(table, call, period)
      && History(after, period, key)
         == if call.key == key && Admits(table, call, period) then History(calls, period, key) + [call.now]
            else History(calls, period, key)
  {
    assert (calls + [call])[..|calls|] == calls;
    hide Admits, Next;
  }

  lemma NextQueue(table: Table, call: Call, period: real, key: Key)
    ensures var swept, next := Swept(table, call, period), Next(table, call, period);
      var pruned := Pruned(Of(swept, call.key), call.now - period);
      Of(next, key) ==
        if key != call.key || Refused(swept, call) then Of(swept, key)
        else if Admits(table, call, period) then pruned + [call.now] else pruned
  {
    hide Swept, Pruned;
  }

  lemma CallKeepsTable(calls: seq<Call>, call: Call, period: real)
    requires TableOk(calls, period, call.now)
    ensures TableOk(calls + [call], period, call.now)
  {
    hide Remembers, Pruned, Swept, TableAfter, History, Next, Of, Refused;
    var after, since, table := calls + [call], call.now - period, TableAfter(calls, period);
    var swept := Swept(table, call, period);
    SweptRemembers(calls, call, period);
    SizeStaysBounded(table, call, period);
    OneMoreCall(calls, call, period, call.key);
    forall key
      ensures Remembers(Of(TableAfter(after, period), key), History(after, period, key), since, call.now)
    {
      var history := History(calls, period, key);
      OneMoreCall(calls, call, period, key);
      NextQueue(table, call, period, key);
      assert Remembers(Of(swept, key), history, since, call.now);
      if key == call.key {
        PrunedRemembers(Of(swept, key), history, since, call.now);
        AppendRemembers(Pruned(Of(swept, key), since), history, since, call.now);
      }
    }
  }

  lemma {:induction false} RunsRemember(calls: seq<Call>, period: real, now: Instant)
    requires Monotone(calls) && period > 0.0
    requires forall i :: 0 <= i < |calls| ==> calls[i].now <= now
    ensures TableOk(calls, period, now)
  {
    if calls != [] {
      var before, call := calls[..|calls| - 1], calls[|calls| - 1];
      RunsRemember(before, period, call.now);
      CallKeepsTable(before, call, period);
      assert before + [call] == calls;
      LaterStillOk(calls, period, call.now, now);
    }
  }

  // ---- the theorems ----

  /** Keys with an accepted call still in the window, over everything that ever happened. */
  ghost function Busy(calls: seq<Call>, period: real, now: Instant): set<Key> {
    set key | key in TableAfter(calls, period) && Recent(History(calls, period, key), now - period) > 0
  }

  ghost predicate HasRoom(calls: seq<Call>, call: Call, period: real) {
    var table := TableAfter(calls, period);
    call.key in table || |table| < 4096 || |Busy(calls, period, call.now)| < 4096
  }

  lemma SweepingLeavesTheBusy(calls: seq<Call>, call: Call, period: real)
    requires TableOk(calls, period, call.now)
    ensures |Live(TableAfter(calls, period), call.now - period)| == |Busy(calls, period, call.now)|
  {
    hide TableAfter, History, Remembers, Recent;
    var table, since := TableAfter(calls, period), call.now - period;
    var live := Live(table, since);
    assert |live| == |live.Keys|;
    forall key ensures key in live.Keys <==> key in Busy(calls, period, call.now) {
      StaleKeysAreIdle(Of(table, key), History(calls, period, key), since, call.now);
    }
    assert live.Keys == Busy(calls, period, call.now);
  }

  lemma AgreesNow(calls: seq<Call>, call: Call, period: real)
    requires TableOk(calls, period, call.now)
    ensures Admits(TableAfter(calls, period), call, period)
      <==> HasRoom(calls, call, period) && Recent(History(calls, period, call.key), call.now - period) < call.maximum
  {
    hide TableOk, TableAfter, History, Remembers, Recent, Busy, Live, Pruned;
    SweptRemembers(calls, call, period);
    SweepingLeavesTheBusy(calls, call, period);
    var table, since := TableAfter(calls, period), call.now - period;
    var swept := Swept(table, call, period);
    PrunedCounts(Of(swept, call.key), History(calls, period, call.key), since, call.now);
    if call.key !in table {
      NothingIsAdded(table, since, call.key);
    }
  }

  /** The limiter answers as one that remembers every accepted call: it accepts
      exactly when the table has room for the key and fewer than `maximum`
      accepted calls lie in the last period. */
  lemma AgreesWithHistory(calls: seq<Call>, call: Call, period: real)
    requires Monotone(calls + [call]) && period > 0.0
    ensures Admits(TableAfter(calls, period), call, period)
      <==> HasRoom(calls, call, period) && Recent(History(calls, period, call.key), call.now - period) < call.maximum
  {
    hide TableAfter, History, Admits, HasRoom, TableOk;
    assert Monotone(calls) && forall i :: 0 <= i < |calls| ==> calls[i].now <= call.now by {
      assert (calls + [call])[|calls|] == call;
      assert forall i :: 0 <= i < |calls| ==> (calls + [call])[i] == calls[i];
    }
    RunsRemember(calls, period, call.now);
    AgreesNow(calls, call, period);
  }

  lemma NothingIsAdded(table: Table, since: Instant, key: Key)
    requires key !in table
    ensures key !in Live(table, since)
  {
  }

  /** At most 4096 keys are kept, and none that still counts is missing. */
  lemma TableIsBoundedAndComplete(calls: seq<Call>, period: real, now: Instant, key: Key)
    requires Monotone(calls) && period > 0.0
    requires forall i :: 0 <= i < |calls| ==> calls[i].now <= now
    ensures |TableAfter(calls, period)| <= 4096
    ensures Recent(History(calls, period, key), now - period) > 0 ==> key in TableAfter(calls, period)
  {
    hide TableAfter, History, Recent, Remembers;
    RunsRemember(calls, period, now);
    StaleKeysAreIdle(Of(TableAfter(calls, period), key), History(calls, period, key), now - period, now);
  }

  lemma {:induction false} BetweenIsRecent(history: seq<Instant>, since: Instant, until: Instant, from: Instant)
    requires from <= since
    ensures Between(history, since, until) <= Recent(history, from)
  {
    if history != [] {
      BetweenIsRecent(history[..|history| - 1], since, until, from);
    }
  }

  /** The promise to the service: no window of one period, wherever it is put,
      holds more accepted calls of a key than the maximum it was called with. */
  lemma {:induction false} NoWindowOverflows(calls: seq<Call>, period: real, key: Key, maximum: nat, since: Instant)
    requires Monotone(calls) && period > 0.0
    requires forall i :: 0 <= i < |calls| && calls[i].key == key ==> calls[i].maximum <= maximum
    ensures Between(History(calls, period, key), since, since + period) <= maximum
  {
    hide TableAfter, Admits, HasRoom, Recent;
    if calls != [] {
      var before, call := calls[..|calls| - 1], calls[|calls| - 1];
      NoWindowOverflows(before, period, key, maximum, since);
      assert before + [call] == calls;
      var past := History(before, period, key);
      if History(calls, period, key) != past && since < call.now <= since + period {
        AgreesWithHistory(before, call, period);
        BetweenIsRecent(past, since, since + period, call.now - period);
        assert (past + [call.now])[..|past|] == past;
      } else if History(calls, period, key) != past {
        assert (past + [call.now])[..|past|] == past;
      }
    }
  }
}
