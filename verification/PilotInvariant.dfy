/** What every status change keeps: charger capacity, first come first served, deadlines
    that match the status, bills that fit the target, and an event log that is a path. */
module PilotInvariant {
  import opened Basics
  import opened PilotTypes
  import opened PilotCatchUp
  import opened PilotBills

  // ---------- the status graph ----------

  predicate Edge(a: Status, b: Status) {
    match a
    case EnRoute => b.Queued? || b.Reserved? || b.Cancelled? || b.Expired?
    case Queued => b.Called? || b.Cancelled? || b.Expired?
    case Called => b.Reserved? || b.Cancelled? || b.Expired?
    case Reserved => b.Charging? || b.Cancelled? || b.Expired?
    case Charging => b.PendingPayment?
    case PendingPayment => b.Completed?
    case _ => false
  }

  /** The statuses a trip has gone through, oldest first. */
  function Log(events: seq<Event>, t: Id): seq<Status> {
    if events == [] then [] else
      var last := events[|events| - 1];
      Log(events[..|events| - 1], t) + if last.trip == t then [last.status] else []
  }

  lemma LogAppend(events: seq<Event>, e: Event, t: Id)
    ensures Log(events + [e], t) == Log(events, t) + if e.trip == t then [e.status] else []
  {
    assert (events + [e])[..|events|] == events;
  }

  ghost predicate IsPath(p: seq<Status>, end: Status) {
    && |p| > 0 && p[0] == EnRoute && p[|p| - 1] == end
    && forall i :: 0 < i < |p| ==> Edge(p[i - 1], p[i])
  }

  function Depth(s: Status): nat {
    match s
    case EnRoute => 0
    case Queued => 1
    case Called => 2
    case Reserved => 3
    case Charging => 4
    case PendingPayment => 5
    case _ => 6
  }

  /** The graph is acyclic, so no trip has more than seven log entries. */
  lemma {:induction false} PathsAreShort(p: seq<Status>, end: Status)
    requires IsPath(p, end)
    ensures |p| <= Depth(end) + 1 <= 7
    decreases |p|
  {
    if |p| > 1 {
      PathsAreShort(p[..|p| - 1], p[|p| - 2]);
      assert Edge(p[|p| - 2], p[|p| - 1]);
    }
  }

  // ---------- invariants of the tables ----------

  predicate StationOk(st: Station) {
    && st.capacity >= 1 && st.busy >= 0 && (st.busy > 0 <==> st.release.Some?)
    && st.power <= 10000.0
  }

  /** Deadlines, tickets and timestamps exist exactly when the status calls for them. */
  predicate TripOk(trip: Trip) {
    && (trip.callUntil.Some? <==> trip.status.Called?)
    && (trip.holdUntil.Some? <==> trip.status.Reserved?)
    && (trip.status.EnRoute? ==> trip.ticket.None? && trip.arrivedAt.None?)
    && (trip.status.Queued? || trip.status.Called? ==> trip.ticket.Some?)
    && (trip.status.Queued? || trip.status.Holding() || trip.status.PendingPayment? || trip.status.Completed? ==>
          trip.arrivedAt.Some?)
    && (trip.status.Charging? || trip.status.PendingPayment? || trip.status.Completed? ==> trip.startedAt.Some?)
    && (trip.status.Reserved? || trip.status.Called? || trip.status.Queued? || trip.status.EnRoute? ==> trip.meter == NO_METER)
    && trip.points >= 0 && trip.target >= 0.01 && trip.power <= 10000.0
  }

  ghost predicate RowsOk(y: Yard) {
    && (forall s :: s in y.stations ==> StationOk(y.stations[s]))
    && (forall t :: t in y.trips ==> TripOk(y.trips[t]) && y.trips[t].station in y.stations)
  }

  /** Background load and allocated trips never exceed a station's chargers. */
  ghost predicate CapacityOk(y: Yard) {
    forall s :: s in y.stations ==> Free(y, s) >= 0
  }

  /** Tickets are unique and were all issued by the counter. */
  ghost predicate TicketsOk(y: Yard, last: int) {
    && (forall t :: t in y.trips && y.trips[t].ticket.Some? ==> 1 <= y.trips[t].ticket.value <= last)
    && (forall t, u :: t in y.trips && u in y.trips && t != u && y.trips[t].ticket.Some? && y.trips[u].ticket.Some?
          ==> y.trips[t].ticket != y.trips[u].ticket)
    && last >= 0
  }

  /** Each trip's log is a path of the status graph that ends in the stored status. */
  ghost predicate LogsOk(y: Yard) {
    && (forall t :: t in y.trips ==> IsPath(Log(y.events, t), y.trips[t].status))
    && (forall i :: 0 <= i < |y.events| ==> y.events[i].trip in y.trips)
  }

  ghost predicate CallOf(y: Yard, i: int, s: Id) {
    0 <= i < |y.events| && y.events[i].kind.CalledOut? && y.events[i].trip in y.trips
    && y.trips[y.events[i].trip].station == s && y.trips[y.events[i].trip].ticket.Some?
  }

  function TicketAt(y: Yard, i: int): int
    requires 0 <= i < |y.events| && y.events[i].trip in y.trips
  {
    Ticket(y.trips[y.events[i].trip])
  }

  /** First come, first served: a station's calls went out in ticket order, and whoever
      still waits drew a later ticket than everyone called so far. */
  ghost predicate FifoOk(y: Yard) {
    && (forall i :: 0 <= i < |y.events| && y.events[i].kind.CalledOut? ==>
          y.events[i].trip in y.trips && y.trips[y.events[i].trip].ticket.Some?)
    && (forall s, i, j :: CallOf(y, i, s) && CallOf(y, j, s) && i < j ==> TicketAt(y, i) < TicketAt(y, j))
    && (forall s, i, t :: CallOf(y, i, s) && t in Line(y, s) ==> TicketAt(y, i) < Ticket(y.trips[t]))
  }

  /** The log entry of a trip that joined the queue of its station. */
  ghost predicate Joins(y: Yard, i: int) {
    0 <= i < |y.events| && y.events[i].kind.ArrivedQueued?
  }

  /** The log entry of a trip that got a charger as it arrived. */
  ghost predicate Enters(y: Yard, i: int) {
    0 <= i < |y.events| && y.events[i].kind.ArrivedReserved?
  }

  /** The trip of entry `j` went on before entry `i`. */
  ghost predicate MovedBetween(events: seq<Event>, j: int, i: int)
    requires 0 <= j < |events| && i <= |events|
  {
    exists k :: j < k < i && events[k].trip == events[j].trip
  }

  ghost predicate ArriversKnown(y: Yard) {
    && (forall i :: Joins(y, i) ==>
          y.events[i].trip in y.trips && y.trips[y.events[i].trip].ticket.Some? && y.events[i].status.Queued?)
    && (forall i :: Enters(y, i) ==> y.events[i].trip in y.trips)
  }

  /** Tickets grow along the log, and whoever got a charger on arrival found everybody
      who had queued at the station before gone from its queue. */
  ghost predicate ArrivalsOk(y: Yard) {
    && ArriversKnown(y)
    && (forall i, j :: Joins(y, i) && Joins(y, j) && i < j ==> TicketAt(y, i) < TicketAt(y, j))
    && (forall i, j :: Joins(y, j) && Enters(y, i) && j < i && StationAt(y, j) == StationAt(y, i) ==>
          MovedBetween(y.events, j, i))
  }

  function StationAt(y: Yard, i: int): Id
    requires 0 <= i < |y.events| && y.events[i].trip in y.trips
  {
    y.trips[y.events[i].trip].station
  }

  ghost predicate BillsOk(y: Yard) {
    forall t :: t in y.trips ==> BillOk(y.trips[t])
  }

  ghost predicate Sound(y: Yard, last: int) {
    RowsOk(y) && CapacityOk(y) && TicketsOk(y, last) && LogsOk(y) && FifoOk(y) && ArrivalsOk(y) && BillsOk(y)
  }

  // ---------- one status change ----------

  /** The fields fixed when the trip was selected. */
  predicate SameContract(a: Trip, b: Trip) {
    && a.user == b.user && a.offer == b.offer && a.station == b.station && a.createdAt == b.createdAt
    && a.arrivalFrom == b.arrivalFrom && a.rewardUntil == b.rewardUntil && a.terms == b.terms
    && a.target == b.target && a.power == b.power && a.price == b.price && a.points == b.points
  }

  ghost predicate Lawful(y: Yard, t: Id, next: Trip, last: int) {
    t in y.trips && y.trips[t].station in y.stations &&
    var from := y.trips[t];
    && SameContract(from, next) && TripOk(next) && Edge(from.status, next.status)
    && (next.status.Holding() && !from.status.Holding() ==> Free(y, from.station) > 0)
    && (next.ticket == from.ticket || (next.status.Queued? && next.ticket == Some(last + 1)))
    && (BillOk(from) ==> BillOk(next))
  }

  /** A trip is called only as the longest-waiting one of its station, and gets a
      charger on arrival only where nobody waits. */
  ghost predicate InTurn(y: Yard, t: Id, next: Trip, kind: EventKind)
    requires t in y.trips
  {
    && (kind.CalledOut? <==> next.status.Called?)
    && (next.status.Called? ==>
          forall u :: u in Line(y, y.trips[t].station) ==> Ticket(y.trips[t]) <= Ticket(y.trips[u]))
    && (kind.ArrivedQueued? <==> next.status.Queued?)
    && (kind.ArrivedReserved? ==> Line(y, y.trips[t].station) == {})
  }

  function LastTicket(last: int, from: Trip, next: Trip): int {
    if next.ticket == from.ticket then last else last + 1
  }

  lemma RecordHolders(y: Yard, t: Id, next: Trip, kind: EventKind, at: Instant)
    requires t in y.trips && y.trips[t].station == next.station
    ensures var z := Record(y, t, next, kind, at);
      forall s :: Holders(z, s) ==
        if s != next.station then Holders(y, s)
        else if next.status.Holding() then Holders(y, s) + {t} else Holders(y, s) - {t}
    ensures var z := Record(y, t, next, kind, at);
      forall s :: Line(z, s) ==
        if s != next.station then Line(y, s)
        else if next.status.Queued? then Line(y, s) + {t} else Line(y, s) - {t}
  {
    var z := Record(y, t, next, kind, at);
    forall s ensures Holders(z, s) ==
        if s != next.station then Holders(y, s)
        else if next.status.Holding() then Holders(y, s) + {t} else Holders(y, s) - {t} {
      assert forall u :: u in Holders(z, s) <==>
        if u == t then s == next.station && next.status.Holding() else u in Holders(y, s);
    }
    forall s ensures Line(z, s) ==
        if s != next.station then Line(y, s)
        else if next.status.Queued? then Line(y, s) + {t} else Line(y, s) - {t} {
      assert forall u :: u in Line(z, s) <==>
        if u == t then s == next.station && next.status.Queued? else u in Line(y, s);
    }
  }

  lemma RecordKeepsCapacity(y: Yard, t: Id, next: Trip, kind: EventKind, at: Instant, last: int)
    requires RowsOk(y) && CapacityOk(y) && Lawful(y, t, next, last)
    ensures RowsOk(Record(y, t, next, kind, at)) && CapacityOk(Record(y, t, next, kind, at))
  {
    var z := Record(y, t, next, kind, at);
    RecordHolders(y, t, next, kind, at);
    forall s | s in z.stations ensures Free(z, s) >= 0 {
      assert Free(y, s) >= 0;
      if s == next.station && !next.status.Holding() {
        assert |Holders(y, s) - {t}| <= |Holders(y, s)|;
      }
      assert t in Holders(y, next.station) <==> y.trips[t].status.Holding();
    }
  }

  lemma RecordKeepsLogs(y: Yard, t: Id, next: Trip, kind: EventKind, at: Instant)
    requires LogsOk(y) && t in y.trips && Edge(y.trips[t].status, next.status)
    ensures LogsOk(Record(y, t, next, kind, at))
  {
    var z := Record(y, t, next, kind, at);
    forall u | u in z.trips ensures IsPath(Log(z.events, u), z.trips[u].status) {
      LogAppend(y.events, Event(t, kind, next.status, at), u);
      assert IsPath(Log(y.events, u), y.trips[u].status);
    }
  }

  lemma RecordKeepsTickets(y: Yard, t: Id, next: Trip, kind: EventKind, at: Instant, last: int)
    requires RowsOk(y) && TicketsOk(y, last) && Lawful(y, t, next, last)
    ensures TicketsOk(Record(y, t, next, kind, at), LastTicket(last, y.trips[t], next))
  {
  }

  /** Recording one more event leaves the earlier calls and their tickets as they were. */
  lemma RecordCalls(y: Yard, t: Id, next: Trip, kind: EventKind, at: Instant, last: int, s: Id, i: int)
    requires RowsOk(y) && FifoOk(y) && Lawful(y, t, next, last) && InTurn(y, t, next, kind)
    ensures var z := Record(y, t, next, kind, at);
      CallOf(z, i, s) ==>
        if i < |y.events| then CallOf(y, i, s) && TicketAt(z, i) == TicketAt(y, i)
        else i == |y.events| && s == next.station && next.status.Called? && TicketAt(z, i) == Ticket(y.trips[t])
  {
    var z := Record(y, t, next, kind, at);
    assert forall k :: 0 <= k < |y.events| ==> z.events[k] == y.events[k];
    if y.trips[t].status.EnRoute? { EnRouteNeverCalled(y, t); }
  }

  lemma RecordKeepsTurns(y: Yard, t: Id, next: Trip, kind: EventKind, at: Instant, last: int)
    requires RowsOk(y) && TicketsOk(y, last) && FifoOk(y) && Lawful(y, t, next, last) && InTurn(y, t, next, kind)
    ensures FifoOk(Record(y, t, next, kind, at))
  {
    var z := Record(y, t, next, kind, at);
    var n := |y.events|;
    RecordHolders(y, t, next, kind, at);
    forall i | 0 <= i < |z.events| && z.events[i].kind.CalledOut?
      ensures z.events[i].trip in z.trips && z.trips[z.events[i].trip].ticket.Some? {
      if i < n { assert z.events[i] == y.events[i]; }
    }
    forall s, i, u | CallOf(z, i, s) && u in Line(z, s) ensures TicketAt(z, i) < Ticket(z.trips[u]) {
      RecordCalls(y, t, next, kind, at, last, s, i);
      TurnBeforeLine(y, t, next, kind, at, last, s, i, u);
    }
    forall s, i, j | CallOf(z, i, s) && CallOf(z, j, s) && i < j ensures TicketAt(z, i) < TicketAt(z, j) {
      RecordCalls(y, t, next, kind, at, last, s, i);
      RecordCalls(y, t, next, kind, at, last, s, j);
      if j == n { assert t in Line(y, s); }
    }
  }

  lemma TurnBeforeLine(y: Yard, t: Id, next: Trip, kind: EventKind, at: Instant, last: int, s: Id, i: int, u: Id)
    requires RowsOk(y) && TicketsOk(y, last) && FifoOk(y) && Lawful(y, t, next, last) && InTurn(y, t, next, kind)
    requires var z := Record(y, t, next, kind, at); CallOf(z, i, s) && u in Line(z, s)
    ensures var z := Record(y, t, next, kind, at); TicketAt(z, i) < Ticket(z.trips[u])
  {
    RecordCalls(y, t, next, kind, at, last, s, i);
    if u == t {
      assert TicketAt(y, i) <= last;
    } else {
      assert u in Line(y, s);
    }
  }

  lemma EnRouteNeverCalled(y: Yard, t: Id)
    requires RowsOk(y) && FifoOk(y) && t in y.trips && y.trips[t].status.EnRoute?
    ensures forall i :: 0 <= i < |y.events| && y.events[i].kind.CalledOut? ==> y.events[i].trip != t
  {
  }

  /** A trip without later entries is still in the status of its last one. */
  lemma {:induction false} LastEntryIsStatus(events: seq<Event>, j: int)
    requires 0 <= j < |events| && !MovedBetween(events, j, |events|)
    ensures var log := Log(events, events[j].trip); log != [] && log[|log| - 1] == events[j].status
    decreases |events|
  {
    if j < |events| - 1 {
      var before := events[..|events| - 1];
      assert events[|events| - 1].trip != events[j].trip;
      forall k | j < k < |before| ensures before[k].trip != before[j].trip {
        assert before[k] == events[k];
      }
      LastEntryIsStatus(before, j);
    }
  }

  /** Who queued and waits no longer has gone on. */
  lemma GoneHaveMoved(y: Yard, j: int)
    requires LogsOk(y) && ArriversKnown(y) && Joins(y, j) && y.events[j].trip !in Line(y, StationAt(y, j))
    ensures MovedBetween(y.events, j, |y.events|)
  {
    hide MovedBetween, Log;
    var t := y.events[j].trip;
    assert IsPath(Log(y.events, t), y.trips[t].status);
    if !MovedBetween(y.events, j, |y.events|) {
      LastEntryIsStatus(y.events, j);
    }
  }

  lemma RecordKeepsArrivers(y: Yard, t: Id, next: Trip, kind: EventKind, at: Instant, last: int)
    requires RowsOk(y) && TicketsOk(y, last) && ArriversKnown(y) && Lawful(y, t, next, last) && InTurn(y, t, next, kind)
    ensures var z := Record(y, t, next, kind, at);
      && ArriversKnown(z)
      && (forall i :: 0 <= i < |y.events| ==>
           && z.events[i] == y.events[i] && (Joins(z, i) ==> Joins(y, i)) && (Enters(z, i) ==> Enters(y, i))
           && (Joins(y, i) ==> TicketAt(z, i) == TicketAt(y, i) <= last && StationAt(z, i) == StationAt(y, i))
           && (Enters(y, i) ==> StationAt(z, i) == StationAt(y, i)))
      && (Joins(z, |y.events|) ==> TicketAt(z, |y.events|) == last + 1)
  {
    hide BillOk;
    var z := Record(y, t, next, kind, at);
    assert TripOk(y.trips[t]);
    forall i | Joins(z, i)
      ensures z.events[i].trip in z.trips && z.trips[z.events[i].trip].ticket.Some? && z.events[i].status.Queued?
    {
      assert i < |y.events| ==> Joins(y, i);
    }
  }

  /** Whoever gets a charger on arrival, now or earlier, finds everybody gone who queued before. */
  lemma EntersAfterMoves(y: Yard, t: Id, next: Trip, kind: EventKind, at: Instant, last: int, i: int, j: int)
    requires RowsOk(y) && TicketsOk(y, last) && LogsOk(y) && ArrivalsOk(y)
    requires Lawful(y, t, next, last) && InTurn(y, t, next, kind)
    requires var z := Record(y, t, next, kind, at);
      ArriversKnown(z) && Joins(z, j) && Enters(z, i) && j < i && StationAt(z, j) == StationAt(z, i)
    ensures MovedBetween(Record(y, t, next, kind, at).events, j, i)
  {
    RecordKeepsArrivers(y, t, next, kind, at, last);
    assert y.events[j].trip in y.trips && (i == |y.events| ==> Line(y, StationAt(y, j)) == {}) by {
      assert Joins(y, j);
      hide RowsOk, TicketsOk, LogsOk, BillOk, MovedBetween;
    }
    hide RowsOk, TicketsOk, LogsOk, Lawful, InTurn, MovedBetween, Line;
    assert Joins(y, j);
    if i == |y.events| {
      GoneHaveMoved(y, j);
    } else {
      assert Enters(y, i);
    }
    MovesStay(y.events, Event(t, kind, next.status, at), j, i);
  }

  lemma MovesStay(events: seq<Event>, e: Event, j: int, i: int)
    requires 0 <= j < |events| && i <= |events| && MovedBetween(events, j, i)
    ensures MovedBetween(events + [e], j, i)
  {
    var k :| j < k < i && events[k].trip == events[j].trip;
    assert (events + [e])[k] == events[k];
  }

  lemma RecordKeepsArrivals(y: Yard, t: Id, next: Trip, kind: EventKind, at: Instant, last: int)
    requires RowsOk(y) && TicketsOk(y, last) && LogsOk(y) && ArrivalsOk(y)
    requires Lawful(y, t, next, last) && InTurn(y, t, next, kind)
    ensures ArrivalsOk(Record(y, t, next, kind, at))
  {
    var z, n := Record(y, t, next, kind, at), |y.events|;
    RecordKeepsArrivers(y, t, next, kind, at, last);
    hide RowsOk, TicketsOk, LogsOk, Lawful, InTurn, MovedBetween, ArriversKnown;
    forall i, j | Joins(z, j) && Enters(z, i) && j < i && StationAt(z, j) == StationAt(z, i)
      ensures MovedBetween(z.events, j, i)
    {
      EntersAfterMoves(y, t, next, kind, at, last, i, j);
    }
    forall i, j | Joins(z, i) && Joins(z, j) && i < j ensures TicketAt(z, i) < TicketAt(z, j) {
      assert Joins(y, i);
      assert j < n ==> Joins(y, j);
    }
  }

  /** The single preservation step behind everything else. */
  lemma RecordKeeps(y: Yard, t: Id, next: Trip, kind: EventKind, at: Instant, last: int)
    requires Sound(y, last) && Lawful(y, t, next, last) && InTurn(y, t, next, kind)
    ensures Sound(Record(y, t, next, kind, at), LastTicket(last, y.trips[t], next))
  {
    RecordKeepsCapacity(y, t, next, kind, at, last);
    RecordKeepsLogs(y, t, next, kind, at);
    RecordKeepsTickets(y, t, next, kind, at, last);
    RecordKeepsTurns(y, t, next, kind, at, last);
    RecordKeepsArrivals(y, t, next, kind, at, last);
    hide RowsOk, CapacityOk, TicketsOk, LogsOk, FifoOk, ArrivalsOk, BillOk;
  }
}
