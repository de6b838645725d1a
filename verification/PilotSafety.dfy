/** The catch-up keeps every invariant of the tables. */
module PilotSafety {
  import opened Basics
  import opened PilotTypes
  import opened PilotCatchUp
  import opened PilotBills
  import opened PilotInvariant

  /** What the clock alone may do: it never creates, completes, revives or alters a finished trip,
      never changes what a trip was selected with, and only appends to the log. */
  ghost predicate Advances(y: Yard, z: Yard) {
    && y.trips.Keys == z.trips.Keys
    && y.stations.Keys == z.stations.Keys
    && y.events <= z.events
    && (forall s :: s in y.stations ==> z.stations[s].capacity == y.stations[s].capacity)
    && (forall t :: t in y.trips ==> AdvancesTrip(y.trips[t], z.trips[t]))
  }

  predicate AdvancesTrip(a: Trip, b: Trip) {
    && SameContract(a, b)
    && (!a.status.Active() ==> a == b)
    && (b.status.Active() ==> a.status.Active())
    && (b.status.Completed? ==> a.status.Completed?)
    && (a.status.PendingPayment? ==> a == b)
  }

  lemma AdvancesTransitive(x: Yard, y: Yard, z: Yard)
    requires Advances(x, y) && Advances(y, z)
    ensures Advances(x, z)
  {
    forall t | t in x.trips ensures AdvancesTrip(x.trips[t], z.trips[t]) {
      assert AdvancesTrip(x.trips[t], y.trips[t]) && AdvancesTrip(y.trips[t], z.trips[t]);
    }
  }

  lemma RecordAdvances(y: Yard, t: Id, next: Trip, kind: EventKind, at: Instant)
    requires t in y.trips && AdvancesTrip(y.trips[t], next)
    ensures Advances(y, Record(y, t, next, kind, at))
  {
  }

  // ---------- dispatch ----------

  lemma CallKeeps(y: Yard, s: Id, at: Instant, grace: Instant, last: int)
    requires Sound(y, last) && s in y.stations && Free(y, s) > 0 && Line(y, s) != {}
    ensures Sound(Call(y, Head(y, s), at, grace), last)
    ensures Advances(y, Call(y, Head(y, s), at, grace))
  {
    var t := Head(y, s);
    var next := CalledTrip(y.trips[t], at, grace);
    assert TripOk(y.trips[t]);
    RecordKeeps(y, t, next, CalledOut, at, last);
    RecordAdvances(y, t, next, CalledOut, at);
  }

  lemma {:induction false} DispatchStationKeeps(y: Yard, s: Id, at: Instant, grace: Instant, last: int)
    requires Sound(y, last) && s in y.stations
    ensures Sound(DispatchStation(y, s, at, grace), last)
    ensures Advances(y, DispatchStation(y, s, at, grace))
    decreases Line(y, s)
  {
    if Free(y, s) > 0 && Line(y, s) != {} {
      var z := Call(y, Head(y, s), at, grace);
      CallEffect(y, Head(y, s), at, grace);
      CallKeeps(y, s, at, grace, last);
      DispatchStationKeeps(z, s, at, grace, last);
      AdvancesTransitive(y, z, DispatchStation(z, s, at, grace));
    }
  }

  lemma {:induction false} DispatchAllKeeps(y: Yard, todo: set<Id>, at: Instant, grace: Instant, last: int)
    requires Sound(y, last) && todo <= y.stations.Keys
    ensures Sound(DispatchAll(y, todo, at, grace), last)
    ensures Advances(y, DispatchAll(y, todo, at, grace))
    decreases todo
  {
    if todo != {} {
      var s := Least(todo);
      var z := DispatchStation(y, s, at, grace);
      DispatchStationKeeps(y, s, at, grace, last);
      DispatchAllKeeps(z, todo - {s}, at, grace, last);
      AdvancesTransitive(y, z, DispatchAll(z, todo - {s}, at, grace));
    }
  }

  lemma DispatchKeeps(y: Yard, at: Instant, grace: Instant, last: int)
    requires Sound(y, last)
    ensures Sound(Dispatch(y, at, grace), last) && Advances(y, Dispatch(y, at, grace))
  {
    DispatchAllKeeps(y, y.stations.Keys, at, grace, last);
  }

  // ---------- due events ----------

  /** Lowering background load, or changing nothing but load and release, keeps everything. */
  lemma StationsKeep(y: Yard, z: Yard, last: int)
    requires Sound(y, last) && z.trips == y.trips && z.events == y.events
    requires y.stations.Keys <= z.stations.Keys
    requires forall s :: s in z.stations ==> StationOk(z.stations[s])
    requires forall s :: s in z.stations ==>
      z.stations[s].capacity - z.stations[s].busy >= |Holders(y, s)|
    ensures Sound(z, last)
  {
    assert forall s :: Holders(z, s) == Holders(y, s) && Line(z, s) == Line(y, s);
    assert forall i, s :: CallOf(z, i, s) <==> CallOf(y, i, s);
    assert forall i :: 0 <= i < |y.events| && y.events[i].trip in y.trips ==> TicketAt(z, i) == TicketAt(y, i);
    SameArrivals(y, z);
    hide BillOk;
  }

  /** Arrivals depend on the log and on the trips' tickets and stations. */
  lemma SameArrivals(y: Yard, z: Yard)
    requires ArrivalsOk(y) && z.events == y.events && z.trips.Keys == y.trips.Keys
    requires forall t :: t in y.trips ==> z.trips[t].ticket == y.trips[t].ticket && z.trips[t].station == y.trips[t].station
    ensures ArrivalsOk(z)
  {
    hide MovedBetween;
    assert forall i :: (Joins(z, i) <==> Joins(y, i)) && (Enters(z, i) <==> Enters(y, i));
    assert forall i :: 0 <= i < |y.events| && y.events[i].trip in y.trips ==>
      TicketAt(z, i) == TicketAt(y, i) && StationAt(z, i) == StationAt(y, i);
  }

  lemma ReleaseKeeps(y: Yard, s: Id, at: Instant, last: int)
    requires Sound(y, last) && s in y.stations
    ensures Sound(Settle(y, Release(s), at), last) && Advances(y, Settle(y, Release(s), at))
  {
    forall r | r in y.stations ensures y.stations[r].capacity - y.stations[r].busy >= |Holders(y, r)| {
      assert Free(y, r) >= 0;
    }
    assert forall t :: t in y.trips ==> AdvancesTrip(y.trips[t], y.trips[t]);
    assert forall r :: r in y.stations ==> StationOk(y.stations[r]);
    hide Sound, Holders;
    StationsKeep(y, Settle(y, Release(s), at), last);
  }

  /** A trip that the clock moves on by itself. */
  lemma ClockMoves(y: Yard, t: Id, next: Trip, kind: EventKind, at: Instant, last: int)
    requires Sound(y, last) && t in y.trips && AdvancesTrip(y.trips[t], next) && next.ticket == y.trips[t].ticket
    requires TripOk(next) && Edge(y.trips[t].status, next.status) && (BillOk(y.trips[t]) ==> BillOk(next))
    requires (next.status.Expired? && kind.TimedOut?) || (next.status.PendingPayment? && kind.ChargingStopped?)
    ensures Sound(Record(y, t, next, kind, at), last) && Advances(y, Record(y, t, next, kind, at))
  {
    assert y.trips[t].station in y.stations;
    hide Sound, TripOk, BillOk, Advances;
    RecordKeeps(y, t, next, kind, at, last);
    RecordAdvances(y, t, next, kind, at);
  }

  lemma ExpireKeeps(y: Yard, t: Id, at: Instant, last: int)
    requires Sound(y, last) && WhenOf(y, Expire(t)) == Some(at)
    ensures Sound(Settle(y, Expire(t), at), last) && Advances(y, Settle(y, Expire(t), at))
  {
    var trip := y.trips[t];
    assert TripOk(trip) && BillOk(trip);
    hide Sound, Advances, Cost, FullMeter;
    ClockMoves(y, t, ExpiredTrip(trip, at), TimedOut(trip.status), at, last);
  }

  lemma FinishKeeps(y: Yard, t: Id, at: Instant, last: int)
    requires Sound(y, last) && WhenOf(y, Finish(t)) == Some(at)
    ensures Sound(Settle(y, Finish(t), at), last) && Advances(y, Settle(y, Finish(t), at))
  {
    var trip := y.trips[t];
    assert TripOk(trip) && BillOk(trip);
    FinishedBill(trip, at);
    hide Sound, Advances, BillOk, Reading;
    ClockMoves(y, t, FinishedTrip(trip, at, TargetReached), ChargingStopped, at, last);
  }

  lemma SettleKeeps(y: Yard, e: Entity, at: Instant, last: int)
    requires Sound(y, last) && WhenOf(y, e) == Some(at)
    ensures Sound(Settle(y, e, at), last) && Advances(y, Settle(y, e, at))
  {
    match e
    case Release(s) => ReleaseKeeps(y, s, at, last);
    case Expire(t) => ExpireKeeps(y, t, at, last);
    case Finish(t) => FinishKeeps(y, t, at, last);
  }

  lemma {:induction false} SettleAllKeeps(y: Yard, batch: set<Entity>, at: Instant, last: int)
    requires Sound(y, last) && forall e :: e in batch ==> WhenOf(y, e) == Some(at)
    ensures Sound(SettleAll(y, batch, at), last) && Advances(y, SettleAll(y, batch, at))
    decreases batch
  {
    if batch != {} {
      var e := FirstOf(batch);
      SettleKeeps(y, e, at, last);
      SettleSchedule(y, e, at);
      SettleAllKeeps(Settle(y, e, at), batch - {e}, at, last);
      AdvancesTransitive(y, Settle(y, e, at), SettleAll(y, batch, at));
    } else {
      assert forall t :: t in y.trips ==> AdvancesTrip(y.trips[t], y.trips[t]);
    }
  }

  lemma RoundKeeps(y: Yard, at: Instant, grace: Instant, last: int)
    requires Sound(y, last)
    ensures Sound(Round(y, at, grace), last) && Advances(y, Round(y, at, grace))
  {
    var settled := SettleAll(y, Batch(y, at), at);
    SettleAllKeeps(y, Batch(y, at), at, last);
    DispatchKeeps(settled, at, grace, last);
    AdvancesTransitive(y, settled, Round(y, at, grace));
  }

  lemma {:induction false} CatchUpKeeps(y: Yard, now: Instant, grace: Instant, last: int)
    requires Sound(y, last)
    ensures Sound(CatchUp(y, now, grace), last) && Advances(y, CatchUp(y, now, grace))
    decreases Agenda(y)
  {
    var n := Next(y, now);
    if n.Some? {
      var z := Round(y, n.value, grace);
      RoundShrinksAgenda(y, n.value, grace);
      RoundKeeps(y, n.value, grace, last);
      CatchUpKeeps(z, now, grace, last);
      AdvancesTransitive(y, z, CatchUp(z, now, grace));
    } else {
      assert forall t :: t in y.trips ==> AdvancesTrip(y.trips[t], y.trips[t]);
    }
  }

  ghost predicate MetersOnly(y: Yard, z: Yard) {
    && z.stations == y.stations && z.events == y.events && z.trips.Keys == y.trips.Keys
    && forall t :: t in y.trips ==>
      z.trips[t] == y.trips[t].(meter := z.trips[t].meter)
      && (y.trips[t].status.Charging? || z.trips[t] == y.trips[t])
      && (BillOk(y.trips[t]) ==> BillOk(z.trips[t]))
  }

  lemma MetersKeepLines(y: Yard, z: Yard)
    requires MetersOnly(y, z)
    ensures forall s :: Line(z, s) == Line(y, s) && Holders(z, s) == Holders(y, s)
  {
    forall s ensures Line(z, s) == Line(y, s) && Holders(z, s) == Holders(y, s) {
      assert forall t :: t in Line(z, s) <==> t in Line(y, s);
      assert forall t :: t in Holders(z, s) <==> t in Holders(y, s);
    }
  }

  lemma MetersKeepRows(y: Yard, z: Yard, last: int)
    requires RowsOk(y) && TicketsOk(y, last) && LogsOk(y) && MetersOnly(y, z)
    ensures RowsOk(z) && TicketsOk(z, last) && LogsOk(z)
  {
    hide Log, IsPath, BillOk;
    forall t | t in y.trips ensures TripOk(z.trips[t]) && z.trips[t].station in z.stations {
      assert TripOk(y.trips[t]);
    }
    hide TripOk;
    assert forall t :: t in y.trips ==> z.trips[t].ticket == y.trips[t].ticket && z.trips[t].status == y.trips[t].status;
  }

  lemma MetersKeepTurns(y: Yard, z: Yard)
    requires FifoOk(y) && MetersOnly(y, z)
    ensures FifoOk(z)
  {
    MetersKeepLines(y, z);
    hide Line, BillOk;
    assert forall t :: t in y.trips ==> z.trips[t].ticket == y.trips[t].ticket;
    assert forall i, s :: CallOf(z, i, s) <==> CallOf(y, i, s);
    assert forall i :: 0 <= i < |y.events| && y.events[i].trip in y.trips ==> TicketAt(z, i) == TicketAt(y, i);
  }

  lemma MetersKeep(y: Yard, z: Yard, last: int)
    requires Sound(y, last) && MetersOnly(y, z)
    ensures Sound(z, last) && Advances(y, z)
  {
    MetersKeepLines(y, z);
    MetersKeepRows(y, z, last);
    MetersKeepTurns(y, z);
    SameArrivals(y, z);
    assert forall s :: s in y.stations ==> Free(z, s) == Free(y, s);
    hide RowsOk, TicketsOk, LogsOk, FifoOk, ArrivalsOk, BillOk, Line, Holders;
  }

  lemma MeterAllKeeps(y: Yard, now: Instant, last: int)
    requires Sound(y, last)
    ensures Sound(MeterAll(y, now), last) && Advances(y, MeterAll(y, now))
  {
    var z := MeterAll(y, now);
    forall t | t in y.trips && y.trips[t].status.Charging? && BillOk(y.trips[t]) ensures BillOk(z.trips[t]) {
      MeteredBill(y.trips[t], now);
    }
    hide Sound, BillOk, Reading;
    MetersKeep(y, z, last);
  }

  lemma SynchronizeKeeps(y: Yard, time: Instant, now: Instant, grace: Instant, last: int)
    requires Sound(y, last)
    ensures Sound(Synchronize(y, time, now, grace), last) && Advances(y, Synchronize(y, time, now, grace))
  {
    var start := Dispatch(y, time, grace);
    var caught := CatchUp(start, now, grace);
    DispatchKeeps(y, time, grace, last);
    CatchUpKeeps(start, now, grace, last);
    MeterAllKeeps(caught, now, last);
    AdvancesTransitive(y, start, caught);
    AdvancesTransitive(y, caught, MeterAll(caught, now));
  }
}
