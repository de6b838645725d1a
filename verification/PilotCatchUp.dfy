/** The discrete-event catch-up of the operational store, as functions.

    `Synchronize` is what every transaction runs before its command: dispatch,
    then batches of equal-time events in time order, each followed by a
    dispatch, then metering of the trips that are still charging. */
module PilotCatchUp {
  import opened Basics
  import opened PilotTypes

  // ---------- one trip ----------

  const HOUR: real := 3600000.0

  /** How long the trip has to charge to reach its target. */
  function ChargeTime(target: Positive, power: Positive): Instant {
    target / power * HOUR
  }

  function Delivered(target: Positive, power: Positive, millis: real): real {
    MinReal(target, millis * power / HOUR)
  }

  /** The price of an amount of energy, in cents. */
  function Cost(energy: real, price: real): int {
    RoundHalfUp(energy * price * 100.0)
  }

  /** What a meter shows after charging from `start` to `at`. */
  function Reading(target: Positive, power: Positive, price: real, start: Instant, at: Instant): Meter {
    var millis := MaxReal(0.0, at - start);
    var energy := Delivered(target, power, millis);
    Meter(RoundHalfEven(MinReal(millis, ChargeTime(target, power))),
          RoundHalfEven(energy * 100000000.0),
          Cost(energy, price))
  }

  /** The trip with its meter read at `at`. */
  function Metered(trip: Trip, at: Instant): Trip {
    if trip.startedAt.None? then trip else
      trip.(meter := Reading(trip.target, trip.power, trip.price, trip.startedAt.value, at))
  }

  /** A status change clears the deadlines that do not belong to the new status. */
  function Moved(trip: Trip, status: Status, at: Instant): Trip {
    trip.(status := status, updatedAt := Trunc(at),
      callUntil := if status.Called? then trip.callUntil else None,
      holdUntil := if status.Reserved? then trip.holdUntil else None)
  }

  function Record(y: Yard, t: Id, next: Trip, kind: EventKind, at: Instant): Yard {
    Yard(y.stations, y.trips[t := next], y.events + [Event(t, kind, next.status, at)])
  }

  // ---------- dispatch ----------

  ghost function Holders(y: Yard, s: Id): set<Id> {
    set t | t in y.trips && y.trips[t].station == s && y.trips[t].status.Holding()
  }

  ghost function Line(y: Yard, s: Id): set<Id> {
    set t | t in y.trips && y.trips[t].station == s && y.trips[t].status.Queued?
  }

  ghost function Free(y: Yard, s: Id): int
    requires s in y.stations
  {
    y.stations[s].capacity - y.stations[s].busy - |Holders(y, s)|
  }

  function Ticket(trip: Trip): int {
    if trip.ticket.Some? then trip.ticket.value else 0
  }

  ghost function Tickets(y: Yard, s: Id): map<Id, int> {
    map t | t in Line(y, s) :: Ticket(y.trips[t])
  }

  ghost function FirstTicket(tickets: map<Id, int>): (t: Id)
    requires tickets != map[]
    ensures t in tickets
    ensures forall u :: u in tickets ==> tickets[t] <= tickets[u]
  {
    var values := set t | t in tickets :: tickets[t];
    var k := Pick(tickets.Keys);
    assert tickets[k] in values;
    var low := Least(values);
    assert forall u :: u in tickets ==> tickets[u] in values;
    assert exists t :: t in tickets && tickets[t] == low;
    var t :| t in tickets && tickets[t] == low;
    t
  }

  /** The longest-waiting trip of a station. */
  ghost function Head(y: Yard, s: Id): (t: Id)
    requires Line(y, s) != {}
    ensures t in Line(y, s)
    ensures forall u :: u in Line(y, s) ==> Ticket(y.trips[t]) <= Ticket(y.trips[u])
  {
    assert Tickets(y, s).Keys == Line(y, s);
    var t := FirstTicket(Tickets(y, s));
    assert forall u :: u in Line(y, s) ==> Tickets(y, s)[u] == Ticket(y.trips[u]);
    t
  }

  function CalledTrip(trip: Trip, at: Instant, grace: Instant): Trip {
    Moved(trip.(callUntil := Some(Trunc(at + grace))), Called, at)
  }

  function Call(y: Yard, t: Id, at: Instant, grace: Instant): Yard
    requires t in y.trips
  {
    Record(y, t, CalledTrip(y.trips[t], at, grace), CalledOut, at)
  }

  lemma CallEffect(y: Yard, t: Id, at: Instant, grace: Instant)
    requires t in y.trips && y.trips[t].status.Queued?
    ensures var z := Call(y, t, at, grace);
      && (forall s :: Line(z, s) == if s == y.trips[t].station then Line(y, s) - {t} else Line(y, s))
      && (forall s :: Holders(z, s) == if s == y.trips[t].station then Holders(y, s) + {t} else Holders(y, s))
  {
  }

  /** Call queued trips of one station, longest waiting first, while a charger is free. */
  ghost function DispatchStation(y: Yard, s: Id, at: Instant, grace: Instant): (z: Yard)
    requires s in y.stations
    ensures z.stations == y.stations && z.trips.Keys == y.trips.Keys
    decreases Line(y, s)
  {
    if Free(y, s) > 0 && Line(y, s) != {} then
      CallEffect(y, Head(y, s), at, grace);
      DispatchStation(Call(y, Head(y, s), at, grace), s, at, grace)
    else y
  }

  ghost function DispatchAll(y: Yard, todo: set<Id>, at: Instant, grace: Instant): (z: Yard)
    requires todo <= y.stations.Keys
    ensures z.stations == y.stations && z.trips.Keys == y.trips.Keys
    decreases todo
  {
    if todo == {} then y else
      var s := Least(todo);
      DispatchAll(DispatchStation(y, s, at, grace), todo - {s}, at, grace)
  }

  /** One dispatch over all stations, in station order. */
  ghost function Dispatch(y: Yard, at: Instant, grace: Instant): (z: Yard)
    ensures z.stations == y.stations && z.trips.Keys == y.trips.Keys
  {
    DispatchAll(y, y.stations.Keys, at, grace)
  }

  /** A dispatch leaves a trip alone or calls it. */
  predicate OnlyCalled(a: Trip, b: Trip, at: Instant, grace: Instant) {
    a == b || (a.status.Queued? && b == CalledTrip(a, at, grace))
  }

  lemma {:induction false} DispatchStationOnlyCalls(y: Yard, s: Id, at: Instant, grace: Instant, t: Id)
    requires s in y.stations && t in y.trips
    ensures OnlyCalled(y.trips[t], DispatchStation(y, s, at, grace).trips[t], at, grace)
    decreases Line(y, s)
  {
    if Free(y, s) > 0 && Line(y, s) != {} {
      CallEffect(y, Head(y, s), at, grace);
      DispatchStationOnlyCalls(Call(y, Head(y, s), at, grace), s, at, grace, t);
    }
  }

  lemma {:induction false} DispatchAllOnlyCalls(y: Yard, todo: set<Id>, at: Instant, grace: Instant, t: Id)
    requires todo <= y.stations.Keys && t in y.trips
    ensures OnlyCalled(y.trips[t], DispatchAll(y, todo, at, grace).trips[t], at, grace)
    decreases todo
  {
    if todo != {} {
      var s := Least(todo);
      DispatchStationOnlyCalls(y, s, at, grace, t);
      DispatchAllOnlyCalls(DispatchStation(y, s, at, grace), todo - {s}, at, grace, t);
    }
  }

  // ---------- scheduled events ----------

  datatype Entity = Release(station: Id) | Expire(trip: Id) | Finish(trip: Id)

  function Deadline(trip: Trip): Option<Instant> {
    match trip.status
    case Called => trip.callUntil
    case Reserved => trip.holdUntil
    case EnRoute => Some(trip.rewardUntil)
    case Queued => Some(trip.rewardUntil)
    case _ => None
  }

  function Completion(trip: Trip): Option<Instant> {
    if trip.status.Charging? && trip.startedAt.Some?
    then Some(trip.startedAt.value + ChargeTime(trip.target, trip.power)) else None
  }

  function WhenOf(y: Yard, e: Entity): Option<Instant> {
    match e
    case Release(s) =>
      if s in y.stations && y.stations[s].busy != 0 then y.stations[s].release else None
    case Expire(t) => if t in y.trips then Deadline(y.trips[t]) else None
    case Finish(t) => if t in y.trips then Completion(y.trips[t]) else None
  }

  ghost function Agenda(y: Yard): set<Entity> {
    (set s | s in y.stations && WhenOf(y, Release(s)).Some? :: Release(s)) +
    (set t | t in y.trips && WhenOf(y, Expire(t)).Some? :: Expire(t)) +
    (set t | t in y.trips && WhenOf(y, Finish(t)).Some? :: Finish(t))
  }

  lemma AgendaIsComplete(y: Yard, e: Entity)
    ensures e in Agenda(y) <==> WhenOf(y, e).Some?
  {
  }

  ghost predicate Due(y: Yard, now: Instant, e: Entity) {
    WhenOf(y, e).Some? && WhenOf(y, e).value <= now
  }

  /** The earliest instant, not after `now`, at which something is scheduled. */
  ghost function Next(y: Yard, now: Instant): (n: Option<Instant>)
    ensures n.None? ==> forall e :: !Due(y, now, e)
    ensures n.Some? ==> n.value <= now && exists e :: WhenOf(y, e) == n
    ensures n.Some? ==> forall e :: WhenOf(y, e).Some? ==> n.value <= WhenOf(y, e).value
  {
    var due := set e | e in Agenda(y) && Due(y, now, e);
    assert forall e :: Due(y, now, e) <==> e in due by {
      forall e ensures Due(y, now, e) <==> e in due { AgendaIsComplete(y, e); }
    }
    if due == {} then None else
      var times := set e | e in due :: WhenOf(y, e).value;
      var first := Pick(due);
      assert WhenOf(y, first).value in times;
      var at := Earliest(times);
      assert forall e :: e in due ==> WhenOf(y, e).value in times;
      assert forall e :: WhenOf(y, e).Some? ==> at <= WhenOf(y, e).value by {
        forall e | WhenOf(y, e).Some? ensures at <= WhenOf(y, e).value {
          if e !in due { assert !Due(y, now, e); assert at <= now; }
        }
      }
      assert exists e :: e in due && WhenOf(y, e).value == at;
      Some(at)
  }

  /** Everything scheduled for exactly `at`. */
  ghost function Batch(y: Yard, at: Instant): set<Entity> {
    set e | e in Agenda(y) && WhenOf(y, e) == Some(at)
  }

  /** Batches run in the order of the kind's name, then of the identifier. */
  ghost function FirstOf(batch: set<Entity>): (e: Entity)
    requires batch != {}
    ensures e in batch
  {
    var stations := set e: Entity | e in batch && e.Release? :: e.station;
    var expiring := set e: Entity | e in batch && e.Expire? :: e.trip;
    var finishing := set e: Entity | e in batch && e.Finish? :: e.trip;
    var any := Pick(batch);
    assert any.Release? ==> any.station in stations;
    assert any.Expire? ==> any.trip in expiring;
    assert any.Finish? ==> any.trip in finishing;
    if stations != {} then Release(Least(stations))
    else if expiring != {} then Expire(Least(expiring))
    else Finish(Least(finishing))
  }

  function ExpiredTrip(trip: Trip, at: Instant): Trip {
    Moved(trip.(stop := Timeout(trip.status), reward := RewardLapsed), Expired, at)
  }

  function FinishedTrip(trip: Trip, at: Instant, why: StopReason): Trip {
    Moved(Metered(trip, at).(stop := why, stoppedAt := Some(Trunc(at))), PendingPayment, at)
  }

  function Settle(y: Yard, e: Entity, at: Instant): Yard {
    match e
    case Release(s) =>
      if s in y.stations
      then y.(stations := y.stations[s := y.stations[s].(busy := 0, release := None)]) else y
    case Expire(t) =>
      if t in y.trips
      then Record(y, t, ExpiredTrip(y.trips[t], at), TimedOut(y.trips[t].status), at) else y
    case Finish(t) =>
      if t in y.trips
      then Record(y, t, FinishedTrip(y.trips[t], at, TargetReached), ChargingStopped, at) else y
  }

  ghost function SettleAll(y: Yard, batch: set<Entity>, at: Instant): (z: Yard)
    ensures z.stations.Keys == y.stations.Keys && z.trips.Keys == y.trips.Keys
    decreases batch
  {
    if batch == {} then y else
      var e := FirstOf(batch);
      SettleAll(Settle(y, e, at), batch - {e}, at)
  }

  /** One round of the event loop at instant `at`. */
  ghost function Round(y: Yard, at: Instant, grace: Instant): Yard {
    Dispatch(SettleAll(y, Batch(y, at), at), at, grace)
  }

  // ---------- the schedule, and why the loop ends ----------

  lemma SettleSchedule(y: Yard, e: Entity, at: Instant)
    requires WhenOf(y, e).Some?
    ensures forall f :: WhenOf(Settle(y, e, at), f) == if f == e then None else WhenOf(y, f)
  {
  }

  lemma {:induction false} SettleAllSchedule(y: Yard, batch: set<Entity>, at: Instant)
    requires forall e :: e in batch ==> WhenOf(y, e).Some?
    ensures forall f :: WhenOf(SettleAll(y, batch, at), f) == if f in batch then None else WhenOf(y, f)
    decreases batch
  {
    if batch != {} {
      var e := FirstOf(batch);
      SettleSchedule(y, e, at);
      SettleAllSchedule(Settle(y, e, at), batch - {e}, at);
    }
  }

  /** A dispatch replaces some waiting deadlines by call deadlines and touches nothing else. */
  ghost predicate Rescheduled(y: Yard, z: Yard, until: Instant) {
    forall f :: WhenOf(z, f) == WhenOf(y, f) || (WhenOf(y, f).Some? && WhenOf(z, f) == Some(until))
  }

  lemma CallSchedule(y: Yard, t: Id, at: Instant, grace: Instant)
    requires t in y.trips && y.trips[t].status.Queued?
    ensures Rescheduled(y, Call(y, t, at, grace), Trunc(at + grace))
  {
  }

  lemma {:induction false} DispatchStationSchedule(y: Yard, s: Id, at: Instant, grace: Instant)
    requires s in y.stations
    ensures Rescheduled(y, DispatchStation(y, s, at, grace), Trunc(at + grace))
    decreases Line(y, s)
  {
    if Free(y, s) > 0 && Line(y, s) != {} {
      CallEffect(y, Head(y, s), at, grace);
      CallSchedule(y, Head(y, s), at, grace);
      DispatchStationSchedule(Call(y, Head(y, s), at, grace), s, at, grace);
    }
  }

  lemma {:induction false} DispatchAllSchedule(y: Yard, todo: set<Id>, at: Instant, grace: Instant)
    requires todo <= y.stations.Keys
    ensures Rescheduled(y, DispatchAll(y, todo, at, grace), Trunc(at + grace))
    decreases todo
  {
    if todo != {} {
      var s := Least(todo);
      DispatchStationSchedule(y, s, at, grace);
      DispatchAllSchedule(DispatchStation(y, s, at, grace), todo - {s}, at, grace);
    }
  }

  /** Every round takes its batch off the agenda and adds nothing to it. */
  lemma RoundShrinksAgenda(y: Yard, at: Instant, grace: Instant)
    ensures Agenda(Round(y, at, grace)) == Agenda(y) - Batch(y, at)
    ensures forall e :: WhenOf(y, e) == Some(at) ==> e in Batch(y, at)
  {
    var settled := SettleAll(y, Batch(y, at), at);
    SettleAllSchedule(y, Batch(y, at), at);
    DispatchAllSchedule(settled, settled.stations.Keys, at, grace);
    forall e ensures e in Agenda(Round(y, at, grace)) <==> e in Agenda(y) && e !in Batch(y, at) {
      AgendaIsComplete(y, e);
      AgendaIsComplete(Round(y, at, grace), e);
    }
    forall e | WhenOf(y, e) == Some(at) ensures e in Batch(y, at) {
      AgendaIsComplete(y, e);
    }
  }

  /** The event loop: rounds in time order until nothing is due by `now`. */
  ghost function CatchUp(y: Yard, now: Instant, grace: Instant): (z: Yard)
    ensures forall e :: !Due(z, now, e)
    decreases Agenda(y)
  {
    var n := Next(y, now);
    if n.None? then y else
      RoundShrinksAgenda(y, n.value, grace);
      CatchUp(Round(y, n.value, grace), now, grace)
  }

  /** Read the meter of every trip that is charging. */
  ghost function MeterAll(y: Yard, now: Instant): Yard {
    y.(trips := map t | t in y.trips ::
      if y.trips[t].status.Charging? then Metered(y.trips[t], now) else y.trips[t])
  }

  ghost function Synchronize(y: Yard, time: Instant, now: Instant, grace: Instant): Yard {
    MeterAll(CatchUp(Dispatch(y, time, grace), now, grace), now)
  }

  // ---------- work conservation ----------

  /** No station has both a free charger and a queued trip. */
  ghost predicate WorkConserving(y: Yard) {
    forall s :: s in y.stations ==> Free(y, s) <= 0 || Line(y, s) == {}
  }

  lemma {:induction false} DispatchStationConserves(y: Yard, s: Id, at: Instant, grace: Instant)
    requires s in y.stations
    ensures var z := DispatchStation(y, s, at, grace);
      && (Free(z, s) <= 0 || Line(z, s) == {})
      && (forall r :: r != s ==> Line(z, r) == Line(y, r) && Holders(z, r) == Holders(y, r))
    decreases Line(y, s)
  {
    if Free(y, s) > 0 && Line(y, s) != {} {
      CallEffect(y, Head(y, s), at, grace);
      DispatchStationConserves(Call(y, Head(y, s), at, grace), s, at, grace);
    }
  }

  lemma {:induction false} DispatchAllConserves(y: Yard, todo: set<Id>, at: Instant, grace: Instant)
    requires todo <= y.stations.Keys
    ensures var z := DispatchAll(y, todo, at, grace);
      && (forall s :: s in todo ==> Free(z, s) <= 0 || Line(z, s) == {})
      && (forall s :: s !in todo ==> Line(z, s) == Line(y, s) && Holders(z, s) == Holders(y, s))
    decreases todo
  {
    if todo != {} {
      var s := Least(todo);
      DispatchStationConserves(y, s, at, grace);
      DispatchAllConserves(DispatchStation(y, s, at, grace), todo - {s}, at, grace);
    }
  }

  lemma DispatchConserves(y: Yard, at: Instant, grace: Instant)
    ensures WorkConserving(Dispatch(y, at, grace))
  {
    DispatchAllConserves(y, y.stations.Keys, at, grace);
  }

  lemma {:induction false} DispatchAllIdle(y: Yard, todo: set<Id>, at: Instant, grace: Instant)
    requires todo <= y.stations.Keys && WorkConserving(y)
    ensures DispatchAll(y, todo, at, grace) == y
    decreases todo
  {
    if todo != {} {
      var s := Least(todo);
      assert DispatchStation(y, s, at, grace) == y;
      DispatchAllIdle(y, todo - {s}, at, grace);
    }
  }

  lemma {:induction false} CatchUpConserves(y: Yard, now: Instant, grace: Instant)
    requires WorkConserving(y)
    ensures WorkConserving(CatchUp(y, now, grace))
    decreases Agenda(y)
  {
    var n := Next(y, now);
    if n.Some? {
      RoundShrinksAgenda(y, n.value, grace);
      DispatchConserves(SettleAll(y, Batch(y, n.value), n.value), n.value, grace);
      CatchUpConserves(Round(y, n.value, grace), now, grace);
    }
  }

  /** What every catch-up leaves behind: nothing due, no charger idle beside a queue. */
  lemma SynchronizeSettles(y: Yard, time: Instant, now: Instant, grace: Instant)
    ensures WorkConserving(Synchronize(y, time, now, grace))
    ensures forall e :: !Due(Synchronize(y, time, now, grace), now, e)
  {
    DispatchConserves(y, time, grace);
    CatchUpConserves(Dispatch(y, time, grace), now, grace);
    var caught := CatchUp(Dispatch(y, time, grace), now, grace);
    MeterAllIsSilent(caught, now);
    forall e ensures !Due(MeterAll(caught, now), now, e) {
      assert !Due(caught, now, e);
    }
  }

  lemma MeterAllIsSilent(y: Yard, now: Instant)
    ensures forall e :: WhenOf(MeterAll(y, now), e) == WhenOf(y, e)
    ensures forall s :: Line(MeterAll(y, now), s) == Line(y, s) && Holders(MeterAll(y, now), s) == Holders(y, s)
  {
    var z := MeterAll(y, now);
    assert forall t :: t in y.trips ==> z.trips[t].status == y.trips[t].status && z.trips[t].station == y.trips[t].station;
    forall s ensures Line(z, s) == Line(y, s) && Holders(z, s) == Holders(y, s) {
      assert forall t :: t in Line(z, s) <==> t in Line(y, s);
      assert forall t :: t in Holders(z, s) <==> t in Holders(y, s);
    }
  }

  /** What a dispatch reschedules after a batch has gone lies later than the batch. */
  lemma LaterThanBatch(y: Yard, settled: Yard, z: Yard, at: Instant, until: Instant, e: Entity)
    requires until > at && Rescheduled(settled, z, until)
    requires WhenOf(settled, e) == if e in Batch(y, at) then None else WhenOf(y, e)
    requires WhenOf(y, e).Some? ==> at <= WhenOf(y, e).value
    requires WhenOf(y, e) == Some(at) ==> e in Batch(y, at)
    ensures WhenOf(z, e).Some? ==> WhenOf(z, e).value > at
  {
    hide WhenOf, Batch;
  }

  /** Successive batches run at strictly later instants, provided a call lasts at least a millisecond. */
  lemma RoundsMoveForward(y: Yard, now: Instant, grace: Instant)
    requires grace >= 1.0 && Next(y, now).Some?
    ensures var at := Next(y, now).value;
      forall e :: WhenOf(Round(y, at, grace), e).Some? ==> WhenOf(Round(y, at, grace), e).value > at
  {
    var at := Next(y, now).value;
    var settled, z := SettleAll(y, Batch(y, at), at), Round(y, at, grace);
    hide SettleAll, DispatchAll, WhenOf, Next, Agenda, Batch, Rescheduled;
    assert Trunc(at + grace) > at;
    RoundShrinksAgenda(y, at, grace);
    SettleAllSchedule(y, Batch(y, at), at);
    DispatchAllSchedule(settled, settled.stations.Keys, at, grace);
    forall e ensures WhenOf(z, e).Some? ==> WhenOf(z, e).value > at {
      LaterThanBatch(y, settled, z, at, Trunc(at + grace), e);
    }
  }
}
