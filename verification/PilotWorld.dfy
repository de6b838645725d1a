/** The invariant of the whole operational store, and its preservation by every command. */
module PilotWorld {
  import opened Basics
  import opened PilotTypes
  import opened PilotCatchUp
  import opened PilotPolling
  import opened PilotBills
  import opened PilotInvariant
  import opened PilotSafety
  import opened PilotCommands

  // ---------- the invariant ----------

  predicate ConfigOk(c: Config) {
    WeightsOk(c.weights)
    && c.firstReward >= 0 && c.secondReward >= 0 && c.dailyBudget >= 0
    && c.callTimeout >= 1 && c.reservationTimeout >= 1 && c.rewardWindow >= 1
  }

  /** Nothing scheduled has been reached: no lapsed call or reservation can be acted on. */
  ghost predicate Ahead(y: Yard, now: Instant) {
    forall e :: !Due(y, now, e)
  }

  /** One unfinished trip per user, one trip per recommendation, and every trip keeps its offer's terms. */
  ghost predicate ClaimsOk(y: Yard, b: Books) {
    && (forall t, u :: t in y.trips && u in y.trips && t != u && y.trips[t].user == y.trips[u].user
          ==> !(y.trips[t].status.Active() && y.trips[u].status.Active()))
    && (forall t, u :: t in y.trips && u in y.trips && t != u ==> y.trips[t].offer != y.trips[u].offer)
    && (forall t :: t in y.trips ==> Honours(b, y.trips[t]))
  }

  /** The trip's user exists and its reward is the one its own offer made for its station. */
  ghost predicate Honours(b: Books, trip: Trip) {
    && trip.user in b.points
    && trip.offer in b.offers
    && b.offers[trip.offer].user == trip.user
    && b.offers[trip.offer].terms == trip.terms && b.offers[trip.offer].energy == trip.target
    && exists c :: c in b.offers[trip.offer].candidates
                   && c.station == trip.station && c.points == trip.points && c.price == trip.price
  }

  ghost predicate OfferOk(y: Yard, o: Offer) {
    && o.energy >= 0.01 && o.terms.rewardWindow >= 1
    && forall c :: c in o.candidates ==> c.station in y.stations && c.points >= 0 && c.price >= 0.0
  }

  ghost predicate OffersOk(y: Yard, b: Books) {
    forall o :: o in b.offers ==> OfferOk(y, b.offers[o])
  }

  function Earned(ledger: seq<LedgerRow>, user: Id): int {
    if ledger == [] then 0 else
      var row := ledger[|ledger| - 1];
      Earned(ledger[..|ledger| - 1], user) + if row.user == user then row.points else 0
  }

  /** A ledger row is the award of one completed trip, within what was offered, to a
      charge that earned it when it was paid. */
  predicate RowOf(y: Yard, row: LedgerRow) {
    row.trip in y.trips &&
    var trip := y.trips[row.trip];
    && trip.status.Completed? && row.user == trip.user && row.station == trip.station
    && row.points == trip.awarded && row.cents == trip.meter.cents
    && 0 < row.points <= trip.points
    && Verdict(trip, row.at).Awarded? && row.day == BusinessDay(row.at)
  }

  /** At most one row per trip, and one for every completed trip with an award. */
  ghost predicate RowsMatch(y: Yard, ledger: seq<LedgerRow>) {
    && (forall i :: 0 <= i < |ledger| ==> RowOf(y, ledger[i]))
    && (forall i, j :: 0 <= i < j < |ledger| ==> ledger[i].trip != ledger[j].trip)
    && (forall t :: t in y.trips && y.trips[t].status.Completed? && y.trips[t].awarded != 0
          ==> exists i :: 0 <= i < |ledger| && ledger[i].trip == t)
  }

  /** Each user's points are the sum of the user's rows, and every row has a user. */
  ghost predicate PointsMatch(b: Books) {
    && (forall u :: u in b.points ==> b.points[u] == Earned(b.ledger, u))
    && (forall i :: 0 <= i < |b.ledger| ==> b.ledger[i].user in b.points)
  }

  ghost predicate LedgerOk(y: Yard, b: Books) {
    RowsMatch(y, b.ledger) && PointsMatch(b)
  }

  /** Payments correspond one to one with completed trips, at the metered amount. */
  ghost predicate PaymentsOk(y: Yard, b: Books) {
    && (forall t :: t in b.payments <==> t in y.trips && y.trips[t].status.Completed?)
    && (forall t :: t in b.payments ==>
          b.payments[t].user == y.trips[t].user && b.payments[t].cents == y.trips[t].meter.cents)
  }

  ghost predicate BooksOk(y: Yard, b: Books) {
    ClaimsOk(y, b) && OffersOk(y, b) && LedgerOk(y, b) && PaymentsOk(y, b)
  }

  ghost predicate WorldOk(w: World) {
    && Sound(w.yard, w.state.lastTicket)
    && Ahead(w.yard, w.state.time)
    && BooksOk(w.yard, w.books)
    && ConfigOk(w.state.config) && w.state.speed >= 0.0
  }

  // ---------- time passing ----------

  lemma AdvancesClaims(y: Yard, z: Yard, b: Books)
    requires ClaimsOk(y, b) && OffersOk(y, b) && Advances(y, z)
    ensures ClaimsOk(z, b) && OffersOk(z, b)
  {
    hide Honours, OfferOk;
    forall t | t in z.trips
      ensures z.trips[t].user == y.trips[t].user && z.trips[t].offer == y.trips[t].offer
      ensures z.trips[t].status.Active() ==> y.trips[t].status.Active()
      ensures Honours(b, z.trips[t]) {
      assert AdvancesTrip(y.trips[t], z.trips[t]);
      SameHonours(b, y.trips[t], z.trips[t]);
    }
    forall o | o in b.offers ensures OfferOk(z, b.offers[o]) {
      SameOffer(y, z, b.offers[o]);
    }
  }

  lemma SameHonours(b: Books, a: Trip, c: Trip)
    requires Honours(b, a) && SameContract(a, c)
    ensures Honours(b, c)
  {
  }

  lemma SameOffer(y: Yard, z: Yard, o: Offer)
    requires OfferOk(y, o) && y.stations.Keys <= z.stations.Keys
    ensures OfferOk(z, o)
  {
  }

  /** Payments and awards stay right as long as the completed trips stay as they are. */
  ghost predicate SameCompleted(y: Yard, z: Yard) {
    && (forall t :: t in y.trips && y.trips[t].status.Completed? ==> t in z.trips && z.trips[t] == y.trips[t])
    && (forall t :: t in z.trips && z.trips[t].status.Completed? ==> t in y.trips && y.trips[t].status.Completed?)
  }

  lemma CompletedDecide(y: Yard, z: Yard, b: Books)
    requires LedgerOk(y, b) && PaymentsOk(y, b) && SameCompleted(y, z)
    ensures LedgerOk(z, b) && PaymentsOk(z, b)
  {
    hide Earned;
    forall i | 0 <= i < |b.ledger| ensures RowOf(z, b.ledger[i]) {
      assert RowOf(y, b.ledger[i]);
    }
  }

  lemma AdvancesBooks(y: Yard, z: Yard, b: Books)
    requires BooksOk(y, b) && Advances(y, z)
    ensures BooksOk(z, b)
  {
    AdvancesClaims(y, z, b);
    assert SameCompleted(y, z) by {
      assert forall t :: t in y.trips ==> AdvancesTrip(y.trips[t], z.trips[t]);
    }
    CompletedDecide(y, z, b);
    hide ClaimsOk, OffersOk, LedgerOk, PaymentsOk;
  }

  lemma CaughtUpKeeps(w: World, now: Instant)
    requires WorldOk(w)
    ensures WorldOk(CaughtUpTo(w, now)) && WorkConserving(CaughtUpTo(w, now).yard)
    ensures Advances(w.yard, CaughtUpTo(w, now).yard)
  {
    var grace := Millis(w.state.config.callTimeout);
    SynchronizeKeeps(w.yard, w.state.time, now, grace, w.state.lastTicket);
    SynchronizeSettles(w.yard, w.state.time, now, grace);
    AdvancesBooks(w.yard, CaughtUpTo(w, now).yard, w.books);
  }

  lemma TickKeeps(w: World, wall: Instant)
    requires WorldOk(w)
    ensures WorldOk(Tick(w, wall)) && WorkConserving(Tick(w, wall).yard)
    ensures Advances(w.yard, Tick(w, wall).yard)
  {
    CaughtUpKeeps(w.(state := w.state.(wall := MaxReal(wall, w.state.wall))), Now(w.state, wall));
  }

  lemma TimeoutsLast(w: World)
    requires ConfigOk(w.state.config)
    ensures HoldTime(w) >= 1000.0 && Grace(w) >= 1000.0
  {
  }

  /** The dispatch at the end of a command. */
  lemma DispatchedKeeps(w: World)
    requires WorldOk(w)
    ensures WorldOk(Dispatched(w)) && WorkConserving(Dispatched(w).yard)
    ensures Advances(w.yard, Dispatched(w).yard)
  {
    var now, grace := w.state.time, Grace(w);
    DispatchKeeps(w.yard, now, grace, w.state.lastTicket);
    DispatchConserves(w.yard, now, grace);
    DispatchAllSchedule(w.yard, w.yard.stations.Keys, now, grace);
    AdvancesBooks(w.yard, Dispatched(w).yard, w.books);
    TimeoutsLast(w);
    forall e ensures !Due(Dispatched(w).yard, now, e) {
      assert !Due(w.yard, now, e);
    }
  }

  // ---------- one recorded step of one trip ----------

  /** A step that keeps the trip's claims: same contract, and no trip becomes active again. */
  lemma RecordKeepsClaims(y: Yard, b: Books, t: Id, next: Trip, kind: EventKind, at: Instant)
    requires ClaimsOk(y, b) && OffersOk(y, b)
    requires t in y.trips && SameContract(y.trips[t], next)
    requires next.status.Active() ==> y.trips[t].status.Active()
    ensures ClaimsOk(Record(y, t, next, kind, at), b) && OffersOk(Record(y, t, next, kind, at), b)
  {
    hide Honours, OfferOk;
    var z := Record(y, t, next, kind, at);
    forall u | u in z.trips ensures Honours(b, z.trips[u]) {
      if u == t { SameHonours(b, y.trips[t], next); }
    }
    forall o | o in b.offers ensures OfferOk(z, b.offers[o]) {
      SameOffer(y, z, b.offers[o]);
    }
  }

  lemma RecordKeepsBooks(y: Yard, b: Books, t: Id, next: Trip, kind: EventKind, at: Instant)
    requires BooksOk(y, b) && t in y.trips && SameContract(y.trips[t], next)
    requires y.trips[t].status.Active() && !next.status.Completed? && !y.trips[t].status.Completed?
    ensures BooksOk(Record(y, t, next, kind, at), b)
  {
    hide ClaimsOk, OffersOk, LedgerOk, PaymentsOk;
    RecordKeepsClaims(y, b, t, next, kind, at);
    CompletedDecide(y, Record(y, t, next, kind, at), b);
  }

  /** A step whose own deadline, if any, lies ahead. */
  lemma RecordStaysAhead(y: Yard, t: Id, next: Trip, kind: EventKind, at: Instant)
    requires Ahead(y, at)
    requires var d := if next.status.Charging? then Completion(next) else Deadline(next);
      d.Some? ==> d.value > at
    ensures Ahead(Record(y, t, next, kind, at), at)
  {
    var z := Record(y, t, next, kind, at);
    forall e ensures !Due(z, at, e) {
      assert !Due(y, at, e);
    }
  }

  lemma LawfulContract(y: Yard, t: Id, next: Trip, last: int)
    requires Lawful(y, t, next, last)
    ensures t in y.trips && SameContract(y.trips[t], next) && y.trips[t].status.Active()
  {
  }

  lemma StepKeeps(w: World, t: Id, next: Trip, kind: EventKind, last: int)
    requires WorldOk(w.(state := w.state.(lastTicket := last)))
    requires Lawful(w.yard, t, next, last) && InTurn(w.yard, t, next, kind)
    requires w.state.lastTicket == LastTicket(last, w.yard.trips[t], next)
    requires !next.status.Completed?
    requires var d := if next.status.Charging? then Completion(next) else Deadline(next);
      d.Some? ==> d.value > w.state.time
    ensures WorldOk(Recorded(w, t, next, kind))
  {
    hide Sound, BooksOk, Ahead, Lawful, InTurn, Completion, Deadline;
    assert BooksOk(w.yard, w.books) && t in w.yard.trips && SameContract(w.yard.trips[t], next)
      && w.yard.trips[t].status.Active() by { LawfulContract(w.yard, t, next, last); }
    RecordKeeps(w.yard, t, next, kind, w.state.time, last);
    RecordKeepsBooks(w.yard, w.books, t, next, kind, w.state.time);
    RecordStaysAhead(w.yard, t, next, kind, w.state.time);
  }

  // ---------- the trip actions ----------

  lemma TripRow(w: World, t: Id)
    requires WorldOk(w) && t in w.yard.trips
    ensures TripOk(w.yard.trips[t]) && w.yard.trips[t].station in w.yard.stations
    ensures !Due(w.yard, w.state.time, Expire(t))
    ensures HoldTime(w) >= 1000.0 && Grace(w) >= 1000.0
  {
  }

  lemma ArrivedKeeps(w: World, t: Id)
    requires WorldOk(w) && t in w.yard.trips && w.yard.trips[t].status.EnRoute?
    ensures w.yard.trips[t].station in w.yard.stations
    ensures Arrived(w, t).Done? ==> WorldOk(Arrived(w, t).value)
  {
    hide WorldOk, Free, Line;
    TripRow(w, t);
    var now, trip := w.state.time, w.yard.trips[t];
    if now >= trip.arrivalFrom {
      var free := CurrentFree(w.yard, trip.station);
      var here := trip.(arrivedAt := Some(Trunc(now)), freeAtArrival := Some(free));
      if free > 0 && Line(w.yard, trip.station) == {} {
        var next := Moved(here.(holdUntil := Some(Trunc(now + HoldTime(w)))), Reserved, now);
        assert Lawful(w.yard, t, next, w.state.lastTicket);
        StepKeeps(w, t, next, ArrivedReserved, w.state.lastTicket);
      } else {
        var ticket := w.state.lastTicket + 1;
        var counted := w.(state := w.state.(lastTicket := ticket));
        assert counted.(state := counted.state.(lastTicket := w.state.lastTicket)) == w;
        var next := Moved(here.(ticket := Some(ticket)), Queued, now);
        assert Lawful(w.yard, t, next, w.state.lastTicket);
        StepKeeps(counted, t, next, ArrivedQueued, w.state.lastTicket);
      }
    }
  }

  lemma ConfirmedKeeps(w: World, t: Id)
    requires WorldOk(w) && t in w.yard.trips && w.yard.trips[t].status.Called?
    ensures WorldOk(Confirmed(w, t))
  {
    hide WorldOk, Free, Line;
    TripRow(w, t);
    var now := w.state.time;
    var next := Moved(w.yard.trips[t].(holdUntil := Some(Trunc(now + HoldTime(w)))), Reserved, now);
    assert Lawful(w.yard, t, next, w.state.lastTicket);
    StepKeeps(w, t, next, CallConfirmed, w.state.lastTicket);
  }

  /** No charge is shorter than a millisecond, so a start never finishes at once. */
  lemma ChargesTakeTime(target: Positive, power: Positive)
    requires target >= 0.01 && power <= 10000.0
    ensures ChargeTime(target, power) >= 1.0
  {
    var d := target / power;
    assert d * power == target;
    assert d < 0.000001 ==> d * power < 0.01;
  }

  lemma StartedKeeps(w: World, t: Id)
    requires WorldOk(w) && t in w.yard.trips && w.yard.trips[t].status.Reserved?
    ensures WorldOk(Started(w, t))
  {
    hide WorldOk, Free, Line, ChargeTime;
    TripRow(w, t);
    var now, trip := w.state.time, w.yard.trips[t];
    ChargesTakeTime(trip.target, trip.power);
    var next := Moved(trip.(startedAt := Some(Trunc(now))), Charging, now);
    assert Lawful(w.yard, t, next, w.state.lastTicket);
    StepKeeps(w, t, next, ChargingStarted, w.state.lastTicket);
  }

  lemma StoppedKeeps(w: World, t: Id)
    requires WorldOk(w) && t in w.yard.trips && w.yard.trips[t].status.Charging?
    ensures WorldOk(Stopped(w, t))
  {
    hide WorldOk, Free, Line, Reading, BillOk;
    TripRow(w, t);
    if BillOk(w.yard.trips[t]) { StoppedBill(w.yard.trips[t], w.state.time); }
    var next := FinishedTrip(w.yard.trips[t], w.state.time, Manual);
    assert Lawful(w.yard, t, next, w.state.lastTicket);
    StepKeeps(w, t, next, ChargingStopped, w.state.lastTicket);
  }

  lemma CancelledKeeps(w: World, t: Id)
    requires WorldOk(w) && t in w.yard.trips && Allowed(Cancel, w.yard.trips[t].status)
    ensures WorldOk(CancelledBy(w, t))
  {
    hide WorldOk, Free, Line;
    TripRow(w, t);
    var next := Moved(w.yard.trips[t].(stop := ByCancel, reward := RewardCancelled), Cancelled, w.state.time);
    assert Lawful(w.yard, t, next, w.state.lastTicket);
    StepKeeps(w, t, next, CancelledByUser, w.state.lastTicket);
  }
}
