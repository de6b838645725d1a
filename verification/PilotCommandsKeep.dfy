/** Every command keeps the invariant of the operational store. */
module PilotCommandsKeep {
  import opened Basics
  import opened PilotTypes
  import opened PilotCatchUp
  import opened PilotPolling
  import opened PilotBills
  import opened PilotInvariant
  import opened PilotSafety
  import opened PilotCommands
  import opened PilotWorld

  // ---------- payment ----------

  lemma EarnedAppend(ledger: seq<LedgerRow>, row: LedgerRow, user: Id)
    ensures Earned(ledger + [row], user) == Earned(ledger, user) + if row.user == user then row.points else 0
  {
    assert (ledger + [row])[..|ledger|] == ledger;
  }

  lemma UsedAppend(ledger: seq<LedgerRow>, row: LedgerRow, day: int)
    ensures UsedOn(ledger + [row], day) == UsedOn(ledger, day) + if row.day == day then row.points else 0
  {
    assert (ledger + [row])[..|ledger|] == ledger;
  }

  /** An award never exceeds the offer, and one that is made fits the day's remaining budget. */
  lemma AwardFits(w: World, trip: Trip)
    requires trip.points >= 0
    ensures 0 <= Award(w, trip) <= trip.points
    ensures Award(w, trip) > 0 ==>
      UsedOn(w.books.ledger, BusinessDay(w.state.time)) + Award(w, trip) <= w.state.config.dailyBudget
  {
  }

  /** Rows stay the awards of their completed trips when one more trip completes. */
  lemma RowsStay(y: Yard, rows: seq<LedgerRow>, t: Id, next: Trip, kind: EventKind, now: Instant)
    requires t in y.trips && !y.trips[t].status.Completed?
    requires forall i :: 0 <= i < |rows| ==> RowOf(y, rows[i])
    ensures forall i :: 0 <= i < |rows| ==> RowOf(Record(y, t, next, kind, now), rows[i]) && rows[i].trip != t
  {
    forall i | 0 <= i < |rows| ensures RowOf(Record(y, t, next, kind, now), rows[i]) && rows[i].trip != t {
      assert RowOf(y, rows[i]);
    }
  }

  /** One more row for a trip that had none. */
  lemma RowsExtend(y: Yard, z: Yard, rows: seq<LedgerRow>, row: LedgerRow)
    requires RowsMatch(y, rows) && RowOf(z, row)
    requires forall i :: 0 <= i < |rows| ==> RowOf(z, rows[i]) && rows[i].trip != row.trip
    requires forall t :: t in z.trips && t != row.trip && z.trips[t].status.Completed? ==>
      t in y.trips && z.trips[t] == y.trips[t]
    ensures RowsMatch(z, rows + [row])
  {
    hide RowOf;
    var more := rows + [row];
    assert forall i :: 0 <= i < |rows| ==> more[i] == rows[i];
    forall t | t in z.trips && z.trips[t].status.Completed? && z.trips[t].awarded != 0
      ensures exists i :: 0 <= i < |more| && more[i].trip == t {
      if t == row.trip {
        assert more[|rows|].trip == t;
      } else {
        var i :| 0 <= i < |rows| && rows[i].trip == t;
        assert more[i].trip == t;
      }
    }
  }

  lemma PointsExtend(b: Books, row: LedgerRow)
    requires PointsMatch(b) && row.user in b.points
    ensures PointsMatch(b.(ledger := b.ledger + [row], points := b.points[row.user := b.points[row.user] + row.points]))
  {
    forall u | u in b.points ensures Earned(b.ledger + [row], u) ==
        b.points[u] + if row.user == u then row.points else 0 {
      EarnedAppend(b.ledger, row, u);
    }
    hide Earned;
  }

  /** The ledger after any admissible award. */
  lemma LedgerPays(y: Yard, b: Books, t: Id, next: Trip, kind: EventKind, award: int, now: Instant)
    requires LedgerOk(y, b) && t in y.trips && !y.trips[t].status.Completed?
    requires y.trips[t].user in b.points && 0 <= award <= y.trips[t].points
    requires next.status.Completed? && SameContract(y.trips[t], next)
    requires next.awarded == award && next.meter == y.trips[t].meter
    requires award != 0 ==> Verdict(y.trips[t], now).Awarded?
    ensures LedgerOk(Record(y, t, next, kind, now), PaidBooks(b, t, y.trips[t], award, now))
  {
    var trip, z := y.trips[t], Record(y, t, next, kind, now);
    RowsStay(y, b.ledger, t, next, kind, now);
    if award == 0 {
      hide RowOf, PointsMatch;
      assert PaidBooks(b, t, trip, 0, now).points == b.points;
    } else {
      var row := LedgerRow(t, trip.user, trip.station, award, trip.meter.cents, now, BusinessDay(now));
      assert RowOf(z, row);
      hide RowsMatch, PointsMatch, BusinessDay;
      RowsExtend(y, z, b.ledger, row);
      PointsExtend(b, row);
    }
  }

  lemma PaymentsPay(y: Yard, b: Books, t: Id, next: Trip, kind: EventKind, award: int, now: Instant)
    requires PaymentsOk(y, b) && t in y.trips && y.trips[t].user in b.points
    requires next.status.Completed? && SameContract(y.trips[t], next) && next.meter == y.trips[t].meter
    ensures PaymentsOk(Record(y, t, next, kind, now), PaidBooks(b, t, y.trips[t], award, now))
  {
  }

  /** Claims depend on the books only through known users and offers. */
  lemma ClaimsCarryOver(y: Yard, b: Books, c: Books)
    requires ClaimsOk(y, b) && OffersOk(y, b)
    requires c.offers == b.offers && b.points.Keys <= c.points.Keys
    ensures ClaimsOk(y, c) && OffersOk(y, c)
  {
    forall u | u in y.trips ensures Honours(c, y.trips[u]) {
      assert Honours(b, y.trips[u]);
    }
    hide Honours, OfferOk;
    forall o | o in c.offers ensures OfferOk(y, c.offers[o]) {
      SameOffer(y, y, b.offers[o]);
    }
  }

  lemma PaidKeeps(w: World, t: Id)
    requires WorldOk(w) && t in w.yard.trips && w.yard.trips[t].status.PendingPayment?
    ensures Paid(w, t).Done? && WorldOk(Paid(w, t).value)
  {
    var now, trip, y := w.state.time, w.yard.trips[t], w.yard;
    assert Honours(w.books, trip) && TripOk(trip);
    AwardFits(w, trip);
    var award := Award(w, trip);
    var verdict := FinalVerdict(trip, Verdict(trip, now), award);
    assert award != 0 ==> Verdict(trip, now).Awarded?;
    hide Verdict, Award, FinalVerdict, WorldOk;
    PaidStep(w, t, award, verdict);
  }

  lemma PaidStepKeepsTables(w: World, t: Id, award: int, verdict: RewardStatus)
    requires WorldOk(w) && t in w.yard.trips && w.yard.trips[t].status.PendingPayment?
    ensures var trip, now := w.yard.trips[t], w.state.time;
      var z := Record(w.yard, t, PaidTrip(trip, award, verdict, now), PaymentCompleted(trip.meter.cents, award, verdict), now);
      Sound(z, w.state.lastTicket) && Ahead(z, now)
  {
    hide BooksOk, FullMeter, Cost;
    var now, trip := w.state.time, w.yard.trips[t];
    var next, kind := PaidTrip(trip, award, verdict, now), PaymentCompleted(trip.meter.cents, award, verdict);
    assert TripOk(trip) && trip.station in w.yard.stations;
    hide Sound, Ahead;
    RecordKeeps(w.yard, t, next, kind, now, w.state.lastTicket);
    RecordStaysAhead(w.yard, t, next, kind, now);
  }

  lemma PaidStepKeepsBooks(w: World, t: Id, award: int, verdict: RewardStatus)
    requires WorldOk(w) && t in w.yard.trips && w.yard.trips[t].status.PendingPayment?
    requires w.yard.trips[t].user in w.books.points && 0 <= award <= w.yard.trips[t].points
    requires award != 0 ==> Verdict(w.yard.trips[t], w.state.time).Awarded?
    ensures var trip, now := w.yard.trips[t], w.state.time;
      BooksOk(Record(w.yard, t, PaidTrip(trip, award, verdict, now), PaymentCompleted(trip.meter.cents, award, verdict), now),
              PaidBooks(w.books, t, trip, award, now))
  {
    var now, trip, y := w.state.time, w.yard.trips[t], w.yard;
    var next, kind := PaidTrip(trip, award, verdict, now), PaymentCompleted(trip.meter.cents, award, verdict);
    hide Sound, Ahead, Verdict, LedgerOk, PaymentsOk, ClaimsOk, OffersOk;
    assert SameContract(trip, next) && next.status.Completed? && next.awarded == award && next.meter == trip.meter;
    hide SameContract, PaidTrip, Record;
    PaidBooksKeep(w.books, t, trip, award, now);
    RecordKeepsClaims(y, w.books, t, next, kind, now);
    LedgerPays(y, w.books, t, next, kind, award, now);
    PaymentsPay(y, w.books, t, next, kind, award, now);
    hide PaidBooks;
    ClaimsCarryOver(Record(y, t, next, kind, now), w.books, PaidBooks(w.books, t, trip, award, now));
  }

  lemma PaidBooksKeep(b: Books, t: Id, trip: Trip, award: int, now: Instant)
    requires trip.user in b.points
    ensures PaidBooks(b, t, trip, award, now).offers == b.offers
    ensures b.points.Keys <= PaidBooks(b, t, trip, award, now).points.Keys
  {
    hide BusinessDay;
  }

  lemma PaidStep(w: World, t: Id, award: int, verdict: RewardStatus)
    requires WorldOk(w) && t in w.yard.trips && w.yard.trips[t].status.PendingPayment?
    requires w.yard.trips[t].user in w.books.points && 0 <= award <= w.yard.trips[t].points
    requires award != 0 ==> Verdict(w.yard.trips[t], w.state.time).Awarded?
    ensures var trip, now := w.yard.trips[t], w.state.time;
      WorldOk(Recorded(w.(books := PaidBooks(w.books, t, trip, award, now)), t,
        PaidTrip(trip, award, verdict, now), PaymentCompleted(trip.meter.cents, award, verdict)))
  {
    hide Sound, Ahead, Verdict, BooksOk, PaidBooks, PaidTrip, Record;
    PaidStepKeepsTables(w, t, award, verdict);
    PaidStepKeepsBooks(w, t, award, verdict);
  }

  lemma PerformedKeeps(w: World, t: Id, action: Action)
    requires WorldOk(w) && t in w.yard.trips && Allowed(action, w.yard.trips[t].status)
    requires w.yard.trips[t].station in w.yard.stations
    ensures Performed(w, t, action).Done? ==> WorldOk(Performed(w, t, action).value)
  {
    match action
    case Arrive => ArrivedKeeps(w, t);
    case Confirm => ConfirmedKeeps(w, t);
    case Start => StartedKeeps(w, t);
    case Stop => StoppedKeeps(w, t);
    case Pay => PaidKeeps(w, t);
    case Cancel => CancelledKeeps(w, t);
    case UnknownAction =>
  }

  lemma ActedKeeps(w: World, user: Id, t: Id, action: Action)
    requires WorldOk(w)
    ensures Acted(w, user, t, action).Done? ==> WorldOk(Acted(w, user, t, action).value)
  {
    hide WorldOk, Performed, Dispatched;
    if user in w.books.points && t in w.yard.trips && w.yard.trips[t].user == user
       && Allowed(action, w.yard.trips[t].status) && w.yard.trips[t].station in w.yard.stations {
      PerformedKeeps(w, t, action);
      var r := Performed(w, t, action);
      if r.Done? { DispatchedKeeps(r.value); }
    }
  }

  // ---------- selection ----------

  lemma LogEmpty(events: seq<Event>, t: Id)
    requires forall i :: 0 <= i < |events| ==> events[i].trip != t
    ensures Log(events, t) == []
  {
  }

  lemma CreateLines(y: Yard, t: Id, trip: Trip, at: Instant)
    requires t !in y.trips && trip.status.EnRoute?
    ensures forall s :: Holders(Record(y, t, trip, Selected, at), s) == Holders(y, s)
    ensures forall s :: Line(Record(y, t, trip, Selected, at), s) == Line(y, s)
  {
    var z := Record(y, t, trip, Selected, at);
    forall s ensures Holders(z, s) == Holders(y, s) && Line(z, s) == Line(y, s) {
      assert forall u :: u in Holders(z, s) <==> u in Holders(y, s);
      assert forall u :: u in Line(z, s) <==> u in Line(y, s);
    }
  }

  lemma CreateKeepsLogs(y: Yard, t: Id, trip: Trip, at: Instant)
    requires LogsOk(y) && t !in y.trips && trip.status.EnRoute?
    ensures LogsOk(Record(y, t, trip, Selected, at))
  {
    var z := Record(y, t, trip, Selected, at);
    LogEmpty(y.events, t);
    forall u | u in z.trips ensures IsPath(Log(z.events, u), z.trips[u].status) {
      LogAppend(y.events, Event(t, Selected, EnRoute, at), u);
      if u != t { assert IsPath(Log(y.events, u), y.trips[u].status); }
    }
  }

  lemma CreateKeepsTurns(y: Yard, t: Id, trip: Trip, at: Instant)
    requires LogsOk(y) && FifoOk(y) && t !in y.trips && trip.status.EnRoute?
    ensures FifoOk(Record(y, t, trip, Selected, at))
  {
    var z := Record(y, t, trip, Selected, at);
    CreateLines(y, t, trip, at);
    assert forall i :: 0 <= i < |y.events| ==> z.events[i] == y.events[i] && z.events[i].trip != t;
    assert forall i, s :: CallOf(z, i, s) ==> CallOf(y, i, s);
    assert forall i :: 0 <= i < |y.events| && y.events[i].trip in y.trips ==> TicketAt(z, i) == TicketAt(y, i);
  }

  lemma CreateKeepsArrivals(y: Yard, t: Id, trip: Trip, at: Instant)
    requires ArrivalsOk(y) && t !in y.trips
    ensures ArrivalsOk(Record(y, t, trip, Selected, at))
  {
    var z := Record(y, t, trip, Selected, at);
    assert forall i :: 0 <= i < |y.events| ==> z.events[i] == y.events[i];
    assert forall i :: (Joins(z, i) <==> Joins(y, i)) && (Enters(z, i) <==> Enters(y, i));
    forall i, j | Joins(z, j) && Enters(z, i) && j < i && StationAt(z, j) == StationAt(z, i)
      ensures MovedBetween(z.events, j, i)
    {
      assert StationAt(y, j) == StationAt(y, i);
      var k :| j < k < i && y.events[k].trip == y.events[j].trip;
      assert z.events[k] == y.events[k];
    }
    hide MovedBetween;
    forall i, j | Joins(z, i) && Joins(z, j) && i < j ensures TicketAt(z, i) < TicketAt(z, j) {
      assert Joins(y, i) && Joins(y, j);
    }
  }

  lemma CreateKeeps(y: Yard, t: Id, trip: Trip, at: Instant, last: int)
    requires Sound(y, last) && t !in y.trips
    requires trip.status.EnRoute? && trip.ticket.None? && TripOk(trip) && BillOk(trip) && trip.station in y.stations
    ensures Sound(Record(y, t, trip, Selected, at), last)
  {
    var z := Record(y, t, trip, Selected, at);
    CreateLines(y, t, trip, at);
    CreateKeepsLogs(y, t, trip, at);
    CreateKeepsTurns(y, t, trip, at);
    CreateKeepsArrivals(y, t, trip, at);
    hide ArrivalsOk, BillOk, LogsOk, FifoOk;
    assert forall s :: s in y.stations ==> Free(z, s) == Free(y, s);
  }

  /** The trip that a successful selection creates. */
  lemma NewTripOk(w: World, user: Id, id: Id, c: Candidate)
    requires WorldOk(w) && id in w.books.offers && c in w.books.offers[id].candidates
    requires c.station in w.yard.stations
    ensures var trip := NewTrip(user, id, w.books.offers[id], c, w.yard.stations[c.station].power, w.state.time);
      TripOk(trip) && BillOk(trip) && trip.rewardUntil > w.state.time
  {
    hide BillsOk, ArrivalsOk, LedgerOk, PaymentsOk, ClaimsOk, CapacityOk, TicketsOk, LogsOk, FifoOk, Ahead;
    var offer := w.books.offers[id];
    assert OfferOk(w.yard, offer);
    assert StationOk(w.yard.stations[c.station]);
    assert Millis(offer.terms.rewardWindow) >= 1000.0;
  }

  lemma CreateStaysAhead(y: Yard, t: Id, trip: Trip, now: Instant)
    requires Ahead(y, now) && t !in y.trips && trip.status.EnRoute? && trip.rewardUntil > now
    ensures Ahead(Record(y, t, trip, Selected, now), now)
  {
    var z := Record(y, t, trip, Selected, now);
    forall e ensures !Due(z, now, e) {
      assert !Due(y, now, e);
    }
  }

  lemma SelectedKeeps(w: World, user: Id, id: Id, station: Id, newId: Id)
    requires WorldOk(w)
    ensures SelectedTrip(w, user, id, station, newId).Done? ==> WorldOk(SelectedTrip(w, user, id, station, newId).value)
  {
    var r := SelectedTrip(w, user, id, station, newId);
    var y, now := w.yard, w.state.time;
    if r.Done? && !(exists t :: t in y.trips && y.trips[t].offer == id) {
      var offer := w.books.offers[id];
      var c := FindCandidate(offer.candidates, station);
      hide FindCandidate, HasActiveTrip, Sound, Ahead, BooksOk;
      NewTripOk(w, user, id, c.value);
      var trip := NewTrip(user, id, offer, c.value, y.stations[station].power, now);
      CreateKeeps(y, newId, trip, now, w.state.lastTicket);
      CreateStaysAhead(y, newId, trip, now);
      CreateKeepsBooks(y, w.books, newId, trip, now, c.value);
    }
  }

  lemma CreateKeepsClaims(y: Yard, b: Books, t: Id, trip: Trip, at: Instant)
    requires ClaimsOk(y, b) && OffersOk(y, b) && t !in y.trips && Honours(b, trip)
    requires !HasActiveTrip(y, trip.user) && forall u :: u in y.trips ==> y.trips[u].offer != trip.offer
    ensures ClaimsOk(Record(y, t, trip, Selected, at), b) && OffersOk(Record(y, t, trip, Selected, at), b)
  {
    var z := Record(y, t, trip, Selected, at);
    hide Honours, OfferOk;
    forall o | o in b.offers ensures OfferOk(z, b.offers[o]) {
      SameOffer(y, z, b.offers[o]);
    }
  }

  lemma CreateKeepsBooks(y: Yard, b: Books, t: Id, trip: Trip, at: Instant, c: Candidate)
    requires BooksOk(y, b) && t !in y.trips && trip.status.EnRoute?
    requires trip.user in b.points && trip.offer in b.offers && b.offers[trip.offer].user == trip.user
    requires b.offers[trip.offer].terms == trip.terms && b.offers[trip.offer].energy == trip.target
    requires c in b.offers[trip.offer].candidates && c.station == trip.station && c.points == trip.points && c.price == trip.price
    requires !HasActiveTrip(y, trip.user) && forall u :: u in y.trips ==> y.trips[u].offer != trip.offer
    ensures BooksOk(Record(y, t, trip, Selected, at), b)
  {
    assert Honours(b, trip);
    hide Honours, HasActiveTrip, ClaimsOk, OffersOk, LedgerOk, PaymentsOk;
    CreateKeepsClaims(y, b, t, trip, at);
    CompletedDecide(y, Record(y, t, trip, Selected, at), b);
  }

  // ---------- recommendations and sessions ----------

  lemma CandidatesChecked(y: Yard, cs: seq<Candidate>, seen: set<Id>, ranks: set<real>)
    requires CandidateError(y, cs, seen, ranks).None?
    ensures forall c :: c in cs ==> CandidateOk(c) && c.station in y.stations
  {
  }

  lemma RewardsCount(c: Config, cand: Candidate)
    requires ConfigOk(c) && CandidateOk(cand)
    ensures Priced(c, cand).points >= 0
  {
    var reward := RewardOf(c, cand.rank) as real;
    assert reward * cand.multiplier >= 0.0;
  }

  lemma OfferAdded(y: Yard, b: Books, id: Id, o: Offer)
    requires BooksOk(y, b) && id !in b.offers && OfferOk(y, o)
    ensures BooksOk(y, b.(offers := b.offers[id := o]))
  {
    var c := b.(offers := b.offers[id := o]);
    forall t | t in y.trips ensures Honours(c, y.trips[t]) {
      assert Honours(b, y.trips[t]);
    }
    hide Honours, OfferOk, Earned;
  }

  lemma OfferPriced(w: World, user: Id, until: Instant, energy: Positive, cs: seq<Candidate>)
    requires WorldOk(w) && energy >= 0.01 && CandidateError(w.yard, cs, {}, {}).None?
    ensures var c := w.state.config;
      OfferOk(w.yard, Offer(user, until, energy, Terms(c.minimumEnergy, c.minimumSeconds, c.rewardWindow), PricedAll(c, cs)))
  {
    var c := w.state.config;
    CandidatesChecked(w.yard, cs, {}, {});
    hide Sound, Ahead, BooksOk, CandidateError;
    forall p | p in PricedAll(c, cs) ensures p.station in w.yard.stations && p.points >= 0 {
      var i :| 0 <= i < |cs| && p == Priced(c, cs[i]);
      assert cs[i] in cs;
      RewardsCount(c, cs[i]);
    }
  }

  lemma EnergyInRange(energy: real)
    ensures InRange(energy, 0.01, 500.0) ==> energy >= 0.01
  {
  }

  lemma SavedKeeps(w: World, user: Id, id: Option<Id>, expires: Expiry, energy: real, cs: seq<Candidate>)
    requires WorldOk(w)
    ensures SavedOffer(w, user, id, expires, energy, cs).Done? ==>
      WorldOk(SavedOffer(w, user, id, expires, energy, cs).value)
  {
    hide Sound, Ahead, BooksOk, CandidateError, OfferOk, PricedAll, InRange, ConfigOk;
    var r := SavedOffer(w, user, id, expires, energy, cs);
    if r.Done? && id.Some? && id.value !in w.books.offers {
      EnergyInRange(energy);
      var until := if expires.Until? then expires.at else w.state.time + Millis(900);
      OfferPriced(w, user, until, energy, cs);
      OfferAdded(w.yard, w.books, id.value, r.value.books.offers[id.value]);
    }
  }

  lemma EarnedNothing(ledger: seq<LedgerRow>, user: Id)
    requires forall i :: 0 <= i < |ledger| ==> ledger[i].user != user
    ensures Earned(ledger, user) == 0
  {
  }

  lemma SessionKeeps(w: World, user: Id)
    requires WorldOk(w) && user !in w.books.points
    ensures WorldOk(w.(books := w.books.(points := w.books.points[user := 0])))
  {
    var b := w.books.(points := w.books.points[user := 0]);
    EarnedNothing(w.books.ledger, user);
    ClaimsCarryOver(w.yard, w.books, b);
    hide Sound, Ahead, ClaimsOk, OffersOk, Earned, RowOf, PaymentsOk;
    assert LedgerOk(w.yard, b);
    assert PaymentsOk(w.yard, b) by { PaymentsCarryOver(w.yard, w.books, b); }
  }

  lemma PaymentsCarryOver(y: Yard, b: Books, c: Books)
    requires PaymentsOk(y, b) && c.payments == b.payments
    ensures PaymentsOk(y, c)
  {
  }

  // ---------- background load ----------

  /** A station after some loads: its first load or the last one set on it. */
  ghost predicate LoadOf(y: Yard, ls: seq<Load>, s: Id, st: Station)
    requires s in y.stations
  {
    st == y.stations[s]
    || exists l :: l in ls && l.station == s && st == y.stations[s].(busy := l.busy, release := l.release)
  }

  lemma {:induction false} LoadedAllEffect(y: Yard, ls: seq<Load>)
    ensures var z := LoadedAll(y, ls);
      && z.trips == y.trips && z.events == y.events && z.stations.Keys == y.stations.Keys
      && forall s :: s in y.stations ==> LoadOf(y, ls, s, z.stations[s])
    decreases |ls|
  {
    if ls != [] {
      var m, z := Loaded(y, ls[0]), LoadedAll(y, ls);
      LoadedAllEffect(m, ls[1..]);
      forall s | s in y.stations ensures LoadOf(y, ls, s, z.stations[s]) {
        assert LoadOf(m, ls[1..], s, z.stations[s]);
        assert ls[0] in ls;
        assert forall l :: l in ls[1..] ==> l in ls;
      }
    }
  }

  ghost predicate Fits(y: Yard, now: Instant, l: Load) {
    && l.station in y.stations && 0 <= l.busy <= Free(y, l.station)
           + y.stations[l.station].busy
    && (l.busy > 0 <==> l.release.Some?) && (l.release.Some? ==> l.release.value > now)
  }

  lemma LoadedStations(y: Yard, now: Instant, ls: seq<Load>, s: Id)
    requires RowsOk(y) && CapacityOk(y) && Ahead(y, now) && forall l :: l in ls ==> Fits(y, now, l)
    requires s in y.stations
    ensures var z := LoadedAll(y, ls);
      && s in z.stations && StationOk(z.stations[s]) && z.stations[s].capacity == y.stations[s].capacity
      && z.stations[s].capacity - z.stations[s].busy >= |Holders(y, s)|
      && !Due(z, now, Release(s))
  {
    hide Holders;
    LoadedAllEffect(y, ls);
    var z := LoadedAll(y, ls);
    assert LoadOf(y, ls, s, z.stations[s]);
    assert StationOk(y.stations[s]) && Free(y, s) >= 0 && !Due(y, now, Release(s));
    assert forall l :: l in ls ==> Fits(y, now, l);
  }

  lemma LoadsKeepTables(w: World, ls: seq<Load>)
    requires WorldOk(w) && forall l :: l in ls ==> Fits(w.yard, w.state.time, l)
    ensures var z := LoadedAll(w.yard, ls); Sound(z, w.state.lastTicket) && Ahead(z, w.state.time) && Advances(w.yard, z)
  {
    hide BooksOk, Fits, LoadOf;
    var y, now, z := w.yard, w.state.time, LoadedAll(w.yard, ls);
    LoadedAllEffect(y, ls);
    hide LoadedAll;
    forall s | s in y.stations
      ensures StationOk(z.stations[s]) && z.stations[s].capacity == y.stations[s].capacity
      ensures z.stations[s].capacity - z.stations[s].busy >= |Holders(y, s)|
      ensures !Due(z, now, Release(s)) {
      LoadedStations(y, now, ls, s);
    }
    StationsKeep(y, z, w.state.lastTicket);
    hide Sound, Holders;
    forall e ensures !Due(z, now, e) {
      if !e.Release? { assert !Due(y, now, e); }
    }
    assert forall t :: t in y.trips ==> AdvancesTrip(y.trips[t], z.trips[t]);
  }

  lemma LoadsKeep(w: World, ls: seq<Load>)
    requires WorldOk(w) && forall l :: l in ls ==> Fits(w.yard, w.state.time, l)
    ensures WorldOk(w.(yard := LoadedAll(w.yard, ls)))
  {
    hide Sound, Ahead, BooksOk, LoadedAll, Fits, Advances;
    LoadsKeepTables(w, ls);
    AdvancesBooks(w.yard, LoadedAll(w.yard, ls), w.books);
  }

  lemma {:induction false} PreparedFits(y: Yard, now: Instant, items: seq<Snapshot>)
    requires CapacityOk(y) && RowsOk(y) && Prepared(y, now, items).Done?
    ensures |Prepared(y, now, items).value| == |items|
    ensures forall i :: 0 <= i < |items| ==>
      && items[i].station in y.stations && items[i].free.Some?
      && Prepared(y, now, items).value[i] == BaselineLoad(y, now, items[i])
      && Fits(y, now, Prepared(y, now, items).value[i])
    decreases |items|
  {
    if items != [] {
      var l := BaselineLoad(y, now, items[0]);
      assert Free(y, l.station) >= 0;
      assert StationOk(y.stations[l.station]);
      assert Fits(y, now, l);
      PreparedFits(y, now, items[1..]);
    }
  }

  lemma BaselineKeeps(w: World, items: seq<Snapshot>)
    requires WorldOk(w)
    ensures BaselineSet(w, items).Done? ==> WorldOk(BaselineSet(w, items).value)
  {
    var r := Prepared(w.yard, w.state.time, items);
    if !w.state.baseline && r.Done? {
      PreparedFits(w.yard, w.state.time, items);
      forall l | l in r.value ensures Fits(w.yard, w.state.time, l) {
        var i :| 0 <= i < |r.value| && r.value[i] == l;
      }
      LoadsKeep(w, r.value);
    }
  }

  lemma BackgroundKeeps(w: World, s: Id, busy: int, delay: real)
    requires WorldOk(w) && busy >= 0 && (busy > 0 ==> delay >= 1.0)
    ensures BackgroundSet(w, s, busy, delay).Done? ==> WorldOk(BackgroundSet(w, s, busy, delay).value)
  {
    var r := BackgroundSet(w, s, busy, delay);
    if r.Done? {
      BackgroundFits(w.yard, w.state.time, s, busy, delay);
      var l := BackgroundLoad(s, busy, delay, w.state.time);
      OneLoadKeeps(w, l);
      DispatchedKeeps(w.(yard := Loaded(w.yard, l)));
    }
  }

  lemma BackgroundFits(y: Yard, now: Instant, s: Id, busy: int, delay: real)
    requires s in y.stations && 0 <= busy <= y.stations[s].capacity - |Holders(y, s)|
    requires busy > 0 ==> delay >= 1.0
    ensures Fits(y, now, BackgroundLoad(s, busy, delay, now))
  {
  }

  lemma OneLoadKeeps(w: World, l: Load)
    requires WorldOk(w) && Fits(w.yard, w.state.time, l)
    ensures WorldOk(w.(yard := Loaded(w.yard, l)))
  {
    assert LoadedAll(Loaded(w.yard, l), []) == Loaded(w.yard, l);
    assert LoadedAll(w.yard, [l]) == Loaded(w.yard, l);
    LoadsKeep(w, [l]);
  }

  // ---------- all commands ----------

  lemma {:induction false} PatchedKeeps(c: Config, patch: seq<Setting>)
    requires ConfigOk(c)
    ensures PatchedAll(c, patch).Some? ==> ConfigOk(PatchedAll(c, patch).value)
    decreases |patch|
  {
    if patch != [] {
      var first := Patched(c, patch[0]);
      if first.Some? { PatchedKeeps(first.value, patch[1..]); }
    }
  }

  lemma OperatorCommandKeeps(w: World, c: Command)
    requires WorldOk(w) && Precheck(c).None?
    requires c.SetBackground? || c.Configure? || c.Advance? || c.ConfigureClock?
    ensures Apply(w, c).Done? ==> WorldOk(Apply(w, c).value)
  {
    hide Sound, Ahead, BooksOk, WeightsOk, BackgroundSet, Advanced, PatchedAll, WorkConserving;
    match c
    case SetBackground(s, busy, delay) =>
      assert busy == busy.Floor as real;
      BackgroundKeeps(w, s, busy.Floor, delay);
    case Configure(patch) =>
      PatchedKeeps(w.state.config, patch);
      if Apply(w, c).Done? { StateKeeps(w, Apply(w, c).value.state); }
    case Advance(seconds) => AdvancedKeeps(w, seconds);
    case ConfigureClock(_, _) => StateKeeps(w, Apply(w, c).value.state);
  }

  lemma AdvancedKeeps(w: World, seconds: real)
    requires WorldOk(w)
    ensures WorldOk(Advanced(w, seconds)) && WorkConserving(Advanced(w, seconds).yard)
  {
    hide WorldOk, WorkConserving, CaughtUpTo, Advances;
    CaughtUpKeeps(w, After(w.state.time, seconds));
  }

  /** Speed, pause, configuration and the baseline mark do not touch the tables. */
  lemma StateKeeps(w: World, state: State)
    requires WorldOk(w) && ConfigOk(state.config) && state.speed >= 0.0
    requires state.time == w.state.time && state.lastTicket == w.state.lastTicket
    ensures WorldOk(w.(state := state))
  {
  }

  lemma ApplyKeeps(w: World, c: Command)
    requires WorldOk(w) && Precheck(c).None?
    ensures Apply(w, c).Done? ==> WorldOk(Apply(w, c).value)
  {
    hide WorldOk, SavedOffer, SelectedTrip, Acted, BaselineSet, BackgroundSet, Advanced, PatchedAll;
    match c
    case ReadClock =>
    case CreateSession(user) => if user !in w.books.points { SessionKeeps(w, user); }
    case SaveOffer(user, id, expires, energy, cs) => SavedKeeps(w, user, id, expires, energy, cs);
    case Select(user, offer, station, newId) => SelectedKeeps(w, user, offer, station, newId);
    case Act(user, trip, action) => ActedKeeps(w, user, trip, action);
    case SetBaseline(items) => BaselineKeeps(w, items);
    case SetBackground(_, _, _) => OperatorCommandKeeps(w, c);
    case Configure(_) => OperatorCommandKeeps(w, c);
    case Advance(_) => OperatorCommandKeeps(w, c);
    case ConfigureClock(_, _) => OperatorCommandKeeps(w, c);
  }
}
