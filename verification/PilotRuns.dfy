/** What holds over every run of the operational store: any commands, by any users,
    at any wall-clock readings, with any of them failing, and catalogue updates in between. */
module PilotRuns {
  import opened Basics
  import opened PilotTypes
  import opened PilotCatchUp
  import opened PilotPolling
  import opened PilotBills
  import opened PilotInvariant
  import opened PilotSafety
  import opened PilotCommands
  import opened PilotWorld
  import opened PilotCommandsKeep

  // ---------- catalogue updates ----------

  datatype CatalogRow = CatalogRow(station: Id, capacity: real, power: real, price: real)

  predicate RowNumbersOk(r: CatalogRow) {
    WholeInRange(r.capacity, 1.0, 10000.0) && InRange(r.power, 0.001, 10000.0) && InRange(r.price, 0.0, 1000.0)
  }

  /** One catalogue row: refused when the new capacity cannot hold what is already there. */
  ghost function Installed(y: Yard, r: CatalogRow): Option<Yard> {
    if !RowNumbersOk(r) then None
    else if r.station in y.stations then
      var st := y.stations[r.station];
      if r.capacity.Floor < st.busy + |Holders(y, r.station)| then None
      else Some(y.(stations := y.stations[r.station := st.(capacity := r.capacity.Floor, power := r.power, price := r.price)]))
    else Some(y.(stations := y.stations[r.station := Station(r.capacity.Floor, r.power, r.price, 0, None)]))
  }

  /** All rows or none. */
  ghost function InstalledAll(y: Yard, rows: seq<CatalogRow>): Option<Yard>
    decreases |rows|
  {
    if rows == [] then Some(y) else
      var first := Installed(y, rows[0]);
      if first.None? then None else InstalledAll(first.value, rows[1..])
  }

  lemma InstalledStations(y: Yard, now: Instant, r: CatalogRow, s: Id)
    requires RowsOk(y) && CapacityOk(y) && Ahead(y, now) && Installed(y, r).Some?
    requires s in Installed(y, r).value.stations
    ensures var z := Installed(y, r).value;
      && StationOk(z.stations[s]) && z.stations[s].capacity - z.stations[s].busy >= |Holders(y, s)|
      && !Due(z, now, Release(s))
  {
    if s in y.stations {
      hide Holders;
      assert StationOk(y.stations[s]) && Free(y, s) >= 0 && !Due(y, now, Release(s));
    } else {
      assert forall t :: t in y.trips ==> y.trips[t].station != s;
      assert Holders(y, s) == {};
    }
  }

  lemma InstalledTables(w: World, r: CatalogRow)
    requires WorldOk(w) && Installed(w.yard, r).Some?
    ensures var z := Installed(w.yard, r).value;
      && z.trips == w.yard.trips && z.events == w.yard.events && w.yard.stations.Keys <= z.stations.Keys
      && Sound(z, w.state.lastTicket) && Ahead(z, w.state.time)
  {
    hide BooksOk;
    var y, z := w.yard, Installed(w.yard, r).value;
    forall s | s in z.stations
      ensures StationOk(z.stations[s]) && z.stations[s].capacity - z.stations[s].busy >= |Holders(y, s)|
      ensures !Due(z, w.state.time, Release(s)) {
      InstalledStations(y, w.state.time, r, s);
    }
    StationsKeep(y, z, w.state.lastTicket);
    hide Installed, Sound;
    forall e ensures !Due(z, w.state.time, e) {
      if !e.Release? { assert !Due(y, w.state.time, e); }
    }
  }

  lemma InstalledKeeps(w: World, r: CatalogRow)
    requires WorldOk(w)
    ensures Installed(w.yard, r).Some? ==> WorldOk(w.(yard := Installed(w.yard, r).value))
    ensures Installed(w.yard, r).Some? ==> Grows(w, w.(yard := Installed(w.yard, r).value))
  {
    if Installed(w.yard, r).Some? {
      hide Installed, Sound, BooksOk, Ahead, Grows;
      var z := w.(yard := Installed(w.yard, r).value);
      InstalledTables(w, r);
      StationsKeepBooks(w.yard, z.yard, w.books);
      SameTripsGrow(w, z);
    }
  }

  lemma SameTripsGrow(w: World, z: World)
    requires z.books == w.books && z.yard.trips == w.yard.trips && z.yard.events == w.yard.events
    ensures Grows(w, z)
  {
  }

  lemma StationsKeepBooks(y: Yard, z: Yard, b: Books)
    requires BooksOk(y, b) && z.trips == y.trips && y.stations.Keys <= z.stations.Keys
    ensures BooksOk(z, b)
  {
    hide Honours, OfferOk, Earned;
    forall o | o in b.offers ensures OfferOk(z, b.offers[o]) {
      SameOffer(y, z, b.offers[o]);
    }
    forall i | 0 <= i < |b.ledger| ensures RowOf(z, b.ledger[i]) {
      assert RowOf(y, b.ledger[i]);
    }
  }

  lemma {:induction false} InstalledAllKeeps(w: World, rows: seq<CatalogRow>)
    requires WorldOk(w)
    ensures InstalledAll(w.yard, rows).Some? ==> WorldOk(w.(yard := InstalledAll(w.yard, rows).value))
    ensures InstalledAll(w.yard, rows).Some? ==> Grows(w, w.(yard := InstalledAll(w.yard, rows).value))
    decreases |rows|
  {
    hide WorldOk, Grows, Installed;
    GrowsSelf(w);
    if rows != [] && Installed(w.yard, rows[0]).Some? {
      InstalledKeeps(w, rows[0]);
      var m := w.(yard := Installed(w.yard, rows[0]).value);
      InstalledAllKeeps(m, rows[1..]);
      if InstalledAll(w.yard, rows).Some? {
        GrowsTransitive(w, m, w.(yard := InstalledAll(w.yard, rows).value));
      }
    }
  }

  // ---------- nothing is rewritten ----------

  /** Offers, payments, ledger rows, log entries, finished trips and finished charges are
      there for good, and a trip keeps the terms it was selected with. */
  ghost predicate Grows(w: World, z: World) {
    && (forall o :: o in w.books.offers ==> o in z.books.offers && z.books.offers[o] == w.books.offers[o])
    && (forall t :: t in w.books.payments ==> t in z.books.payments && z.books.payments[t] == w.books.payments[t])
    && w.books.ledger <= z.books.ledger
    && w.yard.events <= z.yard.events
    && (forall t :: t in w.yard.trips ==> t in z.yard.trips && GrowsTrip(w.yard.trips[t], z.yard.trips[t]))
  }

  predicate GrowsTrip(a: Trip, b: Trip) {
    && SameContract(a, b) && (!a.status.Active() ==> a == b)
    && (Charged(a) ==> Charged(b) && SameCharge(a, b))
  }

  /** The charge is over: neither its times nor its meter change any more. */
  predicate SameCharge(a: Trip, b: Trip) {
    (a.startedAt, a.stoppedAt, a.stop, a.meter) == (b.startedAt, b.stoppedAt, b.stop, b.meter)
  }

  lemma GrowsTransitive(x: World, y: World, z: World)
    requires Grows(x, y) && Grows(y, z)
    ensures Grows(x, z)
  {
    forall t | t in x.yard.trips ensures t in z.yard.trips && GrowsTrip(x.yard.trips[t], z.yard.trips[t]) {
      assert GrowsTrip(x.yard.trips[t], y.yard.trips[t]) && GrowsTrip(y.yard.trips[t], z.yard.trips[t]);
    }
  }

  lemma AdvancesGrows(w: World, z: World)
    requires Advances(w.yard, z.yard) && w.books == z.books
    ensures Grows(w, z)
  {
    forall t | t in w.yard.trips ensures t in z.yard.trips && GrowsTrip(w.yard.trips[t], z.yard.trips[t]) {
      assert AdvancesTrip(w.yard.trips[t], z.yard.trips[t]);
    }
  }

  lemma PerformedGrows(w: World, t: Id, action: Action)
    requires WorldOk(w) && t in w.yard.trips && Allowed(action, w.yard.trips[t].status)
    requires w.yard.trips[t].station in w.yard.stations
    ensures Performed(w, t, action).Done? ==> Grows(w, Performed(w, t, action).value)
  {
    hide Sound, Ahead, BooksOk;
    match action
    case Arrive => hide CurrentFree, Line;
    case Pay => PaidGrows(w, t);
    case _ =>
  }

  lemma PaidGrows(w: World, t: Id)
    requires WorldOk(w) && t in w.yard.trips && w.yard.trips[t].status.PendingPayment?
    ensures Paid(w, t).Done? ==> Grows(w, Paid(w, t).value)
  {
    hide Award, Verdict, FinalVerdict, Sound, Ahead, ClaimsOk, OffersOk, LedgerOk;
  }

  lemma ActedGrows(w: World, user: Id, t: Id, action: Action)
    requires WorldOk(w)
    ensures Acted(w, user, t, action).Done? ==> Grows(w, Acted(w, user, t, action).value)
  {
    hide WorldOk, Performed, Dispatched, Grows;
    var r := Acted(w, user, t, action);
    if r.Done? && user in w.books.points && t in w.yard.trips && w.yard.trips[t].user == user
       && Allowed(action, w.yard.trips[t].status) {
      PerformedGrows(w, t, action);
      var p := Performed(w, t, action).value;
      PerformedKeeps(w, t, action);
      DispatchedGrows(p);
      GrowsTransitive(w, p, Dispatched(p));
    } else {
      GrowsSelf(w);
    }
  }

  lemma GrowsSelf(w: World)
    ensures Grows(w, w)
  {
  }

  lemma DispatchedGrows(w: World)
    requires WorldOk(w)
    ensures Grows(w, Dispatched(w))
  {
    DispatchedKeeps(w);
    AdvancesGrows(w, Dispatched(w));
  }

  lemma LoadsGrow(w: World, ls: seq<Load>)
    ensures Grows(w, w.(yard := LoadedAll(w.yard, ls)))
  {
    LoadedAllEffect(w.yard, ls);
  }

  lemma ApplyGrows(w: World, c: Command)
    requires WorldOk(w) && Precheck(c).None?
    ensures Apply(w, c).Done? ==> Grows(w, Apply(w, c).value)
  {
    hide Sound, Ahead, BooksOk, SelectedTrip, SavedOffer, Acted, BackgroundSet, Prepared;
    match c
    case Act(user, trip, action) => ActedGrows(w, user, trip, action);
    case Advance(seconds) =>
      hide Grows, Advances, CaughtUpTo, WorldOk;
      var later := After(w.state.time, seconds);
      assert Apply(w, c).value == CaughtUpTo(w, later);
      CaughtUpGrows(w, later);
    case SetBackground(s, busy, delay) =>
      assert busy == busy.Floor as real;
      BackgroundGrows(w, s, busy.Floor, delay);
    case SetBaseline(items) =>
      if !w.state.baseline && Prepared(w.yard, w.state.time, items).Done? {
        LoadsGrow(w, Prepared(w.yard, w.state.time, items).value);
      }
    case Select(user, offer, station, newId) => SelectGrows(w, user, offer, station, newId);
    case SaveOffer(user, id, expires, energy, cs) => SaveGrows(w, user, id, expires, energy, cs);
    case ReadClock => GrowsSelf(w);
    case CreateSession(_) => if Apply(w, c).Done? { BooksOnlyGrow(w, Apply(w, c).value); }
    case Configure(_) => if Apply(w, c).Done? { BooksOnlyGrow(w, Apply(w, c).value); }
    case ConfigureClock(_, _) => BooksOnlyGrow(w, Apply(w, c).value);
  }

  lemma BooksOnlyGrow(w: World, z: World)
    requires z.yard == w.yard && z.books.offers == w.books.offers
    requires z.books.payments == w.books.payments && z.books.ledger == w.books.ledger
    ensures Grows(w, z)
  {
  }

  lemma SelectGrows(w: World, user: Id, offer: Id, station: Id, newId: Id)
    ensures SelectedTrip(w, user, offer, station, newId).Done? ==>
      Grows(w, SelectedTrip(w, user, offer, station, newId).value)
  {
    hide FindCandidate, HasActiveTrip;
  }

  lemma SaveGrows(w: World, user: Id, id: Option<Id>, expires: Expiry, energy: real, cs: seq<Candidate>)
    ensures SavedOffer(w, user, id, expires, energy, cs).Done? ==>
      Grows(w, SavedOffer(w, user, id, expires, energy, cs).value)
  {
    hide CandidateError, PricedAll;
  }

  lemma CaughtUpGrows(w: World, now: Instant)
    requires WorldOk(w)
    ensures Grows(w, CaughtUpTo(w, now))
  {
    CaughtUpKeeps(w, now);
    AdvancesGrows(w, CaughtUpTo(w, now));
  }

  lemma BackgroundGrows(w: World, s: Id, busy: int, delay: real)
    requires WorldOk(w) && busy >= 0 && (busy > 0 ==> delay >= 1.0)
    ensures BackgroundSet(w, s, busy, delay).Done? ==> Grows(w, BackgroundSet(w, s, busy, delay).value)
  {
    if BackgroundSet(w, s, busy, delay).Done? {
      var l := BackgroundLoad(s, busy, delay, w.state.time);
      BackgroundFits(w.yard, w.state.time, s, busy, delay);
      hide WorldOk, Grows, Loaded, Dispatched, BackgroundLoad, Fits;
      var m := w.(yard := Loaded(w.yard, l));
      OneLoadKeeps(w, l);
      OneLoadGrows(w, l);
      DispatchedGrows(m);
      GrowsTransitive(w, m, Dispatched(m));
    }
  }

  lemma OneLoadGrows(w: World, l: Load)
    ensures Grows(w, w.(yard := Loaded(w.yard, l)))
  {
  }

  // ---------- transactions and runs ----------

  datatype Step = Transact(command: Command, wall: Instant, crash: bool) | Install(rows: seq<CatalogRow>)

  ghost function Stepped(w: World, s: Step): World {
    match s
    case Transact(c, wall, crash) => Transaction(w, wall, c, crash)
    case Install(rows) =>
      var y := InstalledAll(w.yard, rows);
      if y.Some? then w.(yard := y.value) else w
  }

  ghost function Run(w: World, steps: seq<Step>): World
    decreases |steps|
  {
    if steps == [] then w else Run(Stepped(w, steps[0]), steps[1..])
  }

  /** The tables as first created; stations arrive with the catalogue. */
  function Fresh(wall: Instant, start: Instant): World {
    World(State(start, wall, 10.0, false, Config(DEFAULT_WEIGHTS, 30, 10, 1.0, 60, 10000, 60, 900, 86400), false, 0),
          Yard(map[], map[], []), Books(map[], map[], map[], []))
  }

  lemma FreshOk(wall: Instant, start: Instant)
    ensures WorldOk(Fresh(wall, start))
  {
  }

  lemma TickGrows(w: World, wall: Instant)
    requires WorldOk(w)
    ensures Grows(w, Tick(w, wall))
  {
    TickKeeps(w, wall);
    AdvancesGrows(w, Tick(w, wall));
  }

  lemma TransactionKeeps(w: World, wall: Instant, c: Command, crash: bool)
    requires WorldOk(w)
    ensures WorldOk(Transaction(w, wall, c, crash)) && Grows(w, Transaction(w, wall, c, crash))
  {
    hide WorldOk, Grows, Tick, Apply, Precheck, WorkConserving, Advances;
    GrowsSelf(w);
    if Precheck(c).None? && !crash {
      var ticked := Tick(w, wall);
      TickKeeps(w, wall);
      TickGrows(w, wall);
      ApplyKeeps(ticked, c);
      ApplyGrows(ticked, c);
      if Apply(ticked, c).Done? { GrowsTransitive(w, ticked, Apply(ticked, c).value); }
    }
  }

  lemma SteppedKeeps(w: World, s: Step)
    requires WorldOk(w)
    ensures WorldOk(Stepped(w, s)) && Grows(w, Stepped(w, s))
  {
    hide WorldOk, Grows, Transaction, InstalledAll;
    match s
    case Transact(c, wall, crash) => TransactionKeeps(w, wall, c, crash);
    case Install(rows) =>
      InstalledAllKeeps(w, rows);
      GrowsSelf(w);
  }

  /** Safety over every run. */
  lemma {:induction false} RunKeeps(w: World, steps: seq<Step>)
    requires WorldOk(w)
    ensures WorldOk(Run(w, steps)) && Grows(w, Run(w, steps))
    decreases |steps|
  {
    hide WorldOk, Grows, Stepped;
    if steps == [] {
      GrowsSelf(w);
    } else {
      var m := Stepped(w, steps[0]);
      SteppedKeeps(w, steps[0]);
      RunKeeps(m, steps[1..]);
      GrowsTransitive(w, m, Run(m, steps[1..]));
    }
  }

  /** In every state any run from fresh tables can reach, no station is overbooked. */
  lemma NeverOverbooked(wall: Instant, start: Instant, steps: seq<Step>, s: Id)
    requires s in Run(Fresh(wall, start), steps).yard.stations
    ensures var y := Run(Fresh(wall, start), steps).yard;
      y.stations[s].busy + |Holders(y, s)| <= y.stations[s].capacity
  {
    FreshOk(wall, start);
    RunKeeps(Fresh(wall, start), steps);
    assert Free(Run(Fresh(wall, start), steps).yard, s) >= 0;
  }

  /** First come, first served over every run: of two trips that queued at one station, the one with
      the later ticket is not called while the earlier one still waits, nor was it called before it. */
  lemma NeverOvertaken(wall: Instant, start: Instant, steps: seq<Step>, s: Id, i: int, j: int, t: Id)
    requires var y := Run(Fresh(wall, start), steps).yard; CallOf(y, i, s) && CallOf(y, j, s)
    ensures var y := Run(Fresh(wall, start), steps).yard; i < j ==> TicketAt(y, i) < TicketAt(y, j)
    ensures var y := Run(Fresh(wall, start), steps).yard; t in Line(y, s) ==> TicketAt(y, i) < Ticket(y.trips[t])
  {
    FreshOk(wall, start);
    RunKeeps(Fresh(wall, start), steps);
  }

  /** Arrivals are served in order: of two trips that joined the queue of one station, when the later
      one has been called, the earlier one waits no longer, and if it was called, it was called before. */
  lemma ServedInOrderOfArrival(wall: Instant, start: Instant, steps: seq<Step>, s: Id, i: int, j: int, k: int, m: int)
    requires var y := Run(Fresh(wall, start), steps).yard;
      && Joins(y, i) && Joins(y, j) && i < j && CallOf(y, k, s) && y.events[k].trip == y.events[j].trip
      && y.events[i].trip in y.trips && StationAt(y, i) == s
    ensures var y := Run(Fresh(wall, start), steps).yard;
      && y.events[i].trip !in Line(y, s)
      && (CallOf(y, m, s) && y.events[m].trip == y.events[i].trip ==> m < k)
  {
    hide Run, RowsOk, CapacityOk, TicketsOk, LogsOk, BillsOk, Ahead, BooksOk, MovedBetween;
    FreshOk(wall, start);
    RunKeeps(Fresh(wall, start), steps);
    var y := Run(Fresh(wall, start), steps).yard;
    assert TicketAt(y, i) < TicketAt(y, j) == TicketAt(y, k);
  }

  /** Nobody slips past the queue: when an arriving trip got a charger at once, everybody who had
      queued at that station before had gone on: called, cancelled or expired. */
  lemma NobodySlipsPast(wall: Instant, start: Instant, steps: seq<Step>, i: int, j: int)
    requires var y := Run(Fresh(wall, start), steps).yard;
      && Joins(y, j) && Enters(y, i) && j < i && y.events[i].trip in y.trips && y.events[j].trip in y.trips
      && StationAt(y, j) == StationAt(y, i)
    ensures MovedBetween(Run(Fresh(wall, start), steps).yard.events, j, i)
  {
    hide Run, RowsOk, CapacityOk, TicketsOk, LogsOk, FifoOk, BillsOk, Ahead, BooksOk, MovedBetween;
    FreshOk(wall, start);
    RunKeeps(Fresh(wall, start), steps);
  }

  /** Every trip's log is a path from EN_ROUTE to its stored status, at most seven entries long. */
  lemma LogsArePaths(wall: Instant, start: Instant, steps: seq<Step>, t: Id)
    requires t in Run(Fresh(wall, start), steps).yard.trips
    ensures var y := Run(Fresh(wall, start), steps).yard;
      IsPath(Log(y.events, t), y.trips[t].status) && |Log(y.events, t)| <= 7
  {
    FreshOk(wall, start);
    RunKeeps(Fresh(wall, start), steps);
    var y := Run(Fresh(wall, start), steps).yard;
    PathsAreShort(Log(y.events, t), y.trips[t].status);
  }

  /** A recommendation leads to at most one trip, and a user has at most one unfinished trip. */
  lemma TripsAreExclusive(wall: Instant, start: Instant, steps: seq<Step>, t: Id, u: Id)
    requires var y := Run(Fresh(wall, start), steps).yard; t in y.trips && u in y.trips && t != u
    ensures var y := Run(Fresh(wall, start), steps).yard;
      && y.trips[t].offer != y.trips[u].offer
      && (y.trips[t].user == y.trips[u].user ==> !(y.trips[t].status.Active() && y.trips[u].status.Active()))
  {
    FreshOk(wall, start);
    RunKeeps(Fresh(wall, start), steps);
    hide Run, Sound, Ahead, LedgerOk, PaymentsOk, OffersOk, Honours;
  }

  /** A call deadline exists exactly while a trip is called, a reservation deadline exactly while it is
      reserved, and neither is ever reached without the trip having been moved on. */
  lemma DeadlinesAreAhead(wall: Instant, start: Instant, steps: seq<Step>, t: Id)
    requires t in Run(Fresh(wall, start), steps).yard.trips
    ensures var w := Run(Fresh(wall, start), steps); var trip := w.yard.trips[t];
      && (trip.callUntil.Some? <==> trip.status.Called?) && (trip.holdUntil.Some? <==> trip.status.Reserved?)
      && (trip.callUntil.Some? ==> w.state.time < trip.callUntil.value)
      && (trip.holdUntil.Some? ==> w.state.time < trip.holdUntil.value)
      && (trip.status.EnRoute? || trip.status.Queued? ==> w.state.time < trip.rewardUntil)
  {
    hide Run, BooksOk, Grows, Fresh;
    FreshOk(wall, start);
    RunKeeps(Fresh(wall, start), steps);
    var w := Run(Fresh(wall, start), steps);
    TripRow(w, t);
    hide Sound;
    assert !Due(w.yard, w.state.time, Expire(t));
  }

  /** Points are conserved: a user owns exactly the sum of the ledger rows in their name. */
  lemma PointsConserved(wall: Instant, start: Instant, steps: seq<Step>, user: Id)
    requires user in Run(Fresh(wall, start), steps).books.points
    ensures var b := Run(Fresh(wall, start), steps).books; b.points[user] == Earned(b.ledger, user)
  {
    FreshOk(wall, start);
    RunKeeps(Fresh(wall, start), steps);
  }

  /** The award of a ledger row: paid for the metered amount, within what the saved offer promised, to
      a charge that cost something, was long and large enough, and was paid while its reward was alive. */
  ghost predicate AwardOf(w: World, row: LedgerRow) {
    && row.trip in w.books.payments && row.cents == w.books.payments[row.trip].cents
    && row.trip in w.yard.trips && w.yard.trips[row.trip].offer in w.books.offers
    && (exists c :: c in w.books.offers[w.yard.trips[row.trip].offer].candidates
         && c.station == row.station && 0 < row.points <= c.points)
    && var trip := w.yard.trips[row.trip];
       && row.cents > 0 && row.at < trip.rewardUntil && row.day == BusinessDay(row.at)
       && trip.meter.millis >= 1000 * trip.terms.minimumSeconds
       && trip.meter.energy as real >= trip.terms.minimumEnergy * 100000000.0
  }

  /** One payment per completed trip at the metered amount, and every award earned and within the saved offer. */
  lemma PaymentsMatchTrips(wall: Instant, start: Instant, steps: seq<Step>)
    ensures var w := Run(Fresh(wall, start), steps);
      forall t :: t in w.books.payments <==> t in w.yard.trips && w.yard.trips[t].status.Completed?
    ensures var w := Run(Fresh(wall, start), steps);
      forall t :: t in w.books.payments ==> w.books.payments[t].cents == w.yard.trips[t].meter.cents
    ensures var w := Run(Fresh(wall, start), steps);
      forall i :: 0 <= i < |w.books.ledger| ==> AwardOf(w, w.books.ledger[i])
  {
    hide Run, Fresh, Grows, Sound, Ahead, AwardOf;
    FreshOk(wall, start);
    RunKeeps(Fresh(wall, start), steps);
    var w := Run(Fresh(wall, start), steps);
    forall i | 0 <= i < |w.books.ledger| ensures AwardOf(w, w.books.ledger[i]) {
      RowsAreAwards(w, i);
    }
  }

  lemma RowsAreAwards(w: World, i: int)
    requires BooksOk(w.yard, w.books) && 0 <= i < |w.books.ledger|
    ensures AwardOf(w, w.books.ledger[i])
  {
    var row := w.books.ledger[i];
    assert RowOf(w.yard, row);
    assert Honours(w.books, w.yard.trips[row.trip]);
    hide OffersOk, ClaimsOk, LedgerOk, BusinessDay;
  }

  // ---------- the daily budget ----------

  ghost predicate WithinBudget(b: Books, limit: int) {
    forall day :: UsedOn(b.ledger, day) <= limit
  }

  lemma AwardIsEarned(w: World, trip: Trip)
    requires trip.points >= 0
    ensures var left, verdict := w.state.config.dailyBudget - UsedOn(w.books.ledger, BusinessDay(w.state.time)),
                                 Verdict(trip, w.state.time);
      && (verdict.Awarded? <==>
           && trip.meter.cents > 0
           && trip.meter.millis >= 1000 * trip.terms.minimumSeconds
           && trip.meter.energy as real >= trip.terms.minimumEnergy * 100000000.0
           && w.state.time < trip.rewardUntil && trip.points > 0)
      && !verdict.DailyBudgetLimit? && !verdict.DailyBudgetExhausted?
      && Award(w, trip) == if verdict.Awarded? && left > 0 then Min(trip.points, left) else 0
  {
    hide UsedOn, BusinessDay;
  }

  /** A payment awards points exactly when something positive was paid, the charge was long and large
      enough, the offer's reward was still alive, it promised points, and the day's budget had some
      left: then what was promised, as far as the budget goes. So every awarding payment leaves that
      day's total within the budget in force at that moment. */
  lemma PaymentWithinBudget(w: World, t: Id)
    requires WorldOk(w) && t in w.yard.trips && Paid(w, t).Done?
    ensures var b := Paid(w, t).value.books;
      b.ledger != w.books.ledger ==>
        UsedOn(b.ledger, BusinessDay(w.state.time)) <= w.state.config.dailyBudget
    ensures forall day :: day != BusinessDay(w.state.time) ==>
      UsedOn(Paid(w, t).value.books.ledger, day) == UsedOn(w.books.ledger, day)
    ensures var trip, paid, now := w.yard.trips[t], Paid(w, t).value.yard.trips[t], w.state.time;
      var left := w.state.config.dailyBudget - UsedOn(w.books.ledger, BusinessDay(now));
      && (paid.awarded != 0 <==>
           && trip.meter.cents > 0
           && trip.meter.millis >= 1000 * trip.terms.minimumSeconds
           && trip.meter.energy as real >= trip.terms.minimumEnergy * 100000000.0
           && now < trip.rewardUntil && trip.points > 0 && left > 0)
      && (paid.awarded != 0 ==> paid.awarded == Min(trip.points, left))
      && (paid.reward.Awarded? <==> paid.awarded == trip.points != 0)
      && (paid.reward.DailyBudgetLimit? <==> 0 < paid.awarded < trip.points)
      && (paid.reward.DailyBudgetExhausted? <==> Verdict(trip, now).Awarded? && left <= 0)
      && (Paid(w, t).value.books.ledger != w.books.ledger <==> paid.awarded != 0)
  {
    var trip, now := w.yard.trips[t], w.state.time;
    assert TripOk(trip);
    AwardFits(w, trip);
    AwardIsEarned(w, trip);
    hide WorldOk, Award, Verdict, UsedOn, BusinessDay;
    var b := Paid(w, t).value.books;
    if b.ledger != w.books.ledger {
      forall day ensures UsedOn(b.ledger, day) ==
          UsedOn(w.books.ledger, day) + if day == BusinessDay(now) then Award(w, trip) else 0 {
        UsedAppend(w.books.ledger, b.ledger[|w.books.ledger|], day);
      }
    }
  }

  lemma ActedBudget(w: World, user: Id, t: Id, action: Action, limit: int)
    requires WorldOk(w) && WithinBudget(w.books, limit) && w.state.config.dailyBudget <= limit
    requires Acted(w, user, t, action).Done?
    ensures WithinBudget(Acted(w, user, t, action).value.books, limit)
  {
    hide WorldOk, Performed, WithinBudget, Dispatch;
    var r := Acted(w, user, t, action);
    if Allowed(action, w.yard.trips[t].status) && !AlreadyDone(action, w.yard.trips[t].status) {
      assert r.value.books == Performed(w, t, action).value.books;
      PerformedBudget(w, t, action, limit);
    }
  }

  lemma OnlyPaymentsTouchBooks(w: World, t: Id, action: Action)
    requires t in w.yard.trips && w.yard.trips[t].station in w.yard.stations
    requires !action.Pay? && Performed(w, t, action).Done?
    ensures Performed(w, t, action).value.books == w.books
  {
    hide Free, Line, Reading;
  }

  lemma PerformedBudget(w: World, t: Id, action: Action, limit: int)
    requires WorldOk(w) && WithinBudget(w.books, limit) && w.state.config.dailyBudget <= limit
    requires t in w.yard.trips && w.yard.trips[t].station in w.yard.stations && Performed(w, t, action).Done?
    ensures WithinBudget(Performed(w, t, action).value.books, limit)
  {
    hide WorldOk, WithinBudget, Performed, Paid;
    if action.Pay? {
      PayIsPaid(w, t);
      PaidBudget(w, t, limit);
    } else {
      OnlyPaymentsTouchBooks(w, t, action);
    }
  }

  lemma PayIsPaid(w: World, t: Id)
    requires t in w.yard.trips && w.yard.trips[t].station in w.yard.stations
    ensures Performed(w, t, Pay) == Paid(w, t)
  {
  }

  lemma PaidBudget(w: World, t: Id, limit: int)
    requires WorldOk(w) && WithinBudget(w.books, limit) && w.state.config.dailyBudget <= limit
    requires t in w.yard.trips && Paid(w, t).Done?
    ensures WithinBudget(Paid(w, t).value.books, limit)
  {
    hide WorldOk, Paid, UsedOn, BusinessDay, Verdict;
    PaymentWithinBudget(w, t);
    var b := Paid(w, t).value.books;
    if b.ledger == w.books.ledger { LedgerDecidesBudget(w.books, b, limit); }
  }

  lemma TransactionBudget(w: World, wall: Instant, c: Command, crash: bool, limit: int)
    requires WorldOk(w) && WithinBudget(w.books, limit) && w.state.config.dailyBudget <= limit
    ensures WithinBudget(Transaction(w, wall, c, crash).books, limit)
  {
    hide WorldOk, Tick, Acted, Apply, Precheck, WithinBudget, Advances, WorkConserving;
    var ticked := Tick(w, wall);
    TickKeeps(w, wall);
    TickKeepsBooks(w, wall);
    ApplyAct(ticked, c);
    if Precheck(c).None? && !crash && Apply(ticked, c).Done? {
      if c.Act? {
        ActedBudget(ticked, c.user, c.trip, c.action, limit);
      } else {
        LedgerDecidesBudget(w.books, ticked.books, limit);
        OnlyActsPay(ticked, c);
        LedgerDecidesBudget(ticked.books, Apply(ticked, c).value.books, limit);
      }
    }
  }

  lemma TickKeepsBooks(w: World, wall: Instant)
    ensures Tick(w, wall).books == w.books && Tick(w, wall).state.config == w.state.config
  {
    hide Synchronize;
  }

  lemma ApplyAct(w: World, c: Command)
    ensures c.Act? ==> Apply(w, c) == Acted(w, c.user, c.trip, c.action)
  {
  }

  lemma OnlyActsPay(w: World, c: Command)
    requires !c.Act? && Apply(w, c).Done?
    ensures Apply(w, c).value.books.ledger == w.books.ledger
    ensures Apply(w, c).value.books.payments == w.books.payments
  {
    hide Dispatch, Prepared, CandidateError, PricedAll, FindCandidate, HasActiveTrip, Synchronize, LoadedAll, PatchedAll;
  }

  lemma LedgerDecidesBudget(a: Books, b: Books, limit: int)
    requires a.ledger == b.ledger && WithinBudget(a, limit)
    ensures WithinBudget(b, limit)
  {
  }

  ghost predicate BudgetNeverAbove(w: World, steps: seq<Step>, limit: int)
    decreases |steps|
  {
    w.state.config.dailyBudget <= limit
    && (steps != [] ==> BudgetNeverAbove(Stepped(w, steps[0]), steps[1..], limit))
  }

  lemma SteppedBudget(w: World, s: Step, limit: int)
    requires WorldOk(w) && WithinBudget(w.books, limit) && w.state.config.dailyBudget <= limit
    ensures WithinBudget(Stepped(w, s).books, limit)
  {
    hide WorldOk, WithinBudget, Transaction;
    match s
    case Transact(c, wall, crash) => TransactionBudget(w, wall, c, crash, limit);
    case Install(rows) => assert Stepped(w, s).books == w.books;
  }

  /** No day's awards exceed the largest budget that was ever configured. */
  lemma {:induction false} BudgetOverRuns(w: World, steps: seq<Step>, limit: int)
    requires WorldOk(w) && WithinBudget(w.books, limit) && BudgetNeverAbove(w, steps, limit)
    ensures WithinBudget(Run(w, steps).books, limit)
    decreases |steps|
  {
    hide WorldOk, WithinBudget, Stepped;
    if steps != [] {
      SteppedKeeps(w, steps[0]);
      SteppedBudget(w, steps[0], limit);
      BudgetOverRuns(Stepped(w, steps[0]), steps[1..], limit);
    }
  }
}
