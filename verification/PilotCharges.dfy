/** How charges end over whole runs: by themselves at their target, or by a `stop`,
    and then with what they had delivered since their start. */
module PilotCharges {
  import opened Basics
  import opened PilotTypes
  import opened PilotCatchUp
  import opened PilotPolling
  import opened PilotBills
  import opened PilotInvariant
  import opened PilotSafety
  import opened PilotCommands
  import opened PilotWorld
  import opened PilotCommandsKeep
  import opened PilotRuns
  import opened PilotTheorems
  import opened PilotProgress
  import opened PilotPayments

  // ---------- only `stop` stops a charge by hand ----------

  /** The trip exists and was stopped by hand. */
  ghost predicate StoppedByHand(y: Yard, t: Id) {
    t in y.trips && y.trips[t].stop.Manual?
  }

  lemma TimeStopsNobody(w: World, now: Instant, t: Id)
    requires WorldOk(w) && StoppedByHand(CaughtUpTo(w, now).yard, t)
    ensures StoppedByHand(w.yard, t)
  {
    hide WorldOk, Synchronize, Advances, WorkConserving, Limit;
    CaughtUpKeeps(w, now);
    assert t in w.yard.trips by { SameTrips(w.yard, CaughtUpTo(w, now).yard); }
    TripRow(w, t);
    SynchronizeRunsOut(w.yard, w.state.time, now, Grace(w), t);
    BillRow(CaughtUpTo(w, now), t);
  }

  lemma TickStopsNobody(v: World, wall: Instant, t: Id)
    requires WorldOk(v) && StoppedByHand(Tick(v, wall).yard, t)
    ensures StoppedByHand(v.yard, t)
  {
    hide Sound, BooksOk, Synchronize;
    TimeStopsNobody(v.(state := v.state.(wall := MaxReal(wall, v.state.wall))), Now(v.state, wall), t);
  }

  lemma SameTrips(y: Yard, z: Yard)
    requires Advances(y, z)
    ensures y.trips.Keys == z.trips.Keys
  {
  }

  lemma BillRow(w: World, t: Id)
    requires WorldOk(w) && t in w.yard.trips
    ensures BillOk(w.yard.trips[t])
  {
  }

  lemma DispatchStopsNobody(p: World, t: Id)
    requires StoppedByHand(Dispatched(p).yard, t)
    ensures StoppedByHand(p.yard, t)
    ensures !p.yard.trips[t].status.Queued? ==> Dispatched(p).yard.trips[t] == p.yard.trips[t]
  {
    DispatchAllOnlyCalls(p.yard, p.yard.stations.Keys, p.state.time, Grace(p), t);
  }

  lemma SelectStopsNobody(w: World, user: Id, offer: Id, station: Id, newId: Id, t: Id)
    requires SelectedTrip(w, user, offer, station, newId).Done?
    requires StoppedByHand(SelectedTrip(w, user, offer, station, newId).value.yard, t)
    ensures StoppedByHand(w.yard, t)
  {
    hide FindCandidate, HasActiveTrip;
  }

  lemma LoadsStopNobody(y: Yard, ls: seq<Load>)
    ensures LoadedAll(y, ls).trips == y.trips
  {
    LoadedAllEffect(y, ls);
  }

  lemma OthersStopNobody(w: World, c: Command, t: Id)
    requires WorldOk(w) && !c.Act? && Apply(w, c).Done? && StoppedByHand(Apply(w, c).value.yard, t)
    ensures StoppedByHand(w.yard, t)
  {
    hide WorldOk, CaughtUpTo, SelectedTrip, Dispatched, PricedAll, CandidateError, Prepared, PatchedAll, LoadedAll;
    match c
    case Advance(seconds) => TimeStopsNobody(w, After(w.state.time, seconds), t);
    case SetBackground(s, busy, delay) =>
      DispatchStopsNobody(w.(yard := Loaded(w.yard, BackgroundLoad(s, busy.Floor, delay, w.state.time))), t);
    case SetBaseline(items) =>
      if !w.state.baseline { LoadsStopNobody(w.yard, Prepared(w.yard, w.state.time, items).value); }
    case Select(user, offer, station, newId) => SelectStopsNobody(w, user, offer, station, newId, t);
    case SaveOffer(_, _, _, _, _) =>
    case ReadClock =>
    case CreateSession(_) =>
    case Configure(_) =>
    case ConfigureClock(_, _) =>
  }

  /** Of the actions only `stop` does, and only its own trip's charge. */
  lemma PerformedStops(w: World, t: Id, action: Action, u: Id)
    requires t in w.yard.trips && w.yard.trips[t].station in w.yard.stations && Performed(w, t, action).Done?
    requires StoppedByHand(Performed(w, t, action).value.yard, u) && !StoppedByHand(w.yard, u)
    ensures action.Stop? && u == t && w.yard.trips[t].startedAt.Some?
    ensures Performed(w, t, action).value.yard.trips[t] == FinishedTrip(w.yard.trips[t], w.state.time, Manual)
  {
    PerformedTouchesOne(w, t, action);
    hide Award, Verdict, Free, Line, FinalVerdict, Metered, PaidBooks;
  }

  // ---------- the moment of a stop ----------

  /** A charge that began at its stored start ended now, and is billed for the time between. */
  ghost predicate EndedOf(before: Trip, after: Trip, why: StopReason, now: Instant) {
    && before.startedAt.Some? && after.startedAt == before.startedAt && after.stoppedAt == Some(Trunc(now))
    && after.stop == why
    && BilledTo(after.meter, after.target, after.power, after.price, after.startedAt.value, now)
  }

  /** The charge was running until it was stopped by hand. */
  ghost predicate StoppedOf(before: Trip, after: Trip, now: Instant) {
    before.status.Charging? && EndedOf(before, after, Manual, now)
  }

  /** The step is the `stop` of this trip, which was charging until then, at the replay
      time the wall reading stands for. */
  ghost predicate StopsAt(v: World, s: Step, t: Id, trip: Trip) {
    && s.Transact? && !s.crash && s.command.Act? && s.command.action.Stop? && s.command.trip == t
    && t in Tick(v, s.wall).yard.trips && StoppedOf(Tick(v, s.wall).yard.trips[t], trip, Now(v.state, s.wall))
  }

  lemma FinishedIsEnded(trip: Trip, why: StopReason, now: Instant)
    requires trip.startedAt.Some?
    ensures EndedOf(trip, FinishedTrip(trip, now, why), why, now)
  {
    hide Reading, BilledTo;
    ReadingIsBilledTo(trip.target, trip.power, trip.price, trip.startedAt.value, now);
  }

  lemma ActStops(w: World, user: Id, t: Id, action: Action, u: Id)
    requires WorldOk(w) && Acted(w, user, t, action).Done?
    requires StoppedByHand(Acted(w, user, t, action).value.yard, u) && !StoppedByHand(w.yard, u)
    ensures action.Stop? && u == t && t in w.yard.trips
    ensures StoppedOf(w.yard.trips[t], Acted(w, user, t, action).value.yard.trips[t], w.state.time)
  {
    hide WorldOk, Performed, Dispatch, FinishedTrip, EndedOf;
    var p := Performed(w, t, action).value;
    DispatchStopsNobody(p, u);
    PerformedStops(w, t, action, u);
    FinishedAwaitsPayment(w.yard.trips[t], w.state.time);
    FinishedIsEnded(w.yard.trips[t], Manual, w.state.time);
  }

  lemma FinishedAwaitsPayment(trip: Trip, now: Instant)
    ensures FinishedTrip(trip, now, Manual).status.PendingPayment?
  {
  }

  lemma InstallsStopNobody(w: World, rows: seq<CatalogRow>)
    ensures Stepped(w, Install(rows)).yard.trips == w.yard.trips
  {
    if InstalledAll(w.yard, rows).Some? { InstallEffect(w.yard, rows, 0); }
  }

  lemma StepStops(v: World, s: Step, t: Id)
    requires WorldOk(v) && StoppedByHand(Stepped(v, s).yard, t) && !StoppedByHand(v.yard, t)
    ensures StopsAt(v, s, t, Stepped(v, s).yard.trips[t])
  {
    hide WorldOk, Apply, Precheck, Acted, InstalledAll, StoppedOf, Synchronize, Advances, WorkConserving;
    match s
    case Install(rows) =>
      InstallsStopNobody(v, rows);
      assert false;
    case Transact(c, wall, crash) =>
      var w := Tick(v, wall);
      TickKeeps(v, wall);
      if StoppedByHand(w.yard, t) {
        TickStopsNobody(v, wall, t);
        assert false;
      } else if !c.Act? {
        OthersStopNobody(w, c, t);
        assert false;
      } else {
        ApplyAct(w, c);
        ActStops(w, c.user, c.trip, c.action, t);
      }
  }

  /** Every charge of a run that was stopped by hand has its moment: a `stop` at which it
      had run since its stored start, and which fixed what it is billed for. */
  lemma {:induction false} EveryStopHasItsMoment(w: World, steps: seq<Step>, t: Id)
    requires WorldOk(w) && !StoppedByHand(w.yard, t) && StoppedByHand(Run(w, steps).yard, t)
    ensures exists n :: 0 <= n < |steps| && StopsAt(Run(w, steps[..n]), steps[n], t, Run(w, steps).yard.trips[t])
    decreases |steps|
  {
    hide WorldOk, Stepped, Grows, StopsAt;
    var m, rest := Stepped(w, steps[0]), steps[1..];
    SteppedKeeps(w, steps[0]);
    if StoppedByHand(m.yard, t) {
      StepStops(w, steps[0], t);
      RunKeeps(m, rest);
      BillRow(m, t);
      ChargesAreFinal(m, Run(m, rest), t);
      MomentStays(w, steps[0], t, m.yard.trips[t], Run(m, rest).yard.trips[t]);
      assert steps[..0] == [];
      assert StopsAt(Run(w, steps[..0]), steps[0], t, Run(w, steps).yard.trips[t]);
    } else {
      EveryStopHasItsMoment(m, rest, t);
      var n :| 0 <= n < |rest| && StopsAt(Run(m, rest[..n]), rest[n], t, Run(m, rest).yard.trips[t]);
      assert steps[..n + 1][1..] == rest[..n] && steps[..n + 1][0] == steps[0];
      assert StopsAt(Run(w, steps[..n + 1]), steps[n + 1], t, Run(w, steps).yard.trips[t]);
    }
  }

  lemma ChargesAreFinal(w: World, z: World, t: Id)
    requires Grows(w, z) && t in w.yard.trips && Charged(w.yard.trips[t])
    ensures t in z.yard.trips && SameCharge(w.yard.trips[t], z.yard.trips[t])
    ensures SameContract(w.yard.trips[t], z.yard.trips[t])
  {
  }

  lemma MomentStays(v: World, s: Step, t: Id, a: Trip, b: Trip)
    requires StopsAt(v, s, t, a) && SameCharge(a, b) && SameContract(a, b)
    ensures StopsAt(v, s, t, b)
  {
    hide Tick, BilledTo;
  }

  // ---------- what is paid ----------

  /** The charge ran until it had delivered its target. */
  ghost predicate RanToTarget(trip: Trip) {
    exists ran :: trip.power * ran == trip.target * 3600000.0 && Shows(trip.meter, trip.power, trip.price, ran)
  }

  /** The payment is for the meter of a trip made to an offer, for that offer's energy at the price it quoted. */
  ghost predicate PaysTheMeter(w: World, t: Id)
    requires t in w.books.payments
  {
    && t in w.yard.trips && w.books.payments[t].cents == w.yard.trips[t].meter.cents
    && w.yard.trips[t].offer in w.books.offers
    && var trip, offer := w.yard.trips[t], w.books.offers[w.yard.trips[t].offer];
       trip.target == offer.energy
       && exists c :: c in offer.candidates && c.station == trip.station && c.price == trip.price
  }

  lemma PaidTripRow(w: World, t: Id)
    requires WorldOk(w) && t in w.books.payments
    ensures t in w.yard.trips && w.yard.trips[t].status.Completed? && w.books.payments[t].cents == w.yard.trips[t].meter.cents
    ensures Honours(w.books, w.yard.trips[t])
  {
    hide Sound, Ahead, OffersOk, LedgerOk;
  }

  lemma PaymentsPayTheMeter(w: World, t: Id)
    requires WorldOk(w) && t in w.books.payments
    ensures PaysTheMeter(w, t) && t in w.yard.trips && (w.yard.trips[t].stop.TargetReached? || w.yard.trips[t].stop.Manual?)
    ensures w.yard.trips[t].stop.TargetReached? ==> RanToTarget(w.yard.trips[t])
  {
    hide WorldOk, Cost, FullMeter, Shows;
    PaidTripRow(w, t);
    BillRow(w, t);
    var trip := w.yard.trips[t];
    var offer := w.books.offers[trip.offer];
    var c :| c in offer.candidates && c.station == trip.station && c.points == trip.points && c.price == trip.price;
    FullMeterShows(trip.target, trip.power, trip.price, 0.0);
  }

  lemma NobodyStoppedYet(wall: Instant, start: Instant, t: Id)
    ensures !StoppedByHand(Fresh(wall, start).yard, t)
  {
  }

  /** Every payment of every run is for what its meter shows of the energy its offer was
      made for, at the price quoted: the whole target when the charge ended by itself,
      and when it was stopped by hand, what the power delivered between the stored start
      and the `stop`. */
  lemma EveryPaymentIsForItsCharge(wall: Instant, start: Instant, steps: seq<Step>, t: Id)
    requires t in Run(Fresh(wall, start), steps).books.payments
    ensures PaysTheMeter(Run(Fresh(wall, start), steps), t)
    ensures var w, trip := Fresh(wall, start), Run(Fresh(wall, start), steps).yard.trips[t];
      if trip.stop.Manual?
      then exists n :: 0 <= n < |steps| && StopsAt(Run(w, steps[..n]), steps[n], t, trip)
      else RanToTarget(trip)
  {
    hide WorldOk, Run, Fresh, Grows, PaysTheMeter, RanToTarget, StopsAt;
    FreshOk(wall, start);
    RunKeeps(Fresh(wall, start), steps);
    var w := Run(Fresh(wall, start), steps);
    PaymentsPayTheMeter(w, t);
    NobodyStoppedYet(wall, start, t);
    if StoppedByHand(w.yard, t) {
      EveryStopHasItsMoment(Fresh(wall, start), steps, t);
    }
  }

  // ---------- running meters ----------

  /** After every catch-up each running meter shows what its charge has delivered so far. */
  lemma MetersShowTheCharge(v: World, wall: Instant, t: Id)
    requires WorldOk(v) && t in Tick(v, wall).yard.trips && Tick(v, wall).yard.trips[t].status.Charging?
    ensures var trip := Tick(v, wall).yard.trips[t];
      trip.startedAt.Some?
      && BilledTo(trip.meter, trip.target, trip.power, trip.price, trip.startedAt.value, Now(v.state, wall))
  {
    var w := Tick(v, wall);
    TickKeeps(v, wall);
    TripRow(w, t);
    CatchUpsReadMeters(v, wall);
    var trip := w.yard.trips[t];
    hide WorldOk, Reading, BilledTo, Advances, WorkConserving, Synchronize;
    assert Metered(trip, w.state.time) == trip;
    ReadingIsBilledTo(trip.target, trip.power, trip.price, trip.startedAt.value, w.state.time);
  }
}
