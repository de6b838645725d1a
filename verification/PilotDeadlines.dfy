/** Nothing ends early and nothing ends late: what the clock alone makes of a trip and
    of a background load, to the instant. */
module PilotDeadlines {
  import opened Basics
  import opened PilotTypes
  import opened PilotCatchUp
  import opened PilotPolling
  import opened PilotBills
  import opened PilotInvariant
  import opened PilotSafety
  import opened PilotCommands
  import opened PilotWorld
  import opened PilotCommandsKeep
  import opened PilotRuns
  import opened PilotTheorems
  import opened PilotCharges

  // ---------- one round ----------

  /** What an event makes of a trip. */
  function AfterEvent(trip: Trip, t: Id, e: Entity, at: Instant): Trip {
    if e == Expire(t) then ExpiredTrip(trip, at)
    else if e == Finish(t) then FinishedTrip(trip, at, TargetReached)
    else trip
  }

  lemma SettledOnce(y: Yard, e: Entity, at: Instant, t: Id)
    requires t in y.trips
    ensures t in Settle(y, e, at).trips && Settle(y, e, at).trips[t] == AfterEvent(y.trips[t], t, e, at)
  {
    hide FinishedTrip, ExpiredTrip;
  }

  lemma NeverBoth(y: Yard, t: Id)
    ensures WhenOf(y, Expire(t)).None? || WhenOf(y, Finish(t)).None?
  {
  }

  /** Nothing but a due event of its own changes a trip while a batch is settled. */
  lemma {:induction false} SettledTrip(y: Yard, batch: set<Entity>, at: Instant, t: Id)
    requires t in y.trips && forall e :: e in batch ==> WhenOf(y, e) == Some(at)
    ensures SettleAll(y, batch, at).trips[t] ==
      if Expire(t) in batch then ExpiredTrip(y.trips[t], at)
      else if Finish(t) in batch then FinishedTrip(y.trips[t], at, TargetReached)
      else y.trips[t]
    decreases batch
  {
    hide FinishedTrip, ExpiredTrip, WhenOf, Settle, FirstOf;
    NeverBoth(y, t);
    if batch != {} {
      var e := FirstOf(batch);
      SettleSchedule(y, e, at);
      SettledOnce(y, e, at, t);
      SettledTrip(Settle(y, e, at), batch - {e}, at, t);
    }
  }

  lemma RoundTrip(y: Yard, at: Instant, grace: Instant, t: Id)
    requires t in y.trips
    ensures var a, b := y.trips[t], Round(y, at, grace).trips[t];
      if Deadline(a) == Some(at) then b == ExpiredTrip(a, at)
      else if Completion(a) == Some(at) then b == FinishedTrip(a, at, TargetReached)
      else OnlyCalled(a, b, at, grace)
  {
    var settled := SettleAll(y, Batch(y, at), at);
    SettledTrip(y, Batch(y, at), at, t);
    AgendaIsComplete(y, Expire(t));
    AgendaIsComplete(y, Finish(t));
    DispatchAllOnlyCalls(settled, settled.stations.Keys, at, grace, t);
    hide SettleAll, DispatchAll, Metered;
  }

  // ---------- the event loop ----------

  /** Its own event, if it is due by now, and nothing else. */
  predicate Stays(a: Trip, b: Trip, now: Instant) {
    var d, c := Deadline(a), Completion(a);
    if d.Some? && d.value <= now then b == ExpiredTrip(a, d.value)
    else if c.Some? && c.value <= now then b == FinishedTrip(a, c.value, TargetReached)
    else b == a
  }

  ghost predicate Passes(a: Trip, b: Trip, now: Instant, grace: Instant) {
    || Stays(a, b, now)
    || (a.status.Queued? && exists at :: CalledBefore(a, b, at, now, grace))
  }

  predicate CalledBefore(a: Trip, b: Trip, at: Instant, now: Instant, grace: Instant) {
    at <= now && at < a.rewardUntil && Stays(CalledTrip(a, at, grace), b, now)
  }

  lemma {:induction false} CatchUpPasses(y: Yard, now: Instant, grace: Instant, t: Id)
    requires t in y.trips
    ensures t in CatchUp(y, now, grace).trips && Passes(y.trips[t], CatchUp(y, now, grace).trips[t], now, grace)
    decreases Agenda(y)
  {
    var n, a := Next(y, now), y.trips[t];
    assert WhenOf(y, Expire(t)) == Deadline(a) && WhenOf(y, Finish(t)) == Completion(a);
    if n.Some? {
      var z := Round(y, n.value, grace);
      RoundShrinksAgenda(y, n.value, grace);
      RoundTrip(y, n.value, grace, t);
      hide Round, WhenOf;
      CatchUpPasses(z, now, grace, t);
      PassesOn(a, z.trips[t], CatchUp(z, now, grace).trips[t], n.value, now, grace);
    } else {
      assert !Due(y, now, Expire(t)) && !Due(y, now, Finish(t));
      assert Stays(a, a, now);
    }
  }

  lemma PassesOn(a: Trip, m: Trip, b: Trip, at: Instant, now: Instant, grace: Instant)
    requires at <= now && Passes(m, b, now, grace)
    requires Deadline(a).Some? ==> at <= Deadline(a).value
    requires if Deadline(a) == Some(at) then m == ExpiredTrip(a, at)
      else if Completion(a) == Some(at) then m == FinishedTrip(a, at, TargetReached)
      else OnlyCalled(a, m, at, grace)
    ensures Passes(a, b, now, grace)
  {
    hide Reading, ChargeTime;
    if m != a && a.status.Queued? && Deadline(a) != Some(at) {
      assert CalledBefore(a, b, at, now, grace);
    }
  }

  // ---------- what becomes of a trip ----------

  /** The trip lapsed at `at`. */
  predicate LapsedAt(a: Trip, b: Trip, at: Instant) {
    b == a.(status := Expired, updatedAt := Trunc(at), callUntil := None, holdUntil := None,
            stop := Timeout(a.status), reward := RewardLapsed)
  }

  /** As it was until the deadline, and lapsed from then on. */
  predicate LastsUntil(a: Trip, b: Trip, deadline: Instant, now: Instant) {
    if now < deadline then b == a else LapsedAt(a, b, deadline)
  }

  /** The trip was called to a charger, and has the grace to confirm. */
  function Summoned(a: Trip, at: Instant, grace: Instant): Trip {
    a.(status := Called, updatedAt := Trunc(at), callUntil := Some(Trunc(at + grace)), holdUntil := None)
  }

  /** The charge reached its target at `end`. */
  ghost predicate FullAt(a: Trip, b: Trip, end: Instant) {
    && b == a.(status := PendingPayment, updatedAt := Trunc(end), callUntil := None, holdUntil := None,
               stop := TargetReached, stoppedAt := Some(Trunc(end)), meter := b.meter)
    && RanToTarget(b)
  }

  /** Charging, with a meter that runs, until the target is reached. */
  ghost predicate ChargesUntil(a: Trip, b: Trip, end: Instant, now: Instant)
    requires a.startedAt.Some?
  {
    && a.power * (end - a.startedAt.value) == a.target * 3600000.0
    && if now < end
       then b == a.(meter := b.meter) && BilledTo(b.meter, a.target, a.power, a.price, a.startedAt.value, now)
       else FullAt(a, b, end)
  }

  /** What a trip nobody touches has become by `now`. */
  ghost predicate LeftAlone(a: Trip, b: Trip, now: Instant, grace: Instant) {
    if a.status.EnRoute? then LastsUntil(a, b, a.rewardUntil, now)
    else if a.status.Called? then a.callUntil.Some? && LastsUntil(a, b, a.callUntil.value, now)
    else if a.status.Reserved? then a.holdUntil.Some? && LastsUntil(a, b, a.holdUntil.value, now)
    else if a.status.Charging? then a.startedAt.Some? && exists end :: ChargesUntil(a, b, end, now)
    else if a.status.Queued? then
      || LastsUntil(a, b, a.rewardUntil, now)
      || exists at :: at <= now && at < a.rewardUntil && LastsUntil(Summoned(a, at, grace), b, Trunc(at + grace), now)
    else b == a
  }

  /** The trip with its running meter read. */
  function Read(b: Trip, now: Instant): Trip {
    if b.status.Charging? then Metered(b, now) else b
  }

  lemma PassesAlone(a: Trip, b: Trip, now: Instant, grace: Instant)
    requires TripOk(a) && Passes(a, b, now, grace)
    ensures LeftAlone(a, Read(b, now), now, grace)
  {
    hide Reading, FullMeter, ChargesUntil, ChargeTime;
    if a.status.Charging? {
      ChargingAlone(a, b, now);
    } else if a.status.Queued? && !Stays(a, b, now) {
      var at :| CalledBefore(a, b, at, now, grace);
      assert CalledTrip(a, at, grace) == Summoned(a, at, grace);
    }
  }

  lemma ChargingAlone(a: Trip, b: Trip, now: Instant)
    requires a.status.Charging? && a.startedAt.Some? && Stays(a, b, now)
    ensures exists end :: ChargesUntil(a, Read(b, now), end, now)
  {
    hide FinishedTrip, BilledTo, FullAt, ChargeTime, Metered;
    var end := a.startedAt.value + ChargeTime(a.target, a.power);
    ChargeTimeIsExact(a.target, a.power);
    if now < end {
      StillCharging(a, now);
    } else {
      ChargeEnds(a, end);
      FinishedReads(a, end);
    }
    assert end - a.startedAt.value == ChargeTime(a.target, a.power);
    assert ChargesUntil(a, Read(b, now), end, now);
  }

  lemma StillCharging(a: Trip, now: Instant)
    requires a.status.Charging? && a.startedAt.Some?
    ensures var b := Read(a, now);
      b == a.(meter := b.meter) && BilledTo(b.meter, a.target, a.power, a.price, a.startedAt.value, now)
  {
    ReadingIsBilledTo(a.target, a.power, a.price, a.startedAt.value, now);
    hide Reading, BilledTo;
  }

  lemma FinishedReads(a: Trip, end: Instant)
    requires a.startedAt.Some?
    ensures var b := FinishedTrip(a, end, TargetReached);
      && Read(b, end) == b
      && b == a.(status := PendingPayment, updatedAt := Trunc(end), callUntil := None, holdUntil := None,
                 stop := TargetReached, stoppedAt := Some(Trunc(end)), meter := b.meter)
      && b.meter == Reading(a.target, a.power, a.price, a.startedAt.value, end)
  {
    hide Reading;
  }

  lemma ChargeEnds(a: Trip, end: Instant)
    requires a.status.Charging? && a.startedAt.Some? && end == a.startedAt.value + ChargeTime(a.target, a.power)
    ensures FullAt(a, FinishedTrip(a, end, TargetReached), end)
  {
    hide Reading, FullMeter, ChargeTime, Shows, FinishedTrip, RanToTarget;
    FinishedReads(a, end);
    ReadingInFull(a.target, a.power, a.price, a.startedAt.value);
    FullRanToTarget(FinishedTrip(a, end, TargetReached));
  }

  lemma FullRanToTarget(b: Trip)
    requires b.meter == FullMeter(b.target, b.power, b.price)
    ensures RanToTarget(b)
  {
    hide FullMeter, Shows;
    FullMeterShows(b.target, b.power, b.price, 0.0);
  }

  lemma MeterAllReads(y: Yard, now: Instant, t: Id)
    requires t in y.trips
    ensures t in MeterAll(y, now).trips && MeterAll(y, now).trips[t] == Read(y.trips[t], now)
  {
    hide Metered;
  }

  lemma NotYetDue(y: Yard, time: Instant, t: Id)
    requires t in y.trips && !Due(y, time, Expire(t))
    ensures Deadline(y.trips[t]).Some? ==> time < Deadline(y.trips[t]).value
  {
  }

  lemma SynchronizeLeavesAlone(y: Yard, time: Instant, now: Instant, grace: Instant, t: Id)
    requires t in y.trips && TripOk(y.trips[t]) && !Due(y, time, Expire(t)) && time <= now
    ensures t in Synchronize(y, time, now, grace).trips
    ensures LeftAlone(y.trips[t], Synchronize(y, time, now, grace).trips[t], now, grace)
  {
    hide CatchUp, DispatchAll, LeftAlone, MeterAll, TripOk, Due, OnlyCalled, Passes, Read, Deadline;
    var start := Dispatch(y, time, grace);
    var caught := CatchUp(start, now, grace);
    CatchUpPasses(start, now, grace, t);
    var a, s, b := y.trips[t], start.trips[t], caught.trips[t];
    DispatchAllOnlyCalls(y, y.stations.Keys, time, grace, t);
    NotYetDue(y, time, t);
    CalledAtOnce(a, s, b, time, now, grace);
    PassesAlone(a, b, now, grace);
    MeterAllReads(caught, now, t);
  }

  lemma CalledAtOnce(a: Trip, s: Trip, b: Trip, time: Instant, now: Instant, grace: Instant)
    requires time <= now && (Deadline(a).Some? ==> time < Deadline(a).value)
    requires OnlyCalled(a, s, time, grace) && Passes(s, b, now, grace)
    ensures Passes(a, b, now, grace)
  {
    hide Reading, ChargeTime;
    if s != a { assert CalledBefore(a, b, time, now, grace); }
  }

  lemma TimeOnlyGrows(state: State, wall: Instant)
    requires state.speed >= 0.0
    ensures state.time <= Now(state, wall)
  {
    assert MaxReal(0.0, wall - state.wall) * state.speed >= 0.0;
  }

  /** Left to the clock, every trip keeps what it has until exactly the deadline in its row,
      or the end of its charge, and not a moment longer: any clock reads, in any order. */
  lemma DeadlinesAreExact(v: World, polls: seq<Instant>, wall: Instant, t: Id)
    requires WorldOk(v) && t in v.yard.trips
    requires forall i :: 0 <= i < |polls| ==> polls[i] <= wall
    ensures var z, now, grace := Tick(Polled(v, polls), wall).yard, Now(v.state, wall), 1000.0 * v.state.config.callTimeout as real;
      t in z.trips && LeftAlone(v.yard.trips[t], z.trips[t], now, grace)
  {
    hide WorldOk, Synchronize, LeftAlone, Polled, TripOk, Due, Now;
    TripRow(v, t);
    SpeedOk(v);
    TimeOnlyGrows(v.state, wall);
    PollingIndependence(v, polls, wall);
    SynchronizeLeavesAlone(v.yard, v.state.time, Now(v.state, wall), Grace(v), t);
  }

  // ---------- background load ----------

  lemma {:induction false} SettledStation(y: Yard, batch: set<Entity>, at: Instant, s: Id)
    requires s in y.stations && forall e :: e in batch ==> WhenOf(y, e) == Some(at)
    ensures SettleAll(y, batch, at).stations[s] ==
      if Release(s) in batch then y.stations[s].(busy := 0, release := None) else y.stations[s]
    decreases batch
  {
    if batch != {} {
      var e := FirstOf(batch);
      SettleSchedule(y, e, at);
      hide FinishedTrip, ExpiredTrip, FirstOf;
      SettledStation(Settle(y, e, at), batch - {e}, at, s);
    }
  }

  /** A background load stays whole until its release, and is gone from then on. */
  predicate Released(a: Station, b: Station, now: Instant) {
    if a.busy != 0 && a.release.Some? && a.release.value <= now then b == a.(busy := 0, release := None) else b == a
  }

  lemma {:induction false} CatchUpReleases(y: Yard, now: Instant, grace: Instant, s: Id)
    requires s in y.stations
    ensures s in CatchUp(y, now, grace).stations && Released(y.stations[s], CatchUp(y, now, grace).stations[s], now)
    decreases Agenda(y)
  {
    var n := Next(y, now);
    if n.Some? {
      var z := Round(y, n.value, grace);
      RoundShrinksAgenda(y, n.value, grace);
      SettledStation(y, Batch(y, n.value), n.value, s);
      AgendaIsComplete(y, Release(s));
      hide SettleAll;
      CatchUpReleases(z, now, grace, s);
    } else {
      assert !Due(y, now, Release(s));
    }
  }

  /** Left to the clock, every background load lasts exactly until its release. */
  lemma LoadsLastUntilRelease(v: World, polls: seq<Instant>, wall: Instant, s: Id)
    requires WorldOk(v) && s in v.yard.stations
    requires forall i :: 0 <= i < |polls| ==> polls[i] <= wall
    ensures var z := Tick(Polled(v, polls), wall).yard;
      s in z.stations && Released(v.yard.stations[s], z.stations[s], Now(v.state, wall))
  {
    SpeedOk(v);
    PollingIndependence(v, polls, wall);
    hide WorldOk, Polled, CatchUp;
    CatchUpReleases(Dispatch(v.yard, v.state.time, Grace(v)), Now(v.state, wall), Grace(v), s);
  }

  // ---------- reservations ----------

  lemma PerformedReserves(w: World, t: Id, action: Action)
    requires t in w.yard.trips && w.yard.trips[t].station in w.yard.stations && Performed(w, t, action).Done?
    requires !w.yard.trips[t].status.Reserved?
    ensures var z := Performed(w, t, action).value;
      t in z.yard.trips && (z.yard.trips[t].status.Reserved? ==>
        z.yard.trips[t].holdUntil == Some(Trunc(w.state.time + 1000.0 * w.state.config.reservationTimeout as real)))
  {
    hide Free, Line, Award, Verdict, FinalVerdict, PaidBooks, Metered;
  }

  lemma DispatchKeepsReserved(p: World, t: Id)
    requires t in p.yard.trips
    ensures t in Dispatched(p).yard.trips
    ensures Dispatched(p).yard.trips[t].status.Reserved? ==> Dispatched(p).yard.trips[t] == p.yard.trips[t]
  {
    DispatchAllOnlyCalls(p.yard, p.yard.stations.Keys, p.state.time, Grace(p), t);
  }

  lemma ActedReserves(w: World, user: Id, t: Id, action: Action)
    requires WorldOk(w) && Acted(w, user, t, action).Done? && !w.yard.trips[t].status.Reserved?
    ensures var z := Acted(w, user, t, action).value;
      t in z.yard.trips && (z.yard.trips[t].status.Reserved? ==>
        z.yard.trips[t].holdUntil == Some(Trunc(w.state.time + 1000.0 * w.state.config.reservationTimeout as real)))
  {
    hide WorldOk, Performed, Dispatched;
    if Allowed(action, w.yard.trips[t].status) {
      PerformedReserves(w, t, action);
      DispatchKeepsReserved(Performed(w, t, action).value, t);
    }
  }

  /** A reservation, confirmed or granted on arrival, lasts for exactly the configured time:
      left to the clock the trip stays reserved until then, and lapses then. */
  lemma ReservationsLast(v: World, wall: Instant, user: Id, t: Id, action: Action, polls: seq<Instant>, later: Instant)
    requires WorldOk(v) && Acted(Tick(v, wall), user, t, action).Done?
    requires !Tick(v, wall).yard.trips[t].status.Reserved?
    requires forall i :: 0 <= i < |polls| ==> polls[i] <= later
    ensures var z := Transaction(v, wall, Act(user, t, action), false);
      t in z.yard.trips && (z.yard.trips[t].status.Reserved? ==>
        var until := Trunc(Now(v.state, wall) + 1000.0 * v.state.config.reservationTimeout as real);
        var end := Tick(Polled(z, polls), later).yard;
        t in end.trips && LastsUntil(z.yard.trips[t], end.trips[t], until, Now(z.state, later)))
  {
    hide WorldOk, Synchronize, Acted, LastsUntil, Polled, Advances, WorkConserving, Grows;
    var w, z := Tick(v, wall), Transaction(v, wall, Act(user, t, action), false);
    assert z == Acted(w, user, t, action).value by { KnownAction(w, user, t, action); }
    TickKeeps(v, wall);
    ActedReserves(w, user, t, action);
    if z.yard.trips[t].status.Reserved? {
      TransactionKeeps(v, wall, Act(user, t, action), false);
      DeadlinesAreExact(z, polls, later, t);
    }
  }

  lemma KnownAction(w: World, user: Id, t: Id, action: Action)
    requires Acted(w, user, t, action).Done?
    ensures Precheck(Act(user, t, action)).None? && user in w.books.points && t in w.yard.trips
  {
    hide Dispatched, Arrived, Paid;
  }
}
