/** What time alone does: left to the clock, every trip comes to an end by an
    instant that can be read off its row. */
module PilotProgress {
  import opened Basics
  import opened PilotTypes
  import opened PilotCatchUp
  import opened PilotPolling
  import opened PilotBills
  import opened PilotInvariant
  import opened PilotSafety
  import opened PilotCommands
  import opened PilotWorld

  /** The trip occupies a charger or still wants one. */
  predicate Underway(s: Status) {
    s.EnRoute? || s.Queued? || s.Holding()
  }

  /** When the trip is over if nobody acts: at its deadline or completion, and a
      queued trip, which may still be called, one call later than its deadline. */
  function Limit(trip: Trip, grace: Instant): Instant {
    if trip.status.Queued? then trip.rewardUntil + grace
    else if trip.status.Charging? then Or(Completion(trip), 0.0)
    else Or(Deadline(trip), 0.0)
  }

  function Or(x: Option<Instant>, default: Instant): Instant {
    if x.Some? then x.value else default
  }

  /** Nothing but time has passed: a trip under way stays so within its limit, or has
      expired, or has charged to its target; any other trip is as it was. */
  predicate RunsOut(a: Trip, b: Trip, grace: Instant) {
    if !Underway(a.status) then b == a
    else if Underway(b.status) then (b.status.Charging? <==> a.status.Charging?) && Limit(b, grace) <= Limit(a, grace)
    else if a.status.Charging? then b.status.PendingPayment? && b.stop.TargetReached?
    else b.status.Expired?
  }

  lemma SettleRunsOut(y: Yard, e: Entity, at: Instant, grace: Instant, t: Id)
    requires WhenOf(y, e).Some? && t in y.trips
    ensures RunsOut(y.trips[t], Settle(y, e, at).trips[t], grace)
  {
    hide Reading;
  }

  lemma {:induction false} SettleAllRunsOut(y: Yard, batch: set<Entity>, at: Instant, grace: Instant, t: Id)
    requires (forall e :: e in batch ==> WhenOf(y, e).Some?) && t in y.trips
    ensures RunsOut(y.trips[t], SettleAll(y, batch, at).trips[t], grace)
    decreases batch
  {
    if batch != {} {
      var e := FirstOf(batch);
      SettleSchedule(y, e, at);
      SettleRunsOut(y, e, at, grace, t);
      hide WhenOf, Settle, Limit;
      SettleAllRunsOut(Settle(y, e, at), batch - {e}, at, grace, t);
    }
  }

  /** A call made before the trip's reward expires ends at most one call after it. */
  lemma CallRunsOut(a: Trip, b: Trip, at: Instant, grace: Instant)
    requires OnlyCalled(a, b, at, grace) && (a.status.Queued? ==> at <= a.rewardUntil)
    ensures RunsOut(a, b, grace)
  {
  }

  lemma RoundRunsOut(y: Yard, at: Instant, grace: Instant, t: Id)
    requires t in y.trips && forall e :: WhenOf(y, e).Some? ==> at <= WhenOf(y, e).value
    ensures RunsOut(y.trips[t], Round(y, at, grace).trips[t], grace)
  {
    var settled := SettleAll(y, Batch(y, at), at);
    SettleAllRunsOut(y, Batch(y, at), at, grace, t);
    SettleAllSchedule(y, Batch(y, at), at);
    DispatchAllOnlyCalls(settled, settled.stations.Keys, at, grace, t);
    var a, b := settled.trips[t], Round(y, at, grace).trips[t];
    assert a.status.Queued? ==> WhenOf(settled, Expire(t)) == Some(a.rewardUntil);
    assert a.status.Queued? ==> WhenOf(settled, Expire(t)) == WhenOf(y, Expire(t));
    CallRunsOut(a, b, at, grace);
    hide *;
    RunsOutTwice(y.trips[t], a, b, grace);
  }

  lemma RunsOutTwice(a: Trip, b: Trip, c: Trip, grace: Instant)
    requires RunsOut(a, b, grace) && RunsOut(b, c, grace)
    ensures RunsOut(a, c, grace)
  {
    hide Limit;
  }

  lemma {:induction false} CatchUpRunsOut(y: Yard, now: Instant, grace: Instant, t: Id)
    requires t in y.trips
    ensures t in CatchUp(y, now, grace).trips && RunsOut(y.trips[t], CatchUp(y, now, grace).trips[t], grace)
    decreases Agenda(y)
  {
    hide RunsOut, WhenOf;
    var n := Next(y, now);
    if n.Some? {
      var z := Round(y, n.value, grace);
      RoundShrinksAgenda(y, n.value, grace);
      RoundRunsOut(y, n.value, grace, t);
      CatchUpRunsOut(z, now, grace, t);
      RunsOutTwice(y.trips[t], z.trips[t], CatchUp(z, now, grace).trips[t], grace);
    } else {
      RunsOutAlready(y.trips[t], grace);
    }
  }

  lemma RunsOutAlready(a: Trip, grace: Instant)
    ensures RunsOut(a, a, grace)
  {
  }

  lemma MeteringRunsOut(y: Yard, now: Instant, grace: Instant, t: Id)
    requires t in y.trips
    ensures RunsOut(y.trips[t], MeterAll(y, now).trips[t], grace)
  {
    hide Reading;
  }

  lemma SynchronizeRunsOut(y: Yard, time: Instant, now: Instant, grace: Instant, t: Id)
    requires t in y.trips && !Due(y, time, Expire(t))
    ensures t in Synchronize(y, time, now, grace).trips
    ensures RunsOut(y.trips[t], Synchronize(y, time, now, grace).trips[t], grace)
  {
    var start := Dispatch(y, time, grace);
    var caught := CatchUp(start, now, grace);
    DispatchAllOnlyCalls(y, y.stations.Keys, time, grace, t);
    CallRunsOut(y.trips[t], start.trips[t], time, grace);
    CatchUpRunsOut(start, now, grace, t);
    MeteringRunsOut(caught, now, grace, t);
    hide *;
    RunsOutTwice(y.trips[t], start.trips[t], caught.trips[t], grace);
    RunsOutTwice(y.trips[t], caught.trips[t], MeterAll(caught, now).trips[t], grace);
  }

  /** Nothing that is still under way has reached its limit. */
  lemma LimitsLieAhead(y: Yard, now: Instant, grace: Instant, t: Id)
    requires t in y.trips && TripOk(y.trips[t]) && grace >= 0.0 && Underway(y.trips[t].status)
    requires !Due(y, now, Expire(t)) && !Due(y, now, Finish(t))
    ensures now < Limit(y.trips[t], grace)
  {
    hide ChargeTime;
  }

  /** What a trip under way has become when its limit has passed without a command:
      a charge ran to its target and awaits payment of exactly that, anything else expired. */
  ghost predicate Ended(a: Trip, b: Trip) {
    if a.status.Charging?
    then b.status.PendingPayment? && b.stop.TargetReached? && b.meter == FullMeter(a.target, a.power, a.price)
    else b.status.Expired?
  }

  lemma CaughtUpEnds(w: World, now: Instant, t: Id)
    requires WorldOk(w) && t in w.yard.trips && Underway(w.yard.trips[t].status)
    requires Limit(w.yard.trips[t], Grace(w)) <= now
    ensures t in CaughtUpTo(w, now).yard.trips && Ended(w.yard.trips[t], CaughtUpTo(w, now).yard.trips[t])
  {
    hide WorldOk, Synchronize, Advances, WorkConserving;
    var z := CaughtUpTo(w, now);
    TripRow(w, t);
    SynchronizeRunsOut(w.yard, w.state.time, now, Grace(w), t);
    CaughtUpKeeps(w, now);
    TripEndsWithin(w, z, t);
  }

  lemma TripEndsWithin(w: World, z: World, t: Id)
    requires WorldOk(z) && t in w.yard.trips && t in z.yard.trips && Underway(w.yard.trips[t].status)
    requires Advances(w.yard, z.yard) && Grace(w) >= 0.0
    requires RunsOut(w.yard.trips[t], z.yard.trips[t], Grace(w)) && Limit(w.yard.trips[t], Grace(w)) <= z.state.time
    ensures Ended(w.yard.trips[t], z.yard.trips[t])
  {
    var a, b := w.yard.trips[t], z.yard.trips[t];
    assert AdvancesTrip(a, b) && TripOk(b) && BillOk(b);
    hide Sound, BooksOk, Limit, FullMeter, Cost;
    if Underway(b.status) {
      LimitsLieAhead(z.yard, z.state.time, Grace(w), t);
    }
  }

  /** Left to the clock, every trip under way is over once its limit has passed: any
      clock reads, in any order, up to a wall reading that shows that instant. */
  lemma TripsEndByThemselves(v: World, polls: seq<Instant>, wall: Instant, t: Id)
    requires WorldOk(v) && t in v.yard.trips && Underway(v.yard.trips[t].status)
    requires Limit(v.yard.trips[t], Grace(v)) <= Now(v.state, wall)
    requires forall i :: 0 <= i < |polls| ==> polls[i] <= wall
    ensures var z := Tick(Polled(v, polls), wall).yard; t in z.trips && Ended(v.yard.trips[t], z.trips[t])
  {
    hide Sound, BooksOk, Ended, Synchronize, Limit;
    var w := v.(state := v.state.(wall := MaxReal(wall, v.state.wall)));
    PollingIndependence(v, polls, wall);
    CaughtUpEnds(w, Now(v.state, wall), t);
  }

  lemma RunningClocksGetThere(state: State, limit: Instant)
    requires state.speed > 0.0 && !state.paused
    ensures exists wall :: limit <= Now(state, wall)
  {
    var wall := state.wall + MaxReal(0.0, limit - state.time) / state.speed;
    assert MaxReal(0.0, limit - state.time) / state.speed >= 0.0;
    assert (wall - state.wall) * state.speed == MaxReal(0.0, limit - state.time);
    assert limit <= Now(state, wall);
  }

  /** And a clock that runs gets there. */
  lemma RunningClocksEndTrips(v: World, t: Id)
    requires WorldOk(v) && t in v.yard.trips && Underway(v.yard.trips[t].status)
    requires v.state.speed > 0.0 && !v.state.paused
    ensures exists wall ::
      t in Tick(v, wall).yard.trips && Ended(v.yard.trips[t], Tick(v, wall).yard.trips[t])
  {
    hide WorldOk, Tick, Ended, Limit, Now;
    RunningClocksGetThere(v.state, Limit(v.yard.trips[t], Grace(v)));
    var wall :| Limit(v.yard.trips[t], Grace(v)) <= Now(v.state, wall);
    TripsEndByThemselves(v, [], wall, t);
    assert Polled(v, []) == v;
  }
}
