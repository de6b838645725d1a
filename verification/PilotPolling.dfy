/** How often the replay clock is read never changes an outcome.

    Catching up to one instant and then to a later one gives the same stations,
    trips, meters and event log as catching up to the later instant at once. */
module PilotPolling {
  import opened Basics
  import opened PilotTypes
  import opened PilotCatchUp

  /** Equal, except that the meter of a running charge may have been read at another moment. */
  ghost predicate SameTrip(a: Trip, b: Trip) {
    a == b || (a.status.Charging? && a.startedAt.Some? && b == a.(meter := b.meter))
  }

  ghost predicate SameButMeters(y: Yard, z: Yard) {
    && y.stations == z.stations
    && y.events == z.events
    && y.trips.Keys == z.trips.Keys
    && forall t :: t in y.trips ==> SameTrip(y.trips[t], z.trips[t])
  }

  lemma SameInstants(y: Yard, z: Yard, e: Entity)
    requires SameButMeters(y, z)
    ensures WhenOf(z, e) == WhenOf(y, e)
  {
    assert e.Expire? && e.trip in y.trips ==> SameTrip(y.trips[e.trip], z.trips[e.trip]);
    assert e.Finish? && e.trip in y.trips ==> SameTrip(y.trips[e.trip], z.trips[e.trip]);
  }

  lemma SameSchedule(y: Yard, z: Yard)
    requires SameButMeters(y, z)
    ensures forall e :: WhenOf(z, e) == WhenOf(y, e)
    ensures forall at :: Batch(y, at) == Batch(z, at)
    ensures Agenda(y) == Agenda(z)
  {
    hide WhenOf, SameButMeters, Agenda;
    forall e ensures WhenOf(z, e) == WhenOf(y, e) && (e in Agenda(y) <==> e in Agenda(z)) {
      SameInstants(y, z, e);
      AgendaIsComplete(y, e);
      AgendaIsComplete(z, e);
    }
    assert Agenda(y) == Agenda(z);
    forall at ensures Batch(y, at) == Batch(z, at) {
      assert forall e :: e in Batch(y, at) <==> e in Batch(z, at);
    }
  }

  lemma SameLines(y: Yard, z: Yard, s: Id)
    requires SameButMeters(y, z)
    ensures Line(y, s) == Line(z, s) && Holders(y, s) == Holders(z, s) && Tickets(y, s) == Tickets(z, s)
  {
    assert forall t :: t in y.trips ==> SameTrip(y.trips[t], z.trips[t]);
    assert forall t :: t in Line(y, s) <==> t in Line(z, s);
    assert forall t :: t in Holders(y, s) <==> t in Holders(z, s);
    assert forall t :: t in Tickets(y, s) <==> t in Tickets(z, s);
  }

  /** A reading does not depend on earlier readings. */
  lemma MeteringForgets(a: Trip, b: Trip, at: Instant)
    requires SameTrip(a, b) && a.status.Charging?
    ensures Metered(a, at) == Metered(b, at)
  {
  }

  lemma SettleSame(y: Yard, z: Yard, e: Entity, at: Instant)
    requires SameButMeters(y, z) && WhenOf(y, e).Some?
    ensures SameButMeters(Settle(y, e, at), Settle(z, e, at))
  {
    match e
    case Release(_) =>
    case Expire(t) =>
      assert y.trips[t] == z.trips[t] by { assert SameTrip(y.trips[t], z.trips[t]); }
    case Finish(t) =>
      assert SameTrip(y.trips[t], z.trips[t]);
      MeteringForgets(y.trips[t], z.trips[t], at);
  }

  lemma {:induction false} SettleAllSame(y: Yard, z: Yard, batch: set<Entity>, at: Instant)
    requires SameButMeters(y, z) && forall e :: e in batch ==> WhenOf(y, e).Some?
    ensures SameButMeters(SettleAll(y, batch, at), SettleAll(z, batch, at))
    decreases batch
  {
    if batch != {} {
      var e := FirstOf(batch);
      SettleSame(y, z, e, at);
      SettleSchedule(y, e, at);
      SettleAllSame(Settle(y, e, at), Settle(z, e, at), batch - {e}, at);
    }
  }

  lemma {:induction false} DispatchStationSame(y: Yard, z: Yard, s: Id, at: Instant, grace: Instant)
    requires SameButMeters(y, z) && s in y.stations
    ensures SameButMeters(DispatchStation(y, s, at, grace), DispatchStation(z, s, at, grace))
    decreases Line(y, s)
  {
    SameLines(y, z, s);
    if Free(y, s) > 0 && Line(y, s) != {} {
      var h := Head(y, s);
      assert SameTrip(y.trips[h], z.trips[h]);
      CallEffect(y, h, at, grace);
      DispatchStationSame(Call(y, h, at, grace), Call(z, h, at, grace), s, at, grace);
    }
  }

  lemma {:induction false} DispatchAllSame(y: Yard, z: Yard, todo: set<Id>, at: Instant, grace: Instant)
    requires SameButMeters(y, z) && todo <= y.stations.Keys
    ensures SameButMeters(DispatchAll(y, todo, at, grace), DispatchAll(z, todo, at, grace))
    decreases todo
  {
    if todo != {} {
      var s := Least(todo);
      DispatchStationSame(y, z, s, at, grace);
      DispatchAllSame(DispatchStation(y, s, at, grace), DispatchStation(z, s, at, grace), todo - {s}, at, grace);
    }
  }

  lemma RoundSame(y: Yard, z: Yard, at: Instant, grace: Instant)
    requires SameButMeters(y, z)
    ensures SameButMeters(Round(y, at, grace), Round(z, at, grace))
  {
    SameSchedule(y, z);
    SettleAllSame(y, z, Batch(y, at), at);
    var a, b := SettleAll(y, Batch(y, at), at), SettleAll(z, Batch(z, at), at);
    DispatchAllSame(a, b, a.stations.Keys, at, grace);
  }

  lemma {:induction false} CatchUpSame(y: Yard, z: Yard, now: Instant, grace: Instant)
    requires SameButMeters(y, z)
    ensures SameButMeters(CatchUp(y, now, grace), CatchUp(z, now, grace))
    decreases Agenda(y)
  {
    SameSchedule(y, z);
    NextIsFirst(y, z, now, now);
    var n := Next(y, now);
    if n.Some? {
      RoundShrinksAgenda(y, n.value, grace);
      RoundSame(y, z, n.value, grace);
      CatchUpSame(Round(y, n.value, grace), Round(z, n.value, grace), now, grace);
    }
  }

  lemma MeterAllSame(y: Yard, z: Yard, now: Instant)
    requires SameButMeters(y, z)
    ensures MeterAll(y, now) == MeterAll(z, now)
    ensures SameButMeters(y, MeterAll(y, now))
  {
    var a, b := MeterAll(y, now).trips, MeterAll(z, now).trips;
    forall t | t in y.trips ensures a[t] == b[t] && SameTrip(y.trips[t], a[t]) {
      assert SameTrip(y.trips[t], z.trips[t]);
      if y.trips[t].status.Charging? { MeteringForgets(y.trips[t], z.trips[t], now); }
    }
    assert a == b;
  }

  /** The next batch depends only on the schedule, and not on how far ahead one looks. */
  lemma NextIsFirst(y: Yard, z: Yard, now: Instant, later: Instant)
    requires forall e :: WhenOf(z, e) == WhenOf(y, e)
    requires now <= later
    ensures Next(y, now).Some? ==> Next(z, later) == Next(y, now)
    ensures now == later ==> Next(z, later) == Next(y, now)
  {
    hide WhenOf, Next;
    var a, b := Next(y, now), Next(z, later);
    if b.Some? {
      var f :| WhenOf(z, f) == b;
      assert WhenOf(y, f) == b;
      assert a.None? ==> !Due(y, now, f);
    }
    if a.Some? {
      var e :| WhenOf(y, e) == a;
      assert WhenOf(z, e) == a;
      assert b.None? ==> !Due(z, later, e);
    }
  }

  /** Catching up in two steps is catching up at once. */
  lemma {:induction false} CatchUpInSteps(y: Yard, now: Instant, later: Instant, grace: Instant)
    requires now <= later
    ensures CatchUp(CatchUp(y, now, grace), later, grace) == CatchUp(y, later, grace)
    decreases Agenda(y)
  {
    NextIsFirst(y, y, now, later);
    var n := Next(y, now);
    if n.Some? {
      RoundShrinksAgenda(y, n.value, grace);
      CatchUpInSteps(Round(y, n.value, grace), now, later, grace);
    }
  }

  /** Polling independence of the tables. */
  lemma SynchronizeInSteps(y: Yard, time: Instant, now: Instant, later: Instant, grace: Instant)
    requires now <= later
    ensures Synchronize(Synchronize(y, time, now, grace), now, later, grace) == Synchronize(y, time, later, grace)
  {
    var start := Dispatch(y, time, grace);
    var caught := CatchUp(start, now, grace);
    var first := MeterAll(caught, now);
    SynchronizeSettles(y, time, now, grace);
    DispatchAllIdle(first, first.stations.Keys, now, grace);
    MeterAllSame(caught, caught, now);
    CatchUpSame(caught, first, later, grace);
    CatchUpInSteps(start, now, later, grace);
    MeterAllSame(CatchUp(caught, later, grace), CatchUp(first, later, grace), later);
  }

  // ---------- the clock row ----------

  /** The replay time a transaction sees when the database clock shows `wall`. */
  function Now(state: State, wall: Instant): Instant {
    state.time + (if state.paused then 0.0 else MaxReal(0.0, wall - state.wall) * state.speed)
  }

  /** The world after the catch-up to `now`. */
  ghost function CaughtUpTo(w: World, now: Instant): World {
    w.(state := w.state.(time := now),
       yard := Synchronize(w.yard, w.state.time, now, Millis(w.state.config.callTimeout)))
  }

  /** What every transaction does before its command. */
  ghost function Tick(w: World, wall: Instant): World {
    CaughtUpTo(w.(state := w.state.(wall := MaxReal(wall, w.state.wall))), Now(w.state, wall))
  }

  lemma Distributes(a: real, b: real, speed: real)
    ensures (a + b) * speed == a * speed + b * speed
  {
  }

  lemma NowInSteps(state: State, wall: Instant, later: Instant)
    requires wall <= later && state.speed >= 0.0
    ensures Now(state, wall) <= Now(state, later)
    ensures Now(state.(wall := MaxReal(wall, state.wall), time := Now(state, wall)), later) == Now(state, later)
  {
    var a, b := MaxReal(0.0, wall - state.wall), MaxReal(0.0, later - MaxReal(wall, state.wall));
    Distributes(a, b, state.speed);
    assert MaxReal(0.0, later - state.wall) == a + b;
    assert b * state.speed >= 0.0;
  }

  /** Reading the clock on the way changes nothing. */
  lemma TickInSteps(w: World, wall: Instant, later: Instant)
    requires wall <= later && w.state.speed >= 0.0
    ensures Tick(Tick(w, wall), later) == Tick(w, later)
  {
    NowInSteps(w.state, wall, later);
    SynchronizeInSteps(w.yard, w.state.time, Now(w.state, wall), Now(w.state, later), Millis(w.state.config.callTimeout));
  }

  ghost function Polled(w: World, polls: seq<Instant>): World
    decreases |polls|
  {
    if polls == [] then w else Polled(Tick(w, polls[0]), polls[1..])
  }

  /** Polling independence: any series of clock reads, in any order, none later than
      `wall`, leaves the world that a single read at `wall` would have produced. */
  lemma {:induction false} PollingIndependence(w: World, polls: seq<Instant>, wall: Instant)
    requires w.state.speed >= 0.0
    requires forall i :: 0 <= i < |polls| ==> polls[i] <= wall
    ensures Tick(Polled(w, polls), wall) == Tick(w, wall)
    decreases |polls|
  {
    if polls != [] {
      PollingIndependence(Tick(w, polls[0]), polls[1..], wall);
      TickInSteps(w, polls[0], wall);
    }
  }
}
