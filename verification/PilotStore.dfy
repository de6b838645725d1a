/** The operational store in its own form: tables updated in place by the catch-up loop, the
    commands, and the transaction that keeps, partly keeps, or undoes them. */
module PilotStore {
  import opened Basics
  import opened PilotTypes
  import opened PilotCatchUp
  import opened PilotPolling
  import opened PilotBills
  import opened PilotInvariant
  import opened PilotSafety
  import opened PilotCommands
  import opened PilotWorld
  import opened PilotCommandsKeep
  import opened PilotRuns
  import opened PilotPayments
  import opened PilotCharges
  import opened PilotDeadlines

  /** The earliest due instant is the one the event loop works on next. */
  lemma EarliestIsNext(y: Yard, now: Instant, e: Entity)
    requires Due(y, now, e)
    requires forall f :: Due(y, now, f) ==> WhenOf(y, e).value <= WhenOf(y, f).value
    ensures Next(y, now) == WhenOf(y, e)
  {
    var n := Next(y, now);
    assert n.Some?;
    var f :| WhenOf(y, f) == n;
    assert Due(y, now, f);
  }

  lemma SomeIsEarliest(y: Yard, now: Instant, due: set<Entity>)
    requires due != {} && forall e :: e in due <==> Due(y, now, e)
    ensures forall e :: e in due ==> WhenOf(y, e).Some?
    ensures exists e :: e in due && forall f :: f in due ==> WhenOf(y, e).value <= WhenOf(y, f).value
  {
    var any := Pick(due);
    assert Due(y, now, any);
    var n := Next(y, now);
    var e :| WhenOf(y, e) == n;
    assert Due(y, now, e) && e in due;
    assert forall f :: f in due ==> WhenOf(y, e).value <= WhenOf(y, f).value;
  }

  lemma DueBatch(y: Yard, now: Instant, at: Instant, due: set<Entity>)
    requires at <= now && forall e :: e in due <==> Due(y, now, e)
    ensures (set e | e in due && WhenOf(y, e) == Some(at)) == Batch(y, at)
  {
    forall e ensures e in due && WhenOf(y, e) == Some(at) <==> e in Batch(y, at) {
      AgendaIsComplete(y, e);
    }
  }

  lemma MetersAgree(y: Yard, trips: map<Id, Trip>, now: Instant)
    requires trips.Keys == y.trips.Keys
    requires forall t :: t in y.trips ==>
      trips[t] == if y.trips[t].status.Charging? then Metered(y.trips[t], now) else y.trips[t]
    ensures Yard(y.stations, trips, y.events) == MeterAll(y, now)
  {
    var read := MeterAll(y, now).trips;
    hide Metered;
    assert read.Keys == trips.Keys;
    forall t | t in trips ensures read[t] == trips[t] {
      assert t in y.trips;
    }
    assert read == trips;
  }

  /** Order of equal-time events: by kind, then by identifier. */
  predicate NotAfter(e: Entity, f: Entity) {
    match (e, f)
    case (Release(a), Release(b)) => a <= b
    case (Expire(a), Expire(b)) => a <= b
    case (Finish(a), Finish(b)) => a <= b
    case (Release(_), _) => true
    case (Expire(_), Finish(_)) => true
    case _ => false
  }

  lemma FirstIsFirst(batch: set<Entity>, e: Entity)
    requires e in batch
    ensures NotAfter(FirstOf(batch), e)
    ensures (forall f :: f in batch ==> NotAfter(e, f)) ==> e == FirstOf(batch)
  {
    var stations := set x: Entity | x in batch && x.Release? :: x.station;
    var expiring := set x: Entity | x in batch && x.Expire? :: x.trip;
    var finishing := set x: Entity | x in batch && x.Finish? :: x.trip;
    assert e.Release? ==> e.station in stations;
    assert e.Expire? ==> e.trip in expiring;
    assert e.Finish? ==> e.trip in finishing;
  }

  lemma SomeIsFirst(trips: map<Id, Trip>, rest: set<Id>)
    requires rest != {} && rest <= trips.Keys
    ensures exists t :: t in rest && forall u :: u in rest ==> Ticket(trips[t]) <= Ticket(trips[u])
  {
    var tickets := map t | t in rest :: Ticket(trips[t]);
    assert Pick(rest) in tickets;
    var h := FirstTicket(tickets);
    assert h in rest;
    forall u | u in rest ensures Ticket(trips[h]) <= Ticket(trips[u]) {
      assert tickets[h] <= tickets[u];
    }
  }

  /** Distinct trips by ascending ticket. */
  ghost predicate InOrder(y: Yard, queue: seq<Id>) {
    && (forall i :: 0 <= i < |queue| ==> queue[i] in y.trips)
    && (forall i, j :: 0 <= i < j < |queue| ==>
          queue[i] != queue[j] && Ticket(y.trips[queue[i]]) <= Ticket(y.trips[queue[j]]))
  }

  /** While a station is being served: its line is what is left of its sorted queue. */
  ghost predicate Serving(y: Yard, start: Yard, s: Id, queue: seq<Id>, i: int) {
    && InOrder(start, queue) && 0 <= i <= |queue|
    && y.stations == start.stations && y.trips.Keys == start.trips.Keys
    && (forall t :: t in Line(y, s) <==> t in queue[i..])
    && (forall k :: i <= k < |queue| ==> y.trips[queue[k]] == start.trips[queue[k]])
  }

  /** Tickets are unique, so the next trip of the sorted queue is the head of the line. */
  lemma NextIsHead(y: Yard, start: Yard, s: Id, queue: seq<Id>, i: int, last: int)
    requires Serving(y, start, s, queue, i) && i < |queue| && RowsOk(y) && TicketsOk(y, last)
    ensures Line(y, s) != {} && Head(y, s) == queue[i]
  {
    var t := queue[i];
    assert t in queue[i..];
    var h := Head(y, s);
    assert h in queue[i..];
    var k :| 0 <= k < |queue[i..]| && queue[i..][k] == h;
    assert h == queue[i + k];
    assert TripOk(y.trips[t]) && TripOk(y.trips[h]);
    assert Ticket(y.trips[t]) <= Ticket(y.trips[h]);
  }

  lemma ServingStarts(y: Yard, s: Id, queue: seq<Id>)
    requires InOrder(y, queue) && forall t :: t in queue <==> t in Line(y, s)
    ensures Serving(y, y, s, queue, 0)
  {
    assert queue[0..] == queue;
  }

  lemma ServedAll(y: Yard, start: Yard, s: Id, queue: seq<Id>)
    requires Serving(y, start, s, queue, |queue|)
    ensures Line(y, s) == {}
  {
    assert forall t :: t !in Line(y, s);
  }

  /** Calling the next trip of the queue moves the service on by one. */
  lemma ServingMovesOn(y: Yard, start: Yard, s: Id, queue: seq<Id>, i: int, at: Instant, grace: Instant)
    requires Serving(y, start, s, queue, i) && i < |queue| && queue[i] in Line(y, s)
    ensures Serving(Call(y, queue[i], at, grace), start, s, queue, i + 1)
  {
    CallEffect(y, queue[i], at, grace);
    hide Line;
    assert queue[i..] == [queue[i]] + queue[i + 1..];
    assert queue[i] !in queue[i + 1..];
  }

  lemma CallTakesOne(y: Yard, s: Id, t: Id, at: Instant, grace: Instant)
    requires s in y.stations && t in Line(y, s)
    ensures Free(Call(y, t, at, grace), s) == Free(y, s) - 1
  {
    CallEffect(y, t, at, grace);
    assert t !in Holders(y, s);
  }

  lemma ServeOne(y: Yard, start: Yard, s: Id, queue: seq<Id>, i: int, at: Instant, grace: Instant, last: int)
    requires Serving(y, start, s, queue, i) && i < |queue| && Sound(y, last)
    requires s in y.stations && Free(y, s) > 0
    ensures Line(y, s) != {} && Head(y, s) == queue[i] && queue[i] in y.trips
    ensures var z := Call(y, queue[i], at, grace);
      && Sound(z, last) && Serving(z, start, s, queue, i + 1) && Free(z, s) == Free(y, s) - 1
      && PilotCatchUp.DispatchStation(z, s, at, grace) == PilotCatchUp.DispatchStation(y, s, at, grace)
  {
    NextIsHead(y, start, s, queue, i, last);
    CallKeeps(y, s, at, grace, last);
    hide Sound, Serving, Free, Call, Line;
    ServingMovesOn(y, start, s, queue, i, at, grace);
    CallTakesOne(y, s, queue[i], at, grace);
  }

  lemma TransactionCases(w: World, wall: Instant, c: Command, crash: bool)
    ensures var z, r := Transaction(w, wall, c, crash), Apply(Tick(w, wall), c);
      && (Precheck(c).Some? || crash || r.Failed? ==> z == w)
      && (Precheck(c).None? && !crash && r.Done? ==> z == r.value)
      && (Precheck(c).None? && !crash && r.Refused? ==> z == Tick(w, wall))
  {
    hide Apply, Tick, Precheck;
  }

  lemma InstallCases(w: World, rows: seq<CatalogRow>)
    ensures var y := InstalledAll(w.yard, rows);
      Stepped(w, Install(rows)) == if y.Some? then w.(yard := y.value) else w
  {
  }

  class ChargePilotStore {
    var state: State
    var stations: map<Id, Station>
    var trips: map<Id, Trip>
    var events: seq<Event>
    var points: map<Id, int>
    var offers: map<Id, Offer>
    var payments: map<Id, Payment>
    var ledger: seq<LedgerRow>

    function Rows(): Yard
      reads this`stations, this`trips, this`events
    {
      Yard(stations, trips, events)
    }

    function View(): World
      reads this
    {
      World(state, Rows(), Books(points, offers, payments, ledger))
    }

    ghost predicate Valid()
      reads this
    {
      WorldOk(View())
    }

    constructor (start: Instant, wall: Instant)
      ensures Valid()
      ensures View().yard == Yard(map[], map[], []) && View().books == Books(map[], map[], map[], [])
      ensures (state.time, state.wall, state.speed) == (start, wall, 10.0) && !state.paused && !state.baseline
      ensures state.lastTicket == 0 && state.config.weights == [0.30, 0.25, 0.20, 0.10, 0.10, 0.05]
      ensures var c := state.config;
        && (c.firstReward, c.secondReward, c.dailyBudget) == (30, 10, 10000)
        && (c.minimumEnergy, c.minimumSeconds) == (1.0, 60)
        && (c.callTimeout, c.reservationTimeout, c.rewardWindow) == (60, 900, 86400)
    {
      state := State(start, wall, 10.0, false, Config(DEFAULT_WEIGHTS, 30, 10, 1.0, 60, 10000, 60, 900, 86400), false, 0);
      stations, trips, events := map[], map[], [];
      points, offers, payments, ledger := map[], map[], map[], [];
      new;
      hide WorldOk;
      FreshOk(wall, start);
      assert View() == Fresh(wall, start);
    }

    // ---------- dispatch ----------

    method Transition(t: Id, trip: Trip, status: Status, at: Instant, kind: EventKind)
      modifies this`trips, this`events
      ensures Rows() == Record(old(Rows()), t, Moved(trip, status, at), kind, at)
      ensures events == old(events) + [Event(t, kind, status, at)] && trips == old(trips)[t := trips[t]]
      ensures trips[t] == trip.(status := status, updatedAt := Trunc(at),
        callUntil := if status.Called? then trip.callUntil else None,
        holdUntil := if status.Reserved? then trip.holdUntil else None)
    {
      var next := trip.(status := status, updatedAt := Trunc(at));
      if !status.Called? { next := next.(callUntil := None); }
      if !status.Reserved? { next := next.(holdUntil := None); }
      trips := trips[t := next];
      events := events + [Event(t, kind, status, at)];
    }

    /** How many of a station's chargers trips hold. */
    method HeldBy(s: Id) returns (n: nat)
      ensures n == |Holders(Rows(), s)|
    {
      var holders := set t | t in trips && trips[t].station == s && trips[t].status.Holding();
      assert holders == Holders(Rows(), s);
      n := |holders|;
    }

    method CallTrip(t: Id, at: Instant)
      requires t in trips
      modifies this`trips, this`events
      ensures Rows() == Call(old(Rows()), t, at, Millis(state.config.callTimeout))
      ensures trips[t] == Summoned(old(trips)[t], at, 1000.0 * state.config.callTimeout as real)
    {
      var grace := Millis(state.config.callTimeout);
      Transition(t, trips[t].(callUntil := Some(Trunc(at + grace))), Called, at, CalledOut);
    }

    /** The queue of a station in ticket order. */
    method Waiting(s: Id) returns (queue: seq<Id>)
      ensures InOrder(Rows(), queue) && forall t :: t in queue <==> t in Line(Rows(), s)
    {
      var rest := set t | t in trips && trips[t].station == s && trips[t].status.Queued?;
      queue := [];
      while rest != {}
        invariant rest <= trips.Keys && InOrder(Rows(), queue)
        invariant forall t :: t in Line(Rows(), s) <==> t in rest || t in queue
        invariant forall t :: t in rest ==> t !in queue
        invariant forall i, t :: 0 <= i < |queue| && t in rest ==> Ticket(trips[queue[i]]) <= Ticket(trips[t])
        decreases rest
      {
        SomeIsFirst(trips, rest);
        var t :| t in rest && forall u :: u in rest ==> Ticket(trips[t]) <= Ticket(trips[u]);
        queue, rest := queue + [t], rest - {t};
      }
    }

    /** Calls the first trips of a station's queue, as many as there are free chargers. */
    method DispatchStation(s: Id, at: Instant)
      requires s in stations && Sound(Rows(), state.lastTicket)
      modifies this`trips, this`events
      ensures Rows() == PilotCatchUp.DispatchStation(old(Rows()), s, at, Millis(state.config.callTimeout))
      ensures Sound(Rows(), state.lastTicket)
    {
      var grace := Millis(state.config.callTimeout);
      var held := HeldBy(s);
      var free := stations[s].capacity - stations[s].busy - held;
      var queue := Waiting(s);
      var calls := Min(Max(0, free), |queue|);
      ghost var start := Rows();
      ServingStarts(start, s, queue);
      CallFirst(s, queue, calls, at);
      if calls == |queue| { ServedAll(Rows(), start, s, queue); }
    }

    /** Calls the first trips of a sorted queue. */
    method CallFirst(s: Id, queue: seq<Id>, calls: nat, at: Instant)
      requires s in stations && Sound(Rows(), state.lastTicket)
      requires Serving(Rows(), Rows(), s, queue, 0) && calls <= |queue| && calls <= Max(0, Free(Rows(), s))
      modifies this`trips, this`events
      ensures Sound(Rows(), state.lastTicket)
      ensures Serving(Rows(), old(Rows()), s, queue, calls) && Free(Rows(), s) == old(Free(Rows(), s)) - calls
      ensures var grace := Millis(state.config.callTimeout);
        PilotCatchUp.DispatchStation(Rows(), s, at, grace) == PilotCatchUp.DispatchStation(old(Rows()), s, at, grace)
    {
      hide Sound, Line, Free, Holders, Serving, InOrder, Call, PilotCatchUp.DispatchStation;
      ghost var start, grace := Rows(), Millis(state.config.callTimeout);
      var i := 0;
      while i < calls
        invariant 0 <= i <= calls && Sound(Rows(), state.lastTicket)
        invariant Serving(Rows(), start, s, queue, i) && Free(Rows(), s) == Free(start, s) - i
        invariant PilotCatchUp.DispatchStation(Rows(), s, at, grace) == PilotCatchUp.DispatchStation(start, s, at, grace)
      {
        ServeOne(Rows(), start, s, queue, i, at, grace, state.lastTicket);
        CallTrip(queue[i], at);
        i := i + 1;
      }
    }

    method Dispatch(at: Instant)
      requires Sound(Rows(), state.lastTicket)
      modifies this`trips, this`events
      ensures Rows() == PilotCatchUp.Dispatch(old(Rows()), at, Millis(state.config.callTimeout))
      ensures Sound(Rows(), state.lastTicket)
    {
      ghost var start, grace := Rows(), Millis(state.config.callTimeout);
      var todo := stations.Keys;
      while todo != {}
        invariant todo <= stations.Keys && Sound(Rows(), state.lastTicket)
        invariant DispatchAll(Rows(), todo, at, grace) == DispatchAll(start, start.stations.Keys, at, grace)
        decreases todo
      {
        assert exists s :: s in todo && forall r :: r in todo ==> s <= r by {
          assert Least(todo) in todo;
        }
        var s :| s in todo && forall r :: r in todo ==> s <= r;
        assert s == Least(todo);
        DispatchStation(s, at);
        todo := todo - {s};
      }
    }

    // ---------- catch-up ----------

    method Settle(e: Entity, at: Instant)
      requires WhenOf(Rows(), e).Some?
      modifies this`stations, this`trips, this`events
      ensures Rows() == PilotCatchUp.Settle(old(Rows()), e, at)
      ensures e.Release? ==>
        && trips == old(trips)
        && stations == old(stations)[e.station := old(stations)[e.station].(busy := 0, release := None)]
      ensures e.Expire? ==>
        && stations == old(stations) && trips == old(trips)[e.trip := trips[e.trip]]
        && LapsedAt(old(trips)[e.trip], trips[e.trip], at)
      ensures e.Finish? ==>
        && stations == old(stations) && trips == old(trips)[e.trip := trips[e.trip]]
        && EndedOf(old(trips)[e.trip], trips[e.trip], TargetReached, at)
    {
      if e.Finish? { FinishedIsEnded(trips[e.trip], TargetReached, at); }
      hide Reading, BilledTo;
      match e
      case Release(s) =>
        stations := stations[s := stations[s].(busy := 0, release := None)];
      case Expire(t) =>
        var previous := trips[t].status;
        Transition(t, trips[t].(stop := Timeout(previous), reward := RewardLapsed), Expired, at, TimedOut(previous));
      case Finish(t) =>
        var charged := Metered(trips[t], at).(stop := TargetReached, stoppedAt := Some(Trunc(at)));
        Transition(t, charged, PendingPayment, at, ChargingStopped);
    }

    method DueBy(now: Instant) returns (due: set<Entity>)
      ensures forall e :: e in due <==> Due(Rows(), now, e)
    {
      var rows := Rows();
      due := (set s | s in stations && WhenOf(rows, Release(s)).Some? && WhenOf(rows, Release(s)).value <= now :: Release(s))
           + (set t | t in trips && WhenOf(rows, Expire(t)).Some? && WhenOf(rows, Expire(t)).value <= now :: Expire(t))
           + (set t | t in trips && WhenOf(rows, Finish(t)).Some? && WhenOf(rows, Finish(t)).value <= now :: Finish(t));
    }

    /** Handles all events of one instant, in order. */
    method SettleBatch(events': set<Entity>, at: Instant)
      requires Sound(Rows(), state.lastTicket)
      requires forall e :: e in events' ==> WhenOf(Rows(), e) == Some(at)
      modifies this`stations, this`trips, this`events
      ensures Rows() == SettleAll(old(Rows()), events', at)
      ensures Sound(Rows(), state.lastTicket)
    {
      ghost var start := Rows();
      var batch := events';
      hide Sound;
      while batch != {}
        invariant Sound(Rows(), state.lastTicket)
        invariant forall e :: e in batch ==> WhenOf(Rows(), e) == Some(at)
        invariant SettleAll(Rows(), batch, at) == SettleAll(start, events', at)
        decreases batch
      {
        assert FirstOf(batch) in batch && forall f :: f in batch ==> NotAfter(FirstOf(batch), f) by {
          forall f | f in batch ensures NotAfter(FirstOf(batch), f) { FirstIsFirst(batch, f); }
        }
        var e :| e in batch && forall f :: f in batch ==> NotAfter(e, f);
        FirstIsFirst(batch, e);
        SettleSchedule(Rows(), e, at);
        SettleKeeps(Rows(), e, at, state.lastTicket);
        Settle(e, at);
        batch := batch - {e};
      }
    }

    /** Reads the meters of the running charges. */
    method ReadMeters(now: Instant)
      modifies this`trips
      ensures Rows() == MeterAll(old(Rows()), now)
      ensures forall t :: t in trips && trips[t].status.Charging? && trips[t].startedAt.Some? ==>
        var trip := trips[t]; BilledTo(trip.meter, trip.target, trip.power, trip.price, trip.startedAt.value, now)
    {
      ghost var start := trips;
      var todo := trips.Keys;
      while todo != {}
        invariant todo <= start.Keys && trips.Keys == start.Keys
        invariant forall t :: t in todo ==> trips[t] == start[t]
        invariant forall t :: t in start && t !in todo ==>
          trips[t] == if start[t].status.Charging? then Metered(start[t], now) else start[t]
        decreases todo
      {
        assert exists t :: t in todo by { var any := Pick(todo); }
        var t :| t in todo;
        if trips[t].status.Charging? { trips := trips[t := Metered(trips[t], now)]; }
        todo := todo - {t};
      }
      MetersAgree(old(Rows()), trips, now);
      hide Reading, BilledTo;
      forall t | t in trips && trips[t].status.Charging? && trips[t].startedAt.Some?
        ensures var trip := trips[t]; BilledTo(trip.meter, trip.target, trip.power, trip.price, trip.startedAt.value, now)
      {
        ReadingIsBilledTo(trips[t].target, trips[t].power, trips[t].price, trips[t].startedAt.value, now);
      }
    }

    method Synchronize(now: Instant)
      requires Sound(Rows(), state.lastTicket)
      modifies this`state, this`stations, this`trips, this`events
      ensures Rows() == PilotCatchUp.Synchronize(old(Rows()), old(state.time), now, Millis(old(state.config.callTimeout)))
      ensures state == old(state).(time := now)
      ensures Sound(Rows(), state.lastTicket)
    {
      ghost var grace := Millis(state.config.callTimeout);
      Dispatch(state.time);
      CatchUpTo(now);
      MeterAllKeeps(Rows(), now, state.lastTicket);
      ReadMeters(now);
      state := state.(time := now);
    }

    /** The event loop. */
    method CatchUpTo(now: Instant)
      requires Sound(Rows(), state.lastTicket)
      modifies this`stations, this`trips, this`events
      ensures Rows() == CatchUp(old(Rows()), now, Millis(state.config.callTimeout))
      ensures Sound(Rows(), state.lastTicket)
    {
      ghost var start, grace := Rows(), Millis(state.config.callTimeout);
      hide Sound, PilotCatchUp.Dispatch, SettleAll;
      var due := DueBy(now);
      while due != {}
        invariant Sound(Rows(), state.lastTicket)
        invariant forall e :: e in due <==> Due(Rows(), now, e)
        invariant CatchUp(Rows(), now, grace) == CatchUp(start, now, grace)
        decreases Agenda(Rows())
      {
        var rows := Rows();
        SomeIsEarliest(rows, now, due);
        var first :| first in due && forall f :: f in due ==> WhenOf(rows, first).value <= WhenOf(rows, f).value;
        var at := WhenOf(rows, first).value;
        EarliestIsNext(rows, now, first);
        DueBatch(rows, now, at, due);
        RoundShrinksAgenda(rows, at, grace);
        var batch := set e | e in due && WhenOf(rows, e) == Some(at);
        AgendaIsComplete(rows, first);
        SettleBatch(batch, at);
        Dispatch(at);
        assert Rows() == Round(rows, at, grace);
        due := DueBy(now);
      }
      assert Next(Rows(), now).Some? ==> exists e :: Due(Rows(), now, e);
    }

    // ---------- trip actions ----------

    /** A reply without its world: the world is the object's own new state. */
    static function Bare<T>(r: Reply<T>): Reply<()> {
      match r
      case Done(_) => Done(())
      case Refused(code) => Refused(code)
      case Failed => Failed
    }

    method Arrive(t: Id) returns (r: Reply<()>)
      requires t in trips && trips[t].station in stations
      modifies this`state, this`trips, this`events
      ensures r == Bare(Arrived(old(View()), t))
      ensures View() == if r.Done? then Arrived(old(View()), t).value else old(View())
      ensures r == if state.time < old(trips)[t].arrivalFrom then Refused(ArrivalTooEarly) else Done(())
      ensures r.Done? ==>
        var s, now, last := old(trips)[t].station, state.time, old(state).lastTicket;
        var free := Max(0, old(stations[s].capacity - stations[s].busy - |Holders(Rows(), s)|));
        && trips == old(trips)[t := trips[t]]
        && trips[t].arrivedAt == Some(Trunc(now)) && trips[t].freeAtArrival == Some(free)
        && if free > 0 && old(Line(Rows(), s)) == {} then
             && trips[t].status.Reserved? && state == old(state)
             && trips[t].holdUntil == Some(Trunc(now + 1000.0 * state.config.reservationTimeout as real))
           else
             && trips[t].status.Queued? && trips[t].ticket == Some(last + 1)
             && state == old(state).(lastTicket := last + 1)
    {
      var now, trip, s := state.time, trips[t], trips[t].station;
      if now < trip.arrivalFrom { return Refused(ArrivalTooEarly); }
      var held := HeldBy(s);
      var queued := set u | u in trips && trips[u].station == s && trips[u].status.Queued?;
      assert queued == Line(Rows(), s);
      var free := Max(0, stations[s].capacity - stations[s].busy - held);
      trip := trip.(arrivedAt := Some(Trunc(now)), freeAtArrival := Some(free));
      if free > 0 && |queued| == 0 {
        trip := trip.(holdUntil := Some(Trunc(now + Millis(state.config.reservationTimeout))));
        Transition(t, trip, Reserved, now, ArrivedReserved);
      } else {
        state := state.(lastTicket := state.lastTicket + 1);
        Transition(t, trip.(ticket := Some(state.lastTicket)), Queued, now, ArrivedQueued);
      }
      r := Done(());
    }

    method PayFor(t: Id) returns (r: Reply<()>)
      requires t in trips
      modifies this`trips, this`events, this`points, this`payments, this`ledger
      ensures r == Bare(Paid(old(View()), t))
      ensures View() == if r.Done? then Paid(old(View()), t).value else old(View())
      ensures r.Done? ==> PaidAsOf(View(), t, state.time)
      ensures |ledger| > |old(ledger)| ==> exists k :: Midnight(k - 1) <= state.time < Midnight(k) && ledger[|old(ledger)|].day == k
    {
      if t in trips && Paid(View(), t).Done? { PaymentIsOnTheBooks(View(), t); }
      DaysAreSpans(BusinessDay(state.time), state.time);
      var now, trip := state.time, trips[t];
      if t in payments || trip.user !in points { return Failed; }
      ghost var w := View();
      payments := payments[t := Payment(trip.user, trip.meter.cents, now)];
      var verdict := Verdict(trip, now);
      var day := BusinessDay(now);
      var remaining := Max(0, state.config.dailyBudget - UsedOn(ledger, day));
      var award := if verdict.Awarded? then Min(trip.points, remaining) else 0;
      assert award == Award(w, trip);
      if verdict.Awarded? && award < trip.points {
        verdict := if award != 0 then DailyBudgetLimit else DailyBudgetExhausted;
      }
      if award != 0 {
        ledger := ledger + [LedgerRow(t, trip.user, trip.station, award, trip.meter.cents, now, day)];
        points := points[trip.user := points[trip.user] + award];
      }
      assert Books(points, offers, payments, ledger) == PaidBooks(w.books, t, trip, award, now);
      hide Verdict, UsedOn, BusinessDay;
      Transition(t, trip.(awarded := award, reward := verdict, paidAt := Some(Trunc(now))), Completed, now,
        PaymentCompleted(trip.meter.cents, award, verdict));
      r := Done(());
    }

    method Perform(t: Id, action: Action) returns (r: Reply<()>)
      requires t in trips && trips[t].station in stations
      modifies this`state, this`trips, this`events, this`points, this`payments, this`ledger
      ensures r == Bare(Performed(old(View()), t, action))
      ensures View() == if r.Done? then Performed(old(View()), t, action).value else old(View())
      ensures r.Done? && action.Confirm? ==>
        && trips[t].status.Reserved?
        && trips[t].holdUntil == Some(Trunc(state.time + 1000.0 * state.config.reservationTimeout as real))
      ensures r.Done? && action.Start? ==> trips[t].status.Charging? && trips[t].startedAt == Some(Trunc(state.time))
      ensures r.Done? && action.Stop? ==> EndedOf(old(trips)[t], trips[t], Manual, state.time)
      ensures r.Done? && action.Pay? ==> PaidAsOf(View(), t, state.time)
      ensures r.Done? && action.Cancel? ==> trips[t].status.Cancelled? && trips[t].stop.ByCancel? && trips[t].reward.RewardCancelled?
    {
      hide Arrived, Paid, PaidAsOf, BilledTo, Reading;
      var now, trip := state.time, trips[t];
      if trip.startedAt.Some? { FinishedIsEnded(trip, Manual, now); }
      match action
      case Arrive =>
        r := Arrive(t);
      case Confirm =>
        Transition(t, trip.(holdUntil := Some(Trunc(now + Millis(state.config.reservationTimeout)))), Reserved, now, CallConfirmed);
        r := Done(());
      case Start =>
        if trip.arrivedAt.None? { return Refused(InvalidTimestamp); }
        Transition(t, trip.(startedAt := Some(Trunc(now))), Charging, now, ChargingStarted);
        r := Done(());
      case Stop =>
        if trip.startedAt.None? { return Refused(InvalidTimestamp); }
        Transition(t, Metered(trip, now).(stop := Manual, stoppedAt := Some(Trunc(now))), PendingPayment, now, ChargingStopped);
        r := Done(());
      case Pay =>
        r := PayFor(t);
      case Cancel =>
        Transition(t, trip.(stop := ByCancel, reward := RewardCancelled), Cancelled, now, CancelledByUser);
        r := Done(());
      case UnknownAction =>
        r := Refused(InvalidAction);
    }

    method Act(user: Id, t: Id, action: Action) returns (r: Reply<()>)
      requires Valid()
      modifies this
      ensures r == Bare(Acted(old(View()), user, t, action))
      ensures View() == if r.Done? then Acted(old(View()), user, t, action).value else old(View())
    {
      hide WorldOk, Performed, PilotCatchUp.Dispatch, Sound;
      ghost var w := View();
      if user !in points { return Refused(Unauthorized); }
      if t !in trips || trips[t].user != user { return Refused(TripNotFound); }
      var status := trips[t].status;
      if AlreadyDone(action, status) { return Done(()); }
      if !Allowed(action, status) { return Refused(InvalidTransition); }
      if trips[t].station !in stations { return Failed; }
      r := Perform(t, action);
      if r.Done? {
        PerformedKeeps(w, t, action);
        SoundWorld(View());
        Dispatch(state.time);
      }
    }

    static lemma SoundWorld(w: World)
      requires WorldOk(w)
      ensures Sound(w.yard, w.state.lastTicket)
    {
    }

    // ---------- recommendations ----------

    /** Validates candidates one by one, as they come. */
    method CheckCandidates(cs: seq<Candidate>) returns (bad: Option<Code>)
      ensures bad == CandidateError(Rows(), cs, {}, {})
    {
      var seen: set<Id>, ranks: set<real>, i := {}, {}, 0;
      while i < |cs|
        invariant 0 <= i <= |cs|
        invariant CandidateError(Rows(), cs[i..], seen, ranks) == CandidateError(Rows(), cs, {}, {})
      {
        var c := cs[i];
        assert cs[i..][0] == c && cs[i..][1..] == cs[i + 1..];
        if c.station !in stations || c.station in seen { return Some(InvalidOffer); }
        if !WholeInRange(c.rank, 1.0, 10000.0) { return Some(InvalidConfig); }
        if c.rank in ranks { return Some(InvalidOffer); }
        if !InRange(c.eta, 0.0, 1440.0) || !InRange(c.multiplier, 0.5, 2.0) { return Some(InvalidConfig); }
        if c.multiplier != 0.5 && c.multiplier != 1.0 && c.multiplier != 2.0 { return Some(InvalidOffer); }
        if !InRange(c.price, 0.0, 1000.0) { return Some(InvalidConfig); }
        seen, ranks, i := seen + {c.station}, ranks + {c.rank}, i + 1;
      }
      bad := None;
    }

    method SaveRecommendation(user: Id, id: Option<Id>, expires: Expiry, energy: real, cs: seq<Candidate>)
      returns (r: Reply<()>)
      modifies this`offers
      ensures r == Bare(SavedOffer(old(View()), user, id, expires, energy, cs))
      ensures View() == if r.Done? then SavedOffer(old(View()), user, id, expires, energy, cs).value else old(View())
    {
      if user !in points { return Refused(Unauthorized); }
      if id.None? { return Refused(InvalidOffer); }
      if id.value in offers { return if offers[id.value].user != user then Refused(OfferNotFound) else Done(()); }
      if cs == [] { return Refused(InvalidOffer); }
      var bad := CheckCandidates(cs);
      if bad.Some? { return Refused(bad.value); }
      if expires.Unreadable? { return Refused(InvalidTimestamp); }
      var now, c := state.time, state.config;
      var until := if expires.Until? then expires.at else now + Millis(900);
      if until <= now || until > now + Millis(86400) { return Refused(InvalidOffer); }
      if !InRange(energy, 0.01, 500.0) { return Refused(InvalidConfig); }
      offers := offers[id.value := Offer(user, until, energy, Terms(c.minimumEnergy, c.minimumSeconds, c.rewardWindow), PricedAll(c, cs))];
      r := Done(());
    }

    method Select(user: Id, id: Id, station: Id, newId: Id) returns (r: Reply<()>)
      modifies this`trips, this`events
      ensures r == Bare(SelectedTrip(old(View()), user, id, station, newId))
      ensures View() == if r.Done? then SelectedTrip(old(View()), user, id, station, newId).value else old(View())
    {
      var now := state.time;
      if user !in points { return Refused(Unauthorized); }
      if id !in offers || offers[id].user != user { return Refused(OfferNotFound); }
      if exists t | t in trips :: trips[t].offer == id {
        return if exists t | t in trips :: trips[t].offer == id && trips[t].station == station
               then Done(()) else Refused(OfferAlreadyUsed);
      }
      var offer := offers[id];
      if offer.expires <= now { return Refused(OfferExpired); }
      var c := FindCandidate(offer.candidates, station);
      if c.None? { return Refused(IneligibleStation); }
      if exists t | t in trips :: trips[t].user == user && trips[t].status.Active() { return Refused(ActiveTrip); }
      if station !in stations || newId in trips { return Failed; }
      var trip := NewTrip(user, id, offer, c.value, stations[station].power, now);
      trips := trips[newId := trip];
      events := events + [Event(newId, Selected, EnRoute, now)];
      r := Done(());
    }

    // ---------- background load ----------

    /** Computes every load before any is written. */
    method PrepareBaseline(items: seq<Snapshot>) returns (r: Reply<seq<Load>>)
      ensures r == Prepared(Rows(), state.time, items)
    {
      var loads: seq<Load>, i := [], 0;
      NoLoadsYet(Prepared(Rows(), state.time, items));
      assert items[0..] == items;
      while i < |items|
        invariant 0 <= i <= |items|
        invariant Prepared(Rows(), state.time, items) == Following(loads, Prepared(Rows(), state.time, items[i..]))
      {
        var item := items[i];
        assert items[i..][0] == item && items[i..][1..] == items[i + 1..];
        if item.station !in stations { return Refused(StationNotFound); }
        if item.free.None? { return Failed; }
        var st := stations[item.station];
        if !WholeInRange(item.free.value, 0.0, st.capacity as real) { return Refused(InvalidConfig); }
        if !InRange(item.delay, 1.0, 604800.0) { return Refused(InvalidConfig); }
        var held := HeldBy(item.station);
        var busy := Min(st.capacity - item.free.value.Floor, Max(0, st.capacity - st.busy - held));
        var load := Load(item.station, busy, if busy != 0 then Some(After(state.time, item.delay)) else None);
        assert load == BaselineLoad(Rows(), state.time, item);
        AppendLoads(loads, load, Prepared(Rows(), state.time, items[i + 1..]));
        loads, i := loads + [load], i + 1;
      }
      assert items[i..] == [] && loads + [] == loads;
      r := Done(loads);
    }

    static ghost function Following(loads: seq<Load>, rest: Reply<seq<Load>>): Reply<seq<Load>> {
      if rest.Done? then Done(loads + rest.value) else rest
    }

    static lemma NoLoadsYet(rest: Reply<seq<Load>>)
      ensures Following([], rest) == rest
    {
      assert rest.Done? ==> [] + rest.value == rest.value;
    }

    static lemma AppendLoads(loads: seq<Load>, load: Load, rest: Reply<seq<Load>>)
      ensures rest.Done? ==> loads + ([load] + rest.value) == loads + [load] + rest.value
    {
    }

    method SetBaseline(items: seq<Snapshot>) returns (r: Reply<()>)
      modifies this`state, this`stations
      ensures r == Bare(BaselineSet(old(View()), items))
      ensures View() == if r.Done? then BaselineSet(old(View()), items).value else old(View())
    {
      if state.baseline { return Done(()); }
      var prepared := PrepareBaseline(items);
      if prepared.Done? {
        ghost var start := Rows();
        var loads, i := prepared.value, 0;
        assert loads[0..] == loads;
        while i < |loads|
          invariant 0 <= i <= |loads|
          invariant LoadedAll(Rows(), loads[i..]) == LoadedAll(start, loads)
          invariant stations.Keys == start.stations.Keys && state == old(state)
        {
          var l := loads[i];
          assert loads[i..][0] == l && loads[i..][1..] == loads[i + 1..];
          if l.station in stations {
            stations := stations[l.station := stations[l.station].(busy := l.busy, release := l.release)];
          }
          i := i + 1;
        }
        assert loads[i..] == [];
        assert Rows() == LoadedAll(start, loads);
        state := state.(baseline := true);
        assert View() == old(View()).(yard := LoadedAll(start, loads), state := old(View()).state.(baseline := true));
        assert Prepared(old(View()).yard, old(View()).state.time, items) == Done(loads);
        return Done(());
      }
      r := match prepared case Refused(code) => Refused(code) case _ => Failed;
    }

    method SetBackground(s: Id, busy: int, delay: real) returns (r: Reply<()>)
      requires s in stations && busy <= stations[s].capacity - |Holders(Rows(), s)| ==>
        Sound(Loaded(Rows(), BackgroundLoad(s, busy, delay, state.time)), state.lastTicket)
      modifies this`stations, this`trips, this`events
      ensures r == Bare(BackgroundSet(old(View()), s, busy, delay))
      ensures View() == if r.Done? then BackgroundSet(old(View()), s, busy, delay).value else old(View())
    {
      if s !in stations { return Refused(StationNotFound); }
      var held := HeldBy(s);
      hide Loaded, PilotCatchUp.Dispatch, Sound, BackgroundLoad, Holders;
      if busy > stations[s].capacity - held { return Refused(CapacityConflict); }
      LoadStation(s, busy, delay);
      Dispatch(state.time);
      r := Done(());
    }

    static lemma BackgroundStaysSound(w: World, s: Id, busy: int, delay: real)
      requires WorldOk(w) && s in w.yard.stations && 0 <= busy <= w.yard.stations[s].capacity - |Holders(w.yard, s)|
      requires busy > 0 ==> delay >= 1.0
      ensures Sound(Loaded(w.yard, BackgroundLoad(s, busy, delay, w.state.time)), w.state.lastTicket)
    {
      hide Sound, Loaded, BackgroundLoad, Fits;
      var l := BackgroundLoad(s, busy, delay, w.state.time);
      BackgroundFits(w.yard, w.state.time, s, busy, delay);
      OneLoadKeeps(w, l);
      SoundWorld(w.(yard := Loaded(w.yard, l)));
    }

    method LoadStation(s: Id, busy: int, delay: real)
      requires s in stations
      modifies this`stations
      ensures Rows() == Loaded(old(Rows()), BackgroundLoad(s, busy, delay, state.time))
    {
      stations := stations[s := stations[s].(busy := busy, release := if busy != 0 then Some(After(state.time, delay)) else None)];
    }

    // ---------- configuration ----------

    /** Builds the whole new configuration aside, so a bad setting changes nothing. */
    method SetConfiguration(patch: seq<Setting>) returns (r: Reply<()>)
      modifies this`state
      ensures r == if PatchedAll(old(state).config, patch).Some? then Done(()) else Refused(InvalidConfig)
      ensures state == if r.Done? then old(state).(config := PatchedAll(old(state).config, patch).value) else old(state)
    {
      var config, i := state.config, 0;
      while i < |patch|
        invariant 0 <= i <= |patch|
        invariant PatchedAll(config, patch[i..]) == PatchedAll(state.config, patch)
      {
        assert patch[i..][0] == patch[i] && patch[i..][1..] == patch[i + 1..];
        var next := Patched(config, patch[i]);
        if next.None? { return Refused(InvalidConfig); }
        config, i := next.value, i + 1;
      }
      assert patch[i..] == [];
      state := state.(config := config);
      r := Done(());
    }

    method ControlClock(speed: Option<real>, paused: Option<bool>)
      modifies this`state
      ensures View() == Apply(old(View()), ConfigureClock(speed, paused)).value
      ensures state.speed == (if speed == None then old(state.speed) else speed.value)
      ensures state.paused == (if paused == None then old(state.paused) else paused.value)
      ensures state == old(state).(speed := state.speed, paused := state.paused)
    {
      if speed.Some? { state := state.(speed := speed.value); }
      if paused.Some? { state := state.(paused := paused.value); }
    }

    // ---------- the transaction ----------

    /** Puts every table back to what a savepoint recorded. */
    method RollBack(w: World)
      modifies this
      ensures View() == w
    {
      state := w.state;
      stations, trips, events := w.yard.stations, w.yard.trips, w.yard.events;
      points, offers, payments, ledger := w.books.points, w.books.offers, w.books.payments, w.books.ledger;
    }

    method RunUserCommand(c: Command) returns (r: Reply<()>)
      requires Valid() && Precheck(c).None?
      requires c.CreateSession? || c.SaveOffer? || c.Select? || c.Act?
      modifies this
      ensures r == Bare(Apply(old(View()), c))
      ensures View() == if r.Done? then Apply(old(View()), c).value else old(View())
    {
      hide WorldOk, Acted, SavedOffer, SelectedTrip;
      match c
      case CreateSession(user) =>
        if user in points { return Failed; }
        points := points[user := 0];
        r := Done(());
      case SaveOffer(user, id, expires, energy, cs) =>
        r := SaveRecommendation(user, id, expires, energy, cs);
      case Select(user, offer, station, newId) =>
        r := Select(user, offer, station, newId);
      case Act(user, trip, action) =>
        r := Act(user, trip, action);
    }

    method Forward(seconds: real)
      requires Valid()
      modifies this`state, this`stations, this`trips, this`events
      ensures View() == Advanced(old(View()), seconds)
    {
      SoundWorld(View());
      hide WorldOk, Sound, PilotCatchUp.Synchronize, After;
      Synchronize(After(state.time, seconds));
    }

    method SetLoad(s: Id, busy: real, delay: real) returns (r: Reply<()>)
      requires Valid() && Precheck(PilotCommands.SetBackground(s, busy, delay)).None?
      modifies this`stations, this`trips, this`events
      ensures r == Bare(BackgroundSet(old(View()), s, busy.Floor, delay))
      ensures View() == if r.Done? then BackgroundSet(old(View()), s, busy.Floor, delay).value else old(View())
    {
      assert busy == busy.Floor as real;
      hide WorldOk, Sound, BackgroundSet, Loaded, Holders, BackgroundLoad;
      if s in stations && busy.Floor <= stations[s].capacity - |Holders(Rows(), s)| {
        BackgroundStaysSound(View(), s, busy.Floor, delay);
      }
      r := SetBackground(s, busy.Floor, delay);
    }

    method RunOperatorCommand(c: Command) returns (r: Reply<()>)
      requires Valid() && Precheck(c).None?
      requires c.ReadClock? || c.SetBaseline? || c.SetBackground? || c.Configure? || c.Advance? || c.ConfigureClock?
      modifies this
      ensures r == Bare(Apply(old(View()), c))
      ensures View() == if r.Done? then Apply(old(View()), c).value else old(View())
    {
      hide WorldOk, BaselineSet, BackgroundSet, PatchedAll, Advanced;
      match c
      case ReadClock =>
        r := Done(());
      case SetBaseline(items) =>
        r := SetBaseline(items);
      case SetBackground(s, busy, delay) =>
        r := SetLoad(s, busy, delay);
      case Configure(patch) =>
        r := SetConfiguration(patch);
      case Advance(seconds) =>
        Forward(seconds);
        r := Done(());
      case ConfigureClock(speed, paused) =>
        ControlClock(speed, paused);
        r := Done(());
    }

    method RunCommand(c: Command) returns (r: Reply<()>)
      requires Valid() && Precheck(c).None?
      modifies this
      ensures r == Bare(Apply(old(View()), c))
      ensures View() == if r.Done? then Apply(old(View()), c).value else old(View())
    {
      hide WorldOk, Apply, Precheck;
      if c.CreateSession? || c.SaveOffer? || c.Select? || c.Act? {
        r := RunUserCommand(c);
      } else {
        r := RunOperatorCommand(c);
      }
    }

    /** Brings the clock row and the tables up to date. */
    method Progress(wall: Instant)
      requires Sound(Rows(), state.lastTicket)
      modifies this`state, this`stations, this`trips, this`events
      ensures View() == Tick(old(View()), wall)
      ensures state.time == old(state.time) +
        if old(state.paused) || wall <= old(state.wall) then 0.0 else old(state.speed) * (wall - old(state.wall))
      ensures state.wall == if wall <= old(state.wall) then old(state.wall) else wall
      ensures state == old(state).(time := state.time, wall := state.wall)
    {
      hide Sound, PilotCatchUp.Synchronize;
      var now := Now(state, wall);
      state := state.(wall := MaxReal(wall, state.wall));
      Synchronize(now);
    }

    /** Locks the clock row, catches up, runs the command from a savepoint, and commits: everything on
        success, the catch-up alone on a refusal, nothing on any other failure. */
    method Execute(c: Command, wall: Instant, crash: bool) returns (r: Reply<()>)
      requires Valid()
      modifies this
      ensures Valid() && View() == Transaction(old(View()), wall, c, crash)
      ensures Precheck(c).Some? ==> r == Refused(Precheck(c).value)
      ensures Precheck(c).None? ==> r == if crash then Failed else Bare(Apply(Tick(old(View()), wall), c))
      ensures r.Done? ==> Apply(Tick(old(View()), wall), c) == Done(View())
      ensures Precheck(c).None? && r.Refused? ==> View() == Tick(old(View()), wall)
      ensures Precheck(c).Some? || r.Failed? ==> View() == old(View())
    {
      ghost var w := View();
      TransactionKeeps(w, wall, c, crash);
      TickKeeps(w, wall);
      SoundWorld(w);
      TransactionCases(w, wall, c, crash);
      hide WorldOk, Sound, Apply, Precheck, Tick, Grows, Advances, WorkConserving, Transaction;
      var bad := Precheck(c);
      if bad.Some? { return Refused(bad.value); }
      var begin := View();
      Progress(wall);
      var savepoint := View();
      r := RunCommand(c);
      if crash { r := Failed; }
      match r
      case Done(_) =>
      case Refused(_) => RollBack(savepoint);
      case Failed => RollBack(begin);
    }

    /** Installs one catalogue row, or refuses it. */
    method InstallRow(row: CatalogRow) returns (ok: bool)
      modifies this`stations
      ensures ok <==> Installed(old(Rows()), row).Some?
      ensures Rows() == if ok then Installed(old(Rows()), row).value else old(Rows())
    {
      if !RowNumbersOk(row) { return false; }
      if row.station in stations {
        var held := HeldBy(row.station);
        hide Holders;
        if row.capacity.Floor < stations[row.station].busy + held { return false; }
        stations := stations[row.station := stations[row.station].(capacity := row.capacity.Floor, power := row.power, price := row.price)];
      } else {
        stations := stations[row.station := Station(row.capacity.Floor, row.power, row.price, 0, None)];
      }
      ok := true;
    }

    /** Loads the catalogue: every row or, when one is refused, none. */
    method Initialize(rows: seq<CatalogRow>) returns (ok: bool)
      requires Valid()
      modifies this
      ensures Valid() && View() == Stepped(old(View()), Install(rows))
      ensures ok <==> InstalledAll(old(View()).yard, rows).Some?
    {
      hide WorldOk, Grows, Installed, Stepped;
      ghost var w := View();
      var begin := View();
      SteppedKeeps(w, Install(rows));
      InstallCases(w, rows);
      assert rows[0..] == rows;
      var i := 0;
      while i < |rows|
        invariant 0 <= i <= |rows|
        invariant View() == w.(yard := Rows())
        invariant InstalledAll(Rows(), rows[i..]) == InstalledAll(w.yard, rows)
      {
        assert rows[i..][0] == rows[i] && rows[i..][1..] == rows[i + 1..];
        var installed := InstallRow(rows[i]);
        if !installed {
          RollBack(begin);
          return false;
        }
        i := i + 1;
      }
      assert rows[i..] == [];
      ok := true;
    }
  }
}
