/** Properties of single commands: idle chargers, turn taking, repeated and refused commands, bills. */
module PilotTheorems {
  import opened Basics
  import opened PilotTypes
  import opened PilotCatchUp
  import opened PilotPolling
  import opened PilotBills
  import opened PilotInvariant
  import opened PilotSafety
  import opened PilotCommands
  import opened PilotWorld
  import opened PilotCommandsKeep
  import opened PilotRuns

  // ---------- outcomes of a transaction ----------

  /** Clock reads before a command do not change what it leaves behind, however it ends. */
  lemma CommandsIgnorePolls(w: World, polls: seq<Instant>, wall: Instant, c: Command)
    requires w.state.speed >= 0.0 && Precheck(c).None? && !Apply(Tick(w, wall), c).Failed?
    requires forall i :: 0 <= i < |polls| ==> polls[i] <= wall
    ensures Transaction(Polled(w, polls), wall, c, false) == Transaction(w, wall, c, false)
  {
    PollingIndependence(w, polls, wall);
  }

  /** The step changed something: its command was carried out and was not a clock read. */
  ghost predicate Succeeds(w: World, s: Step) {
    s.Transact? && !s.crash && Precheck(s.command).None? && !s.command.ReadClock?
    && Apply(Tick(w, s.wall), s.command).Done?
  }

  /** The run without its clock reads and its refused and failed commands. */
  ghost function Successes(w: World, steps: seq<Step>): seq<Step>
    decreases |steps|
  {
    if steps == [] then []
    else (if Succeeds(w, steps[0]) then [steps[0]] else []) + Successes(Stepped(w, steps[0]), steps[1..])
  }

  /** Transactions whose wall readings do not decrease and lie in the given span. */
  predicate InOrder(steps: seq<Step>, from: Instant, until: Instant)
    decreases |steps|
  {
    if steps == [] then from <= until
    else steps[0].Transact? && from <= steps[0].wall && InOrder(steps[1..], steps[0].wall, until)
  }

  /** No later clock reading tells the two worlds apart. */
  ghost predicate Alike(a: World, b: World, from: Instant) {
    forall wall: Instant :: from <= wall ==> Tick(a, wall) == Tick(b, wall)
  }

  lemma {:induction false} AlikeRuns(a: World, b: World, steps: seq<Step>, from: Instant, until: Instant)
    requires WorldOk(a) && WorldOk(b) && InOrder(steps, from, until) && Alike(a, b, from)
    ensures Tick(Run(a, steps), until) == Tick(Run(b, Successes(a, steps)), until)
    decreases |steps|
  {
    hide WorldOk, Tick, Apply, Precheck;
    if steps != [] {
      var s, rest := steps[0], steps[1..];
      var c, d := Stepped(a, s), if Succeeds(a, s) then Stepped(b, s) else b;
      SteppedKeeps(a, s);
      SteppedKeeps(b, s);
      AlikeStep(a, b, s, from);
      AlikeRuns(c, d, rest, s.wall, until);
      if Succeeds(a, s) {
        assert [s] + Successes(c, rest) == Successes(a, steps) && (([s] + Successes(c, rest))[1..]) == Successes(c, rest);
      } else {
        assert Successes(a, steps) == Successes(c, rest);
      }
    }
  }

  lemma StepOutcome(w: World, s: Step)
    requires s.Transact?
    ensures Succeeds(w, s) ==>
      Apply(Tick(w, s.wall), s.command).Done? && Stepped(w, s) == Apply(Tick(w, s.wall), s.command).value
    ensures !Succeeds(w, s) ==> Stepped(w, s) == w || Stepped(w, s) == Tick(w, s.wall)
  {
    hide Tick, Precheck;
  }

  lemma AlikeStep(a: World, b: World, s: Step, from: Instant)
    requires WorldOk(a) && WorldOk(b) && s.Transact? && from <= s.wall && Alike(a, b, from)
    ensures Alike(Stepped(a, s), if Succeeds(a, s) then Stepped(b, s) else b, s.wall)
  {
    SpeedOk(a);
    StepOutcome(a, s);
    StepOutcome(b, s);
    assert Tick(a, s.wall) == Tick(b, s.wall);
    assert Succeeds(a, s) ==> Succeeds(b, s);
    hide WorldOk, Tick, Stepped, Succeeds, Apply;
    forall wall: Instant | s.wall <= wall
      ensures Tick(Tick(a, s.wall), wall) == Tick(b, wall) && Tick(a, wall) == Tick(b, wall)
    {
      TickInSteps(a, s.wall, wall);
    }
  }

  /** Clock reads and refused or failed commands leave no trace: take them all out of a
      run, and the next transaction finds the same world and leaves the same world. */
  lemma OnlySuccessesMatter(w: World, steps: seq<Step>, from: Instant, wall: Instant, c: Command)
    requires WorldOk(w) && InOrder(steps, from, wall)
    ensures var all, few := Run(w, steps), Run(w, Successes(w, steps));
      && Tick(all, wall) == Tick(few, wall)
      && (Precheck(c).None? && !Apply(Tick(all, wall), c).Failed? ==>
           Transaction(all, wall, c, false) == Transaction(few, wall, c, false))
  {
    hide WorldOk, Tick, Apply, Precheck, Run, Successes;
    AlikeRuns(w, w, steps, from, wall);
  }

  // ---------- work conservation ----------

  lemma IdleCreate(y: Yard, t: Id, trip: Trip, at: Instant)
    requires WorkConserving(y) && t !in y.trips && trip.status.EnRoute?
    ensures WorkConserving(Record(y, t, trip, Selected, at))
  {
    CreateLines(y, t, trip, at);
    var z := Record(y, t, trip, Selected, at);
    assert forall s :: s in y.stations ==> Free(z, s) == Free(y, s);
  }

  /** After every command other than the initial background load, no charger is free beside a queue. */
  lemma CommandsConserve(w: World, c: Command)
    requires WorldOk(w) && WorkConserving(w.yard) && Precheck(c).None? && !c.SetBaseline?
    ensures Apply(w, c).Done? ==> WorkConserving(Apply(w, c).value.yard)
  {
    hide WorldOk, WorkConserving, Acted, SelectedTrip, BackgroundSet, CandidateError, Synchronize;
    match c
    case Act(user, t, action) => ActsConserve(w, user, t, action);
    case Select(user, offer, station, newId) => SelectConserves(w, user, offer, station, newId);
    case SetBackground(s, busy, delay) => BackgroundConserves(w, s, busy.Floor, delay);
    case SetBaseline(_) =>
    case Advance(seconds) => AdvancedKeeps(w, seconds);
    case ReadClock =>
    case CreateSession(_) =>
    case SaveOffer(user, id, expires, energy, cs) =>
      assert Apply(w, c).Done? ==> Apply(w, c).value.yard == w.yard;
    case Configure(_) =>
    case ConfigureClock(_, _) =>
  }

  /** So every transaction but the initial load either changes nothing or leaves no
      charger free beside a queue, whatever it finds: the catch-up comes first. */
  lemma TransactionsConserve(w: World, wall: Instant, c: Command, crash: bool)
    requires WorldOk(w) && !c.SetBaseline?
    ensures var z := Transaction(w, wall, c, crash); z == w || WorkConserving(z.yard)
  {
    hide WorldOk, WorkConserving, Tick, Apply, Precheck;
    TickKeeps(w, wall);
    TickConserves(w, wall);
    if Precheck(c).None? {
      CommandsConserve(Tick(w, wall), c);
    }
  }

  /** The capacity the catalogue leaves a station with. */
  function CapacityAfter(rows: seq<CatalogRow>, s: Id, capacity: int): int
    decreases |rows|
  {
    if rows == [] then capacity
    else CapacityAfter(rows[1..], s, if rows[0].station == s then rows[0].capacity.Floor else capacity)
  }

  lemma {:induction false} InstallEffect(y: Yard, rows: seq<CatalogRow>, s: Id)
    requires InstalledAll(y, rows).Some?
    ensures var z := InstalledAll(y, rows).value;
      && z.trips == y.trips && y.stations.Keys <= z.stations.Keys
      && (s in y.stations ==>
           z.stations[s].busy == y.stations[s].busy
           && z.stations[s].capacity == CapacityAfter(rows, s, y.stations[s].capacity))
    decreases |rows|
  {
    if rows != [] {
      InstallEffect(Installed(y, rows[0]).value, rows[1..], s);
    }
  }

  /** A catalogue load does not dispatch: it leaves no charger free beside a queue if
      and only if it raises the capacity of no station that has a queue. */
  lemma InstallConserves(y: Yard, rows: seq<CatalogRow>)
    requires RowsOk(y) && CapacityOk(y) && WorkConserving(y) && InstalledAll(y, rows).Some?
    ensures WorkConserving(InstalledAll(y, rows).value) <==>
      forall s :: s in y.stations && Line(y, s) != {} ==>
        CapacityAfter(rows, s, y.stations[s].capacity) <= y.stations[s].capacity
  {
    var z := InstalledAll(y, rows).value;
    hide InstalledAll, CapacityAfter;
    forall s
      ensures Line(z, s) == Line(y, s) && Holders(z, s) == Holders(y, s)
      ensures s in y.stations ==>
        s in z.stations && Free(z, s) - Free(y, s)
          == CapacityAfter(rows, s, y.stations[s].capacity) - y.stations[s].capacity
      ensures s in z.stations && s !in y.stations ==> Line(z, s) == {}
    {
      InstallEffect(y, rows, s);
      assert forall t :: t in y.trips ==> y.trips[t].station in y.stations;
    }
    hide Line, Holders;
    forall s | s in y.stations && Line(y, s) != {} ensures Free(y, s) == 0 {
    }
  }

  lemma ActsConserve(w: World, user: Id, t: Id, action: Action)
    requires WorldOk(w) && WorkConserving(w.yard)
    ensures Acted(w, user, t, action).Done? ==> WorkConserving(Acted(w, user, t, action).value.yard)
  {
    hide WorldOk, Performed, WorkConserving, Dispatch;
    var r := Acted(w, user, t, action);
    if r.Done? && Allowed(action, w.yard.trips[t].status) {
      var p := Performed(w, t, action).value;
      DispatchConserves(p.yard, p.state.time, Grace(p));
    }
  }

  lemma SelectConserves(w: World, user: Id, offer: Id, station: Id, newId: Id)
    requires WorkConserving(w.yard)
    ensures SelectedTrip(w, user, offer, station, newId).Done? ==>
      WorkConserving(SelectedTrip(w, user, offer, station, newId).value.yard)
  {
    var r := SelectedTrip(w, user, offer, station, newId);
    hide WorkConserving, FindCandidate, HasActiveTrip;
    if r.Done? && r.value.yard != w.yard {
      IdleCreate(w.yard, newId, r.value.yard.trips[newId], w.state.time);
    }
  }

  lemma BackgroundConserves(w: World, s: Id, busy: int, delay: real)
    ensures BackgroundSet(w, s, busy, delay).Done? ==> WorkConserving(BackgroundSet(w, s, busy, delay).value.yard)
  {
    if BackgroundSet(w, s, busy, delay).Done? {
      DispatchConserves(Loaded(w.yard, BackgroundLoad(s, busy, delay, w.state.time)), w.state.time, Grace(w));
    }
  }

  /** A listed station ends with one of its own loads. */
  lemma {:induction false} ListedAreLoaded(y: Yard, ls: seq<Load>, s: Id)
    requires s in y.stations && exists l :: l in ls && l.station == s
    ensures var z := LoadedAll(y, ls);
      s in z.stations && exists l :: l in ls && l.station == s && z.stations[s].busy == l.busy
    decreases |ls|
  {
    var m, rest := Loaded(y, ls[0]), ls[1..];
    LoadedAllEffect(m, rest);
    var z := LoadedAll(y, ls);
    assert ls[0] in ls && forall l :: l in rest ==> l in ls;
    if exists l :: l in rest && l.station == s {
      ListedAreLoaded(m, rest, s);
    } else {
      assert LoadOf(m, rest, s, z.stations[s]);
      assert ls[0].station == s;
    }
  }

  ghost predicate Listed(items: seq<Snapshot>, s: Id) {
    exists i :: 0 <= i < |items| && items[i].station == s
  }

  /** The initial load takes its count from the free chargers, so a station with a queue gets none. */
  lemma BaselineEffect(y: Yard, now: Instant, items: seq<Snapshot>, s: Id)
    requires RowsOk(y) && CapacityOk(y) && WorkConserving(y) && Prepared(y, now, items).Done? && s in y.stations
    ensures var z := LoadedAll(y, Prepared(y, now, items).value);
      && s in z.stations && z.stations[s].capacity == y.stations[s].capacity
      && Holders(z, s) == Holders(y, s) && Line(z, s) == Line(y, s)
      && (!Listed(items, s) ==> z.stations[s].busy == y.stations[s].busy)
      && (Listed(items, s) && Line(y, s) != {} ==> z.stations[s].busy == 0)
  {
    var ls := Prepared(y, now, items).value;
    PreparedFits(y, now, items);
    LoadedAllEffect(y, ls);
    assert LoadOf(y, ls, s, LoadedAll(y, ls).stations[s]);
    hide TripOk, RowsOk, CapacityOk, WorkConserving, Line, Holders, Prepared, LoadedAll;
    if Listed(items, s) {
      ListedGetWhatIsFree(y, now, items, s);
      if Line(y, s) != {} { QueuesFillStations(y, s); }
    }
  }

  lemma QueuesFillStations(y: Yard, s: Id)
    requires CapacityOk(y) && WorkConserving(y) && s in y.stations && Line(y, s) != {}
    ensures Free(y, s) == 0
  {
  }

  lemma ListedGetWhatIsFree(y: Yard, now: Instant, items: seq<Snapshot>, s: Id)
    requires RowsOk(y) && CapacityOk(y) && Prepared(y, now, items).Done? && s in y.stations && Listed(items, s)
    ensures var z := LoadedAll(y, Prepared(y, now, items).value);
      s in z.stations && 0 <= z.stations[s].busy <= CurrentFree(y, s)
  {
    var ls := Prepared(y, now, items).value;
    PreparedFits(y, now, items);
    hide RowsOk, CapacityOk, Prepared, LoadedAll, Free;
    var z := LoadedAll(y, ls);
    var i :| 0 <= i < |items| && items[i].station == s;
    assert ls[i] in ls;
    ListedAreLoaded(y, ls, s);
    var l :| l in ls && l.station == s && z.stations[s].busy == l.busy;
    var j :| 0 <= j < |ls| && ls[j] == l;
    PreparedCounts(y, now, items, j);
    assert l == BaselineLoad(y, now, items[j]);
  }

  lemma {:induction false} PreparedCounts(y: Yard, now: Instant, items: seq<Snapshot>, j: int)
    requires Prepared(y, now, items).Done? && 0 <= j < |items|
    ensures items[j].station in y.stations && items[j].free.Some?
    ensures items[j].free.value <= y.stations[items[j].station].capacity as real
    decreases |items|
  {
    if j > 0 { PreparedCounts(y, now, items[1..], j - 1); }
  }

  /** The initial load leaves no charger idle beside a queue exactly when none of the stations it
      lists has both a queue and background load. */
  lemma BaselineConserves(y: Yard, now: Instant, items: seq<Snapshot>)
    requires RowsOk(y) && CapacityOk(y) && WorkConserving(y) && Prepared(y, now, items).Done?
    ensures WorkConserving(LoadedAll(y, Prepared(y, now, items).value)) <==>
      forall i :: 0 <= i < |items| && items[i].station in y.stations ==>
        Line(y, items[i].station) == {} || y.stations[items[i].station].busy == 0
  {
    var z := LoadedAll(y, Prepared(y, now, items).value);
    LoadedAllEffect(y, Prepared(y, now, items).value);
    var quiet := forall i :: 0 <= i < |items| && items[i].station in y.stations ==>
      Line(y, items[i].station) == {} || y.stations[items[i].station].busy == 0;
    hide LoadedAll, Prepared;
    if quiet {
      forall s | s in z.stations ensures Free(z, s) <= 0 || Line(z, s) == {} {
        BaselineEffect(y, now, items, s);
      }
    } else {
      var i :| 0 <= i < |items| && items[i].station in y.stations
        && Line(y, items[i].station) != {} && y.stations[items[i].station].busy != 0;
      var s := items[i].station;
      BaselineEffect(y, now, items, s);
      assert Free(y, s) == 0;
      assert StationOk(y.stations[s]);
      assert Free(z, s) > 0;
    }
  }

  // ---------- turn taking and deadlines ----------

  lemma ArrivalTakesOrQueues(w: World, t: Id)
    requires WorldOk(w) && WorkConserving(w.yard) && t in w.yard.trips && w.yard.trips[t].status.EnRoute?
    requires w.yard.trips[t].station in w.yard.stations && Arrived(w, t).Done?
    ensures var y, z, s := w.yard, Arrived(w, t).value.yard, w.yard.trips[t].station;
      && z.trips == y.trips[t := z.trips[t]] && z.stations == y.stations && z.trips[t].station == s
      && z.trips[t].status == (if Free(y, s) > 0 then Reserved else Queued)
      && (Free(y, s) <= 0 ==> forall u :: u in Line(y, s) ==> Ticket(y.trips[u]) < Ticket(z.trips[t]))
      && z == Record(y, t, z.trips[t], if Free(y, s) > 0 then ArrivedReserved else ArrivedQueued, w.state.time)
      && (Arrived(w, t).value.state.time, Arrived(w, t).value.state.config) == (w.state.time, w.state.config)
  {
    var y, s := w.yard, w.yard.trips[t].station;
    hide BooksOk, Ahead, BillsOk, ArrivalsOk, LogsOk, FifoOk;
    assert TicketsOk(y, w.state.lastTicket);
    assert forall u :: u in Line(y, s) ==> TripOk(y.trips[u]);
  }

  lemma ArrivalsConserve(y: Yard, t: Id, next: Trip, kind: EventKind, at: Instant)
    requires WorkConserving(y) && t in y.trips && y.trips[t].station == next.station && y.trips[t].status.EnRoute?
    requires next.station in y.stations && next.status == (if Free(y, next.station) > 0 then Reserved else Queued)
    ensures WorkConserving(Record(y, t, next, kind, at))
  {
    var z := Record(y, t, next, kind, at);
    RecordHolders(y, t, next, kind, at);
    assert t !in Line(y, next.station) && t !in Holders(y, next.station);
    hide Line, Holders;
    forall s | s in z.stations ensures Free(z, s) <= 0 || Line(z, s) == {} {
      assert Free(y, s) <= 0 || Line(y, s) == {};
    }
  }

  /** One trip arrived: it has a charger exactly when one was free, and then nobody was queued;
      otherwise it is queued behind everybody. No other trip moved. */
  ghost predicate FairArrival(y: Yard, z: Yard, t: Id) {
    t in y.trips && t in z.trips && y.trips[t].station in y.stations &&
    var s := y.trips[t].station;
    && z.trips == y.trips[t := z.trips[t]]
    && z.trips[t].status == (if Free(y, s) > 0 then Reserved else Queued)
    && (Free(y, s) > 0 ==> Line(y, s) == {})
    && (Free(y, s) <= 0 ==> forall u :: u in Line(y, s) ==> Ticket(y.trips[u]) < Ticket(z.trips[t]))
  }

  lemma ArrivalIsFair(w: World, user: Id, t: Id)
    requires WorldOk(w) && WorkConserving(w.yard) && t in w.yard.trips && w.yard.trips[t].status.EnRoute?
    requires Acted(w, user, t, Arrive).Done?
    ensures FairArrival(w.yard, Acted(w, user, t, Arrive).value.yard, t)
  {
    hide WorldOk, Arrived, Free, Line;
    TripRow(w, t);
    var p, y := Arrived(w, t).value, w.yard;
    ArrivalTakesOrQueues(w, t);
    ArrivalsConserve(y, t, p.yard.trips[t], if p.yard.trips[t].status.Reserved? then ArrivedReserved else ArrivedQueued,
                     w.state.time);
    DispatchAllIdle(p.yard, p.yard.stations.Keys, p.state.time, Grace(p));
    assert Dispatched(p) == p;
  }

  /** Nobody overtakes by arriving, whatever the transaction finds: the catch-up comes first. */
  lemma ArrivalsDoNotOvertake(v: World, wall: Instant, user: Id, t: Id)
    requires WorldOk(v) && t in Tick(v, wall).yard.trips && Tick(v, wall).yard.trips[t].status.EnRoute?
    requires Acted(Tick(v, wall), user, t, Arrive).Done?
    ensures FairArrival(Tick(v, wall).yard, Transaction(v, wall, Act(user, t, Arrive), false).yard, t)
  {
    hide WorldOk, Tick, Acted, FairArrival, Advances, WorkConserving;
    TickKeeps(v, wall);
    ArrivalIsFair(Tick(v, wall), user, t);
  }

  /** Only a live call can be confirmed and only a live reservation can be started. */
  lemma LapsedClaimsAreDead(w: World, user: Id, t: Id, action: Action)
    requires WorldOk(w) && t in w.yard.trips && Acted(w, user, t, action).Done?
    requires Allowed(action, w.yard.trips[t].status) && (action.Confirm? || action.Start?)
    ensures var deadline := if action.Confirm? then w.yard.trips[t].callUntil else w.yard.trips[t].holdUntil;
      deadline.Some? && w.state.time < deadline.value
  {
    TripRow(w, t);
    hide WorldOk, Performed, Dispatched;
  }

  // ---------- repeating a command ----------

  /** Once an action has succeeded, repeating it at the same instant is a clock read. */
  lemma RepeatIsClockRead(w: World, user: Id, t: Id, action: Action)
    requires WorldOk(w) && WorkConserving(w.yard) && Acted(w, user, t, action).Done?
    ensures var z := Acted(w, user, t, action).value;
      var again := CaughtUpTo(z, z.state.time);
      && Acted(again, user, t, action) == Done(again)
      && again == z.(yard := MeterAll(z.yard, z.state.time))
  {
    var z := Acted(w, user, t, action).value;
    ActedKeeps(w, user, t, action);
    ActsConserve(w, user, t, action);
    ActsSettle(w, user, t, action);
    CaughtUpAtOnce(z);
  }

  /** Every running meter shows its reading at `now`, as after each catch-up. */
  ghost predicate MetersRead(y: Yard, now: Instant) {
    forall t :: t in y.trips && y.trips[t].status.Charging? ==> Metered(y.trips[t], now) == y.trips[t]
  }

  lemma CatchUpsReadMeters(w: World, wall: Instant)
    ensures MetersRead(Tick(w, wall).yard, Tick(w, wall).state.time)
  {
    hide CatchUp, Dispatch, Reading;
  }

  /** The action puts a reserved trip of the user on charge. */
  predicate Starts(w: World, user: Id, t: Id, action: Action) {
    action.Start? && t in w.yard.trips && w.yard.trips[t].user == user && w.yard.trips[t].status.Reserved?
  }

  /** What the meter of a charge started now would show at once: the start is
      stored cut off to the millisecond, the reading is taken at the very instant. */
  function FirstReading(w: World, t: Id): Meter
    requires t in w.yard.trips
  {
    var trip, now := w.yard.trips[t], w.state.time;
    Reading(trip.target, trip.power, trip.price, Trunc(now), now)
  }

  /** On the millisecond grid the first reading is blank. */
  lemma FirstReadingOnTheGrid(w: World, t: Id)
    requires t in w.yard.trips && Trunc(w.state.time) == w.state.time
    ensures FirstReading(w, t) == NO_METER
  {
    var trip := w.yard.trips[t];
    assert 0.0 * trip.power / HOUR == 0.0;
    assert 0.0 * trip.price * 100.0 == 0.0;
    assert trip.target / trip.power >= 0.0;
  }

  lemma PerformedReadsMeters(w: World, t: Id, action: Action)
    requires WorldOk(w) && MetersRead(w.yard, w.state.time) && t in w.yard.trips
    requires w.yard.trips[t].station in w.yard.stations && Allowed(action, w.yard.trips[t].status)
    requires Performed(w, t, action).Done?
    ensures var p := Performed(w, t, action).value;
      && p.state.time == w.state.time
      && (MetersRead(p.yard, w.state.time) <==> (action.Start? ==> FirstReading(w, t) == NO_METER))
  {
    var trip, z := w.yard.trips[t], Performed(w, t, action).value;
    PerformedTouchesOne(w, t, action);
    TripRow(w, t);
    hide WorldOk, Reading, Performed;
    forall u | u in z.yard.trips && z.yard.trips[u].status.Charging? && u != t
      ensures Metered(z.yard.trips[u], w.state.time) == z.yard.trips[u]
    {
      assert z.yard.trips[u] == w.yard.trips[u];
    }
    if action.Start? {
      assert Metered(z.yard.trips[t], w.state.time) == z.yard.trips[t] <==> FirstReading(w, t) == NO_METER;
    }
  }

  /** An action writes one trip; only a start makes it charge, from the present on. */
  lemma PerformedTouchesOne(w: World, t: Id, action: Action)
    requires t in w.yard.trips && w.yard.trips[t].station in w.yard.stations && Performed(w, t, action).Done?
    ensures var trip, z := w.yard.trips[t], Performed(w, t, action).value;
      && z.state.time == w.state.time && z.yard.trips == w.yard.trips[t := z.yard.trips[t]]
      && (action.Start? <==> z.yard.trips[t].status.Charging?)
      && (action.Start? ==>
           z.yard.trips[t] == Moved(trip.(startedAt := Some(Trunc(w.state.time))), Charging, w.state.time))
  {
    hide Award, Verdict, Free, Line, FinalVerdict, FinishedTrip, PaidBooks;
    FinishedStatus(w.yard.trips[t], w.state.time);
  }

  lemma FinishedStatus(trip: Trip, now: Instant)
    ensures !FinishedTrip(trip, now, Manual).status.Charging?
  {
  }

  lemma DispatchReadsNothing(p: World)
    ensures MetersRead(p.yard, p.state.time) <==> MetersRead(Dispatched(p).yard, p.state.time)
  {
    hide Metered;
    var z := Dispatched(p);
    assert z.yard.trips.Keys == p.yard.trips.Keys;
    forall t | t in p.yard.trips ensures OnlyCalled(p.yard.trips[t], z.yard.trips[t], p.state.time, Grace(p)) {
      DispatchAllOnlyCalls(p.yard, p.yard.stations.Keys, p.state.time, Grace(p), t);
    }
  }

  lemma ActedReadsMeters(w: World, user: Id, t: Id, action: Action)
    requires WorldOk(w) && MetersRead(w.yard, w.state.time) && Acted(w, user, t, action).Done?
    ensures var z := Acted(w, user, t, action).value;
      MetersRead(z.yard, z.state.time) <==> (Starts(w, user, t, action) ==> FirstReading(w, t) == NO_METER)
  {
    hide WorldOk, MetersRead, Performed, Dispatch, FirstReading;
    if Allowed(action, w.yard.trips[t].status) {
      PerformedReadsMeters(w, t, action);
      DispatchReadsNothing(Performed(w, t, action).value);
    }
  }

  lemma MetersAlreadyRead(y: Yard, now: Instant)
    ensures MetersRead(y, now) <==> MeterAll(y, now) == y
  {
    hide Metered;
    var z := MeterAll(y, now);
    assert z.trips.Keys == y.trips.Keys;
    if MetersRead(y, now) {
      forall t | t in y.trips ensures z.trips[t] == y.trips[t] {
      }
      assert z.trips == y.trips;
    }
    if z == y {
      forall t | t in y.trips && y.trips[t].status.Charging? ensures Metered(y.trips[t], now) == y.trips[t] {
        assert z.trips[t] == y.trips[t];
      }
    }
  }

  /** Repeating a successful action at the same instant changes nothing, if and
      only if it did not start a charge whose meter shows something at once. */
  lemma RepeatChangesNothing(w: World, user: Id, t: Id, action: Action)
    requires WorldOk(w) && WorkConserving(w.yard) && MetersRead(w.yard, w.state.time)
    requires Acted(w, user, t, action).Done?
    ensures var z := Acted(w, user, t, action).value;
      Acted(CaughtUpTo(z, z.state.time), user, t, action) == Done(z)
      <==> (Starts(w, user, t, action) ==> FirstReading(w, t) == NO_METER)
  {
    hide Acted, WorldOk, MetersRead, WorkConserving, CaughtUpTo, MeterAll, FirstReading, Starts;
    var z := Acted(w, user, t, action).value;
    RepeatIsClockRead(w, user, t, action);
    ActedReadsMeters(w, user, t, action);
    MetersAlreadyRead(z.yard, z.state.time);
  }

  /** A second reading of the clock at the same wall instant shows the same time. */
  lemma TickAgain(v: World, wall: Instant, z: World)
    requires (z.state.time, z.state.wall) == (Tick(v, wall).state.time, Tick(v, wall).state.wall)
    ensures Tick(z, wall) == CaughtUpTo(z, z.state.time)
  {
    hide Synchronize;
    assert MaxReal(wall, z.state.wall) == z.state.wall && MaxReal(0.0, wall - z.state.wall) == 0.0;
    assert 0.0 * z.state.speed == 0.0;
    assert Now(z.state, wall) == z.state.time;
  }

  lemma ActedKeepsClock(w: World, user: Id, t: Id, action: Action)
    requires Acted(w, user, t, action).Done?
    ensures var z := Acted(w, user, t, action).value;
      (z.state.time, z.state.wall, z.state.speed) == (w.state.time, w.state.wall, w.state.speed)
  {
    hide Dispatch, Award, Verdict, FinalVerdict, Free, Line, PaidBooks, FinishedTrip;
  }

  lemma StartsSucceed(w: World, user: Id, t: Id, action: Action)
    requires WorldOk(w) && Starts(w, user, t, action)
    ensures Acted(w, user, t, action).Done?
  {
    TripRow(w, t);
    assert Honours(w.books, w.yard.trips[t]);
    hide Sound, Ahead, BooksOk, Honours, Started, Dispatched;
  }

  /** Sending an action again at the same instant leaves the store exactly as
      sending it once does, whether it succeeded, was refused or failed, if and
      only if it is not a start whose meter shows something at once. */
  lemma RepeatedActsAreIdle(v: World, wall: Instant, user: Id, t: Id, action: Action)
    requires WorldOk(v)
    ensures var c, w := Act(user, t, action), Tick(v, wall);
      var z := Transaction(v, wall, c, false);
      Transaction(z, wall, c, false) == z <==> (Starts(w, user, t, action) ==> FirstReading(w, t) == NO_METER)
  {
    hide WorldOk, Acted, MetersRead, WorkConserving, Tick, CaughtUpTo, Starts, FirstReading;
    var w := Tick(v, wall);
    SpeedOk(v);
    TickInSteps(v, wall, wall);
    TickKeeps(v, wall);
    StartsAreStarts(w, user, t, action);
    if Starts(w, user, t, action) {
      StartsSucceed(w, user, t, action);
    }
    if Acted(w, user, t, action).Done? {
      TickConserves(v, wall);
      CatchUpsReadMeters(v, wall);
      RepeatIsClockRead(w, user, t, action);
      RepeatChangesNothing(w, user, t, action);
      ActedKeepsClock(w, user, t, action);
      TickAgain(v, wall, Acted(w, user, t, action).value);
    }
  }

  lemma StartsAreStarts(w: World, user: Id, t: Id, action: Action)
    ensures Starts(w, user, t, action) ==> action.Start? && t in w.yard.trips
  {
  }

  lemma SpeedOk(v: World)
    requires WorldOk(v)
    ensures v.state.speed >= 0.0
  {
  }

  /** After every catch-up no charger is free beside a queue. */
  lemma TickConserves(v: World, wall: Instant)
    ensures WorkConserving(Tick(v, wall).yard)
  {
    hide Synchronize, WorkConserving;
    SynchronizeSettles(v.yard, v.state.time, Now(v.state, wall), Grace(v));
  }

  /** With nothing due and no idle charger, a catch-up to the present only reads the meters. */
  lemma CaughtUpAtOnce(z: World)
    requires WorldOk(z) && WorkConserving(z.yard)
    ensures CaughtUpTo(z, z.state.time) == z.(yard := MeterAll(z.yard, z.state.time))
  {
    var now, grace := z.state.time, Grace(z);
    DispatchAllIdle(z.yard, z.yard.stations.Keys, now, grace);
    assert Next(z.yard, now).Some? ==> exists e :: Due(z.yard, now, e);
  }

  /** After a successful action the trip is in a status for which the action is already done. */
  lemma ActsSettle(w: World, user: Id, t: Id, action: Action)
    requires WorldOk(w) && WorkConserving(w.yard) && Acted(w, user, t, action).Done?
    ensures var z := Acted(w, user, t, action).value;
      && user in z.books.points && t in z.yard.trips && z.yard.trips[t].user == user
      && AlreadyDone(action, z.yard.trips[t].status)
  {
    hide WorldOk, WorkConserving, Performed, Dispatch;
    var status := w.yard.trips[t].status;
    if Allowed(action, status) {
      var p := Performed(w, t, action).value;
      PerformedKeeps(w, t, action);
      PerformedStatus(w, t, action);
      DispatchedStatus(p, t);
    }
  }

  lemma PerformedStatus(w: World, t: Id, action: Action)
    requires t in w.yard.trips && w.yard.trips[t].station in w.yard.stations && Performed(w, t, action).Done?
    ensures var p := Performed(w, t, action).value;
      && t in p.yard.trips && AlreadyDone(action, p.yard.trips[t].status)
      && p.yard.trips[t].user == w.yard.trips[t].user && p.books.points.Keys == w.books.points.Keys
      && (action.Arrive? ==> p.yard.trips[t].status.Queued? || p.yard.trips[t].status.Reserved?)
  {
    hide Free, Line, Award, Verdict;
  }

  /** A dispatch only turns queued trips into called ones. */
  lemma DispatchedStatus(p: World, t: Id)
    requires WorldOk(p) && t in p.yard.trips
    ensures var z := Dispatched(p);
      t in z.yard.trips && z.yard.trips[t].user == p.yard.trips[t].user
      && (z.yard.trips[t].status == p.yard.trips[t].status
          || (p.yard.trips[t].status.Queued? && z.yard.trips[t].status.Called?))
  {
    DispatchAllOnlyCalls(p.yard, p.yard.stations.Keys, p.state.time, Grace(p), t);
  }
}
