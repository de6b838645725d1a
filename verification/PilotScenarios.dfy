/** Two runs from fresh tables that end where a promise of the store fails: a
    repeated start that reads the meter, and an initial load that leaves a
    charger free beside a queue. */
module PilotScenarios {
  import opened Basics
  import opened PilotTypes
  import opened PilotCatchUp
  import opened PilotPolling
  import opened PilotInvariant
  import opened PilotCommands
  import opened PilotWorld
  import opened PilotCommandsKeep
  import opened PilotRuns
  import opened PilotTheorems

  // ---------- the common beginning ----------

  const ONE_CANDIDATE := Candidate(1, 1.0, 0.0, 1.0, 2.0, 30, true)

  /** One station with one charger, one user, one offer, one selected trip. */
  function Beginning(): seq<Step> {
    [Install([CatalogRow(1, 1.0, 60.0, 2.0)]),
     Transact(CreateSession(1), 0.0, false),
     Transact(SaveOffer(1, Some(1), Unsaid, 1.0, [ONE_CANDIDATE]), 0.0, false),
     Transact(Select(1, 1, 1, 7), 0.0, false)]
  }

  function Tables(trip: Trip, station: Station, events: seq<Event>, time: Instant, wall: Instant, ticket: int): World {
    World(Fresh(0.0, 0.0).state.(time := time, wall := wall, lastTicket := ticket),
          Yard(map[1 := station], map[7 := trip], events),
          Books(map[1 := 0], map[1 := Offer(1, 900000.0, 1.0, Terms(1.0, 60, 86400), [ONE_CANDIDATE])], map[], []))
  }

  const THE_STATION := Station(1, 60.0, 2.0, 0, None)

  const THE_TRIP := Trip(
    1, 1, 1, EnRoute, 0.0, 0.0, 0.0, 86400000.0, Terms(1.0, 60, 86400), 1.0, 60.0, 2.0, 30,
    None, None, None, None, None, None, None, NO_METER, NotStopped, 0, NotPaid, None)

  const SELECTED := Tables(THE_TRIP, THE_STATION, [Event(7, Selected, EnRoute, 0.0)], 0.0, 0.0, 0)

  /** With nothing due, no idle charger and nobody charging, time just passes. */
  lemma QuietTick(w: World, wall: Instant)
    requires WorkConserving(w.yard) && w.state.wall <= wall
    requires forall t :: t in w.yard.trips ==> !w.yard.trips[t].status.Charging?
    requires forall e :: !Due(w.yard, Now(w.state, wall), e)
    ensures Tick(w, wall) == w.(state := w.state.(wall := wall, time := Now(w.state, wall)))
  {
    var now := Now(w.state, wall);
    DispatchAllIdle(w.yard, w.yard.stations.Keys, w.state.time, Grace(w));
    assert Next(w.yard, now).Some? ==> exists e :: Due(w.yard, now, e);
    MetersAlreadyRead(w.yard, now);
  }

  /** The same, at the instant of the last transaction. */
  lemma QuietMoment(w: World)
    requires WorldOk(w) && WorkConserving(w.yard)
    requires forall t :: t in w.yard.trips ==> !w.yard.trips[t].status.Charging?
    ensures Tick(w, w.state.wall) == w
  {
    hide Sound, BooksOk, WorkConserving;
    QuietTick(w, w.state.wall);
  }

  lemma {:induction false} RunJoins(w: World, steps: seq<Step>, more: seq<Step>)
    ensures Run(w, steps + more) == Run(Run(w, steps), more)
    decreases |steps|
  {
    if steps == [] {
      assert steps + more == more;
    } else {
      assert (steps + more)[1..] == steps[1..] + more;
      RunJoins(Stepped(w, steps[0]), steps[1..], more);
    }
  }

  lemma OneStep(w: World, s: Step)
    ensures Run(w, [s]) == Stepped(w, s)
  {
    assert [s][1..] == [];
  }

  lemma NoTripsNoQueue(w: World)
    requires w.yard.trips == map[]
    ensures WorkConserving(w.yard)
  {
  }

  /** Before any trip every transaction finds the world as it is. */
  lemma EarlyMoment(w: World)
    requires WorldOk(w) && w.yard.trips == map[]
    ensures Tick(w, w.state.wall) == w
  {
    hide WorldOk, Tick;
    NoTripsNoQueue(w);
    QuietMoment(w);
  }

  /** A transaction that finds the world up to date. */
  lemma TransactStep(w: World, c: Command, z: World)
    requires Tick(w, 0.0) == w && Precheck(c).None? && Apply(w, c) == Done(z)
    ensures Stepped(w, Transact(c, 0.0, false)) == z
  {
    hide Tick, Apply, Precheck;
  }

  function Installing(): World {
    Fresh(0.0, 0.0).(yard := Yard(map[1 := THE_STATION], map[], []))
  }

  function Known(): World {
    Installing().(books := Books(map[1 := 0], map[], map[], []))
  }

  function Offered(): World {
    Known().(books := SELECTED.books)
  }

  lemma StationIsInstalled()
    ensures Stepped(Fresh(0.0, 0.0), Beginning()[0]) == Installing() && WorldOk(Installing())
  {
    hide WorldOk, Grows;
    var w, row := Fresh(0.0, 0.0), CatalogRow(1, 1.0, 60.0, 2.0);
    FreshOk(0.0, 0.0);
    SteppedKeeps(w, Beginning()[0]);
    assert (1.0).Floor == 1;
    assert [row][1..] == [];
    assert Installed(w.yard, row) == Some(Installing().yard);
    assert InstalledAll(Installing().yard, []) == Some(Installing().yard);
  }

  lemma UserIsKnown()
    ensures Stepped(Installing(), Beginning()[1]) == Known() && WorldOk(Known())
  {
    hide WorldOk, Tick, Grows;
    StationIsInstalled();
    SteppedKeeps(Installing(), Beginning()[1]);
    EarlyMoment(Installing());
  }

  lemma CandidateIsGood(y: Yard)
    requires 1 in y.stations
    ensures CandidateError(y, [ONE_CANDIDATE], {}, {}).None?
  {
    var cs := [ONE_CANDIDATE];
    assert cs[1..] == [] && (1.0).Floor as real == 1.0;
    assert CandidateError(y, cs[1..], {} + {1}, {} + {1.0}).None?;
  }

  lemma CandidateIsPriced(config: Config)
    requires config.firstReward == 30
    ensures PricedAll(config, [ONE_CANDIDATE]) == [ONE_CANDIDATE]
  {
    assert (30.0).Floor == 30 && 30 as real * 1.0 == 30.0;
    assert RoundHalfEven(30.0) == 30;
    assert Priced(config, ONE_CANDIDATE) == ONE_CANDIDATE;
  }

  lemma OfferApplies()
    ensures Precheck(Beginning()[2].command).None? && Apply(Known(), Beginning()[2].command) == Done(Offered())
  {
    CandidateIsGood(Known().yard);
    CandidateIsPriced(Known().state.config);
    hide CandidateError, PricedAll;
  }

  lemma OfferIsSaved()
    ensures Stepped(Known(), Beginning()[2]) == Offered() && WorldOk(Offered())
  {
    hide WorldOk, Tick, Apply, Precheck, Stepped, Grows, Offered;
    UserIsKnown();
    SteppedKeeps(Known(), Beginning()[2]);
    EarlyMoment(Known());
    OfferApplies();
    TransactStep(Known(), Beginning()[2].command, Offered());
  }

  lemma SelectionApplies()
    ensures Precheck(Beginning()[3].command).None? && Apply(Offered(), Beginning()[3].command) == Done(SELECTED)
  {
    assert (0.0).Floor == 0 && (86400000.0).Floor == 86400000;
    assert FindCandidate(Offered().books.offers[1].candidates, 1) == Some(ONE_CANDIDATE);
    assert NewTrip(1, 1, Offered().books.offers[1], ONE_CANDIDATE, 60.0, 0.0) == THE_TRIP;
    hide FindCandidate, NewTrip;
    var w: World := Offered();
    assert !HasActiveTrip(w.yard, 1);
    assert w.yard.trips[7 := THE_TRIP] == SELECTED.yard.trips;
    assert w.yard.events + [Event(7, Selected, EnRoute, 0.0)] == SELECTED.yard.events;
    assert Recorded(w, 7, THE_TRIP, Selected) == SELECTED;
  }

  lemma SelectionIsMade()
    ensures Stepped(Offered(), Beginning()[3]) == SELECTED && WorldOk(SELECTED)
  {
    hide WorldOk, Tick, Apply, Precheck, Stepped, Grows;
    OfferIsSaved();
    SteppedKeeps(Offered(), Beginning()[3]);
    EarlyMoment(Offered());
    SelectionApplies();
    TransactStep(Offered(), Beginning()[3].command, SELECTED);
  }

  lemma TripIsSelected()
    ensures Run(Fresh(0.0, 0.0), Beginning()) == SELECTED && WorldOk(SELECTED)
  {
    StationIsInstalled();
    UserIsKnown();
    OfferIsSaved();
    SelectionIsMade();
    hide WorldOk, Stepped;
    var steps := Beginning();
    assert steps[1..][1..] == steps[2..] && steps[2..][1..] == steps[3..] && steps[3..][1..] == [];
    assert Run(SELECTED, []) == SELECTED;
    assert Run(Offered(), steps[3..]) == SELECTED;
    assert Run(Known(), steps[2..]) == SELECTED;
    assert Run(Installing(), steps[1..]) == SELECTED;
  }

  // ---------- a start between two milliseconds ----------

  const ARRIVE := Transact(Act(1, 7, Arrive), 0.0, false)
  const START := Act(1, 7, Start)

  const RESERVED := THE_TRIP.(
    status := Reserved, arrivedAt := Some(0.0), freeAtArrival := Some(1), holdUntil := Some(900000.0))

  function Waiting(time: Instant, wall: Instant): World {
    Tables(RESERVED, THE_STATION, SELECTED.yard.events + [Event(7, ArrivedReserved, Reserved, 0.0)], time, wall, 0)
  }

  lemma NoQueueConserves(y: Yard)
    requires forall t :: t in y.trips ==> !y.trips[t].status.Queued?
    ensures WorkConserving(y)
  {
    forall s ensures Line(y, s) == {} {
      assert forall t :: t !in Line(y, s);
    }
  }

  lemma BeforeArrival(w: World)
    requires WorldOk(w) && w.yard.trips == SELECTED.yard.trips
    ensures Tick(w, w.state.wall) == w
  {
    NoQueueConserves(w.yard);
    QuietMoment(w);
  }

  lemma ActStep(w: World, action: Action, z: World)
    requires Tick(w, 0.0) == w && !action.UnknownAction? && Acted(w, 1, 7, action) == Done(z)
    ensures Stepped(w, Transact(Act(1, 7, action), 0.0, false)) == z
  {
    hide Tick, Acted, Stepped;
    TransactStep(w, Act(1, 7, action), z);
  }

  lemma TripIsReserved()
    ensures Stepped(SELECTED, ARRIVE) == Waiting(0.0, 0.0) && WorldOk(Waiting(0.0, 0.0))
  {
    hide WorldOk, Tick, Acted, Stepped, Waiting, Grows;
    TripIsSelected();
    SteppedKeeps(SELECTED, ARRIVE);
    BeforeArrival(SELECTED);
    ArrivalIsReserved();
    ActStep(SELECTED, Arrive, Waiting(0.0, 0.0));
  }

  lemma ArrivalIsReserved()
    ensures Acted(SELECTED, 1, 7, Arrive) == Done(Waiting(0.0, 0.0))
  {
    var w: World, z := SELECTED, Waiting(0.0, 0.0);
    assert Holders(w.yard, 1) == {} && Line(w.yard, 1) == {};
    assert (0.0).Floor == 0 && (900000.0).Floor == 900000;
    assert w.yard.trips[7 := RESERVED] == z.yard.trips;
    assert Arrived(w, 7) == Done(z);
    NoQueueConserves(z.yard);
    DispatchAllIdle(z.yard, z.yard.stations.Keys, z.state.time, Grace(z));
  }

  lemma HalfAMillisecondLater()
    ensures Tick(Waiting(0.0, 0.0), 0.05) == Waiting(0.5, 0.05)
  {
    var w := Waiting(0.0, 0.0);
    NoQueueConserves(w.yard);
    assert Now(w.state, 0.05) == 0.5;
    QuietTick(w, 0.05);
  }

  /** A run from fresh tables after which a start, half a millisecond past the
      reservation, shows energy at once: sending it again changes the meter. */
  lemma RepeatedStartReadsTheMeter()
    ensures var w := Run(Fresh(0.0, 0.0), Beginning() + [ARRIVE]);
      var z := Transaction(w, 0.05, START, false);
      WorldOk(w) && Transaction(z, 0.05, START, false) != z
  {
    var w := Waiting(0.0, 0.0);
    TripIsSelected();
    TripIsReserved();
    RunJoins(Fresh(0.0, 0.0), Beginning(), [ARRIVE]);
    OneStep(SELECTED, ARRIVE);
    HalfAMillisecondLater();
    SomethingDelivered();
    hide WorldOk, Tick, Run, Stepped, Reading;
    RepeatedActsAreIdle(w, 0.05, 1, 7, Start);
  }

  lemma SomethingDelivered()
    ensures Reading(1.0, 60.0, 2.0, 0.0, 0.5) != NO_METER && Trunc(0.5) == 0.0
  {
    assert 0.5 * 60.0 / HOUR * 100000000.0 > 800.0;
  }

  // ---------- an initial load beside a queue ----------

  const TAKEN := Transact(SetBackground(1, 1.0, 300.0), 0.0, false)
  const LOAD := SetBaseline([Snapshot(1, Some(1.0), 300.0)])
  const BUSY_STATION := Station(1, 60.0, 2.0, 1, Some(300000.0))

  const QUEUED := THE_TRIP.(status := Queued, arrivedAt := Some(0.0), freeAtArrival := Some(0), ticket := Some(1))

  function Occupied(): World {
    Tables(THE_TRIP, BUSY_STATION, SELECTED.yard.events, 0.0, 0.0, 0)
  }

  function InLine(): World {
    Tables(QUEUED, BUSY_STATION, SELECTED.yard.events + [Event(7, ArrivedQueued, Queued, 0.0)], 0.0, 0.0, 1)
  }

  lemma StationIsTaken()
    ensures Stepped(SELECTED, TAKEN) == Occupied() && WorldOk(Occupied())
  {
    hide WorldOk, Tick, Apply, Precheck, Stepped, Grows, Occupied;
    TripIsSelected();
    SteppedKeeps(SELECTED, TAKEN);
    BeforeArrival(SELECTED);
    LoadApplies();
    TransactStep(SELECTED, TAKEN.command, Occupied());
  }

  lemma LoadApplies()
    ensures Precheck(TAKEN.command).None? && Apply(SELECTED, TAKEN.command) == Done(Occupied())
  {
    var w: World, z := SELECTED, Occupied();
    assert (1.0).Floor == 1 && 1 as real == 1.0;
    assert Holders(w.yard, 1) == {};
    assert Loaded(w.yard, BackgroundLoad(1, 1, 300.0, 0.0)) == z.yard;
    NoQueueConserves(z.yard);
    DispatchAllIdle(z.yard, z.yard.stations.Keys, z.state.time, Grace(z));
  }

  lemma TripIsQueued()
    ensures Stepped(Occupied(), ARRIVE) == InLine() && WorldOk(InLine()) && WorkConserving(InLine().yard)
  {
    hide WorldOk, Tick, Acted, Stepped, InLine, WorkConserving, Grows;
    StationIsTaken();
    SteppedKeeps(Occupied(), ARRIVE);
    BeforeArrival(Occupied());
    ArrivalIsQueued();
    ActStep(Occupied(), Arrive, InLine());
  }

  lemma ArrivalIsQueued()
    ensures Acted(Occupied(), 1, 7, Arrive) == Done(InLine()) && WorkConserving(InLine().yard)
  {
    var w, z := Occupied(), InLine();
    assert Holders(w.yard, 1) == {} && Holders(z.yard, 1) == {};
    assert (0.0).Floor == 0;
    assert w.yard.trips[7 := QUEUED] == z.yard.trips;
    assert Arrived(w, 7) == Done(z);
    assert Free(z.yard, 1) == 0;
    DispatchAllIdle(z.yard, z.yard.stations.Keys, z.state.time, Grace(z));
  }

  lemma TripIsInLine()
    ensures Run(Fresh(0.0, 0.0), Beginning() + [TAKEN, ARRIVE]) == InLine()
    ensures WorldOk(InLine()) && WorkConserving(InLine().yard)
  {
    hide WorldOk, WorkConserving, Grows, InLine, Occupied, Stepped, Beginning;
    TripIsSelected();
    StationIsTaken();
    TripIsQueued();
    RunJoins(Fresh(0.0, 0.0), Beginning(), [TAKEN, ARRIVE]);
    assert [TAKEN, ARRIVE][1..] == [ARRIVE];
    OneStep(Occupied(), ARRIVE);
    assert Run(SELECTED, [TAKEN, ARRIVE]) == Run(Occupied(), [ARRIVE]);
  }

  /** A run from fresh tables after which the initial load, reporting the one
      charger free, drops its background load and leaves the queued trip waiting
      beside the free charger. */
  lemma BaselineCanIdleACharger()
    ensures var w := Run(Fresh(0.0, 0.0), Beginning() + [TAKEN, ARRIVE]);
      var z := Transaction(w, 0.0, LOAD, false);
      WorldOk(w) && WorkConserving(w.yard) && WorldOk(z) && !WorkConserving(z.yard)
  {
    hide WorldOk, WorkConserving, Run, Grows, InLine, Beginning, Transaction;
    TripIsInLine();
    TransactionKeeps(InLine(), 0.0, LOAD, false);
    LoadIsTheCommand(InLine());
    BaselineDropsTheLoad(InLine().yard, 0.0);
  }

  /** What the transaction does once nothing is due. */
  lemma LoadIsTheCommand(w: World)
    requires w == InLine() && WorldOk(w) && WorkConserving(w.yard)
    ensures Prepared(w.yard, 0.0, LOAD.snapshot).Done? ==>
      Transaction(w, 0.0, LOAD, false).yard == LoadedAll(w.yard, Prepared(w.yard, 0.0, LOAD.snapshot).value)
  {
    hide WorldOk, WorkConserving, Tick, LoadedAll, Prepared;
    QuietMoment(w);
    assert Precheck(LOAD).None?;
    assert Apply(w, LOAD) == BaselineSet(w, LOAD.snapshot);
  }

  lemma LoadIsPrepared(y: Yard, now: Instant)
    requires y == InLine().yard
    ensures Prepared(y, now, LOAD.snapshot).Done?
  {
    var items := LOAD.snapshot;
    assert items[1..] == [] && (1.0).Floor == 1;
    assert Prepared(y, now, items[1..]) == Done([]);
    hide BaselineLoad;
  }

  lemma OneIsWaiting(y: Yard)
    requires y == InLine().yard
    ensures 1 in y.stations && y.stations[1].busy == 1 && y.stations[1].capacity == 1
    ensures Line(y, 1) != {} && Holders(y, 1) == {}
  {
    assert 7 in Line(y, 1);
  }

  lemma BaselineDropsTheLoad(y: Yard, now: Instant)
    requires y == InLine().yard && WorkConserving(y) && WorldOk(InLine())
    ensures Prepared(y, now, LOAD.snapshot).Done?
    ensures !WorkConserving(LoadedAll(y, Prepared(y, now, LOAD.snapshot).value))
  {
    hide WorldOk, RowsOk, CapacityOk, WorkConserving, LoadedAll, Prepared, Line, Holders, InLine;
    RowsFit(InLine());
    LoadIsPrepared(y, now);
    OneIsWaiting(y);
    BaselineConserves(y, now, LOAD.snapshot);
    assert LOAD.snapshot[0].station == 1;
  }

  lemma RowsFit(w: World)
    requires WorldOk(w)
    ensures RowsOk(w.yard) && CapacityOk(w.yard)
  {
  }

  // ---------- a second charger beside a queue ----------

  const ENLARGED := CatalogRow(1, 2.0, 60.0, 2.0)

  /** After the same run, a catalogue that gives the station a second charger
      leaves it free beside the queued trip. */
  lemma InstallCanIdleACharger()
    ensures var w := Run(Fresh(0.0, 0.0), Beginning() + [TAKEN, ARRIVE]);
      var z := Stepped(w, Install([ENLARGED]));
      WorldOk(w) && WorkConserving(w.yard) && WorldOk(z) && z != w && !WorkConserving(z.yard)
  {
    hide WorldOk, WorkConserving, Run, Grows, InLine, Beginning, Stepped;
    TripIsInLine();
    SteppedKeeps(InLine(), Install([ENLARGED]));
    StationIsEnlarged(InLine());
  }

  lemma RowIsInstalled(y: Yard)
    requires y == InLine().yard
    ensures InstalledAll(y, [ENLARGED]).Some? && CapacityAfter([ENLARGED], 1, 1) == 2
  {
    OneIsWaiting(y);
    var rows := [ENLARGED];
    assert (2.0).Floor == 2 && rows[1..] == [];
    assert Installed(y, ENLARGED).Some?;
    hide Installed;
    assert InstalledAll(Installed(y, ENLARGED).value, rows[1..]).Some?;
    assert CapacityAfter(rows[1..], 1, 2) == 2;
  }

  lemma StationIsEnlarged(w: World)
    requires w == InLine() && WorldOk(w) && WorkConserving(w.yard)
    ensures !WorkConserving(Stepped(w, Install([ENLARGED])).yard)
  {
    hide WorldOk, RowsOk, CapacityOk, WorkConserving, InstalledAll, CapacityAfter, Line, Holders, InLine;
    RowsFit(w);
    RowIsInstalled(w.yard);
    OneIsWaiting(w.yard);
    InstallConserves(w.yard, [ENLARGED]);
  }
}
