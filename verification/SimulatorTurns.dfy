/** In which order requests are served: a station's queue is in the order of arrival,
    its head is called first, and nobody waits beside a free charger. */
module SimulatorTurns {
  import opened Basics
  import opened SimulatorSession
  import opened SimulatorWorld
  import opened SimulatorRequests
  import opened SimulatorPlaces

  // ---- the queue ----

  /** In the order of arrival: identifiers increase, and were all handed out. */
  predicate InArrivalOrder(queue: seq<Request>, made: nat) {
    && (forall i, j :: 0 <= i < j < |queue| ==> queue[i].id < queue[j].id)
    && (forall i :: 0 <= i < |queue| ==> queue[i].id < made)
  }

  /** The request came before everybody in the queue. */
  predicate Precedes(r: Request, queue: seq<Request>) {
    forall i :: 0 <= i < |queue| ==> r.id < queue[i].id
  }

  ghost predicate QueuesOk(s: Sim) {
    forall i: nat :: InArrivalOrder(QueueAt(s, i), s.made)
  }

  /** Whoever was called from a queue came before everybody who still waits there. */
  ghost predicate CallsOk(g: Layout, s: Sim) {
    forall c: nat :: ChargerAt(s, c).hold.Some? && ChargerAt(s, c).hold.value.queued ==>
      && ChargerAt(s, c).hold.value.request.id < s.made
      && Precedes(ChargerAt(s, c).hold.value.request, QueueAt(s, g.bay(c).station))
  }

  ghost predicate InTurn(g: Layout, s: Sim) {
    QueuesOk(s) && CallsOk(g, s)
  }

  /** Nothing but holds and requests in hand matters to the turns. */
  lemma SameTurns(g: Layout, s: Sim, t: Sim)
    requires InTurn(g, s) && t.waiting == s.waiting && s.made <= t.made
    requires forall c: nat :: ChargerAt(t, c).hold.Some? && ChargerAt(t, c).hold.value.queued ==>
      ChargerAt(t, c).hold == ChargerAt(s, c).hold
    ensures InTurn(g, t)
  {
    forall i: nat ensures InArrivalOrder(QueueAt(t, i), t.made) {
      assert InArrivalOrder(QueueAt(s, i), s.made);
    }
    forall c: nat | ChargerAt(t, c).hold.Some? && ChargerAt(t, c).hold.value.queued
      ensures ChargerAt(t, c).hold.value.request.id < t.made
      ensures Precedes(ChargerAt(t, c).hold.value.request, QueueAt(t, g.bay(c).station)) {
      assert ChargerAt(s, c).hold.Some? && QueueAt(t, g.bay(c).station) == QueueAt(s, g.bay(c).station);
    }
  }

  /** A queue may lose anybody. */
  lemma FewerInTurn(g: Layout, s: Sim, station: nat, queue: seq<Request>)
    requires InTurn(g, s) && InArrivalOrder(queue, s.made) && forall r :: r in queue ==> r in QueueAt(s, station)
    ensures InTurn(g, Queued(s, station, queue))
  {
    var t := Queued(s, station, queue);
    forall i: nat ensures InArrivalOrder(QueueAt(t, i), t.made) {
      assert InArrivalOrder(QueueAt(s, i), s.made);
    }
    forall c: nat | ChargerAt(t, c).hold.Some? && ChargerAt(t, c).hold.value.queued
      ensures ChargerAt(t, c).hold.value.request.id < t.made
      ensures Precedes(ChargerAt(t, c).hold.value.request, QueueAt(t, g.bay(c).station)) {
      assert Precedes(ChargerAt(s, c).hold.value.request, QueueAt(s, g.bay(c).station));
      if g.bay(c).station == station {
        assert forall i :: 0 <= i < |queue| ==> queue[i] in queue;
      }
    }
  }

  /** The request came before all of these. */
  predicate Heads(r: Request, queue: seq<Request>) {
    forall q :: q in queue ==> r.id < q.id
  }

  lemma ConsInOrder(r: Request, queue: seq<Request>, made: nat)
    requires InArrivalOrder(queue, made) && r.id < made && Heads(r, queue)
    ensures InArrivalOrder([r] + queue, made)
  {
    var more := [r] + queue;
    forall i, j | 0 <= i < j < |more| ensures more[i].id < more[j].id {
      assert more[j] == queue[j - 1] && queue[j - 1] in queue;
    }
  }

  lemma TailInOrder(queue: seq<Request>, made: nat)
    requires InArrivalOrder(queue, made) && queue != []
    ensures InArrivalOrder(queue[1..], made) && queue[0].id < made && Heads(queue[0], queue[1..])
  {
  }

  lemma {:induction false} PatientInOrder(queue: seq<Request>, tick: nat, made: nat)
    requires InArrivalOrder(queue, made)
    ensures InArrivalOrder(Patient(queue, tick), made) && forall r :: r in Patient(queue, tick) ==> r in queue
  {
    hide InArrivalOrder;
    if queue != [] {
      TailInOrder(queue, made);
      PatientInOrder(queue[1..], tick, made);
      ConsInOrder(queue[0], Patient(queue[1..], tick), made);
    } else {
      assert Patient(queue, tick) == queue;
    }
  }

  lemma {:induction false} GivingUpMovesNothing(s: Sim, queue: seq<Request>, tick: nat)
    ensures var t := GivenUp(s, queue, tick);
      (t.waiting, t.chargers, t.made) == (s.waiting, s.chargers, s.made)
    decreases queue
  {
    if queue != [] {
      GivingUpMovesNothing(if tick >= queue[0].patience then Finished(s, queue[0], None, Abandoned, tick) else s, queue[1..], tick);
    }
  }

  lemma LapsingIsInTurn(g: Layout, s: Sim, station: nat, tick: nat)
    requires InTurn(g, s)
    ensures InTurn(g, Lapsed(s, station, tick))
  {
    var queue := QueueAt(s, station);
    assert InArrivalOrder(queue, s.made);
    PatientInOrder(queue, tick, s.made);
    var next := Queued(s, station, Patient(queue, tick));
    hide InTurn, Queued, GivenUp, Patient, InArrivalOrder;
    FewerInTurn(g, s, station, Patient(queue, tick));
    GivingUpMovesNothing(next, queue, tick);
    SameTurns(g, next, Lapsed(s, station, tick));
  }

  // ---- calls ----

  /** A call takes the first of the queue. */
  lemma CallIsInTurn(g: Layout, s: Sim, station: nat, c: nat, tick: nat, accept: bool)
    requires InTurn(g, s) && QueueAt(s, station) != [] && g.bay(c).station == station
    ensures InTurn(g, CalledOnce(s, station, c, tick, accept))
  {
    var queue, t := QueueAt(s, station), CalledOnce(s, station, c, tick, accept);
    assert InArrivalOrder(queue, s.made);
    forall i: nat ensures InArrivalOrder(QueueAt(t, i), t.made) {
      assert InArrivalOrder(QueueAt(s, i), s.made);
    }
    assert Precedes(queue[0], queue[1..]);
    forall d: nat | ChargerAt(t, d).hold.Some? && ChargerAt(t, d).hold.value.queued
      ensures ChargerAt(t, d).hold.value.request.id < t.made
      ensures Precedes(ChargerAt(t, d).hold.value.request, QueueAt(t, g.bay(d).station)) {
      if d != c {
        assert Precedes(ChargerAt(s, d).hold.value.request, QueueAt(s, g.bay(d).station));
      }
    }
  }

  lemma {:induction false} CallsAreInTurn(g: Layout, s: Sim, station: nat, free: seq<nat>, tick: nat, call: nat -> Call)
    requires InTurn(g, s) && OfStation(g, free, station)
    ensures InTurn(g, CalledAll(g, s, station, free, tick, call))
    decreases |free|
  {
    hide InTurn, CalledOnce;
    if free != [] && QueueAt(s, station) != [] && tick + 12 < g.ticks {
      var draw := call(|free|);
      var i := draw.pick % |free|;
      CallIsInTurn(g, s, station, free[i], tick, draw.accept);
      CallsAreInTurn(g, CalledOnce(s, station, free[i], tick, draw.accept), station, free[..i] + free[i + 1..], tick, call);
    }
  }

  // ---- arrivals ----

  lemma {:induction false} ScreeningMovesNothing(g: Layout, s: Sim, candidates: seq<Candidate>, tick: nat)
    ensures var t := Screened(g, s, candidates, tick).0;
      (t.waiting, t.chargers, t.made) == (s.waiting, s.chargers, s.made)
    decreases candidates
  {
    hide Roaming;
    if candidates != [] {
      ScreeningMovesNothing(g, s, candidates[1..], tick);
      ScreeningMovesNothing(g, Refreshed(g, s, candidates[0].user, tick), candidates[1..], tick);
    }
  }

  lemma StartingMovesNothing(g: Layout, s: Sim, r: Request, c: nat, tick: nat, d: SessionDraw)
    ensures var t := StartSession(g, s, r, c, tick, d);
      && t.waiting == s.waiting && t.made == s.made
      && forall i: nat :: ChargerAt(t, i).hold == ChargerAt(s, i).hold
  {
    hide PlanFor, SessionFor, Booked;
    if PackOf(g, s, r.user).energy < g.car(r.user).capacity {
      BookingTouchesOne(g, s, r, SessionFor(g, s, r, c, tick, d));
    }
  }

  /** A newcomer joins at the end. */
  lemma JoiningIsInTurn(g: Layout, s: Sim, station: nat, r: Request)
    requires InTurn(g, s) && s.made == r.id
    ensures InTurn(g, Queued(s.(made := s.made + 1), station, QueueAt(s, station) + [r]))
  {
    var t := Queued(s.(made := s.made + 1), station, QueueAt(s, station) + [r]);
    forall i: nat ensures InArrivalOrder(QueueAt(t, i), t.made) {
      assert InArrivalOrder(QueueAt(s, i), s.made);
    }
    forall c: nat | ChargerAt(t, c).hold.Some? && ChargerAt(t, c).hold.value.queued
      ensures ChargerAt(t, c).hold.value.request.id < t.made
      ensures Precedes(ChargerAt(t, c).hold.value.request, QueueAt(t, g.bay(c).station)) {
      assert Precedes(ChargerAt(s, c).hold.value.request, QueueAt(s, g.bay(c).station));
    }
  }

  lemma FinishingIsInTurn(g: Layout, s: Sim, r: Request, c: Option<nat>, outcome: Outcome, tick: nat)
    requires InTurn(g, s)
    ensures InTurn(g, Finished(s, r, c, outcome, tick))
  {
    hide InTurn;
    SameTurns(g, s, Finished(s, r, c, outcome, tick));
  }

  lemma AdmittingIsInTurn(g: Layout, s: Sim, station: nat, free: seq<nat>, r: Request, tick: nat, d: Arrival)
    requires InTurn(g, s) && r.id == s.made
    ensures InTurn(g, Admitted(g, Opened(g, s, r), station, free, r, tick, d))
  {
    var entered, queue := Opened(g, s, r), QueueAt(s, station);
    hide InTurn, Finished, Queued, StartSession;
    SameTurns(g, s, entered);
    if d.fails {
      FinishingIsInTurn(g, entered, r, if free != [] then Some(free[0]) else None, Failed, tick);
    } else if free != [] && queue == [] {
      var c := free[d.pick % |free|];
      StartingMovesNothing(g, entered, r, c, tick, d.session);
      if d.reserves {
        SameTurns(g, entered, Held(entered, c, Hold(r, tick + d.delay, d.confirms, false)));
      } else {
        SameTurns(g, entered, StartSession(g, entered, r, c, tick, d.session));
      }
    } else if d.queues && |queue| < 20 {
      JoiningIsInTurn(g, s, station, r);
      var joined := Queued(s.(made := s.made + 1), station, queue + [r]);
      OnlyTheLockDiffers(g, s, station, r);
      SameTurns(g, joined, Queued(entered, station, queue + [r]));
    } else {
      FinishingIsInTurn(g, entered, r, None, Abandoned, tick);
    }
  }

  lemma OnlyTheLockDiffers(g: Layout, s: Sim, station: nat, r: Request)
    ensures var a, b := Queued(s.(made := s.made + 1), station, QueueAt(s, station) + [r]),
                        Queued(Opened(g, s, r), station, QueueAt(s, station) + [r]);
      (a.waiting, a.chargers, a.made) == (b.waiting, b.chargers, b.made)
  {
  }

  lemma ArrivingIsInTurn(g: Layout, s: Sim, station: nat, free: seq<nat>, tick: nat, arrival: Option<Arrival>)
    requires InTurn(g, s)
    ensures InTurn(g, Arrived(g, s, station, free, tick, arrival))
  {
    hide InTurn, Screened, Admitted, Opened;
    if arrival.Some? && tick + 24 < g.ticks {
      var d := arrival.value;
      var candidates := if |d.candidates| > 30 then d.candidates[..30] else d.candidates;
      var (next, user) := Screened(g, s, candidates, tick);
      ScreeningMovesNothing(g, s, candidates, tick);
      SameTurns(g, s, next);
      if user.Some? {
        AdmittingIsInTurn(g, next, station, free, Request(next.made, user.value, station, tick, tick + d.patience), tick, d);
      }
    }
  }

  // ---- whole ticks ----

  lemma ServicingIsInTurn(g: Layout, s: Sim, c: nat, tick: nat, draws: Draws)
    requires InTurn(g, s)
    ensures InTurn(g, Serviced(g, s, c, tick, draws))
  {
    hide InTurn, Left, Resolved, Maintained;
    var left := Left(s, c, tick);
    LeavingMovesNothing(s, c, tick);
    SameTurns(g, s, left);
    ResolvingIsInTurn(g, left, c, tick, draws.resolve(tick, c));
    var resolved := Resolved(g, left, c, tick, draws.resolve(tick, c));
    MaintainingMovesNothing(resolved, c, tick, draws.fault(tick, c));
    SameTurns(g, resolved, Maintained(resolved, c, tick, draws.fault(tick, c)));
  }

  lemma LeavingMovesNothing(s: Sim, c: nat, tick: nat)
    ensures var t := Left(s, c, tick);
      && t.waiting == s.waiting && t.made == s.made && forall i: nat :: ChargerAt(t, i).hold == ChargerAt(s, i).hold
  {
  }

  lemma MaintainingMovesNothing(s: Sim, c: nat, tick: nat, fault: Option<Fault>)
    ensures var t := Maintained(s, c, tick, fault);
      && t.waiting == s.waiting && t.made == s.made && forall i: nat :: ChargerAt(t, i).hold == ChargerAt(s, i).hold
  {
  }

  lemma ResolvingIsInTurn(g: Layout, s: Sim, c: nat, tick: nat, d: SessionDraw)
    requires InTurn(g, s)
    ensures InTurn(g, Resolved(g, s, c, tick, d))
  {
    hide InTurn, Finished, StartSession;
    var charger := ChargerAt(s, c);
    if charger.hold.Some? && tick >= charger.hold.value.due {
      var hold, next := charger.hold.value, Unheld(s, c);
      SameTurns(g, s, next);
      StartingMovesNothing(g, next, hold.request, c, tick, d);
      SameTurns(g, next, StartSession(g, next, hold.request, c, tick, d));
      FinishingIsInTurn(g, next, hold.request, Some(c), if hold.queued then Abandoned else ReservationLost, tick);
    }
  }

  lemma OperatingIsInTurn(g: Layout, s: Sim, station: nat, tick: nat, draws: Draws)
    requires InTurn(g, s)
    ensures InTurn(g, Operated(g, s, station, tick, draws))
  {
    hide InTurn, Lapsed, CalledAll, Arrived, FreeOf, ChargersOf, OfStation;
    var patient, list := Lapsed(s, station, tick), ChargersOf(g, station, g.count);
    var call := (k: nat) => draws.call(tick, station, k);
    var called := CalledAll(g, patient, station, FreeOf(patient, list, tick), tick, call);
    ChargersAreOfStation(g, station, g.count);
    FreeOnesAreOfStation(g, patient, list, station, tick);
    LapsingIsInTurn(g, s, station, tick);
    CallsAreInTurn(g, patient, station, FreeOf(patient, list, tick), tick, call);
    ArrivingIsInTurn(g, called, station, FreeOf(called, list, tick), tick, draws.arrival(tick, station));
  }

  lemma {:induction false} SamplingMovesNothing(s: Sim, list: seq<nat>, tick: nat)
    ensures var t := SampledAll(s, list, tick);
      && t.waiting == s.waiting && t.made == s.made
      && forall c: nat :: ChargerAt(t, c) == ChargerAt(s, c).(meter := ChargerAt(t, c).meter)
  {
    hide Reading;
    if list != [] {
      SamplingMovesNothing(s, list[..|list| - 1], tick);
    }
  }

  lemma {:induction false} ServicingAllIsInTurn(g: Layout, s: Sim, n: nat, tick: nat, draws: Draws)
    requires InTurn(g, s)
    ensures InTurn(g, ServicedAll(g, s, n, tick, draws))
  {
    hide InTurn, Serviced;
    if n > 0 {
      ServicingAllIsInTurn(g, s, n - 1, tick, draws);
      ServicingIsInTurn(g, ServicedAll(g, s, n - 1, tick, draws), n - 1, tick, draws);
    }
  }

  lemma {:induction false} StationsAreInTurn(g: Layout, s: Sim, n: nat, tick: nat, draws: Draws)
    requires InTurn(g, s)
    ensures InTurn(g, StationsTick(g, s, n, tick, draws))
  {
    hide InTurn, Operated, SampledAll, ChargersOf;
    if n > 0 {
      StationsAreInTurn(g, s, n - 1, tick, draws);
      var before := StationsTick(g, s, n - 1, tick, draws);
      var operated := Operated(g, before, n - 1, tick, draws);
      OperatingIsInTurn(g, before, n - 1, tick, draws);
      SamplingMovesNothing(operated, ChargersOf(g, n - 1, g.count), tick);
      SameTurns(g, operated, StationTick(g, before, n - 1, tick, draws));
    }
  }

  /** In turn after every tick. */
  lemma {:induction false} TicksAreInTurn(g: Layout, draws: Draws, n: nat)
    ensures InTurn(g, After(g, draws, n))
  {
    hide ServicedAll, StationsTick;
    if n > 0 {
      TicksAreInTurn(g, draws, n - 1);
      hide InTurn;
      ServicingAllIsInTurn(g, After(g, draws, n - 1), g.count, n - 1, draws);
      StationsAreInTurn(g, ServicedAll(g, After(g, draws, n - 1), g.count, n - 1, draws), g.stations, n - 1, draws);
    }
  }

  /** First come, first served, after every tick: a queue is in the order in which its
      requests came, and whoever has been called from it to a charger came before
      everybody who still waits for one there. */
  lemma FirstComeFirstServed(g: Layout, draws: Draws, n: nat, station: nat, i: nat, j: nat, c: nat)
    ensures var s := After(g, draws, n); var queue := QueueAt(s, station);
      && (i < j < |queue| ==> queue[i].id < queue[j].id < s.made)
      && (ChargerAt(s, c).hold.Some? && ChargerAt(s, c).hold.value.queued && j < |queue|
          && ChargerAt(s, c).hold.value.request.station == station ==>
            ChargerAt(s, c).hold.value.request.id < queue[j].id)
  {
    hide After;
    TicksAreInTurn(g, draws, n);
    TicksArePlaced(g, draws, n);
    var s := After(g, draws, n);
    assert InArrivalOrder(QueueAt(s, station), s.made);
  }

  /** So of two requests of one station the later one is never called while the earlier
      one still waits. */
  lemma NobodyIsPassedOver(g: Layout, draws: Draws, n: nat, c: nat, earlier: Request)
    requires ChargerAt(After(g, draws, n), c).hold.Some? && ChargerAt(After(g, draws, n), c).hold.value.queued
    requires var later := ChargerAt(After(g, draws, n), c).hold.value.request;
      earlier.id < later.id && earlier.station == later.station
    ensures earlier !in QueueAt(After(g, draws, n), earlier.station)
  {
    hide After;
    var queue := QueueAt(After(g, draws, n), earlier.station);
    if earlier in queue {
      var j :| 0 <= j < |queue| && queue[j] == earlier;
      FirstComeFirstServed(g, draws, n, earlier.station, 0, j, c);
      assert false;
    }
  }

  // ---- a call lasts one tick ----

  /** Chargers held for somebody called from a queue: from the given one on, and due at the given tick. */
  ghost predicate CallsDue(g: Layout, s: Sim, from: nat, due: nat) {
    forall c: nat :: ChargerAt(s, c).hold.Some? && ChargerAt(s, c).hold.value.queued ==>
      from <= c < g.count && ChargerAt(s, c).hold.value.due == due
  }

  lemma SameCalls(g: Layout, s: Sim, t: Sim, from: nat, due: nat)
    requires CallsDue(g, s, from, due)
    requires forall c: nat :: ChargerAt(t, c).hold.Some? && ChargerAt(t, c).hold.value.queued ==>
      ChargerAt(t, c).hold == ChargerAt(s, c).hold
    ensures CallsDue(g, t, from, due)
  {
  }

  lemma ResolvingEndsTheHold(g: Layout, s: Sim, c: nat, tick: nat, d: SessionDraw)
    ensures var t := Resolved(g, s, c, tick, d);
      && (forall i: nat :: i != c ==> ChargerAt(t, i).hold == ChargerAt(s, i).hold)
      && (ChargerAt(t, c).hold.Some? ==> ChargerAt(t, c).hold == ChargerAt(s, c).hold && tick < ChargerAt(s, c).hold.value.due)
  {
    hide StartSession, Finished;
    if ChargerAt(s, c).hold.Some? {
      var hold := ChargerAt(s, c).hold.value;
      StartingMovesNothing(g, Unheld(s, c), hold.request, c, tick, d);
      FinishingMovesNothing(Unheld(s, c), hold.request, Some(c), if hold.queued then Abandoned else ReservationLost, tick);
    }
  }

  lemma ServicingAnswersTheCall(g: Layout, s: Sim, c: nat, tick: nat, draws: Draws)
    requires CallsDue(g, s, c, tick)
    ensures CallsDue(g, Serviced(g, s, c, tick, draws), c + 1, tick)
  {
    hide Left, Maintained, Resolved, ChargerAt;
    var left := Left(s, c, tick);
    var resolved := Resolved(g, left, c, tick, draws.resolve(tick, c));
    LeavingMovesNothing(s, c, tick);
    ResolvingEndsTheHold(g, left, c, tick, draws.resolve(tick, c));
    MaintainingMovesNothing(resolved, c, tick, draws.fault(tick, c));
    var t := Serviced(g, s, c, tick, draws);
    forall i: nat | ChargerAt(t, i).hold.Some? && ChargerAt(t, i).hold.value.queued
      ensures c + 1 <= i < g.count && ChargerAt(t, i).hold.value.due == tick {
      assert ChargerAt(t, i).hold == ChargerAt(resolved, i).hold && ChargerAt(left, i).hold == ChargerAt(s, i).hold;
    }
  }

  lemma FinishingMovesNothing(s: Sim, r: Request, c: Option<nat>, outcome: Outcome, tick: nat)
    ensures Finished(s, r, c, outcome, tick).chargers == s.chargers
    ensures Finished(s, r, c, outcome, tick).waiting == s.waiting
  {
  }

  lemma {:induction false} ServicingAnswersTheCalls(g: Layout, s: Sim, n: nat, tick: nat, draws: Draws)
    requires CallsDue(g, s, 0, tick)
    ensures CallsDue(g, ServicedAll(g, s, n, tick, draws), n, tick)
  {
    hide CallsDue, Serviced;
    if n > 0 {
      ServicingAnswersTheCalls(g, s, n - 1, tick, draws);
      ServicingAnswersTheCall(g, ServicedAll(g, s, n - 1, tick, draws), n - 1, tick, draws);
    }
  }

  predicate Known(g: Layout, list: seq<nat>) {
    forall i :: 0 <= i < |list| ==> list[i] < g.count
  }

  lemma {:induction false} ChargersAreKnown(g: Layout, station: nat, n: nat)
    requires n <= g.count
    ensures Known(g, ChargersOf(g, station, n))
    ensures forall c: nat :: c < n && g.bay(c).station == station ==> c in ChargersOf(g, station, n)
  {
    if n > 0 {
      ChargersAreKnown(g, station, n - 1);
    }
  }

  lemma {:induction false} FreeOnesAreKnown(g: Layout, s: Sim, list: seq<nat>, tick: nat)
    requires Known(g, list)
    ensures Known(g, FreeOf(s, list, tick))
    ensures forall c :: c in list && Free(s, c, tick) ==> c in FreeOf(s, list, tick)
  {
    hide Free;
    if list != [] {
      FreeOnesAreKnown(g, s, list[..|list| - 1], tick);
      assert forall c :: c in list ==> c in list[..|list| - 1] || c == list[|list| - 1];
    }
  }

  lemma CallIsDueNext(g: Layout, s: Sim, station: nat, c: nat, tick: nat, accept: bool)
    requires CallsDue(g, s, 0, tick + 1) && c < g.count && QueueAt(s, station) != []
    ensures CallsDue(g, CalledOnce(s, station, c, tick, accept), 0, tick + 1)
  {
    var t := CalledOnce(s, station, c, tick, accept);
    forall d: nat | ChargerAt(t, d).hold.Some? && ChargerAt(t, d).hold.value.queued
      ensures 0 <= d < g.count && ChargerAt(t, d).hold.value.due == tick + 1 {
      if d != c { assert ChargerAt(t, d) == ChargerAt(s, d); }
    }
  }

  lemma {:induction false} CallsAreDueNext(g: Layout, s: Sim, station: nat, free: seq<nat>, tick: nat, call: nat -> Call)
    requires CallsDue(g, s, 0, tick + 1) && Known(g, free)
    ensures CallsDue(g, CalledAll(g, s, station, free, tick, call), 0, tick + 1)
    decreases |free|
  {
    if free != [] && QueueAt(s, station) != [] && tick + 12 < g.ticks {
      var draw := call(|free|);
      var i := draw.pick % |free|;
      CallIsDueNext(g, s, station, free[i], tick, draw.accept);
      hide CallsDue, CalledOnce;
      CallsAreDueNext(g, CalledOnce(s, station, free[i], tick, draw.accept), station, free[..i] + free[i + 1..], tick, call);
    }
  }

  /** An arrival changes only chargers that were free, and calls nobody. */
  lemma ArrivalsCallNobody(g: Layout, s: Sim, station: nat, free: seq<nat>, tick: nat, arrival: Option<Arrival>)
    ensures var t := Arrived(g, s, station, free, tick, arrival);
      forall c: nat :: ChargerAt(t, c).hold.Some? && ChargerAt(t, c).hold.value.queued ==>
        ChargerAt(t, c).hold == ChargerAt(s, c).hold
  {
    hide Screened, StartSession, Finished;
    if arrival.Some? && tick + 24 < g.ticks {
      var d := arrival.value;
      var candidates := if |d.candidates| > 30 then d.candidates[..30] else d.candidates;
      var (next, user) := Screened(g, s, candidates, tick);
      ScreeningMovesNothing(g, s, candidates, tick);
      if user.Some? {
        var r := Request(next.made, user.value, station, tick, tick + d.patience);
        AdmittingCallsNobody(g, Opened(g, next, r), station, free, r, tick, d);
      }
    }
  }

  lemma AdmittingCallsNobody(g: Layout, s: Sim, station: nat, free: seq<nat>, r: Request, tick: nat, d: Arrival)
    ensures var t := Admitted(g, s, station, free, r, tick, d);
      forall c: nat :: ChargerAt(t, c).hold.Some? && ChargerAt(t, c).hold.value.queued ==>
        ChargerAt(t, c).hold == ChargerAt(s, c).hold
  {
    hide StartSession, Finished;
    FinishingMovesNothing(s, r, if free != [] then Some(free[0]) else None, Failed, tick);
    FinishingMovesNothing(s, r, None, Abandoned, tick);
    if free != [] {
      StartingMovesNothing(g, s, r, free[d.pick % |free|], tick, d.session);
    }
  }

  lemma OperatingCallsForATick(g: Layout, s: Sim, station: nat, tick: nat, draws: Draws)
    requires CallsDue(g, s, 0, tick + 1)
    ensures CallsDue(g, StationTick(g, s, station, tick, draws), 0, tick + 1)
  {
    hide CallsDue, CalledAll, Arrived, FreeOf, ChargersOf, Known, SampledAll, Lapsed;
    var patient, list := Lapsed(s, station, tick), ChargersOf(g, station, g.count);
    var call := (k: nat) => draws.call(tick, station, k);
    var called := CalledAll(g, patient, station, FreeOf(patient, list, tick), tick, call);
    var operated := Operated(g, s, station, tick, draws);
    LapsingMovesNothing(s, station, tick);
    SameCalls(g, s, patient, 0, tick + 1);
    ChargersAreKnown(g, station, g.count);
    FreeOnesAreKnown(g, patient, list, tick);
    CallsAreDueNext(g, patient, station, FreeOf(patient, list, tick), tick, call);
    ArrivalsCallNobody(g, called, station, FreeOf(called, list, tick), tick, draws.arrival(tick, station));
    SameCalls(g, called, operated, 0, tick + 1);
    SamplingMovesNothing(operated, list, tick);
    SameCalls(g, operated, SampledAll(operated, list, tick), 0, tick + 1);
  }

  lemma LapsingMovesNothing(s: Sim, station: nat, tick: nat)
    ensures Lapsed(s, station, tick).chargers == s.chargers
    ensures forall i: nat :: i != station ==> QueueAt(Lapsed(s, station, tick), i) == QueueAt(s, i)
  {
    GivingUpMovesNothing(Queued(s, station, Patient(QueueAt(s, station), tick)), QueueAt(s, station), tick);
    hide GivenUp, Patient;
  }

  lemma {:induction false} StationsCallForATick(g: Layout, s: Sim, n: nat, tick: nat, draws: Draws)
    requires CallsDue(g, s, 0, tick + 1)
    ensures CallsDue(g, StationsTick(g, s, n, tick, draws), 0, tick + 1)
  {
    hide CallsDue, StationTick;
    if n > 0 {
      StationsCallForATick(g, s, n - 1, tick, draws);
      OperatingCallsForATick(g, StationsTick(g, s, n - 1, tick, draws), n - 1, tick, draws);
    }
  }

  /** A call from a queue is answered at the next tick. */
  lemma {:induction false} CallsAreAnsweredNext(g: Layout, draws: Draws, n: nat)
    ensures CallsDue(g, After(g, draws, n), 0, n)
  {
    hide ServicedAll, StationsTick;
    if n > 0 {
      CallsAreAnsweredNext(g, draws, n - 1);
      var serviced := ServicedAll(g, After(g, draws, n - 1), g.count, n - 1, draws);
      ServicingAnswersTheCalls(g, After(g, draws, n - 1), g.count, n - 1, draws);
      assert CallsDue(g, serviced, 0, n);
      StationsCallForATick(g, serviced, g.stations, n - 1, draws);
    }
  }

  // ---- nobody waits beside a free charger ----

  /** Nobody waits at the station, or none of its chargers is free. */
  ghost predicate Occupied(g: Layout, s: Sim, station: nat, tick: nat) {
    QueueAt(s, station) == [] || forall c: nat :: c < g.count && g.bay(c).station == station ==> !Free(s, c, tick)
  }

  ghost predicate FreeAreListed(g: Layout, s: Sim, station: nat, free: seq<nat>, tick: nat) {
    forall c: nat :: c < g.count && g.bay(c).station == station && Free(s, c, tick) ==> c in free
  }

  lemma {:induction false} CallsOccupy(g: Layout, s: Sim, station: nat, free: seq<nat>, tick: nat, call: nat -> Call)
    requires FreeAreListed(g, s, station, free, tick) && tick + 12 < g.ticks
    ensures Occupied(g, CalledAll(g, s, station, free, tick, call), station, tick)
    decreases |free|
  {
    if free != [] && QueueAt(s, station) != [] {
      var draw := call(|free|);
      var i := draw.pick % |free|;
      var next, rest := CalledOnce(s, station, free[i], tick, draw.accept), free[..i] + free[i + 1..];
      forall c: nat | c < g.count && g.bay(c).station == station && Free(next, c, tick) ensures c in rest {
        assert c != free[i] && Free(s, c, tick);
        var j :| 0 <= j < |free| && free[j] == c;
        assert j < i ==> rest[j] == c;
        assert j > i ==> rest[j - 1] == c;
      }
      CallsOccupy(g, next, station, rest, tick, call);
    }
  }

  lemma ArrivalsOccupy(g: Layout, s: Sim, station: nat, free: seq<nat>, tick: nat, arrival: Option<Arrival>)
    requires Occupied(g, s, station, tick) && FreeAreListed(g, s, station, free, tick) && OfStation(g, free, station)
    requires forall c :: c in free ==> c < g.count && Free(s, c, tick)
    ensures Occupied(g, Arrived(g, s, station, free, tick, arrival), station, tick)
  {
    hide Screened, StartSession, Finished, Free;
    if arrival.Some? && tick + 24 < g.ticks {
      var d := arrival.value;
      var candidates := if |d.candidates| > 30 then d.candidates[..30] else d.candidates;
      var (next, user) := Screened(g, s, candidates, tick);
      ScreeningMovesNothing(g, s, candidates, tick);
      SameFree(s, next, tick);
      if user.Some? {
        var r := Request(next.made, user.value, station, tick, tick + d.patience);
        var entered := Opened(g, next, r);
        SameFree(next, entered, tick);
        AdmittingOccupies(g, entered, station, free, r, tick, d);
      }
    }
  }

  lemma SameFree(s: Sim, t: Sim, tick: nat)
    requires t.chargers == s.chargers
    ensures forall c: nat :: Free(t, c, tick) == Free(s, c, tick)
  {
  }

  lemma AdmittingOccupies(g: Layout, s: Sim, station: nat, free: seq<nat>, r: Request, tick: nat, d: Arrival)
    requires Occupied(g, s, station, tick) && FreeAreListed(g, s, station, free, tick) && OfStation(g, free, station)
    requires forall c :: c in free ==> c < g.count && Free(s, c, tick)
    ensures Occupied(g, Admitted(g, s, station, free, r, tick, d), station, tick)
  {
    hide StartSession, Finished, Free;
    var t, queue := Admitted(g, s, station, free, r, tick, d), QueueAt(s, station);
    if free != [] {
      assert free[0] in free && g.bay(free[0]).station == station;
      assert queue == [];
      var c := free[d.pick % |free|];
      StartingMovesNothing(g, s, r, c, tick, d.session);
    }
    FinishingMovesNothing(s, r, if free != [] then Some(free[0]) else None, Failed, tick);
    FinishingMovesNothing(s, r, None, Abandoned, tick);
    if free == [] { SameFree(s, t, tick); }
  }

  lemma {:induction false} FreeOnesAreListed(g: Layout, s: Sim, list: seq<nat>, tick: nat)
    requires Known(g, list)
    ensures forall c :: c in FreeOf(s, list, tick) ==> c < g.count && Free(s, c, tick)
  {
    hide Free;
    if list != [] {
      FreeOnesAreListed(g, s, list[..|list| - 1], tick);
      assert list[|list| - 1] < g.count;
    }
  }

  lemma OperatingOccupies(g: Layout, s: Sim, station: nat, tick: nat, draws: Draws)
    requires tick + 12 < g.ticks
    ensures Occupied(g, StationTick(g, s, station, tick, draws), station, tick)
  {
    hide Lapsed, CalledAll, Arrived, FreeOf, ChargersOf, Known, OfStation, Free, Occupied, SampledAll;
    var patient, list := Lapsed(s, station, tick), ChargersOf(g, station, g.count);
    var call := (k: nat) => draws.call(tick, station, k);
    var called := CalledAll(g, patient, station, FreeOf(patient, list, tick), tick, call);
    ChargersAreKnown(g, station, g.count);
    ChargersAreOfStation(g, station, g.count);
    FreeOnesAreKnown(g, patient, list, tick);
    CallsOccupy(g, patient, station, FreeOf(patient, list, tick), tick, call);
    FreeOnesAreKnown(g, called, list, tick);
    FreeOnesAreOfStation(g, called, list, station, tick);
    FreeOnesAreListed(g, called, list, tick);
    ArrivalsOccupy(g, called, station, FreeOf(called, list, tick), tick, draws.arrival(tick, station));
    SamplingStaysOccupied(g, Operated(g, s, station, tick, draws), list, station, tick, tick);
  }

  lemma SamplingStaysOccupied(g: Layout, s: Sim, list: seq<nat>, station: nat, tick: nat, at: nat)
    requires Occupied(g, s, station, tick)
    ensures Occupied(g, SampledAll(s, list, at), station, tick)
  {
    SamplingMovesNothing(s, list, at);
    hide SampledAll;
    forall c: nat ensures Free(SampledAll(s, list, at), c, tick) == Free(s, c, tick) {
      assert ChargerAt(SampledAll(s, list, at), c) == ChargerAt(s, c).(meter := ChargerAt(SampledAll(s, list, at), c).meter);
    }
  }

  // ---- what happens at one station leaves the others alone ----

  /** Only this station's queue and chargers may have changed. */
  ghost predicate Elsewhere(g: Layout, s: Sim, t: Sim, station: nat) {
    && (forall i: nat :: i != station ==> QueueAt(t, i) == QueueAt(s, i))
    && (forall c: nat :: g.bay(c).station != station ==> SameButMeter(ChargerAt(t, c), ChargerAt(s, c)))
  }

  predicate SameButMeter(a: Charger, b: Charger) {
    a == b.(meter := a.meter)
  }

  lemma ElsewhereTwice(g: Layout, s: Sim, t: Sim, u: Sim, station: nat)
    requires Elsewhere(g, s, t, station) && Elsewhere(g, t, u, station)
    ensures Elsewhere(g, s, u, station)
  {
  }

  lemma {:induction false} CallingIsElsewhere(g: Layout, s: Sim, station: nat, free: seq<nat>, tick: nat, call: nat -> Call)
    requires OfStation(g, free, station)
    ensures Elsewhere(g, s, CalledAll(g, s, station, free, tick, call), station)
    decreases |free|
  {
    if free != [] && QueueAt(s, station) != [] && tick + 12 < g.ticks {
      var draw := call(|free|);
      var i := draw.pick % |free|;
      var next := CalledOnce(s, station, free[i], tick, draw.accept);
      assert Elsewhere(g, s, next, station);
      hide Elsewhere, CalledOnce;
      CallingIsElsewhere(g, next, station, free[..i] + free[i + 1..], tick, call);
      ElsewhereTwice(g, s, next, CalledAll(g, s, station, free, tick, call), station);
    }
  }

  lemma SessionIsAt(g: Layout, s: Sim, r: Request, c: nat, tick: nat, d: SessionDraw)
    requires PackOf(g, s, r.user).energy < g.car(r.user).capacity
    ensures SessionFor(g, s, r, c, tick, d).charger == c
  {
    hide PlanFor, JobFor, Steps, Discount, SpendOf;
  }

  lemma BookingTakesOne(g: Layout, s: Sim, r: Request, row: Session)
    ensures var t := Booked(g, s, r, row);
      t.waiting == s.waiting && forall i: nat :: i != row.charger ==> ChargerAt(t, i) == ChargerAt(s, i)
  {
    hide RevisitAfter, SpendOf, PackOf;
  }

  lemma StartingTouchesOne(g: Layout, s: Sim, r: Request, c: nat, tick: nat, d: SessionDraw)
    ensures var t := StartSession(g, s, r, c, tick, d);
      t.waiting == s.waiting && forall i: nat :: i != c ==> ChargerAt(t, i) == ChargerAt(s, i)
  {
    hide PlanFor, Booked, SessionFor;
    if PackOf(g, s, r.user).energy < g.car(r.user).capacity {
      SessionIsAt(g, s, r, c, tick, d);
      BookingTakesOne(g, s, r, SessionFor(g, s, r, c, tick, d));
    }
  }

  lemma ArrivingIsElsewhere(g: Layout, s: Sim, station: nat, free: seq<nat>, tick: nat, arrival: Option<Arrival>)
    requires OfStation(g, free, station)
    ensures Elsewhere(g, s, Arrived(g, s, station, free, tick, arrival), station)
  {
    hide Screened, StartSession, Finished, Admitted;
    if arrival.Some? && tick + 24 < g.ticks {
      var d := arrival.value;
      var candidates := if |d.candidates| > 30 then d.candidates[..30] else d.candidates;
      var (next, user) := Screened(g, s, candidates, tick);
      ScreeningMovesNothing(g, s, candidates, tick);
      if user.Some? {
        var r := Request(next.made, user.value, station, tick, tick + d.patience);
        AdmittingIsElsewhere(g, Opened(g, next, r), station, free, r, tick, d);
      }
    }
  }

  lemma AdmittingIsElsewhere(g: Layout, s: Sim, station: nat, free: seq<nat>, r: Request, tick: nat, d: Arrival)
    requires OfStation(g, free, station)
    ensures Elsewhere(g, s, Admitted(g, s, station, free, r, tick, d), station)
  {
    hide StartSession, Finished;
    FinishingMovesNothing(s, r, if free != [] then Some(free[0]) else None, Failed, tick);
    FinishingMovesNothing(s, r, None, Abandoned, tick);
    if free != [] {
      StartingTouchesOne(g, s, r, free[d.pick % |free|], tick, d.session);
    }
  }

  lemma StationTicksElsewhere(g: Layout, s: Sim, station: nat, tick: nat, draws: Draws)
    ensures Elsewhere(g, s, StationTick(g, s, station, tick, draws), station)
  {
    hide Lapsed, CalledAll, Arrived, FreeOf, ChargersOf, OfStation, SampledAll, Elsewhere;
    var patient, list := Lapsed(s, station, tick), ChargersOf(g, station, g.count);
    var call := (k: nat) => draws.call(tick, station, k);
    var called := CalledAll(g, patient, station, FreeOf(patient, list, tick), tick, call);
    var operated := Operated(g, s, station, tick, draws);
    ChargersAreOfStation(g, station, g.count);
    FreeOnesAreOfStation(g, patient, list, station, tick);
    FreeOnesAreOfStation(g, called, list, station, tick);
    LapsingIsElsewhere(g, s, station, tick);
    CallingIsElsewhere(g, patient, station, FreeOf(patient, list, tick), tick, call);
    ArrivingIsElsewhere(g, called, station, FreeOf(called, list, tick), tick, draws.arrival(tick, station));
    SamplingIsElsewhere(g, operated, list, station, tick);
    ElsewhereTwice(g, s, patient, called, station);
    ElsewhereTwice(g, s, called, operated, station);
    ElsewhereTwice(g, s, operated, SampledAll(operated, list, tick), station);
  }

  lemma LapsingIsElsewhere(g: Layout, s: Sim, station: nat, tick: nat)
    ensures Elsewhere(g, s, Lapsed(s, station, tick), station)
  {
    LapsingMovesNothing(s, station, tick);
    hide Lapsed;
  }

  lemma SamplingIsElsewhere(g: Layout, s: Sim, list: seq<nat>, station: nat, tick: nat)
    ensures Elsewhere(g, s, SampledAll(s, list, tick), station)
  {
    SamplingMovesNothing(s, list, tick);
    hide SampledAll;
  }

  lemma ElsewhereOccupied(g: Layout, s: Sim, t: Sim, station: nat, other: nat, tick: nat)
    requires Occupied(g, s, other, tick) && Elsewhere(g, s, t, station) && other != station
    ensures Occupied(g, t, other, tick)
  {
    forall c: nat | g.bay(c).station == other ensures Free(t, c, tick) == Free(s, c, tick) {
      assert SameButMeter(ChargerAt(t, c), ChargerAt(s, c));
    }
  }

  lemma {:induction false} StationsOccupied(g: Layout, s: Sim, n: nat, tick: nat, draws: Draws, station: nat)
    requires tick + 12 < g.ticks && station < n
    ensures Occupied(g, StationsTick(g, s, n, tick, draws), station, tick)
  {
    hide Occupied, StationTick, Elsewhere;
    var before := StationsTick(g, s, n - 1, tick, draws);
    if station == n - 1 {
      OperatingOccupies(g, before, station, tick, draws);
    } else {
      StationsOccupied(g, s, n - 1, tick, draws, station);
      StationTicksElsewhere(g, before, n - 1, tick, draws);
      ElsewhereOccupied(g, before, StationTick(g, before, n - 1, tick, draws), n - 1, station, tick);
    }
  }

  /** Until the last hour of a run no charger of a station is free after a tick while
      somebody waits there. */
  lemma NobodyWaitsBesideAFreeCharger(g: Layout, draws: Draws, n: nat, station: nat, c: nat)
    requires station < g.stations && c < g.count && g.bay(c).station == station && n + 12 < g.ticks
    requires QueueAt(After(g, draws, n + 1), station) != []
    ensures !Free(After(g, draws, n + 1), c, n)
  {
    hide StationsTick, ServicedAll, Free;
    StationsOccupied(g, ServicedAll(g, After(g, draws, n), g.count, n, draws), g.stations, n, draws, station);
  }

  // ---- nobody waits longer than their patience ----

  predicate AllPatient(queue: seq<Request>, tick: nat) {
    forall r :: r in queue ==> tick < r.patience
  }

  lemma {:induction false} PatientOnesRemain(queue: seq<Request>, tick: nat)
    ensures AllPatient(Patient(queue, tick), tick)
  {
    if queue != [] {
      PatientOnesRemain(queue[1..], tick);
    }
  }

  lemma LapsedArePatient(s: Sim, station: nat, tick: nat)
    ensures AllPatient(QueueAt(Lapsed(s, station, tick), station), tick)
  {
    var queue := QueueAt(s, station);
    PatientOnesRemain(queue, tick);
    GivingUpMovesNothing(Queued(s, station, Patient(queue, tick)), queue, tick);
    hide GivenUp, Patient;
  }

  lemma {:induction false} CallsLeavePatient(g: Layout, s: Sim, station: nat, free: seq<nat>, tick: nat, call: nat -> Call)
    requires AllPatient(QueueAt(s, station), tick)
    ensures AllPatient(QueueAt(CalledAll(g, s, station, free, tick, call), station), tick)
    decreases |free|
  {
    if free != [] && QueueAt(s, station) != [] && tick + 12 < g.ticks {
      var draw := call(|free|);
      var i := draw.pick % |free|;
      var next := CalledOnce(s, station, free[i], tick, draw.accept);
      assert QueueAt(next, station) == QueueAt(s, station)[1..];
      hide CalledOnce;
      CallsLeavePatient(g, next, station, free[..i] + free[i + 1..], tick, call);
    }
  }

  lemma ArrivalsArePatient(g: Layout, s: Sim, station: nat, free: seq<nat>, tick: nat, arrival: Option<Arrival>)
    requires AllPatient(QueueAt(s, station), tick)
    ensures AllPatient(QueueAt(Arrived(g, s, station, free, tick, arrival), station), tick)
  {
    hide Screened, StartSession, Finished;
    if arrival.Some? && tick + 24 < g.ticks {
      var d := arrival.value;
      var candidates := if |d.candidates| > 30 then d.candidates[..30] else d.candidates;
      var (next, user) := Screened(g, s, candidates, tick);
      ScreeningMovesNothing(g, s, candidates, tick);
      if user.Some? {
        var r := Request(next.made, user.value, station, tick, tick + d.patience);
        var entered := Opened(g, next, r);
        FinishingMovesNothing(entered, r, if free != [] then Some(free[0]) else None, Failed, tick);
        FinishingMovesNothing(entered, r, None, Abandoned, tick);
        if free != [] {
          StartingMovesNothing(g, entered, r, free[d.pick % |free|], tick, d.session);
        }
      }
    }
  }

  lemma OperatingLeavesPatient(g: Layout, s: Sim, station: nat, tick: nat, draws: Draws)
    ensures AllPatient(QueueAt(StationTick(g, s, station, tick, draws), station), tick)
  {
    hide Lapsed, CalledAll, Arrived, FreeOf, ChargersOf, AllPatient, SampledAll;
    var patient, list := Lapsed(s, station, tick), ChargersOf(g, station, g.count);
    var call := (k: nat) => draws.call(tick, station, k);
    var called := CalledAll(g, patient, station, FreeOf(patient, list, tick), tick, call);
    LapsedArePatient(s, station, tick);
    CallsLeavePatient(g, patient, station, FreeOf(patient, list, tick), tick, call);
    ArrivalsArePatient(g, called, station, FreeOf(called, list, tick), tick, draws.arrival(tick, station));
    SamplingMovesNothing(Operated(g, s, station, tick, draws), list, tick);
  }

  lemma {:induction false} StationsLeavePatient(g: Layout, s: Sim, n: nat, tick: nat, draws: Draws, station: nat)
    requires station < n
    ensures AllPatient(QueueAt(StationsTick(g, s, n, tick, draws), station), tick)
  {
    hide AllPatient, StationTick;
    var before := StationsTick(g, s, n - 1, tick, draws);
    if station == n - 1 {
      OperatingLeavesPatient(g, before, station, tick, draws);
    } else {
      StationsLeavePatient(g, s, n - 1, tick, draws, station);
      StationTicksElsewhere(g, before, n - 1, tick, draws);
    }
  }

  /** After every tick whoever waits still has patience. */
  lemma NobodyWaitsTooLong(g: Layout, draws: Draws, n: nat, station: nat, r: Request)
    requires station < g.stations && r in QueueAt(After(g, draws, n + 1), station)
    ensures n < r.patience
  {
    hide StationsTick, ServicedAll;
    StationsLeavePatient(g, ServicedAll(g, After(g, draws, n), g.count, n, draws), g.stations, n, draws, station);
  }
}
