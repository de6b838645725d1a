/** Where requests are: a request waits at the station it came to, is held only at
    that station's chargers, and is served or lost there. */
module SimulatorPlaces {
  import opened Basics
  import opened SimulatorSession
  import opened SimulatorWorld

  /** A finalisation that names a charger names one of the request's station. */
  predicate ServedThere(g: Layout, x: Close) {
    x.charger.Some? ==> x.station == g.bay(x.charger.value).station
  }

  ghost predicate HoldsPlaced(g: Layout, s: Sim) {
    forall c: nat :: ChargerAt(s, c).hold.Some? ==> ChargerAt(s, c).hold.value.request.station == g.bay(c).station
  }

  predicate AllFrom(queue: seq<Request>, station: nat) {
    forall k :: 0 <= k < |queue| ==> queue[k].station == station
  }

  ghost predicate QueuesPlaced(s: Sim) {
    forall i: nat :: AllFrom(QueueAt(s, i), i)
  }

  ghost predicate Placed(g: Layout, s: Sim) {
    && HoldsPlaced(g, s) && QueuesPlaced(s)
    && forall k :: 0 <= k < |s.closed| ==> ServedThere(g, s.closed[k])
  }

  predicate OfStation(g: Layout, list: seq<nat>, station: nat) {
    forall i :: 0 <= i < |list| ==> g.bay(list[i]).station == station
  }

  lemma {:induction false} ChargersAreOfStation(g: Layout, station: nat, n: nat)
    ensures OfStation(g, ChargersOf(g, station, n), station)
  {
    if n > 0 {
      ChargersAreOfStation(g, station, n - 1);
    }
  }

  lemma {:induction false} FreeOnesAreOfStation(g: Layout, s: Sim, list: seq<nat>, station: nat, tick: nat)
    requires OfStation(g, list, station)
    ensures OfStation(g, FreeOf(s, list, tick), station)
  {
    hide Free;
    if list != [] {
      FreeOnesAreOfStation(g, s, list[..|list| - 1], station, tick);
    }
  }

  // ---- what each step does to the places ----

  lemma SamePlaces(g: Layout, s: Sim, t: Sim)
    requires Placed(g, s) && (t.waiting, t.closed) == (s.waiting, s.closed)
    requires forall c: nat :: ChargerAt(t, c).hold.Some? ==> ChargerAt(t, c).hold == ChargerAt(s, c).hold
    ensures Placed(g, t)
  {
    forall i: nat ensures AllFrom(QueueAt(t, i), i) {
      assert AllFrom(QueueAt(s, i), i);
    }
  }

  lemma FinishingIsPlaced(g: Layout, s: Sim, r: Request, c: Option<nat>, outcome: Outcome, tick: nat)
    requires Placed(g, s) && (c.Some? ==> r.station == g.bay(c.value).station)
    ensures Placed(g, Finished(s, r, c, outcome, tick))
  {
    var t := Finished(s, r, c, outcome, tick);
    forall i: nat ensures AllFrom(QueueAt(t, i), i) {
      assert AllFrom(QueueAt(s, i), i);
    }
    forall k | 0 <= k < |t.closed| ensures ServedThere(g, t.closed[k]) {
      assert k < |s.closed| ==> t.closed[k] == s.closed[k];
    }
  }

  lemma BookingIsPlaced(g: Layout, s: Sim, r: Request, row: Session)
    requires Placed(g, s) && r.station == g.bay(row.charger).station
    ensures Placed(g, Booked(g, s, r, row))
  {
    var t := Booked(g, s, r, row);
    hide Placed;
    FinishingIsPlaced(g, s, r, Some(row.charger), Began(|s.sessions|), row.start);
    SamePlaces(g, Finished(s, r, Some(row.charger), Began(|s.sessions|), row.start), t);
  }

  lemma StartingIsPlaced(g: Layout, s: Sim, r: Request, c: nat, tick: nat, d: SessionDraw)
    requires Placed(g, s) && r.station == g.bay(c).station
    ensures Placed(g, StartSession(g, s, r, c, tick, d))
  {
    hide Placed, PlanFor, Booked, Finished;
    if PackOf(g, s, r.user).energy >= g.car(r.user).capacity {
      SamePlaces(g, s, s.(raised := true));
    } else if Min(PlanFor(g, s, r, c, tick, d).limit, g.ticks - 12 - tick) <= 0 {
      FinishingIsPlaced(g, s, r, Some(c), Failed, tick);
    } else {
      BookingIsPlaced(g, s, r, SessionFor(g, s, r, c, tick, d));
    }
  }

  lemma LeavingIsPlaced(g: Layout, s: Sim, c: nat, tick: nat)
    requires Placed(g, s)
    ensures Placed(g, Left(s, c, tick))
  {
    hide Placed;
    var charger := ChargerAt(s, c);
    if charger.session.Some? && charger.session.value < |s.sessions| && tick >= s.sessions[charger.session.value].unplugged {
      SamePlaces(g, s, s.(chargers := s.chargers[c := charger.(session := None)]));
    }
  }

  lemma MaintainingIsPlaced(g: Layout, s: Sim, c: nat, tick: nat, fault: Option<Fault>)
    requires Placed(g, s)
    ensures Placed(g, Maintained(s, c, tick, fault))
  {
    hide Placed;
    if Free(s, c, tick) && fault.Some? {
      var end := tick + fault.value.downtime;
      SamePlaces(g, s, s.(tickets := s.tickets + [Ticket(c, tick, end)],
        chargers := s.chargers[c := ChargerAt(s, c).(blocked := end, offline := fault.value.offline)]));
    }
  }

  lemma ServicingIsPlaced(g: Layout, s: Sim, c: nat, tick: nat, draws: Draws)
    requires Placed(g, s)
    ensures Placed(g, Serviced(g, s, c, tick, draws))
  {
    hide Placed, Left, Resolved, Maintained;
    var left := Left(s, c, tick);
    LeavingIsPlaced(g, s, c, tick);
    ResolvingIsPlaced(g, left, c, tick, draws.resolve(tick, c));
    MaintainingIsPlaced(g, Resolved(g, left, c, tick, draws.resolve(tick, c)), c, tick, draws.fault(tick, c));
  }

  lemma ResolvingIsPlaced(g: Layout, s: Sim, c: nat, tick: nat, d: SessionDraw)
    requires Placed(g, s)
    ensures Placed(g, Resolved(g, s, c, tick, d))
  {
    var charger := ChargerAt(s, c);
    if charger.hold.Some? && tick >= charger.hold.value.due {
      var hold := charger.hold.value;
      assert hold.request.station == g.bay(c).station;
      hide Placed, Finished, StartSession;
      SamePlaces(g, s, Unheld(s, c));
      StartingIsPlaced(g, Unheld(s, c), hold.request, c, tick, d);
      FinishingIsPlaced(g, Unheld(s, c), hold.request, Some(c), if hold.queued then Abandoned else ReservationLost, tick);
    }
  }

  lemma {:induction false} GivingUpIsPlaced(g: Layout, s: Sim, queue: seq<Request>, tick: nat)
    requires Placed(g, s)
    ensures Placed(g, GivenUp(s, queue, tick))
    decreases queue
  {
    hide Placed, Finished;
    if queue != [] {
      FinishingIsPlaced(g, s, queue[0], None, Abandoned, tick);
      GivingUpIsPlaced(g, if tick >= queue[0].patience then Finished(s, queue[0], None, Abandoned, tick) else s,
                       queue[1..], tick);
    }
  }

  lemma {:induction false} PatientOnesStay(queue: seq<Request>, station: nat, tick: nat)
    requires AllFrom(queue, station)
    ensures AllFrom(Patient(queue, tick), station)
  {
    if queue != [] {
      PatientOnesStay(queue[1..], station, tick);
    }
  }

  lemma QueueingIsPlaced(g: Layout, s: Sim, station: nat, queue: seq<Request>)
    requires Placed(g, s) && AllFrom(queue, station)
    ensures Placed(g, Queued(s, station, queue))
  {
    var t := Queued(s, station, queue);
    forall i: nat ensures AllFrom(QueueAt(t, i), i) {
      assert AllFrom(QueueAt(s, i), i);
    }
  }

  lemma QueueIsPlaced(g: Layout, s: Sim, station: nat)
    requires Placed(g, s)
    ensures AllFrom(QueueAt(s, station), station)
  {
  }

  lemma HoldingIsPlaced(g: Layout, s: Sim, c: nat, hold: Hold)
    requires Placed(g, s) && hold.request.station == g.bay(c).station
    ensures Placed(g, Held(s, c, hold))
  {
    var t := Held(s, c, hold);
    forall i: nat ensures AllFrom(QueueAt(t, i), i) {
      assert AllFrom(QueueAt(s, i), i);
    }
  }

  lemma LapsingIsPlaced(g: Layout, s: Sim, station: nat, tick: nat)
    requires Placed(g, s)
    ensures Placed(g, Lapsed(s, station, tick))
  {
    hide Placed, Queued, GivenUp, Patient;
    var queue := QueueAt(s, station);
    QueueIsPlaced(g, s, station);
    PatientOnesStay(queue, station, tick);
    QueueingIsPlaced(g, s, station, Patient(queue, tick));
    GivingUpIsPlaced(g, Queued(s, station, Patient(queue, tick)), queue, tick);
  }

  lemma {:induction false} CallingIsPlaced(g: Layout, s: Sim, station: nat, free: seq<nat>, tick: nat, call: nat -> Call)
    requires Placed(g, s) && OfStation(g, free, station)
    ensures Placed(g, CalledAll(g, s, station, free, tick, call))
    decreases |free|
  {
    hide Placed, Queued, Held;
    if free != [] && QueueAt(s, station) != [] && tick + 12 < g.ticks {
      var draw, queue := call(|free|), QueueAt(s, station);
      var i := draw.pick % |free|;
      QueueIsPlaced(g, s, station);
      QueueingIsPlaced(g, s, station, queue[1..]);
      HoldingIsPlaced(g, Queued(s, station, queue[1..]), free[i], Hold(queue[0], tick + 1, draw.accept, true));
      CallingIsPlaced(g, CalledOnce(s, station, free[i], tick, draw.accept), station, free[..i] + free[i + 1..], tick, call);
    }
  }

  lemma {:induction false} ScreeningIsPlaced(g: Layout, s: Sim, candidates: seq<Candidate>, tick: nat)
    requires Placed(g, s)
    ensures Placed(g, Screened(g, s, candidates, tick).0)
    decreases candidates
  {
    hide Placed, Roaming;
    if candidates != [] {
      var candidate := candidates[0];
      var next := Refreshed(g, s, candidate.user, tick);
      SamePlaces(g, s, next);
      ScreeningIsPlaced(g, s, candidates[1..], tick);
      ScreeningIsPlaced(g, next, candidates[1..], tick);
    }
  }

  lemma AdmittingIsPlaced(g: Layout, s: Sim, station: nat, free: seq<nat>, r: Request, tick: nat, d: Arrival)
    requires Placed(g, s) && OfStation(g, free, station) && r.station == station
    ensures Placed(g, Admitted(g, s, station, free, r, tick, d))
  {
    hide Placed, Finished, Queued, Held, StartSession;
    var queue := QueueAt(s, station);
    QueueIsPlaced(g, s, station);
    if d.fails {
      FinishingIsPlaced(g, s, r, if free != [] then Some(free[0]) else None, Failed, tick);
    } else if free != [] && queue == [] {
      var c := free[d.pick % |free|];
      HoldingIsPlaced(g, s, c, Hold(r, tick + d.delay, d.confirms, false));
      StartingIsPlaced(g, s, r, c, tick, d.session);
    } else {
      QueueingIsPlaced(g, s, station, queue + [r]);
      FinishingIsPlaced(g, s, r, None, Abandoned, tick);
    }
  }

  lemma ArrivingIsPlaced(g: Layout, s: Sim, station: nat, free: seq<nat>, tick: nat, arrival: Option<Arrival>)
    requires Placed(g, s) && OfStation(g, free, station)
    ensures Placed(g, Arrived(g, s, station, free, tick, arrival))
  {
    hide Placed, Screened, Admitted, OfStation;
    if arrival.Some? && tick + 24 < g.ticks {
      var d := arrival.value;
      var candidates := if |d.candidates| > 30 then d.candidates[..30] else d.candidates;
      var (next, user) := Screened(g, s, candidates, tick);
      ScreeningIsPlaced(g, s, candidates, tick);
      if user.Some? {
        var r := Request(next.made, user.value, station, tick, tick + d.patience);
        SamePlaces(g, next, Opened(g, next, r));
        AdmittingIsPlaced(g, Opened(g, next, r), station, free, r, tick, d);
      }
    }
  }

  // ---- whole ticks and runs ----

  lemma OperatingIsPlaced(g: Layout, s: Sim, station: nat, tick: nat, draws: Draws)
    requires Placed(g, s)
    ensures Placed(g, Operated(g, s, station, tick, draws))
  {
    hide Placed, Lapsed, CalledAll, Arrived, FreeOf, ChargersOf, OfStation;
    var patient, list := Lapsed(s, station, tick), ChargersOf(g, station, g.count);
    var call := (k: nat) => draws.call(tick, station, k);
    var called := CalledAll(g, patient, station, FreeOf(patient, list, tick), tick, call);
    ChargersAreOfStation(g, station, g.count);
    FreeOnesAreOfStation(g, patient, list, station, tick);
    FreeOnesAreOfStation(g, called, list, station, tick);
    LapsingIsPlaced(g, s, station, tick);
    CallingIsPlaced(g, patient, station, FreeOf(patient, list, tick), tick, call);
    ArrivingIsPlaced(g, called, station, FreeOf(called, list, tick), tick, draws.arrival(tick, station));
  }

  lemma {:induction false} SamplingIsPlaced(g: Layout, s: Sim, list: seq<nat>, tick: nat)
    requires Placed(g, s)
    ensures Placed(g, SampledAll(s, list, tick))
  {
    hide Placed, Reading;
    if list != [] {
      SamplingIsPlaced(g, s, list[..|list| - 1], tick);
      var before := SampledAll(s, list[..|list| - 1], tick);
      SamePlaces(g, before, Sampled(before, list[|list| - 1], tick));
    }
  }

  lemma {:induction false} ServicingAllIsPlaced(g: Layout, s: Sim, n: nat, tick: nat, draws: Draws)
    requires Placed(g, s)
    ensures Placed(g, ServicedAll(g, s, n, tick, draws))
  {
    hide Placed, Serviced;
    if n > 0 {
      ServicingAllIsPlaced(g, s, n - 1, tick, draws);
      ServicingIsPlaced(g, ServicedAll(g, s, n - 1, tick, draws), n - 1, tick, draws);
    }
  }

  lemma {:induction false} StationsArePlaced(g: Layout, s: Sim, n: nat, tick: nat, draws: Draws)
    requires Placed(g, s)
    ensures Placed(g, StationsTick(g, s, n, tick, draws))
  {
    hide Placed, Operated, SampledAll, ChargersOf;
    if n > 0 {
      StationsArePlaced(g, s, n - 1, tick, draws);
      var before := StationsTick(g, s, n - 1, tick, draws);
      OperatingIsPlaced(g, before, n - 1, tick, draws);
      SamplingIsPlaced(g, Operated(g, before, n - 1, tick, draws), ChargersOf(g, n - 1, g.count), tick);
    }
  }

  lemma {:induction false} TicksArePlaced(g: Layout, draws: Draws, n: nat)
    ensures Placed(g, After(g, draws, n))
  {
    hide ServicedAll, StationsTick;
    if n > 0 {
      TicksArePlaced(g, draws, n - 1);
      ServicingAllIsPlaced(g, After(g, draws, n - 1), g.count, n - 1, draws);
      StationsArePlaced(g, ServicedAll(g, After(g, draws, n - 1), g.count, n - 1, draws), g.stations, n - 1, draws);
    }
  }

  lemma {:induction false} FlushingIsPlaced(g: Layout, s: Sim, queue: seq<Request>, tick: nat)
    requires Placed(g, s)
    ensures Placed(g, Flushed(s, queue, tick))
  {
    hide Placed, Finished;
    if queue != [] {
      FlushingIsPlaced(g, s, queue[..|queue| - 1], tick);
      FinishingIsPlaced(g, Flushed(s, queue[..|queue| - 1], tick), queue[|queue| - 1], None, StillQueued, tick);
    }
  }

  lemma {:induction false} FlushingAllIsPlaced(g: Layout, s: Sim, n: nat)
    requires Placed(g, s)
    ensures Placed(g, FlushedAll(g, s, n))
  {
    hide Placed, Flushed, Queued;
    if n > 0 {
      var before := FlushedAll(g, s, n - 1);
      FlushingAllIsPlaced(g, s, n - 1);
      QueueingIsPlaced(g, before, n - 1, []);
      FlushingIsPlaced(g, Queued(before, n - 1, []), QueueAt(s, n - 1), g.ticks);
    }
  }

  lemma RunsArePlaced(g: Layout, draws: Draws)
    ensures Placed(g, Run(g, draws))
  {
    hide Placed, FlushedAll, After;
    TicksArePlaced(g, draws, g.ticks);
    FlushingAllIsPlaced(g, After(g, draws, g.ticks), g.stations);
  }
}
