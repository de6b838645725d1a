/** The generator itself: its fields are changed tick by tick, and each method
    does what the step of the same meaning does to the whole state. */
module Simulator {
  import opened Basics
  import opened SimulatorSession
  import opened SimulatorWorld
  import opened SimulatorTurns

  class Simulator {
    const g: Layout
    const draws: Draws
    var chargers: map<nat, Charger>
    var waiting: map<nat, seq<Request>>
    var locks: map<nat, nat>
    var packs: map<nat, Pack>
    var made: nat
    var closed: seq<Close>
    var sessions: seq<Session>
    var samples: map<nat, seq<Sample>>
    var tickets: seq<Ticket>
    var journal: map<nat, seq<Entry>>
    var spend: map<(nat, nat), nat>
    var raised: bool

    function View(): Sim
      reads this
    {
      Sim(chargers, waiting, locks, packs, made, closed, sessions, samples, tickets, journal, spend, raised)
    }

    constructor (g: Layout, draws: Draws)
      ensures this.g == g && this.draws == draws && View() == EMPTY
    {
      this.g, this.draws := g, draws;
      chargers, waiting, locks, packs, made, closed := map[], map[], map[], map[], 0, [];
      sessions, samples, tickets, journal, spend, raised := [], map[], [], map[], map[], false;
    }

    method FinalizeRequest(r: Request, charger: Option<nat>, outcome: Outcome, tick: nat)
      modifies this`closed, this`locks
      ensures View() == Finished(old(View()), r, charger, outcome, tick)
      ensures closed == old(closed) + [Close(r.id, r.user, r.station, charger, outcome)]
      ensures locks == if outcome.Began? then old(locks) else old(locks)[r.user := tick + 3]
    {
      closed := closed + [Close(r.id, r.user, r.station, charger, outcome)];
      if !outcome.Began? {
        locks := locks[r.user := tick + 3];
      }
    }

    /** What the vehicle drives, and what it charges elsewhere, between two ticks. */
    method Roam(capacity: nat, from: nat, to: nat, before: nat, wanted: nat) returns (drive: nat, external: nat)
      requires capacity >= 2
      ensures (drive, external) == Roaming(capacity, from, to, before, wanted)
      ensures drive <= before + external
    {
      hide Reserve, ToppedUp;
      var reserve := Reserve(capacity);
      external := 0;
      if wanted + reserve > before && to - from >= 144 {
        external := ToppedUp(wanted + reserve - before, capacity / 2);
      }
      drive := Min(wanted, Max(0, before + external - reserve));
    }

    method RefreshVehicle(user: nat, tick: nat)
      modifies this`packs, this`journal
      ensures View() == Refreshed(g, old(View()), user, tick)
    {
      hide Roaming, Get;
      var pack := PackOf(g, View(), user);
      if tick <= pack.tick {
        return;
      }
      var wanted := g.driving(user, pack.tick, tick);
      var drive, external := Roam(g.car(user).capacity, pack.tick, tick, pack.energy, wanted);
      journal := journal[user := Get(journal, user, []) + [Roamed(pack.tick, tick, drive, external)]];
      packs := packs[user := Pack(pack.energy + external - drive, tick)];
    }

    /** The row of a session: its plan, the charging loop, the stay and the fees. */
    method ChargeSession(r: Request, c: nat, tick: nat, d: SessionDraw) returns (row: Session)
      requires PackOf(g, View(), r.user).energy < g.car(r.user).capacity
      ensures row == SessionFor(g, View(), r, c, tick, d)
    {
      hide Steps, Wh, Grid, Cost, EnergyFee, ServiceFee, SessionPlan, Charged, Discount, ParkingFee, FreeParking, Block,
        PlanFor, PackOf, SpendOf, ActualTarget;
      var car, bay := g.car(r.user), g.bay(c);
      var site := g.site(bay.station);
      var plan, job := PlanFor(g, View(), r, c, tick, d), JobFor(g, View(), r, c, tick, d);
      assert job.kw >= 0.0 by {
        ShareOf(MinReal(bay.rated, car.acceptance), if d.anomaly.Derating? then 0.4 else 1.0);
      }
      var steps, energy, grid, energyFee, serviceFee, cost := Charge(job);
      var end := tick + |steps|;
      var stop := TargetReached;
      if d.anomaly.EarlyStop? {
        stop := UserStopped;
      }
      if energy < ActualTarget(plan.target, d.anomaly) {
        stop := DurationLimit;
      }
      var unplugged := Max(0, Min(Max(Max(end, tick + plan.connected), end + plan.parking), g.ticks - 2));
      var parking := ParkingFee(Max(0, unplugged - end), FreeParking(bay.ac, site.kind));
      var discount := Discount(SpendOf(View(), (site.city, Block(tick))), d.coupon, energyFee + serviceFee);
      var total: int := energyFee;
      total := total + serviceFee + parking - discount;
      row := Session(r.id, r.user, c, PackOf(g, View(), r.user).energy, tick, end, unplugged, steps, energy, grid,
                     energyFee, serviceFee, parking, discount, total, cost, plan.target, stop, site.city, Block(tick));
    }

    /** The tables of a session that begins. */
    method Enter(row: Session)
      modifies this`sessions, this`spend, this`chargers
      ensures View() == Entered(old(View()), row)
    {
      hide ChargerAt, SpendOf;
      var s, key := View(), (row.city, row.block);
      spend := spend[key := SpendOf(s, key) + row.discount];
      chargers := chargers[row.charger := ChargerAt(s, row.charger).(session := Some(|sessions|))];
      sessions := sessions + [row];
    }

    /** The vehicle of a session that begins. */
    method Stay(user: nat, row: Session, id: nat)
      modifies this`packs, this`journal, this`locks
      ensures View() == Stayed(g, old(View()), user, row, id)
      ensures var segment := g.car(user).segment;
        locks == old(locks)[user := row.unplugged + if segment.Commuter? then 144 else if segment.Family? then 216 else 24]
    {
      hide PackOf, Get;
      var pack := PackOf(g, View(), user);
      packs := packs[user := Pack(pack.energy + row.energy, row.unplugged)];
      journal := journal[user := Get(journal, user, []) + [Plugged(row.start, row.unplugged, id, row.energy)]];
      locks := locks[user := row.unplugged + RevisitAfter(g.car(user).segment)];
    }

    method Book(r: Request, row: Session)
      modifies this`closed, this`locks, this`sessions, this`spend, this`chargers, this`packs, this`journal
      ensures View() == Booked(g, old(View()), r, row)
    {
      hide Entered, Stayed, Finished;
      var id := |sessions|;
      Enter(row);
      Stay(r.user, row, id);
      FinalizeRequest(r, Some(row.charger), Began(id), row.start);
    }

    method StartSession(r: Request, c: nat, tick: nat, d: SessionDraw)
      modifies this`closed, this`locks, this`sessions, this`spend, this`chargers, this`packs, this`journal, this`raised
      ensures View() == SimulatorWorld.StartSession(g, old(View()), r, c, tick, d)
    {
      hide SessionFor, PlanFor, Booked;
      if PackOf(g, View(), r.user).energy >= g.car(r.user).capacity {
        raised := true;
        return;
      }
      if Min(PlanFor(g, View(), r, c, tick, d).limit, g.ticks - 12 - tick) <= 0 {
        FinalizeRequest(r, Some(c), Failed, tick);
        return;
      }
      var row := ChargeSession(r, c, tick, d);
      Book(r, row);
    }

    method ResolveHold(c: nat, tick: nat)
      requires ChargerAt(View(), c).hold.Some? && tick >= ChargerAt(View(), c).hold.value.due
      modifies this`closed, this`locks, this`sessions, this`spend, this`chargers, this`packs, this`journal, this`raised
      ensures View() == Resolved(g, old(View()), c, tick, draws.resolve(tick, c))
      ensures ChargerAt(View(), c).hold.None?
      ensures var hold := old(ChargerAt(View(), c).hold.value);
        !hold.accept ==>
          && sessions == old(sessions) && locks == old(locks)[hold.request.user := tick + 3]
          && closed == old(closed) + [Close(hold.request.id, hold.request.user, hold.request.station, Some(c),
                                            if hold.queued then Abandoned else ReservationLost)]
    {
      StartingMovesNothing(g, Unheld(View(), c), ChargerAt(View(), c).hold.value.request, c, tick, draws.resolve(tick, c));
      hide SimulatorWorld.StartSession;
      var hold := Get(chargers, c, IDLE).hold.value;
      chargers := chargers[c := Get(chargers, c, IDLE).(hold := None)];
      if hold.accept {
        StartSession(hold.request, c, tick, draws.resolve(tick, c));
      } else {
        FinalizeRequest(hold.request, Some(c), if hold.queued then Abandoned else ReservationLost, tick);
      }
    }

    /** The car whose stay is over leaves. */
    method Depart(c: nat, tick: nat)
      modifies this`chargers
      ensures View() == Left(old(View()), c, tick)
      ensures var was := old(ChargerAt(View(), c).session);
        ChargerAt(View(), c).session == if was.Some? && was.value < |sessions| && sessions[was.value].unplugged <= tick then None else was
    {
      var charger := ChargerAt(View(), c);
      if charger.session.Some? && charger.session.value < |sessions| && tick >= sessions[charger.session.value].unplugged {
        chargers := chargers[c := charger.(session := None)];
      }
    }

    method Service(c: nat, tick: nat)
      modifies this
      ensures View() == Serviced(g, old(View()), c, tick, draws)
    {
      hide Left, Resolved, Maintained, ChargerAt;
      Depart(c, tick);
      if ChargerAt(View(), c).hold.Some? && tick >= ChargerAt(View(), c).hold.value.due {
        ResolveHold(c, tick);
      } else {
        NothingToResolve(g, View(), c, tick, draws.resolve(tick, c));
      }
      Maintain(c, tick);
    }

    /** A free charger may break down. */
    method Maintain(c: nat, tick: nat)
      modifies this`tickets, this`chargers
      ensures View() == Maintained(old(View()), c, tick, draws.fault(tick, c))
    {
      if Free(View(), c, tick) && draws.fault(tick, c).Some? {
        var fault := draws.fault(tick, c).value;
        tickets := tickets + [Ticket(c, tick, tick + fault.downtime)];
        chargers := chargers[c := ChargerAt(View(), c).(blocked := tick + fault.downtime, offline := fault.offline)];
      }
    }

    /** Those whose patience has run out leave the queue, in order. */
    method GiveUp(station: nat, tick: nat)
      modifies this`closed, this`locks, this`waiting
      ensures View() == Lapsed(old(View()), station, tick)
      ensures forall r :: r in QueueAt(View(), station) <==> r in QueueAt(old(View()), station) && tick < r.patience
      ensures forall k :: |old(closed)| <= k < |closed| ==> closed[k].charger == None && closed[k].outcome == Abandoned
    {
      PatienceDecides(QueueAt(View(), station), tick);
      hide Finished, GivenUp, Patient;
      var queue, remaining: seq<Request>, n := Get(waiting, station, []), [], 0;
      ghost var start := View();
      NobodyLeft(start, queue, tick, remaining);
      while n < |queue|
        invariant n <= |queue|
        invariant waiting == start.waiting && View() == start.(closed := closed, locks := locks)
        invariant |closed| >= |start.closed|
        invariant forall k :: |start.closed| <= k < |closed| ==> closed[k].charger == None && closed[k].outcome == Abandoned
        invariant GivenUp(View(), queue[n..], tick) == GivenUp(start, queue, tick)
        invariant remaining + Patient(queue[n..], tick) == Patient(queue, tick)
      {
        NextInLine(View(), queue, n, tick, remaining);
        if tick >= queue[n].patience {
          FinalizeRequest(queue[n], None, Abandoned, tick);
        } else {
          remaining := remaining + [queue[n]];
        }
        n := n + 1;
      }
      NobodyLeft(View(), queue, tick, remaining);
      GivingUpIgnoresQueues(start, queue, tick, start.waiting[station := Patient(queue, tick)]);
      waiting := waiting[station := remaining];
    }

    method CallOnce(station: nat, c: nat, tick: nat, accept: bool)
      requires QueueAt(View(), station) != []
      modifies this`waiting, this`chargers
      ensures View() == CalledOnce(old(View()), station, c, tick, accept)
    {
      var queue := Get(waiting, station, []);
      waiting := waiting[station := queue[1..]];
      chargers := chargers[c := Get(chargers, c, IDLE).(hold := Some(Hold(queue[0], tick + 1, accept, true)))];
    }

    method Call(station: nat, tick: nat, available: seq<nat>)
      modifies this`waiting, this`chargers
      ensures View() == CalledAll(g, old(View()), station, available, tick, (k: nat) => draws.call(tick, station, k))
    {
      hide CalledOnce, Get;
      var free := available;
      ghost var call := (k: nat) => draws.call(tick, station, k);
      while free != []
        invariant CalledAll(g, View(), station, free, tick, call) == CalledAll(g, old(View()), station, available, tick, call)
        decreases |free|
      {
        if QueueAt(View(), station) == [] || tick + 12 >= g.ticks {
          break;
        }
        var draw := draws.call(tick, station, |free|);
        var i := draw.pick % |free|;
        CallOnce(station, free[i], tick, draw.accept);
        free := free[..i] + free[i + 1..];
      }
    }

    /** The first suitable candidate among the first thirty. */
    method Screen(candidates: seq<Candidate>, tick: nat) returns (user: Option<nat>)
      modifies this`packs, this`journal
      ensures (View(), user) == Screened(g, old(View()), candidates, tick)
    {
      hide Refreshed;
      for n := 0 to |candidates|
        invariant Screened(g, View(), candidates[n..], tick) == Screened(g, old(View()), candidates, tick)
      {
        assert candidates[n..][1..] == candidates[n + 1..];
        var candidate := candidates[n];
        if Get(locks, candidate.user, 0) > tick || candidate.skip {
          continue;
        }
        RefreshVehicle(candidate.user, tick);
        if PackOf(g, View(), candidate.user).energy * 100 >= 85 * g.car(candidate.user).capacity {
          continue;
        }
        return Some(candidate.user);
      }
      return None;
    }

    method Admit(station: nat, r: Request, tick: nat, available: seq<nat>, d: Arrival)
      modifies this
      ensures View() == Admitted(g, old(View()), station, available, r, tick, d)
    {
      hide SimulatorWorld.StartSession;
      var queue := Get(waiting, station, []);
      if d.fails {
        FinalizeRequest(r, if available != [] then Some(available[0]) else None, Failed, tick);
      } else if available != [] && queue == [] {
        var c := available[d.pick % |available|];
        if d.reserves {
          chargers := chargers[c := Get(chargers, c, IDLE).(hold := Some(Hold(r, tick + d.delay, d.confirms, false)))];
        } else {
          StartSession(r, c, tick, d.session);
        }
      } else if d.queues && |queue| < 20 {
        waiting := waiting[station := queue + [r]];
      } else {
        FinalizeRequest(r, None, Abandoned, tick);
      }
    }

    method NewRequest(station: nat, tick: nat, available: seq<nat>)
      modifies this
      ensures View() == Arrived(g, old(View()), station, available, tick, draws.arrival(tick, station))
    {
      hide Screened, Admitted;
      var arrival := draws.arrival(tick, station);
      if arrival.None? || tick + 24 >= g.ticks {
        return;
      }
      var d := arrival.value;
      var user := Screen(if |d.candidates| > 30 then d.candidates[..30] else d.candidates, tick);
      if user.None? {
        return;
      }
      var r := Request(made, user.value, station, tick, tick + d.patience);
      made, locks := made + 1, locks[r.user := g.ticks + 1];
      Admit(station, r, tick, available, d);
    }

    method Telemetry(c: nat, tick: nat)
      modifies this`samples, this`chargers
      ensures View() == Sampled(old(View()), c, tick)
    {
      var charger := Get(chargers, c, IDLE);
      var state, session: Option<nat>, wh, grid, cost := Available, None, 0, 0, 0;
      if charger.session.Some? && charger.session.value < |sessions| {
        session := charger.session;
        var row := sessions[charger.session.value];
        if tick < row.end && row.start <= tick < row.start + |row.steps| {
          var step := row.steps[tick - row.start];
          state, wh, grid, cost := Charging, step.wh, step.grid, step.cost;
        } else {
          state := Occupied;
        }
      } else if charger.hold.Some? {
        state := Reserved;
      } else if tick < charger.blocked {
        state := if charger.offline then Offline else Maintenance;
      }
      var meter := charger.meter + wh;
      chargers := chargers[c := charger.(meter := meter)];
      samples := samples[c := Get(samples, c, []) + [Sample(state, session, wh, grid, cost, meter)]];
    }

    method TickStation(station: nat, tick: nat)
      modifies this
      ensures View() == StationTick(g, old(View()), station, tick, draws)
    {
      hide Lapsed, CalledAll, Arrived, Sampled, FreeOf, ChargersOf;
      var list := ChargersOf(g, station, g.count);
      GiveUp(station, tick);
      Call(station, tick, FreeOf(View(), list, tick));
      NewRequest(station, tick, FreeOf(View(), list, tick));
      ghost var operated := View();
      for n := 0 to |list|
        invariant View() == SampledAll(operated, list[..n], tick)
      {
        assert list[..n + 1][..n] == list[..n];
        Telemetry(list[n], tick);
      }
      assert list[..|list|] == list;
    }

    method Tick(tick: nat)
      modifies this
      ensures View() == Ticked(g, old(View()), tick, draws)
    {
      hide Serviced, StationTick;
      ghost var start := View();
      for c := 0 to g.count
        invariant View() == ServicedAll(g, start, c, tick, draws)
      {
        Service(c, tick);
      }
      for station := 0 to g.stations
        invariant View() == StationsTick(g, ServicedAll(g, start, g.count, tick, draws), station, tick, draws)
      {
        TickStation(station, tick);
      }
    }

    /** The requests of a queue that still wait at the end of the period. */
    method EndQueue(station: nat)
      modifies this`waiting, this`closed, this`locks
      ensures View() == Flushed(Queued(old(View()), station, []), QueueAt(old(View()), station), g.ticks)
      ensures var queue := QueueAt(old(View()), station);
        && |closed| == |old(closed)| + |queue|
        && forall k :: 0 <= k < |queue| ==>
             closed[|old(closed)| + k] == Close(queue[k].id, queue[k].user, queue[k].station, None, StillQueued)
      ensures forall i: nat :: i != station ==> QueueAt(View(), i) == QueueAt(old(View()), i)
    {
      hide Finished;
      var queue := QueueAt(View(), station);
      waiting := waiting[station := []];
      ghost var emptied := View();
      for n := 0 to |queue|
        invariant View() == Flushed(emptied, queue[..n], g.ticks)
        invariant |closed| == |old(closed)| + n
        invariant forall k :: 0 <= k < n ==>
          closed[|old(closed)| + k] == Close(queue[k].id, queue[k].user, queue[k].station, None, StillQueued)
        invariant waiting == emptied.waiting
      {
        assert queue[..n + 1][..n] == queue[..n];
        FinalizeRequest(queue[n], None, StillQueued, g.ticks);
      }
      assert queue[..|queue|] == queue;
    }

    method Run()
      requires View() == EMPTY
      modifies this
      ensures View() == SimulatorWorld.Run(g, draws)
    {
      hide Ticked, Flushed, Queued, QueueAt;
      for tick := 0 to g.ticks
        invariant View() == After(g, draws, tick)
      {
        Tick(tick);
      }
      ghost var last := View();
      for station := 0 to g.stations
        invariant View() == FlushedAll(g, last, station)
        invariant forall i: nat :: i >= station ==> QueueAt(View(), i) == QueueAt(last, i)
      {
        EndQueue(station);
      }
    }
  }

  lemma NextInLine(s: Sim, queue: seq<Request>, n: nat, tick: nat, remaining: seq<Request>)
    requires n < |queue|
    ensures var gone := tick >= queue[n].patience;
      && GivenUp(s, queue[n..], tick)
         == GivenUp(if gone then Finished(s, queue[n], None, Abandoned, tick) else s, queue[n + 1..], tick)
      && remaining + Patient(queue[n..], tick)
         == (if gone then remaining else remaining + [queue[n]]) + Patient(queue[n + 1..], tick)
  {
    hide Finished;
    assert queue[n..][1..] == queue[n + 1..];
    assert remaining + ([queue[n]] + Patient(queue[n + 1..], tick)) == remaining + [queue[n]] + Patient(queue[n + 1..], tick);
  }

  lemma NobodyLeft(s: Sim, queue: seq<Request>, tick: nat, remaining: seq<Request>)
    ensures GivenUp(s, queue[|queue|..], tick) == s && remaining + Patient(queue[|queue|..], tick) == remaining
    ensures queue[0..] == queue && [] + Patient(queue, tick) == Patient(queue, tick)
  {
  }

  lemma {:induction false} PatienceDecides(queue: seq<Request>, tick: nat)
    ensures forall r :: r in Patient(queue, tick) <==> r in queue && tick < r.patience
  {
    if queue != [] {
      PatienceDecides(queue[1..], tick);
      assert queue == [queue[0]] + queue[1..];
    }
  }

  lemma NothingToResolve(g: Layout, s: Sim, c: nat, tick: nat, d: SessionDraw)
    requires ChargerAt(s, c).hold.None? || tick < ChargerAt(s, c).hold.value.due
    ensures Resolved(g, s, c, tick, d) == s
  {
  }

  lemma {:induction false} GivingUpIgnoresQueues(s: Sim, queue: seq<Request>, tick: nat, queues: map<nat, seq<Request>>)
    ensures GivenUp(s.(waiting := queues), queue, tick) == GivenUp(s, queue, tick).(waiting := queues)
    ensures GivenUp(s, queue, tick).waiting == s.waiting
    decreases queue
  {
    if queue != [] {
      var next := if tick >= queue[0].patience then Finished(s, queue[0], None, Abandoned, tick) else s;
      GivingUpIgnoresQueues(next, queue[1..], tick, queues);
    }
  }
}
