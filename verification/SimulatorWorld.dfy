/** The state of the synthetic generator and the steps of one tick.

    Tables that the program keeps in dictionaries and objects are maps with a
    default. `sessions`, `closed`, `tickets`, `samples` and `journal` are the
    rows written so far. A draw is an arbitrary value of its range, looked up
    by the tick and the place that asks for it. */
module SimulatorWorld {
  import opened Basics
  import opened SimulatorSession

  datatype Site = Site(city: nat, kind: SiteType)

  /** Packs of the generated fleet hold between 40 and 90 kWh and take at least
      50 kW; the weakest charger gives 7 kW. */
  type Vehicle = c: Car | c.capacity >= 40000 && c.acceptance >= 1.0 witness Car(0, Commuter, 40000, 50.0)
  type Bay = p: Post | p.rated >= 1.0 witness Post(0, true, 7.0)

  /** `driving` is the energy a vehicle would drive between two ticks. */
  datatype Layout = Layout(
    ticks: nat, count: nat, stations: nat, bay: nat -> Bay, site: nat -> Site, car: nat -> Vehicle,
    initial: nat -> nat, tariff: (nat, nat) -> Tariff, driving: (nat, nat, nat) -> nat)

  datatype Request = Request(id: nat, user: nat, station: nat, tick: nat, patience: nat)
  datatype Outcome = Began(session: nat) | Failed | Abandoned | ReservationLost | StillQueued

  /** The final row of a request; `charger` is the one it was lost or served at. */
  datatype Close = Close(request: nat, user: nat, station: nat, charger: Option<nat>, outcome: Outcome)

  datatype Hold = Hold(request: Request, due: nat, accept: bool, queued: bool)
  datatype Charger = Charger(session: Option<nat>, hold: Option<Hold>, blocked: nat, offline: bool, meter: nat)

  datatype State = Charging | Occupied | Reserved | Maintenance | Offline | Available
  datatype Sample = Sample(state: State, session: Option<nat>, wh: nat, grid: nat, cost: nat, meter: nat)
  datatype Ticket = Ticket(charger: nat, start: nat, end: nat)

  datatype Pack = Pack(energy: nat, tick: nat)
  datatype Entry =
    | Roamed(from: nat, to: nat, drive: nat, external: nat)
    | Plugged(from: nat, to: nat, session: nat, energy: nat)

  /** `raised` records that a session was planned for a full battery, which the program refuses. */
  datatype Sim = Sim(
    chargers: map<nat, Charger>, waiting: map<nat, seq<Request>>, locks: map<nat, nat>, packs: map<nat, Pack>,
    made: nat, closed: seq<Close>, sessions: seq<Session>, samples: map<nat, seq<Sample>>, tickets: seq<Ticket>,
    journal: map<nat, seq<Entry>>, spend: map<(nat, nat), nat>, raised: bool)

  const EMPTY := Sim(map[], map[], map[], map[], 0, [], [], map[], [], map[], map[], false)
  const IDLE := Charger(None, None, 0, false, 0)

  function Get<K, V>(m: map<K, V>, key: K, default: V): V {
    if key in m then m[key] else default
  }

  function ChargerAt(s: Sim, c: nat): Charger {
    Get(s.chargers, c, IDLE)
  }

  function SamplesAt(s: Sim, c: nat): seq<Sample> {
    Get(s.samples, c, [])
  }

  function QueueAt(s: Sim, station: nat): seq<Request> {
    Get(s.waiting, station, [])
  }

  function LockOf(s: Sim, user: nat): nat {
    Get(s.locks, user, 0)
  }

  function PackOf(g: Layout, s: Sim, user: nat): Pack {
    Get(s.packs, user, Pack(g.initial(user), 0))
  }

  function SpendOf(s: Sim, key: (nat, nat)): nat {
    Get(s.spend, key, 0)
  }

  // ---- draws ----

  type Patience = n: int | 3 <= n <= 12 witness 3
  type Delay = n: int | 1 <= n <= 4 witness 1
  type Downtime = n: int | 6 <= n <= 72 witness 6

  datatype Fault = Fault(downtime: Downtime, offline: bool)
  datatype Call = Call(pick: nat, accept: bool)
  datatype Candidate = Candidate(user: nat, skip: bool)

  datatype Arrival = Arrival(
    candidates: seq<Candidate>, patience: Patience, fails: bool, pick: nat, reserves: bool, delay: Delay,
    confirms: bool, queues: bool, session: SessionDraw)

  datatype Draws = Draws(
    fault: (nat, nat) -> Option<Fault>, resolve: (nat, nat) -> SessionDraw, call: (nat, nat, nat) -> Call,
    arrival: (nat, nat) -> Option<Arrival>)

  // ---- the steps ----

  /** A request ends; without a session its user is locked for three more ticks. */
  function Finished(s: Sim, r: Request, charger: Option<nat>, outcome: Outcome, tick: nat): Sim {
    s.(closed := s.closed + [Close(r.id, r.user, r.station, charger, outcome)],
       locks := if outcome.Began? then s.locks else s.locks[r.user := tick + 3])
  }

  function Reserve(capacity: nat): (r: nat)
    ensures capacity >= 2 ==> 2 * r <= capacity
    ensures -0.5 <= r as real - capacity as real * 0.08 <= 0.5
  {
    RoundHalfEven(capacity as real * 0.08)
  }

  /** Half packs, as many as the need takes. */
  function ToppedUp(need: nat, half: nat): (energy: nat)
    requires half > 0
    ensures need <= energy < need + half
  {
    var packs := (need + half - 1) / half;
    assert packs * half + (need + half - 1) % half == need + half - 1;
    packs * half
  }

  /** Driving, and charging elsewhere when half a day has passed and the battery
      would fall below its reserve. */
  function Roaming(capacity: nat, from: nat, to: nat, before: nat, wanted: nat): (nat, nat)
    requires capacity >= 2
  {
    var reserve := Reserve(capacity);
    var external :=
      if wanted + reserve > before && to - from >= 144 then ToppedUp(wanted + reserve - before, capacity / 2) else 0;
    (Min(wanted, Max(0, before + external - reserve)), external)
  }

  function Refreshed(g: Layout, s: Sim, user: nat, tick: nat): Sim {
    var pack, capacity := PackOf(g, s, user), g.car(user).capacity;
    if tick <= pack.tick then s
    else
      var (drive, external) := Roaming(capacity, pack.tick, tick, pack.energy, g.driving(user, pack.tick, tick));
      s.(packs := s.packs[user := Pack(pack.energy + external - drive, tick)],
         journal := s.journal[user := Get(s.journal, user, []) + [Roamed(pack.tick, tick, drive, external)]])
  }

  function RevisitAfter(segment: Segment): nat {
    match segment
    case Commuter => 144
    case Family => 216
    case _ => 24
  }

  function Block(tick: nat): nat {
    tick / DAY / 30
  }

  function Discount(spent: nat, coupon: bool, fees: nat): nat {
    if coupon && spent + DISCOUNT <= BUDGET then Min(fees, DISCOUNT) else 0
  }

  function PlanFor(g: Layout, s: Sim, r: Request, c: nat, tick: nat, d: SessionDraw): Plan
    requires PackOf(g, s, r.user).energy < g.car(r.user).capacity
  {
    var bay := g.bay(c);
    SessionPlan(g.car(r.user), PackOf(g, s, r.user).energy, bay.ac, g.site(bay.station).kind, tick, d.plan)
  }

  function TariffOf(g: Layout, city: nat): nat -> Tariff {
    (hour: nat) => g.tariff(city, hour)
  }

  function JobFor(g: Layout, s: Sim, r: Request, c: nat, tick: nat, d: SessionDraw): Job
    requires PackOf(g, s, r.user).energy < g.car(r.user).capacity
  {
    var bay, plan, city := g.bay(c), PlanFor(g, s, r, c, tick, d), g.site(g.bay(c).station).city;
    Job(tick, ActualTarget(plan.target, d.anomaly), Max(0, Min(plan.limit, g.ticks - 12 - tick)),
        (if d.anomaly.Derating? then 0.4 else 1.0) * MinReal(bay.rated, g.car(r.user).acceptance), bay.ac, d.curve,
        TariffOf(g, city))
  }

  function StopFor(plan: Plan, anomaly: Anomaly, energy: nat): StopReason {
    if energy < ActualTarget(plan.target, anomaly) then DurationLimit
    else if anomaly.EarlyStop? then UserStopped else TargetReached
  }

  function SessionFor(g: Layout, s: Sim, r: Request, c: nat, tick: nat, d: SessionDraw): Session
    requires PackOf(g, s, r.user).energy < g.car(r.user).capacity
  {
    var bay, plan, job := g.bay(c), PlanFor(g, s, r, c, tick, d), JobFor(g, s, r, c, tick, d);
    var site, steps := g.site(bay.station), Steps(job);
    var end := tick + |steps|;
    var unplugged := Max(0, Min(Max(Max(end, tick + plan.connected), end + plan.parking), g.ticks - 2));
    var energyFee, serviceFee := EnergyFee(steps, tick, job.tariff), ServiceFee(steps, tick, job.tariff);
    var parking := ParkingFee(Max(0, unplugged - end), FreeParking(bay.ac, site.kind));
    var discount := Discount(SpendOf(s, (site.city, Block(tick))), d.coupon, energyFee + serviceFee);
    Session(r.id, r.user, c, PackOf(g, s, r.user).energy, tick, end, unplugged, steps, Wh(steps), Grid(steps),
            energyFee, serviceFee, parking, discount, energyFee + serviceFee + parking - discount, Cost(steps), plan.target,
            StopFor(plan, d.anomaly, Wh(steps)), site.city, Block(tick))
  }

  /** The session is written, the charger taken, the campaign charged. */
  function Entered(s: Sim, row: Session): Sim {
    var key := (row.city, row.block);
    s.(sessions := s.sessions + [row],
       spend := s.spend[key := SpendOf(s, key) + row.discount],
       chargers := s.chargers[row.charger := ChargerAt(s, row.charger).(session := Some(|s.sessions|))])
  }

  /** The battery and its user are booked until the car leaves. */
  function Stayed(g: Layout, s: Sim, user: nat, row: Session, id: nat): Sim {
    var pack := PackOf(g, s, user);
    s.(packs := s.packs[user := Pack(pack.energy + row.energy, row.unplugged)],
       journal := s.journal[user := Get(s.journal, user, []) + [Plugged(row.start, row.unplugged, id, row.energy)]],
       locks := s.locks[user := row.unplugged + RevisitAfter(g.car(user).segment)])
  }

  /** A session begins, and its request has been answered. */
  function Booked(g: Layout, s: Sim, r: Request, row: Session): Sim {
    var id := |s.sessions|;
    Finished(Stayed(g, Entered(s, row), r.user, row, id), r, Some(row.charger), Began(id), row.start)
  }

  function StartSession(g: Layout, s: Sim, r: Request, c: nat, tick: nat, d: SessionDraw): Sim {
    if PackOf(g, s, r.user).energy >= g.car(r.user).capacity then s.(raised := true)
    else if Min(PlanFor(g, s, r, c, tick, d).limit, g.ticks - 12 - tick) <= 0 then Finished(s, r, Some(c), Failed, tick)
    else Booked(g, s, r, SessionFor(g, s, r, c, tick, d))
  }

  function Unheld(s: Sim, c: nat): Sim {
    s.(chargers := s.chargers[c := ChargerAt(s, c).(hold := None)])
  }

  function Resolved(g: Layout, s: Sim, c: nat, tick: nat, d: SessionDraw): Sim {
    var charger := ChargerAt(s, c);
    if charger.hold.None? || tick < charger.hold.value.due then s
    else
      var hold := charger.hold.value;
      if hold.accept then StartSession(g, Unheld(s, c), hold.request, c, tick, d)
      else Finished(Unheld(s, c), hold.request, Some(c), if hold.queued then Abandoned else ReservationLost, tick)
  }

  function Left(s: Sim, c: nat, tick: nat): Sim {
    var charger := ChargerAt(s, c);
    if charger.session.Some? && charger.session.value < |s.sessions| && tick >= s.sessions[charger.session.value].unplugged
    then s.(chargers := s.chargers[c := charger.(session := None)]) else s
  }

  predicate Free(s: Sim, c: nat, tick: nat) {
    var charger := ChargerAt(s, c);
    charger.session.None? && charger.hold.None? && tick >= charger.blocked
  }

  function Maintained(s: Sim, c: nat, tick: nat, fault: Option<Fault>): Sim {
    if !Free(s, c, tick) || fault.None? then s
    else
      var end := tick + fault.value.downtime;
      s.(tickets := s.tickets + [Ticket(c, tick, end)],
         chargers := s.chargers[c := ChargerAt(s, c).(blocked := end, offline := fault.value.offline)])
  }

  function Serviced(g: Layout, s: Sim, c: nat, tick: nat, draws: Draws): Sim {
    Maintained(Resolved(g, Left(s, c, tick), c, tick, draws.resolve(tick, c)), c, tick, draws.fault(tick, c))
  }

  function Patient(queue: seq<Request>, tick: nat): seq<Request> {
    if queue == [] then []
    else if tick >= queue[0].patience then Patient(queue[1..], tick)
    else [queue[0]] + Patient(queue[1..], tick)
  }

  function GivenUp(s: Sim, queue: seq<Request>, tick: nat): Sim
    decreases queue
  {
    if queue == [] then s
    else if tick >= queue[0].patience then GivenUp(Finished(s, queue[0], None, Abandoned, tick), queue[1..], tick)
    else GivenUp(s, queue[1..], tick)
  }

  function Queued(s: Sim, station: nat, queue: seq<Request>): Sim {
    s.(waiting := s.waiting[station := queue])
  }

  function Lapsed(s: Sim, station: nat, tick: nat): Sim {
    var queue := QueueAt(s, station);
    GivenUp(Queued(s, station, Patient(queue, tick)), queue, tick)
  }

  function ChargersOf(g: Layout, station: nat, n: nat): seq<nat> {
    if n == 0 then []
    else ChargersOf(g, station, n - 1) + if g.bay(n - 1).station == station then [n - 1] else []
  }

  function FreeOf(s: Sim, list: seq<nat>, tick: nat): seq<nat> {
    if list == [] then []
    else FreeOf(s, list[..|list| - 1], tick) + if Free(s, list[|list| - 1], tick) then [list[|list| - 1]] else []
  }

  function Held(s: Sim, c: nat, hold: Hold): Sim {
    s.(chargers := s.chargers[c := ChargerAt(s, c).(hold := Some(hold))])
  }

  /** The head of the queue is called to some free charger, for one tick. */
  function CalledOnce(s: Sim, station: nat, c: nat, tick: nat, accept: bool): Sim
    requires QueueAt(s, station) != []
  {
    var queue := QueueAt(s, station);
    Held(Queued(s, station, queue[1..]), c, Hold(queue[0], tick + 1, accept, true))
  }

  function CalledAll(g: Layout, s: Sim, station: nat, free: seq<nat>, tick: nat, call: nat -> Call): Sim
    decreases |free|
  {
    if free == [] || QueueAt(s, station) == [] || tick + 12 >= g.ticks then s
    else
      var draw := call(|free|);
      var i := draw.pick % |free|;
      CalledAll(g, CalledOnce(s, station, free[i], tick, draw.accept), station, free[..i] + free[i + 1..], tick, call)
  }

  /** Up to thirty candidates are looked at; the first that is unlocked and below 85 percent comes. */
  function Screened(g: Layout, s: Sim, candidates: seq<Candidate>, tick: nat): (Sim, Option<nat>)
    decreases candidates
  {
    if candidates == [] then (s, None)
    else
      var candidate, rest := candidates[0], candidates[1..];
      if LockOf(s, candidate.user) > tick || candidate.skip then Screened(g, s, rest, tick)
      else
        var next := Refreshed(g, s, candidate.user, tick);
        if PackOf(g, next, candidate.user).energy * 100 >= 85 * g.car(candidate.user).capacity
        then Screened(g, next, rest, tick)
        else (next, Some(candidate.user))
  }

  /** The user is locked beyond the end of the run while the request is open. */
  function Opened(g: Layout, s: Sim, r: Request): Sim {
    s.(made := s.made + 1, locks := s.locks[r.user := g.ticks + 1])
  }

  function Admitted(g: Layout, s: Sim, station: nat, free: seq<nat>, r: Request, tick: nat, d: Arrival): Sim {
    if d.fails then Finished(s, r, if free != [] then Some(free[0]) else None, Failed, tick)
    else if free != [] && QueueAt(s, station) == [] then
      var c := free[d.pick % |free|];
      if d.reserves then Held(s, c, Hold(r, tick + d.delay, d.confirms, false))
      else StartSession(g, s, r, c, tick, d.session)
    else if d.queues && |QueueAt(s, station)| < 20 then Queued(s, station, QueueAt(s, station) + [r])
    else Finished(s, r, None, Abandoned, tick)
  }

  function Arrived(g: Layout, s: Sim, station: nat, free: seq<nat>, tick: nat, arrival: Option<Arrival>): Sim {
    if arrival.None? || tick + 24 >= g.ticks then s
    else
      var d := arrival.value;
      var (next, user) := Screened(g, s, if |d.candidates| > 30 then d.candidates[..30] else d.candidates, tick);
      if user.None? then next
      else
        var r := Request(next.made, user.value, station, tick, tick + d.patience);
        Admitted(g, Opened(g, next, r), station, free, r, tick, d)
  }

  function Reading(charger: Charger, sessions: seq<Session>, tick: nat): Sample {
    var meter := charger.meter;
    if charger.session.Some? && charger.session.value < |sessions| then
      var row := sessions[charger.session.value];
      if tick < row.end && row.start <= tick < row.start + |row.steps| then
        var step := row.steps[tick - row.start];
        Sample(Charging, charger.session, step.wh, step.grid, step.cost, meter + step.wh)
      else Sample(Occupied, charger.session, 0, 0, 0, meter)
    else if charger.hold.Some? then Sample(Reserved, None, 0, 0, 0, meter)
    else if tick < charger.blocked then Sample(if charger.offline then Offline else Maintenance, None, 0, 0, 0, meter)
    else Sample(Available, None, 0, 0, 0, meter)
  }

  function Sampled(s: Sim, c: nat, tick: nat): Sim {
    var sample := Reading(ChargerAt(s, c), s.sessions, tick);
    s.(samples := s.samples[c := SamplesAt(s, c) + [sample]],
       chargers := s.chargers[c := ChargerAt(s, c).(meter := sample.meter)])
  }

  function SampledAll(s: Sim, list: seq<nat>, tick: nat): Sim {
    if list == [] then s else Sampled(SampledAll(s, list[..|list| - 1], tick), list[|list| - 1], tick)
  }

  /** Everything a station does in a tick before it is sampled. */
  function Operated(g: Layout, s: Sim, station: nat, tick: nat, draws: Draws): Sim {
    var patient := Lapsed(s, station, tick);
    var list := ChargersOf(g, station, g.count);
    var called := CalledAll(g, patient, station, FreeOf(patient, list, tick), tick, (k: nat) => draws.call(tick, station, k));
    Arrived(g, called, station, FreeOf(called, list, tick), tick, draws.arrival(tick, station))
  }

  function StationTick(g: Layout, s: Sim, station: nat, tick: nat, draws: Draws): Sim {
    SampledAll(Operated(g, s, station, tick, draws), ChargersOf(g, station, g.count), tick)
  }

  function ServicedAll(g: Layout, s: Sim, n: nat, tick: nat, draws: Draws): Sim {
    if n == 0 then s else Serviced(g, ServicedAll(g, s, n - 1, tick, draws), n - 1, tick, draws)
  }

  function StationsTick(g: Layout, s: Sim, n: nat, tick: nat, draws: Draws): Sim {
    if n == 0 then s else StationTick(g, StationsTick(g, s, n - 1, tick, draws), n - 1, tick, draws)
  }

  function Ticked(g: Layout, s: Sim, tick: nat, draws: Draws): Sim {
    StationsTick(g, ServicedAll(g, s, g.count, tick, draws), g.stations, tick, draws)
  }

  /** The state after the first `n` ticks. */
  function After(g: Layout, draws: Draws, n: nat): Sim {
    if n == 0 then EMPTY else Ticked(g, After(g, draws, n - 1), n - 1, draws)
  }

  function Flushed(s: Sim, queue: seq<Request>, tick: nat): Sim {
    if queue == [] then s else Finished(Flushed(s, queue[..|queue| - 1], tick), queue[|queue| - 1], None, StillQueued, tick)
  }

  function FlushedAll(g: Layout, s: Sim, n: nat): Sim {
    if n == 0 then s
    else
      Flushed(Queued(FlushedAll(g, s, n - 1), n - 1, []), QueueAt(s, n - 1), g.ticks)
  }

  /** A whole run: every tick, then the requests still waiting at its end. */
  function Run(g: Layout, draws: Draws): Sim {
    FlushedAll(g, After(g, draws, g.ticks), g.stations)
  }
}
