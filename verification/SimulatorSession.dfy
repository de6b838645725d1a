/** One charging session of the synthetic generator: its plan, its energy, its
    fees, and the row that is written for it.

    Energy is in whole watt-hours, money in cents, time in five-minute ticks
    counted from local midnight. Random draws and the derating of the charging
    curve are arbitrary within their ranges. */
module SimulatorSession {
  import opened Basics

  datatype SiteType = Office | Shopping | Residential | Transit | Campus
  datatype Segment = Commuter | RideHailing | Family | Fleet

  type Share = x: real | 0.0 <= x <= 1.0 witness 0.0
  type Slack = n: int | 0 <= n <= 120 witness 0
  type AcStay = n: int | 12 <= n <= 60 witness 12
  type DcStay = n: int | 10 <= n <= 24 witness 12
  type Parking = n: int | n == 0 || n == 1 || n == 2 || n == 3 || n == 6 witness 0

  datatype Post = Post(station: nat, ac: bool, rated: real)
  datatype Car = Car(city: nat, segment: Segment, capacity: nat, acceptance: real)
  datatype Tariff = Tariff(energy: nat, service: nat, grid: nat)

  /** `share` places the wished-for charge between its bounds; `energy` (kWh) and
      `hours` come from the measured office cells. */
  datatype PlanDraw = PlanDraw(
    share: Share, energy: real, hours: real, departure: Slack, stay: AcStay, fast: DcStay, parking: Parking)

  datatype Plan = Plan(target: nat, limit: nat, connected: nat, parking: nat)

  datatype Anomaly = NoAnomaly | Derating | EarlyStop | Thermal

  const DAY := 288

  function Hour(tick: nat): (h: nat)
    ensures 12 * h <= tick % 288 < 12 * h + 12
  {
    tick % DAY / 12
  }

  function Between(low: real, high: real, share: Share): real {
    low + (high - low) * share
  }

  function Clamp(low: int, high: int, x: int): int {
    Max(low, Min(high, x))
  }

  /** Ticks until a departure between seven and nine, today or tomorrow. */
  function UntilDeparture(tick: nat, slack: Slack): int {
    var now := tick % DAY * 5;
    var today := 420 + slack;
    var minutes := if today <= now then today + 1440 - now else today - now;
    RoundHalfEven(minutes as real / 5.0)
  }

  predicate Overnight(tick: nat) {
    Hour(tick) >= 17 || Hour(tick) < 6
  }

  function WishedSoc(soc: real, ac: bool, share: Share): real {
    var lower := MaxReal(76.0, soc + MinReal(3.0, (100.0 - soc) / 2.0));
    if ac then Between(85.0, 95.0, share)
    else Between(lower, MinReal(100.0, MaxReal(89.0, lower + 1.0)), share)
  }

  function SessionPlan(car: Car, energy: nat, ac: bool, site: SiteType, tick: nat, d: PlanDraw): Plan
    requires energy < car.capacity
  {
    var soc := energy as real * 100.0 / car.capacity as real;
    var wished := Max(500, (car.capacity as real * (WishedSoc(soc, ac, d.share) - soc) / 100.0).Floor);
    var office := ac && (site.Office? || site.Campus?);
    var target := if office then Max(500, (MinReal(30.0, d.energy) * 1000.0).Floor) else wished;
    var connected :=
      if office then Clamp(6, 144, RoundHalfEven(d.hours * 12.0))
      else if ac && site.Residential? && Overnight(tick) then Clamp(12, 168, UntilDeparture(tick, d.departure))
      else if ac then if site.Shopping? then Min(36, d.stay) else d.stay
      else 0;
    var fast := if car.segment.RideHailing? || car.segment.Fleet? then Max(12, d.fast) else Min(22, d.fast);
    Plan(Min(car.capacity - energy, target), if ac then connected else fast, connected, if ac then 0 else d.parking)
  }

  /** A plan never asks for more than the battery can take. */
  lemma PlanIsBounded(car: Car, energy: nat, ac: bool, site: SiteType, tick: nat, d: PlanDraw)
    requires energy < car.capacity
    ensures var p := SessionPlan(car, energy, ac, site, tick, d);
      && Min(500, car.capacity - energy) <= p.target <= car.capacity - energy
      && 6 <= p.limit <= 168 && p.connected <= 168 && p.parking <= 6
      && (ac ==> p.connected == p.limit && p.parking == 0)
      && (!ac ==> p.connected == 0 && p.limit <= 24)
  {
    hide Between, WishedSoc, RoundHalfEven, UntilDeparture;
  }

  // ---- the energy of a session ----

  /** The price of some watt-hours, to the nearest cent, half a cent counting as one. */
  function Cents(wh: nat, price: nat): nat {
    (wh * price + 500) / 1000
  }

  datatype Step = Step(wh: nat, grid: nat, cost: nat)

  /** What one session charges: `kw` is the lesser of charger and car, `curve` the
      derating by step and energy so far. */
  datatype Job = Job(start: nat, target: nat, limit: nat, kw: real, ac: bool, curve: (nat, nat) -> Share,
                     tariff: nat -> Tariff)

  /** What is still wanted, or what full power gives in five minutes, in whole watt-hours and at least one. */
  function Delivered(job: Job, n: nat, energy: nat): nat
    requires energy < job.target
  {
    Min(job.target - energy, Max(1, (job.kw * job.curve(n, energy) * 1000.0 / 12.0).Floor))
  }

  /** Grid energy, rounded up, at 92 or 95 percent. */
  function Drawn(wh: nat, ac: bool): nat {
    if ac then (wh * 100 + 91) / 92 else (wh * 100 + 94) / 95
  }

  function StepAt(job: Job, n: nat, energy: nat): Step
    requires energy < job.target
  {
    var wh := Delivered(job, n, energy);
    var grid := Drawn(wh, job.ac);
    Step(wh, grid, Cents(grid, job.tariff(Hour(job.start + n)).grid))
  }

  function Steps(job: Job, n: nat := 0, energy: nat := 0): seq<Step>
    decreases job.limit - n
  {
    if energy >= job.target || n >= job.limit then []
    else
      var step := StepAt(job, n, energy);
      [step] + Steps(job, n + 1, energy + step.wh)
  }

  function Wh(steps: seq<Step>): nat {
    if steps == [] then 0 else Wh(steps[..|steps| - 1]) + steps[|steps| - 1].wh
  }

  function Grid(steps: seq<Step>): nat {
    if steps == [] then 0 else Grid(steps[..|steps| - 1]) + steps[|steps| - 1].grid
  }

  function Cost(steps: seq<Step>): nat {
    if steps == [] then 0 else Cost(steps[..|steps| - 1]) + steps[|steps| - 1].cost
  }

  /** Fees by the tariff of each step's hour. */
  function EnergyFee(steps: seq<Step>, start: nat, tariff: nat -> Tariff): nat {
    if steps == [] then 0
    else
      var n := |steps| - 1;
      EnergyFee(steps[..n], start, tariff) + Cents(steps[n].wh, tariff(Hour(start + n)).energy)
  }

  function ServiceFee(steps: seq<Step>, start: nat, tariff: nat -> Tariff): nat {
    if steps == [] then 0
    else
      var n := |steps| - 1;
      ServiceFee(steps[..n], start, tariff) + Cents(steps[n].wh, tariff(Hour(start + n)).service)
  }

  /** A step delivers something, draws at least as much from the grid at the
      hour's price, and stays within charger and car. */
  ghost predicate StepOk(job: Job, step: Step, n: nat) {
    && step.wh >= 1 && step.grid >= step.wh
    && step.cost == Cents(step.grid, job.tariff(Hour(job.start + n)).grid)
    && (step.wh as real * 0.012 <= job.kw || step.wh == 1)
  }

  /** What the loop has done after the steps so far. */
  ghost predicate Charged(job: Job, steps: seq<Step>) {
    && |steps| <= job.limit && Wh(steps) <= job.target && Wh(steps) >= |steps|
    && (forall n :: 0 <= n < |steps| ==> StepOk(job, steps[n], n))
  }

  lemma {:induction false} OneMore(job: Job, steps: seq<Step>, step: Step)
    ensures var more := steps + [step];
      && Wh(more) == Wh(steps) + step.wh && Grid(more) == Grid(steps) + step.grid
      && Cost(more) == Cost(steps) + step.cost
      && EnergyFee(more, job.start, job.tariff)
         == EnergyFee(steps, job.start, job.tariff) + Cents(step.wh, job.tariff(Hour(job.start + |steps|)).energy)
      && ServiceFee(more, job.start, job.tariff)
         == ServiceFee(steps, job.start, job.tariff) + Cents(step.wh, job.tariff(Hour(job.start + |steps|)).service)
  {
    assert (steps + [step])[..|steps|] == steps;
  }

  lemma ShareOf(kw: real, share: Share)
    requires kw >= 0.0
    ensures 0.0 <= kw * share <= kw
  {
  }

  lemma WholeWattHours(power: real, kw: real)
    requires 0.0 <= power <= kw
    ensures (power * 1000.0 / 12.0).Floor as real * 0.012 <= kw
  {
  }

  lemma DrawnCovers(wh: nat, ac: bool)
    ensures Drawn(wh, ac) >= wh
  {
  }

  lemma DeliveredFits(job: Job, n: nat, energy: nat)
    requires energy < job.target && job.kw >= 0.0
    ensures var wh := Delivered(job, n, energy);
      1 <= wh <= job.target - energy && (wh as real * 0.012 <= job.kw || wh == 1)
  {
    ShareOf(job.kw, job.curve(n, energy));
    WholeWattHours(job.kw * job.curve(n, energy), job.kw);
  }

  lemma StepIsOk(job: Job, n: nat, energy: nat)
    requires energy < job.target && job.kw >= 0.0
    ensures StepOk(job, StepAt(job, n, energy), n) && StepAt(job, n, energy).wh <= job.target - energy
  {
    hide Delivered, Drawn, Cents, Hour;
    DeliveredFits(job, n, energy);
    DrawnCovers(Delivered(job, n, energy), job.ac);
  }

  lemma Advance(job: Job, done: seq<Step>)
    requires job.kw >= 0.0 && Charged(job, done) && Wh(done) < job.target && |done| < job.limit
    ensures Charged(job, done + [StepAt(job, |done|, Wh(done))])
  {
    hide StepOk, StepAt, Wh, Grid, Cost, EnergyFee, ServiceFee, Cents, Hour;
    var step := StepAt(job, |done|, Wh(done));
    StepIsOk(job, |done|, Wh(done));
    AtLeastOne(job, step, |done|);
    OneMore(job, done, step);
  }

  lemma AtLeastOne(job: Job, step: Step, n: nat)
    requires StepOk(job, step, n)
    ensures step.wh >= 1
  {
  }

  lemma Regroup(done: seq<Step>, step: Step, rest: seq<Step>)
    ensures done + ([step] + rest) == (done + [step]) + rest
    ensures done + [] == done
  {
  }

  /** The loop charges up to the target or the time limit, whichever is first. */
  method Charge(job: Job)
    returns (steps: seq<Step>, energy: nat, grid: nat, energyFee: nat, serviceFee: nat, cost: nat)
    requires job.kw >= 0.0
    ensures steps == Steps(job)
    ensures energy == Wh(steps) && grid == Grid(steps) && cost == Cost(steps)
    ensures energyFee == EnergyFee(steps, job.start, job.tariff)
    ensures serviceFee == ServiceFee(steps, job.start, job.tariff)
    ensures Charged(job, steps) && (energy == job.target || |steps| == job.limit)
  {
    hide Charged, Delivered, Drawn, Hour, Cents, Wh, Grid, Cost, EnergyFee, ServiceFee;
    steps, energy, grid, energyFee, serviceFee, cost := [], 0, 0, 0, 0, 0;
    Nothing(job);
    while energy < job.target && |steps| < job.limit
      invariant Charged(job, steps) && |steps| <= job.limit && energy <= job.target
      invariant steps + Steps(job, |steps|, energy) == Steps(job)
      invariant energy == Wh(steps) && grid == Grid(steps) && cost == Cost(steps)
      invariant energyFee == EnergyFee(steps, job.start, job.tariff)
      invariant serviceFee == ServiceFee(steps, job.start, job.tariff)
      decreases job.limit - |steps|
    {
      var n := |steps|;
      var wh := Delivered(job, n, energy);
      var gwh := Drawn(wh, job.ac);
      var tariff := job.tariff(Hour(job.start + n));
      var step := Step(wh, gwh, Cents(gwh, tariff.grid));
      Advance(job, steps);
      OneMore(job, steps, step);
      Regroup(steps, step, Steps(job, n + 1, energy + wh));
      steps := steps + [step];
      energy, grid := energy + wh, grid + gwh;
      energyFee, serviceFee := energyFee + Cents(wh, tariff.energy), serviceFee + Cents(wh, tariff.service);
      cost := cost + Cents(gwh, tariff.grid);
      WithinLimits(job, steps);
    }
    Regroup(steps, Step(0, 0, 0), []);
  }

  lemma Nothing(job: Job)
    requires job.kw >= 0.0
    ensures Charged(job, []) && Wh([]) == 0 && Grid([]) == 0 && Cost([]) == 0
    ensures EnergyFee([], job.start, job.tariff) == 0 && ServiceFee([], job.start, job.tariff) == 0
    ensures [] + Steps(job) == Steps(job)
  {
  }

  lemma WithinLimits(job: Job, steps: seq<Step>)
    requires Charged(job, steps)
    ensures |steps| <= job.limit && Wh(steps) <= job.target
  {
  }

  /** The same facts about the specification, for the proofs over whole runs. */
  lemma {:induction false} ChargedFrom(job: Job, done: seq<Step>)
    requires job.kw >= 0.0 && Charged(job, done)
    ensures var steps := done + Steps(job, |done|, Wh(done));
      Charged(job, steps) && (Wh(steps) == job.target || |steps| == job.limit)
    decreases job.limit - |done|
  {
    hide Charged, Delivered, Drawn, Hour, Cents, StepAt, Wh;
    var n, energy := |done|, Wh(done);
    WithinLimits(job, done);
    if energy < job.target && n < job.limit {
      var step := StepAt(job, n, energy);
      Advance(job, done);
      OneMore(job, done, step);
      ChargedFrom(job, done + [step]);
      Regroup(done, step, Steps(job, n + 1, energy + step.wh));
    } else {
      Regroup(done, Step(0, 0, 0), []);
    }
  }

  /** One step, to the unit: full power for five minutes in whole watt-hours, at least one and
      at most what is still wanted; from the grid as much as it takes at 92 or 95 percent; for
      the hour's price, to the nearest cent. */
  ghost predicate ExactStep(job: Job, step: Step, n: nat, energy: nat) {
    var power := MaxReal(1.0, job.kw * job.curve(n, energy) * 1000.0 / 12.0);
    var share, price := if job.ac then 92 else 95, job.tariff((job.start + n) % 288 / 12).grid;
    && energy + step.wh <= job.target && step.wh as real <= power
    && (energy + step.wh < job.target ==> power < step.wh as real + 1.0)
    && 100 * step.wh <= share * step.grid < 100 * step.wh + share
    && -500 < 1000 * step.cost - step.grid * price <= 500
  }

  lemma StepIsExact(job: Job, n: nat, energy: nat)
    requires energy < job.target
    ensures ExactStep(job, StepAt(job, n, energy), n, energy)
  {
    var step := StepAt(job, n, energy);
    CentsAreNearest(step.grid, job.tariff(Hour(job.start + n)).grid);
    DrawnIsRoundedUp(step.wh, job.ac);
    DeliveredIsWhole(job.target - energy, job.kw * job.curve(n, energy) * 1000.0 / 12.0);
    hide Cents, Drawn;
  }

  lemma DeliveredIsWhole(wanted: nat, power: real)
    requires wanted > 0
    ensures var wh := Min(wanted, Max(1, power.Floor));
      && wh <= wanted && wh as real <= MaxReal(1.0, power) && (wh < wanted ==> MaxReal(1.0, power) < wh as real + 1.0)
  {
  }

  lemma CentsAreNearest(wh: nat, price: nat)
    ensures -500 < 1000 * Cents(wh, price) - wh * price <= 500
  {
  }

  lemma DrawnIsRoundedUp(wh: nat, ac: bool)
    ensures var share := if ac then 92 else 95; 100 * wh <= share * Drawn(wh, ac) < 100 * wh + share
  {
  }

  lemma {:induction false} StepsFollow(job: Job, m: nat, energy: nat, n: nat)
    requires n < |Steps(job, m, energy)|
    ensures var steps := Steps(job, m, energy);
      && energy + Wh(steps[..n]) < job.target
      && steps[n] == StepAt(job, m + n, energy + Wh(steps[..n]))
    decreases job.limit - m
  {
    hide StepAt;
    var step, steps := StepAt(job, m, energy), Steps(job, m, energy);
    if n > 0 {
      StepsFollow(job, m + 1, energy + step.wh, n - 1);
      var rest := Steps(job, m + 1, energy + step.wh);
      assert steps[..n] == [step] + rest[..n - 1];
      WhOfCons(step, rest[..n - 1]);
    }
  }

  lemma {:induction false} WhOfCons(step: Step, steps: seq<Step>)
    ensures Wh([step] + steps) == step.wh + Wh(steps)
  {
    if steps == [] {
      assert [step] + steps == [step] && [step][..0] == [];
    } else {
      WhOfCons(step, steps[..|steps| - 1]);
      assert ([step] + steps)[..|steps|] == [step] + steps[..|steps| - 1];
    }
  }

  /** Every step of a session is exact, given what was charged before it. */
  lemma EveryStepIsExact(job: Job, n: nat)
    requires n < |Steps(job)|
    ensures ExactStep(job, Steps(job)[n], n, Wh(Steps(job)[..n]))
  {
    StepsFollow(job, 0, 0, n);
    hide Steps, StepAt, ExactStep;
    StepIsExact(job, n, Wh(Steps(job)[..n]));
  }

  // ---- the row ----

  datatype StopReason = TargetReached | UserStopped | DurationLimit

  datatype Session = Session(
    request: nat, user: nat, charger: nat, before: nat, start: nat, end: nat, unplugged: nat, steps: seq<Step>,
    energy: nat, grid: nat, energyFee: nat, serviceFee: nat, parkingFee: nat, discount: nat, total: int, cost: nat,
    requested: nat, stop: StopReason, city: nat, block: nat)

  datatype SessionDraw = SessionDraw(plan: PlanDraw, anomaly: Anomaly, curve: (nat, nat) -> Share, coupon: bool)

  const DISCOUNT := 300
  const BUDGET := 150000

  /** An early stop stays below what was asked exactly when more than 100 Wh were
      asked, and exceeds it exactly when fewer were. */
  function ActualTarget(requested: nat, anomaly: Anomaly): (target: nat)
    ensures target != requested ==> anomaly.EarlyStop?
    ensures anomaly.EarlyStop? ==> (target < requested <==> requested > 100) && (target > requested <==> requested < 100)
    ensures anomaly.EarlyStop? ==> target == 100 >= requested / 4 || 4 * target <= requested < 4 * target + 4
  {
    if anomaly.EarlyStop? then Max(100, requested / 4) else requested
  }

  predicate FreeParking(ac: bool, site: SiteType): (free: bool)
    ensures free <==> ac && site != Shopping && site != Transit
  {
    ac && (site.Office? || site.Campus? || site.Residential?)
  }

  /** Eight cents a minute after the first ten. */
  function ParkingFee(parked: nat, free: bool): nat {
    if free then 0 else Max(0, parked * 5 - 10) * 8
  }

  /** What the validator recomputes from a session row alone. */
  predicate RowOk(s: Session, free: bool, ticks: nat) {
    && s.start < s.end <= s.unplugged && s.end + 12 <= ticks && s.unplugged + 2 <= ticks
    && s.requested >= 500 && 0 < s.energy <= s.requested
    && (s.stop.TargetReached? <==> s.energy == s.requested)
    && s.parkingFee == ParkingFee(s.unplugged - s.end, free)
    && s.total == s.energyFee + s.serviceFee + s.parkingFee - s.discount
    && s.discount <= s.energyFee + s.serviceFee && s.discount <= DISCOUNT
    && s.grid >= s.energy
  }

  /** The row's totals are those of its steps, priced hour by hour. */
  ghost predicate TotalsOk(s: Session, tariff: nat -> Tariff) {
    && |s.steps| == s.end - s.start
    && s.energy == Wh(s.steps) && s.grid == Grid(s.steps) && s.cost == Cost(s.steps)
    && s.energyFee == EnergyFee(s.steps, s.start, tariff) && s.serviceFee == ServiceFee(s.steps, s.start, tariff)
  }

  lemma {:induction false} GridCoversEnergy(job: Job, steps: seq<Step>)
    requires forall n :: 0 <= n < |steps| ==> StepOk(job, steps[n], n)
    ensures Grid(steps) >= Wh(steps)
  {
    if steps != [] {
      GridCoversEnergy(job, steps[..|steps| - 1]);
    }
  }
}
