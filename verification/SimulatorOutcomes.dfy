/** What the steps of the generator write, read off their arguments and the state they find. */
module SimulatorOutcomes {
  import opened Basics
  import opened SimulatorSession
  import opened SimulatorWorld

  // ---- plans ----

  /** The wished state of charge, in percent: at a slow charger between 85 and 95, at a fast one
      between 76 or a little above the present one and 89 or a little above that. */
  predicate WishedFrom(wish: real, soc: real, ac: bool) {
    if ac then 85.0 <= wish <= 95.0
    else
      && (wish >= 76.0 && (soc <= 94.0 ==> wish >= soc + 3.0) && (soc > 94.0 ==> wish >= (soc + 100.0) / 2.0))
      && wish <= 100.0 && (wish <= 89.0 || wish <= soc + 4.0)
  }

  /** The watt-hours between two states of charge. */
  function Needed(capacity: nat, soc: real, wish: real): real {
    capacity as real * (wish - soc) / 100.0
  }

  /** Whole watt-hours, at least 500 and at most what the battery has room for. */
  predicate Asked(target: nat, energy: real, room: nat) {
    && target <= room && (target < room ==> target >= 500)
    && (target > 500 ==> target as real <= energy) && (target < room && target > 500 ==> energy < target as real + 1.0)
    && (target < room && target == 500 ==> energy < 501.0)
  }

  /** Minutes until an instant between seven and nine in the morning, `slack` minutes after seven. */
  predicate MinutesUntil(minutes: int, tick: nat, slack: int) {
    0 < minutes <= 1440 && (5 * (tick % 288) + minutes - 420 - slack) % 1440 == 0
  }

  lemma DeparturesAreInTheMorning(tick: nat, slack: Slack) returns (minutes: int)
    ensures MinutesUntil(minutes, tick, slack)
    ensures -0.5 <= UntilDeparture(tick, slack) as real - minutes as real / 5.0 <= 0.5
  {
    var now, today := tick % DAY * 5, 420 + slack;
    minutes := if today <= now then today + 1440 - now else today - now;
  }

  lemma WishesAreInRange(soc: real, ac: bool, share: Share)
    requires 0.0 <= soc < 100.0
    ensures WishedFrom(WishedSoc(soc, ac, share), soc, ac)
  {
    var lower := MaxReal(76.0, soc + MinReal(3.0, (100.0 - soc) / 2.0));
    BetweenIsBetween(85.0, 95.0, share);
    BetweenIsBetween(lower, MinReal(100.0, MaxReal(89.0, lower + 1.0)), share);
    hide Between;
  }

  lemma BetweenIsBetween(low: real, high: real, share: Share)
    requires low <= high
    ensures low <= Between(low, high, share) <= high
  {
    Product(high - low, share);
    Product(high - low, 1.0 - share);
    assert (high - low) * (1.0 - share) == (high - low) - (high - low) * share;
  }

  lemma Product(a: real, b: real)
    requires a >= 0.0 && b >= 0.0
    ensures a * b >= 0.0
  {
  }

  /** Whole ticks nearest to a time, kept between two bounds. */
  predicate NearestWithin(ticks: int, low: int, high: int, time: real) {
    && low <= ticks <= high && (ticks > low ==> ticks as real - time <= 0.5) && (ticks < high ==> time - ticks as real <= 0.5)
  }

  lemma ClampedIsNearest(low: int, high: int, time: real)
    requires low <= high
    ensures NearestWithin(Clamp(low, high, RoundHalfEven(time)), low, high, time)
  {
  }

  lemma WishIsAsked(energy: real, room: nat)
    requires room > 0
    ensures Asked(Min(room, Max(500, energy.Floor)), energy, room)
  {
  }

  /** At an office or a campus the energy and the stay are those measured there. */
  predicate OfficePlan(p: Plan, room: nat, d: PlanDraw) {
    && Asked(p.target, 1000.0 * MinReal(30.0, d.energy), room) && p.limit == p.connected && p.parking == 0
    && NearestWithin(p.connected, 6, 144, 12.0 * d.hours)
  }

  /** Elsewhere a car charges to its wish: over night at home it stays until the morning, at other
      slow chargers for the drawn stay, at most three hours when shopping, and at a fast one for
      as long as its owner has. */
  ghost predicate StayPlan(p: Plan, ac: bool, site: SiteType, segment: Segment, tick: nat, d: PlanDraw) {
    if ac then
      && p.limit == p.connected && p.parking == 0
      && if site.Residential? && (tick % 288 >= 204 || tick % 288 < 72)
         then exists minutes :: MinutesUntil(minutes, tick, d.departure) && NearestWithin(p.connected, 12, 168, minutes as real / 5.0)
         else p.connected == if site.Shopping? && d.stay > 36 then 36 else d.stay
    else
      && p.connected == 0 && p.parking == d.parking
      && p.limit == if segment.RideHailing? || segment.Fleet? then (if d.fast < 12 then 12 else d.fast)
                    else if d.fast > 22 then 22 else d.fast
  }

  lemma MorningsAreNear(tick: nat, slack: Slack)
    ensures exists minutes ::
      MinutesUntil(minutes, tick, slack) && NearestWithin(Clamp(12, 168, UntilDeparture(tick, slack)), 12, 168, minutes as real / 5.0)
  {
    var now, today := tick % DAY * 5, 420 + slack;
    var minutes := DeparturesAreInTheMorning(tick, slack);
    assert minutes == if today <= now then today + 1440 - now else today - now by { OneMorning(now, today, minutes); }
    ClampedIsNearest(12, 168, minutes as real / 5.0);
  }

  lemma OneMorning(now: int, today: int, minutes: int)
    requires 0 <= now < 1440 && 420 <= today <= 540 && 0 < minutes <= 1440 && (now + minutes - today) % 1440 == 0
    ensures minutes == if today <= now then today + 1440 - now else today - now
  {
  }

  lemma PlanIsForTheStay(car: Car, energy: nat, ac: bool, site: SiteType, tick: nat, d: PlanDraw)
    requires energy < car.capacity && !(ac && (site.Office? || site.Campus?))
    ensures StayPlan(SessionPlan(car, energy, ac, site, tick, d), ac, site, car.segment, tick, d)
  {
    MorningsAreNear(tick, d.departure);
    HourOfNight(tick);
    hide WishedSoc, UntilDeparture, MinutesUntil, NearestWithin, Overnight;
  }

  lemma HourOfNight(tick: nat)
    ensures Overnight(tick) <==> tick % 288 >= 204 || tick % 288 < 72
  {
  }

  lemma PlanIsForTheWish(car: Car, energy: nat, ac: bool, site: SiteType, tick: nat, d: PlanDraw)
    requires energy < car.capacity && !(ac && (site.Office? || site.Campus?))
    ensures var soc := energy as real * 100.0 / car.capacity as real;
      exists wish :: WishedFrom(wish, soc, ac) &&
        Asked(SessionPlan(car, energy, ac, site, tick, d).target, Needed(car.capacity, soc, wish), car.capacity - energy)
  {
    hide SessionPlan, WishedSoc, WishedFrom, Asked, Needed;
    var soc := energy as real * 100.0 / car.capacity as real;
    SocIsAShare(energy, car.capacity);
    WishesAreInRange(soc, ac, d.share);
    PlanTarget(car, energy, ac, site, tick, d);
  }

  lemma PlanTarget(car: Car, energy: nat, ac: bool, site: SiteType, tick: nat, d: PlanDraw)
    requires energy < car.capacity && !(ac && (site.Office? || site.Campus?))
    ensures var soc := energy as real * 100.0 / car.capacity as real;
      Asked(SessionPlan(car, energy, ac, site, tick, d).target, Needed(car.capacity, soc, WishedSoc(soc, ac, d.share)),
            car.capacity - energy)
  {
    hide WishedSoc, SessionPlan, Asked, Needed;
    var soc := energy as real * 100.0 / car.capacity as real;
    TargetIs(car, energy, ac, site, tick, d);
    WishIsAsked(Needed(car.capacity, soc, WishedSoc(soc, ac, d.share)), car.capacity - energy);
  }

  lemma TargetIs(car: Car, energy: nat, ac: bool, site: SiteType, tick: nat, d: PlanDraw)
    requires energy < car.capacity && !(ac && (site.Office? || site.Campus?))
    ensures var soc := energy as real * 100.0 / car.capacity as real;
      var asked := Needed(car.capacity, soc, WishedSoc(soc, ac, d.share));
      SessionPlan(car, energy, ac, site, tick, d).target == Min(car.capacity - energy, Max(500, asked.Floor))
  {
    hide WishedSoc, UntilDeparture, Clamp;
  }

  lemma SocIsAShare(energy: nat, capacity: nat)
    requires energy < capacity
    ensures 0.0 <= energy as real * 100.0 / capacity as real < 100.0
  {
    var soc := energy as real * 100.0 / capacity as real;
    assert soc * capacity as real == energy as real * 100.0;
    if soc < 0.0 { Smaller(soc, 0.0, capacity as real); }
    if soc >= 100.0 { Product(soc - 100.0, capacity as real); }
  }

  lemma Smaller(x: real, y: real, c: real)
    requires x < y && c > 0.0
    ensures x * c < y * c
  {
  }

  lemma OfficePlansAreMeasured(car: Car, energy: nat, site: SiteType, tick: nat, d: PlanDraw)
    requires energy < car.capacity && (site.Office? || site.Campus?)
    ensures OfficePlan(SessionPlan(car, energy, true, site, tick, d), car.capacity - energy, d)
  {
    var asked := MinReal(30.0, d.energy) * 1000.0;
    WishIsAsked(asked, car.capacity - energy);
    ClampedIsNearest(6, 144, d.hours * 12.0);
    assert d.hours * 12.0 == 12.0 * d.hours;
    hide WishedSoc, Asked, UntilDeparture, Clamp, NearestWithin, RoundHalfEven;
  }

  /** A session is planned for a wish about the battery's charge, or, at an office or a campus, as
      measured there, and for a stay that fits charger, site and owner. */
  lemma PlansAreAsWished(car: Car, energy: nat, ac: bool, site: SiteType, tick: nat, d: PlanDraw)
    requires energy < car.capacity
    ensures var p, soc, room := SessionPlan(car, energy, ac, site, tick, d), energy as real * 100.0 / car.capacity as real,
                                car.capacity - energy;
      if ac && (site == Office || site == Campus) then OfficePlan(p, room, d)
      else
        && StayPlan(p, ac, site, car.segment, tick, d)
        && exists wish :: WishedFrom(wish, soc, ac) && Asked(p.target, Needed(car.capacity, soc, wish), room)
  {
    hide SessionPlan, StayPlan, OfficePlan, WishedFrom, Asked, Needed;
    if ac && (site == Office || site == Campus) {
      OfficePlansAreMeasured(car, energy, site, tick, d);
    } else {
      PlanIsForTheStay(car, energy, ac, site, tick, d);
      PlanIsForTheWish(car, energy, ac, site, tick, d);
    }
  }

  // ---- rows ----

  lemma FeesAndDiscounts(parked: nat, free: bool, spent: nat, coupon: bool, fees: nat, tick: nat)
    ensures ParkingFee(parked, free) == if free || parked < 2 then 0 else 40 * (parked - 2)
    ensures Discount(spent, coupon, fees) == if !coupon || spent > 149700 then 0 else if fees < 300 then fees else 300
    ensures 8640 * Block(tick) <= tick < 8640 * Block(tick) + 8640
  {
  }

  /** The car leaves when it has finished, its stay is over and its parking too, but before the
      last ticks of the period. */
  predicate LeavesAfter(unplugged: nat, end: nat, stay: nat, parked: nat, ticks: nat) {
    && unplugged + 2 <= ticks
    && (unplugged + 2 < ticks ==>
         && unplugged >= end && unplugged >= stay && unplugged >= parked
         && (unplugged == end || unplugged == stay || unplugged == parked))
    && (unplugged + 2 == ticks ==> unplugged <= end || unplugged <= stay || unplugged <= parked)
  }

  /** The row of a session that starts now, apart from the energy and money of its steps. */
  ghost predicate RowSays(g: Layout, s: Sim, r: Request, c: nat, tick: nat, d: SessionDraw, plan: Plan, row: Session) {
    var site, parked := g.site(g.bay(c).station), row.unplugged - row.end;
    var free := g.bay(c).ac && site.kind != Shopping && site.kind != Transit;
    var spent, fees := SpendOf(s, (site.city, tick / 8640)), row.energyFee + row.serviceFee;
    && (row.request, row.user, row.charger, row.start, row.requested) == (r.id, r.user, c, tick, plan.target)
    && row.before == PackOf(g, s, r.user).energy && row.end == tick + |row.steps|
    && (row.city, row.block) == (site.city, tick / 8640)
    && LeavesAfter(row.unplugged, row.end, tick + plan.connected, row.end + plan.parking, g.ticks)
    && (parked >= 0 ==> row.parkingFee == if free || parked < 2 then 0 else 40 * (parked - 2))
    && row.discount == (if !d.coupon || spent > 149700 then 0 else if fees < 300 then fees else 300)
    && row.total == fees + row.parkingFee - row.discount
  }

  lemma LeavingIsLast(end: nat, stay: nat, parked: nat, ticks: nat)
    requires ticks >= 2
    ensures LeavesAfter(Max(0, Min(Max(Max(end, stay), parked), ticks - 2)), end, stay, parked, ticks)
  {
  }

  lemma RowsSayWhatWasPlanned(g: Layout, s: Sim, r: Request, c: nat, tick: nat, d: SessionDraw)
    requires PackOf(g, s, r.user).energy < g.car(r.user).capacity && g.ticks >= 2
    ensures RowSays(g, s, r, c, tick, d, PlanFor(g, s, r, c, tick, d), SessionFor(g, s, r, c, tick, d))
  {
    hide PlanFor, JobFor, Steps, EnergyFee, ServiceFee, Wh, Grid, Cost, PackOf, SpendOf, StopFor;
    var plan, row := PlanFor(g, s, r, c, tick, d), SessionFor(g, s, r, c, tick, d);
    var site := g.site(g.bay(c).station);
    LeavingIsLast(row.end, tick + plan.connected, row.end + plan.parking, g.ticks);
    FeesAndDiscounts(Max(0, row.unplugged - row.end), FreeParking(g.bay(c).ac, site.kind), SpendOf(s, (site.city, Block(tick))),
                     d.coupon, row.energyFee + row.serviceFee, tick);
    hide LeavesAfter, ParkingFee, Discount;
    assert Block(tick) == tick / 8640;
  }

  /** What is charged, how long at most and with what power; a derated charger gives two fifths. */
  lemma JobsAreAsPlanned(g: Layout, s: Sim, r: Request, c: nat, tick: nat, d: SessionDraw)
    requires PackOf(g, s, r.user).energy < g.car(r.user).capacity
    ensures var job, plan, bay := JobFor(g, s, r, c, tick, d), PlanFor(g, s, r, c, tick, d), g.bay(c);
      var full := if bay.rated < g.car(r.user).acceptance then bay.rated else g.car(r.user).acceptance;
      && job.start == tick && job.ac == bay.ac && job.curve == d.curve
      && job.kw == (if d.anomaly == Derating then 0.4 * full else full)
      && (job.limit <= plan.limit && (tick + 12 <= g.ticks ==> tick + job.limit + 12 <= g.ticks))
      && (job.limit < plan.limit ==> job.limit == 0 || tick + job.limit + 12 == g.ticks)
      && (d.anomaly != EarlyStop ==> job.target == plan.target)
      && (d.anomaly == EarlyStop ==>
           && job.target >= 100
           && (job.target > 100 ==> 4 * job.target <= plan.target < 4 * job.target + 4) && (job.target == 100 ==> plan.target < 404))
  {
    hide PlanFor, PackOf, TariffOf;
  }

  /** Why a session ended: it reached what it charged for, whether that was all or not, or its time was up. */
  lemma StopsAreExplained(plan: Plan, anomaly: Anomaly, energy: nat)
    ensures var stop, target := StopFor(plan, anomaly, energy), ActualTarget(plan.target, anomaly);
      && (stop == DurationLimit <==> energy < target)
      && (stop == UserStopped <==> energy >= target && anomaly == EarlyStop)
      && (stop == TargetReached <==> energy >= plan.target && anomaly != EarlyStop)
  {
  }

  // ---- who comes, and what becomes of them ----

  /** The candidate is not available now: locked, not interested, or charged to 85 percent once
      its battery is up to date. */
  predicate TurnedDown(g: Layout, s: Sim, t: Sim, candidate: Candidate, tick: nat) {
    || tick < LockOf(s, candidate.user) || candidate.skip
    || 100 * PackOf(g, t, candidate.user).energy >= 85 * g.car(candidate.user).capacity
  }

  lemma RefreshingTouchesOne(g: Layout, s: Sim, user: nat, tick: nat)
    ensures var t := Refreshed(g, s, user, tick);
      && t.locks == s.locks && PackOf(g, t, user).tick >= tick
      && (forall other: nat :: other != user ==> PackOf(g, t, other) == PackOf(g, s, other))
      && (PackOf(g, s, user).tick >= tick ==> t == s)
  {
    hide Roaming;
  }

  lemma {:induction false} ScreeningLeavesRefreshed(g: Layout, s: Sim, candidates: seq<Candidate>, tick: nat, user: nat)
    requires PackOf(g, s, user).tick >= tick
    ensures PackOf(g, Screened(g, s, candidates, tick).0, user) == PackOf(g, s, user)
    decreases candidates
  {
    hide Refreshed, PackOf, LockOf;
    if candidates != [] {
      RefreshingTouchesOne(g, s, candidates[0].user, tick);
      ScreeningLeavesRefreshed(g, s, candidates[1..], tick, user);
      ScreeningLeavesRefreshed(g, Refreshed(g, s, candidates[0].user, tick), candidates[1..], tick, user);
    }
  }

  /** The candidate at `n` comes, and everybody before is turned down; past the end, nobody comes. */
  predicate ComesAt(g: Layout, s: Sim, t: Sim, candidates: seq<Candidate>, tick: nat, user: Option<nat>, n: nat) {
    && n <= |candidates| && t.locks == s.locks
    && (forall i :: 0 <= i < n ==> TurnedDown(g, s, t, candidates[i], tick))
    && (user.None? <==> n == |candidates|)
    && (user.Some? ==> user.value == candidates[n].user && !TurnedDown(g, s, t, candidates[n], tick))
  }

  lemma ComesLater(g: Layout, s: Sim, next: Sim, t: Sim, candidates: seq<Candidate>, tick: nat, user: Option<nat>, n: nat)
    requires candidates != [] && next.locks == s.locks && ComesAt(g, next, t, candidates[1..], tick, user, n)
    requires TurnedDown(g, s, t, candidates[0], tick)
    ensures ComesAt(g, s, t, candidates, tick, user, n + 1)
  {
    hide PackOf;
    forall i | 0 <= i < n + 1 ensures TurnedDown(g, s, t, candidates[i], tick) {
      if i > 0 { assert TurnedDown(g, next, t, candidates[1..][i - 1], tick); }
    }
  }

  /** The first candidate that is not turned down comes; nobody, when all are. */
  lemma {:induction false} TheFirstSuitableComes(g: Layout, s: Sim, candidates: seq<Candidate>, tick: nat)
    returns (n: nat)
    ensures var (t, user) := Screened(g, s, candidates, tick); ComesAt(g, s, t, candidates, tick, user, n)
    decreases candidates
  {
    hide Refreshed, PackOf, LockOf, ComesAt;
    if candidates == [] {
      n := 0;
      assert ComesAt(g, s, s, [], tick, None, 0) by { NobodyComes(g, s, tick); }
    } else {
      var candidate, rest := candidates[0], candidates[1..];
      var next := Refreshed(g, s, candidate.user, tick);
      RefreshingTouchesOne(g, s, candidate.user, tick);
      if LockOf(s, candidate.user) > tick || candidate.skip {
        var m := TheFirstSuitableComes(g, s, rest, tick);
        ComesLater(g, s, s, Screened(g, s, rest, tick).0, candidates, tick, Screened(g, s, rest, tick).1, m);
        n := m + 1;
      } else if PackOf(g, next, candidate.user).energy * 100 >= 85 * g.car(candidate.user).capacity {
        var m := TheFirstSuitableComes(g, next, rest, tick);
        ScreeningLeavesRefreshed(g, next, rest, tick, candidate.user);
        ComesLater(g, s, next, Screened(g, next, rest, tick).0, candidates, tick, Screened(g, next, rest, tick).1, m);
        n := m + 1;
      } else {
        n := 0;
        ComesAtOnce(g, s, next, candidates, tick);
      }
    }
  }

  lemma NobodyComes(g: Layout, s: Sim, tick: nat)
    ensures ComesAt(g, s, s, [], tick, None, 0)
  {
  }

  lemma ComesAtOnce(g: Layout, s: Sim, t: Sim, candidates: seq<Candidate>, tick: nat)
    requires candidates != [] && t.locks == s.locks && !TurnedDown(g, s, t, candidates[0], tick)
    ensures ComesAt(g, s, t, candidates, tick, Some(candidates[0].user), 0)
  {
    hide TurnedDown;
  }

  /** A request ended without a session: its user is locked for three ticks. */
  predicate Ends(s: Sim, t: Sim, r: Request, charger: Option<nat>, outcome: Outcome, tick: nat) {
    && !outcome.Began?
    && t == s.(closed := s.closed + [Close(r.id, r.user, r.station, charger, outcome)], locks := s.locks[r.user := tick + 3])
  }

  /** How an arrival goes: it fails, takes a free charger when nobody waits, by reservation or at
      once, joins a queue of fewer than twenty, or leaves. */
  predicate Goes(g: Layout, s: Sim, t: Sim, station: nat, free: seq<nat>, r: Request, tick: nat, d: Arrival) {
    var queue := if station in s.waiting then s.waiting[station] else [];
    if d.fails then Ends(s, t, r, if free == [] then None else Some(free[0]), Failed, tick)
    else if free != [] && queue == [] then
      var c := free[d.pick % |free|];
      if d.reserves
      then t == s.(chargers := s.chargers[c := ChargerAt(s, c).(hold := Some(Hold(r, tick + d.delay, d.confirms, false)))])
      else t == StartSession(g, s, r, c, tick, d.session)
    else if d.queues && |queue| < 20 then t == s.(waiting := s.waiting[station := queue + [r]])
    else Ends(s, t, r, None, Abandoned, tick)
  }

  lemma AdmissionsGoAsDrawn(g: Layout, s: Sim, station: nat, free: seq<nat>, r: Request, tick: nat, d: Arrival)
    ensures Goes(g, s, Admitted(g, s, station, free, r, tick, d), station, free, r, tick, d)
  {
    hide StartSession;
  }

  /** Only until the last two hours, and only one of the first thirty candidates, comes; then it is
      the next request, with its user locked for good and its patience from now on. */
  lemma ArrivalsComeFromThirty(g: Layout, s: Sim, station: nat, free: seq<nat>, tick: nat, arrival: Option<Arrival>)
    ensures var t := Arrived(g, s, station, free, tick, arrival);
      if arrival == None || tick + 24 >= g.ticks then t == s
      else
        var d := arrival.value;
        var (next, user) := Screened(g, s, if |d.candidates| <= 30 then d.candidates else d.candidates[..30], tick);
        if user == None then t == next
        else
          var r := Request(next.made, user.value, station, tick, tick + d.patience);
          Goes(g, next.(made := next.made + 1, locks := next.locks[user.value := g.ticks + 1]), t, station, free, r, tick, d)
  {
    hide Screened, Admitted, Goes;
    if arrival.Some? && tick + 24 < g.ticks {
      var d := arrival.value;
      var (next, user) := Screened(g, s, if |d.candidates| > 30 then d.candidates[..30] else d.candidates, tick);
      if user.Some? {
        var r := Request(next.made, user.value, station, tick, tick + d.patience);
        AdmissionsGoAsDrawn(g, Opened(g, next, r), station, free, r, tick, d);
      }
    }
  }

  // ---- samples ----

  /** A charger shows as available exactly when it is free, as reserved when it is held, as
      occupied while a car that has finished stays, and its meter counts what it delivers. */
  lemma SamplesShowTheCharger(s: Sim, c: nat, tick: nat)
    ensures var charger, was, samples := ChargerAt(s, c), SamplesAt(s, c), SamplesAt(Sampled(s, c, tick), c);
      && |samples| == |was| + 1 && samples[..|was|] == was
      && var sample := samples[|was|];
         && (sample.session == if charger.session.Some? && charger.session.value < |s.sessions| then charger.session else None)
         && (sample.state == Available <==> sample.session == None && charger.hold == None && charger.blocked <= tick)
         && (sample.state == Reserved <==> sample.session == None && charger.hold != None)
         && (sample.state == Offline ==> charger.offline) && (sample.state == Maintenance ==> !charger.offline)
         && (sample.state == Charging ==> sample.session != None && tick < s.sessions[sample.session.value].end)
         && (sample.state != Charging ==> sample.wh == 0)
         && sample.meter == charger.meter + sample.wh
         && ChargerAt(Sampled(s, c, tick), c) == charger.(meter := sample.meter)
  {
  }
}
