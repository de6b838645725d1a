/** The vehicles' energy ledger, the session rows, and the campaign money. */
module SimulatorBooks {
  import opened Basics
  import opened SimulatorSession
  import opened SimulatorWorld

  // ---- the energy ledger of one vehicle ----

  function Gain(entry: Entry): int {
    match entry
    case Roamed(_, _, drive, external) => external - drive
    case Plugged(_, _, _, energy) => energy
  }

  function Balance(initial: nat, entries: seq<Entry>): int {
    if entries == [] then initial else Balance(initial, entries[..|entries| - 1]) + Gain(entries[|entries| - 1])
  }

  function EndOf(entries: seq<Entry>): nat {
    if entries == [] then 0 else entries[|entries| - 1].to
  }

  /** An interval at home takes over where the last one ended; charging elsewhere
      needs half a day; a stay at a charger comes later and is that session's, which
      found the battery as the ledger left it. */
  ghost predicate EntryOk(user: nat, entry: Entry, since: nat, level: int, sessions: seq<Session>) {
    && entry.from < entry.to
    && match entry
       case Roamed(from, to, drive, external) => from == since && (external > 0 ==> to - from >= 144)
       case Plugged(from, to, session, energy) =>
         && since <= from && session < |sessions|
         && var row := sessions[session];
            row.user == user && row.start == from && row.unplugged == to && row.energy == energy && row.before == level
  }

  type Wish = (nat, nat) -> nat

  /** The driving a vehicle would like between two ticks. */
  function WishOf(g: Layout, user: nat): Wish {
    (from: nat, to: nat) => g.driving(user, from, to)
  }

  /** Driving and charging elsewhere: the whole wish is driven when the battery above its
      reserve allows it, and otherwise as much as it allows; charging elsewhere happens
      when it does not and half a day has passed, in half packs, and no more of them than
      the wish takes. */
  ghost predicate Travels(capacity: nat, before: int, wanted: nat, entry: Entry)
    requires entry.Roamed?
  {
    var reserve, half, spare := Reserve(capacity), capacity / 2, before + entry.external - Reserve(capacity);
    && entry.drive == (if wanted <= spare then wanted else Max(0, spare))
    && (entry.external > 0 <==> wanted > before - reserve && entry.to - entry.from >= 144)
    && (entry.external > 0 ==> wanted <= spare < wanted + half && exists packs: nat :: IsPacks(entry.external, packs, half))
  }

  predicate IsPacks(energy: nat, packs: nat, half: nat) {
    energy == packs * half
  }

  /** The whole ledger: every interval conserves energy and leaves the battery
      between its reserve and its capacity. */
  ghost predicate LedgerOk(user: nat, wish: Wish, capacity: nat, initial: nat, entries: seq<Entry>, sessions: seq<Session>) {
    && Reserve(capacity) <= Balance(initial, entries) <= capacity
    && (entries != [] ==>
         var before := entries[..|entries| - 1];
         LedgerOk(user, wish, capacity, initial, before, sessions)
         && EntryOk(user, entries[|entries| - 1], EndOf(before), Balance(initial, before), sessions)
         && TripOk(wish, capacity, entries[|entries| - 1], Balance(initial, before)))
  }

  ghost predicate TripOk(wish: Wish, capacity: nat, entry: Entry, before: int) {
    entry.Roamed? ==> Travels(capacity, before, wish(entry.from, entry.to), entry)
  }

  lemma {:induction false} LedgerAtEveryStep(user: nat, wish: Wish, capacity: nat, initial: nat, entries: seq<Entry>,
                                             sessions: seq<Session>, n: nat)
    requires LedgerOk(user, wish, capacity, initial, entries, sessions) && n <= |entries|
    ensures LedgerOk(user, wish, capacity, initial, entries[..n], sessions)
    ensures n < |entries| ==> EntryOk(user, entries[n], EndOf(entries[..n]), Balance(initial, entries[..n]), sessions)
    ensures n < |entries| ==> TripOk(wish, capacity, entries[n], Balance(initial, entries[..n]))
    decreases |entries|
  {
    if n < |entries| {
      var before := entries[..|entries| - 1];
      assert n < |before| ==> before[n] == entries[n];
      assert before[..n] == entries[..n];
      LedgerAtEveryStep(user, wish, capacity, initial, before, sessions, n);
    } else {
      assert entries[..n] == entries;
    }
  }

  lemma {:induction false} LedgerSurvivesSessions(user: nat, wish: Wish, capacity: nat, initial: nat, entries: seq<Entry>,
                                                  sessions: seq<Session>, row: Session)
    requires LedgerOk(user, wish, capacity, initial, entries, sessions)
    ensures LedgerOk(user, wish, capacity, initial, entries, sessions + [row])
    decreases |entries|
  {
    if entries != [] {
      LedgerSurvivesSessions(user, wish, capacity, initial, entries[..|entries| - 1], sessions, row);
    }
  }

  lemma RoamingIsBounded(capacity: nat, from: nat, to: nat, before: nat, wanted: nat)
    requires capacity >= 2 && Reserve(capacity) <= before <= capacity
    ensures var (drive, external) := Roaming(capacity, from, to, before, wanted);
      && Reserve(capacity) <= before + external - drive <= capacity
      && (external > 0 ==> to - from >= 144)
  {
    hide Reserve;
    assert 2 * Reserve(capacity) <= capacity by { ReserveIsSmall(capacity); }
  }

  lemma ReserveIsSmall(capacity: nat)
    requires capacity >= 2
    ensures 2 * Reserve(capacity) <= capacity
  {
  }

  ghost predicate PackOk(g: Layout, s: Sim, user: nat) {
    var entries := Get(s.journal, user, []);
    && LedgerOk(user, WishOf(g, user), g.car(user).capacity, g.initial(user), entries, s.sessions)
    && PackOf(g, s, user).energy == Balance(g.initial(user), entries)
    && PackOf(g, s, user).tick == EndOf(entries)
    && (forall i :: 0 <= i < |s.sessions| && s.sessions[i].user == user ==>
         s.sessions[i].unplugged <= PackOf(g, s, user).tick)
    && (forall i, j :: 0 <= i < j < |s.sessions| && s.sessions[i].user == s.sessions[j].user == user ==>
         s.sessions[i].unplugged <= s.sessions[j].start)
  }

  ghost predicate PacksOk(g: Layout, s: Sim) {
    forall user: nat :: PackOk(g, s, user)
  }

  lemma ToppedUpInPacks(need: nat, half: nat)
    requires half > 0
    ensures exists packs: nat :: IsPacks(ToppedUp(need, half), packs, half)
  {
    assert IsPacks(ToppedUp(need, half), (need + half - 1) / half, half);
  }

  lemma RoamingTravels(capacity: nat, from: nat, to: nat, before: nat, wanted: nat)
    requires capacity >= 2 && from < to
    ensures var (drive, external) := Roaming(capacity, from, to, before, wanted);
      Travels(capacity, before, wanted, Roamed(from, to, drive, external))
  {
    hide Reserve, ToppedUp;
    var need := wanted + Reserve(capacity) - before;
    if need > 0 { ToppedUpInPacks(need, capacity / 2); }
  }

  lemma RoamingKeepsLedger(user: nat, wish: Wish, capacity: nat, initial: nat, entries: seq<Entry>, sessions: seq<Session>,
                           tick: nat)
    requires capacity >= 2 && LedgerOk(user, wish, capacity, initial, entries, sessions)
    requires Balance(initial, entries) >= 0 && tick > EndOf(entries)
    ensures var from, before := EndOf(entries), Balance(initial, entries);
      var (drive, external) := Roaming(capacity, from, tick, before, wish(from, tick));
      var more := entries + [Roamed(from, tick, drive, external)];
      && LedgerOk(user, wish, capacity, initial, more, sessions) && EndOf(more) == tick
      && Balance(initial, more) == before + external - drive
  {
    var from, before := EndOf(entries), Balance(initial, entries);
    var (drive, external) := Roaming(capacity, from, tick, before, wish(from, tick));
    RoamingIsBounded(capacity, from, tick, before, wish(from, tick));
    RoamingTravels(capacity, from, tick, before, wish(from, tick));
    hide Roaming, Reserve, Travels;
    var more := entries + [Roamed(from, tick, drive, external)];
    assert more[..|entries|] == entries;
  }

  lemma RefreshKeepsPacks(g: Layout, s: Sim, user: nat, tick: nat)
    requires PacksOk(g, s)
    ensures PacksOk(g, Refreshed(g, s, user, tick))
    ensures PackOf(g, Refreshed(g, s, user, tick), user).tick >= tick
    ensures PackOf(g, s, user).tick <= tick ==> PackOf(g, Refreshed(g, s, user, tick), user).tick == tick
  {
    hide LedgerOk, Balance, EndOf, Roaming;
    var pack, next := PackOf(g, s, user), Refreshed(g, s, user, tick);
    assert PackOk(g, s, user);
    if tick > pack.tick {
      RoamingKeepsLedger(user, WishOf(g, user), g.car(user).capacity, g.initial(user), Get(s.journal, user, []), s.sessions, tick);
      assert PackOk(g, next, user);
      forall other: nat ensures PackOk(g, next, other) {
        assert PackOk(g, s, other);
      }
    }
  }

  // ---- percentages of charge ----

  /** Rows carry the state of charge in percent, rounded to four digits. */
  function Percent(wh: int, capacity: nat): real
    requires capacity > 0
  {
    RoundHalfEven(Level(wh, capacity) * 10000.0) as real / 10000.0
  }

  function Level(wh: int, capacity: nat): real
    requires capacity > 0
  {
    wh as real * 100.0 / capacity as real
  }

  /** The rounded percentages of a battery that gains `after - before` pass the
      validator's tolerances. */
  ghost predicate PercentagesFit(before: int, after: int, capacity: nat)
    requires capacity > 0
  {
    var start, end, gain := Percent(before, capacity), Percent(after, capacity), after - before;
    && 0.0 <= start <= 100.0 && 0.0 <= end <= 100.0 && (gain >= 0 ==> start <= end)
    && -0.00011 <= start + Level(gain, capacity) - end <= 0.00011
    && -Slack(capacity) <= (end - start) * capacity as real / 100.0 - gain as real <= Slack(capacity)
  }

  /** The session row's percentages. */
  ghost predicate ShowsItsCharge(g: Layout, row: Session) {
    PercentagesFit(row.before, row.before + row.energy, g.car(row.user).capacity)
  }

  function Slack(capacity: nat): real {
    capacity as real * 0.000001 + 0.01
  }

  lemma RoundsClosely(x: real, y: real)
    ensures -0.5 <= RoundHalfEven(x) as real - x <= 0.5
    ensures x <= y ==> RoundHalfEven(x) <= RoundHalfEven(y)
  {
  }

  lemma LevelIsLinear(before: int, after: int, capacity: nat)
    requires capacity > 0
    ensures Level(after, capacity) == Level(before, capacity) + Level(after - before, capacity)
  {
  }

  lemma LevelTimesCapacity(wh: int, capacity: nat)
    requires capacity > 0
    ensures Level(wh, capacity) * capacity as real == wh as real * 100.0
  {
  }

  lemma LevelIsAShare(wh: int, capacity: nat)
    requires capacity > 0 && 0 <= wh
    ensures 0.0 <= Level(wh, capacity) && (wh <= capacity ==> Level(wh, capacity) <= 100.0)
  {
    LevelTimesCapacity(wh, capacity);
    hide Level;
    var x, c := Level(wh, capacity), capacity as real;
    if x < 0.0 { ScaledOrder(x, 0.0, c); }
    if x > 100.0 { ScaledOrder(100.0, x, c); }
  }

  lemma ScaledOrder(x: real, y: real, c: real)
    requires x < y && c > 0.0
    ensures x * c < y * c
  {
  }

  /** A percentage is within half of its last digit of the level it shows. */
  lemma PercentIsClose(wh: int, capacity: nat)
    requires capacity > 0 && 0 <= wh <= capacity
    ensures 0.0 <= Percent(wh, capacity) <= 100.0
    ensures -0.00005 <= Percent(wh, capacity) - Level(wh, capacity) <= 0.00005
  {
    LevelIsAShare(wh, capacity);
    hide Level;
    RoundsClosely(Level(wh, capacity) * 10000.0, 1000000.0);
    RoundsClosely(0.0, Level(wh, capacity) * 10000.0);
  }

  lemma PercentGrows(before: int, after: int, capacity: nat)
    requires capacity > 0 && before <= after
    ensures Percent(before, capacity) <= Percent(after, capacity)
  {
    LevelIsLinear(before, after, capacity);
    LevelIsAShare(after - before, capacity);
    hide Level;
    RoundsClosely(Level(before, capacity) * 10000.0, Level(after, capacity) * 10000.0);
  }

  /** An error of one unit in the fourth digit is within the validator's slack. */
  lemma SmallErrors(error: real, gain: int, x: real, capacity: nat)
    requires -0.0001 <= error <= 0.0001 && x * capacity as real == gain as real * 100.0
    ensures -Slack(capacity) <= (x + error) * capacity as real / 100.0 - gain as real <= Slack(capacity)
  {
    ScaledBounds(error, capacity as real);
    ShiftedGain(error, gain as real, x, capacity as real);
  }

  lemma NonNegativeProduct(a: real, b: real)
    requires a >= 0.0 && b >= 0.0
    ensures a * b >= 0.0
  {
  }

  lemma ScaledBounds(error: real, c: real)
    requires -0.0001 <= error <= 0.0001 && c >= 0.0
    ensures -0.0001 * c <= error * c <= 0.0001 * c
  {
    NonNegativeProduct(0.0001 - error, c);
    NonNegativeProduct(error + 0.0001, c);
    assert (0.0001 - error) * c == 0.0001 * c - error * c;
    assert (error + 0.0001) * c == error * c + 0.0001 * c;
  }

  lemma ShiftedGain(error: real, gain: real, x: real, c: real)
    requires x * c == gain * 100.0
    ensures (x + error) * c / 100.0 - gain == error * c / 100.0
  {
    assert (x + error) * c == x * c + error * c;
  }

  lemma RoundingIsTolerated(before: int, after: int, capacity: nat)
    requires capacity > 0 && 0 <= before <= capacity && 0 <= after <= capacity
    ensures PercentagesFit(before, after, capacity)
  {
    hide Percent, Level, Slack;
    var start, end, x := Percent(before, capacity), Percent(after, capacity), Level(after - before, capacity);
    PercentIsClose(before, capacity);
    PercentIsClose(after, capacity);
    if before <= after { PercentGrows(before, after, capacity); }
    LevelIsLinear(before, after, capacity);
    LevelTimesCapacity(after - before, capacity);
    SmallErrors(end - start - x, after - before, x, capacity);
    assert x + (end - start - x) == end - start;
  }

  /** What a ledger that is in order says at every entry. */
  lemma LedgerTells(user: nat, wish: Wish, capacity: nat, initial: nat, entries: seq<Entry>, sessions: seq<Session>, n: nat)
    requires LedgerOk(user, wish, capacity, initial, entries, sessions) && n <= |entries| && capacity > 0
    ensures Reserve(capacity) <= Balance(initial, entries[..n]) <= capacity
    ensures n < |entries| ==>
      && EntryOk(user, entries[n], EndOf(entries[..n]), Balance(initial, entries[..n]), sessions)
      && TripOk(wish, capacity, entries[n], Balance(initial, entries[..n]))
      && PercentagesFit(Balance(initial, entries[..n]), Balance(initial, entries[..n]) + Gain(entries[n]), capacity)
  {
    hide EntryOk, TripOk, Reserve, PercentagesFit;
    LedgerAtEveryStep(user, wish, capacity, initial, entries, sessions, n);
    if n < |entries| {
      LedgerAtEveryStep(user, wish, capacity, initial, entries, sessions, n + 1);
      assert entries[..n + 1][..n] == entries[..n];
      RoundingIsTolerated(Balance(initial, entries[..n]), Balance(initial, entries[..n + 1]), capacity);
    }
  }

  // ---- the rows ----

  /** No interval draws more than charger and car allow: 12 Wh in five minutes are 0.144 kW. */
  ghost predicate PowerOk(steps: seq<Step>, kw: real) {
    forall n :: 0 <= n < |steps| ==> 1 <= steps[n].wh <= steps[n].grid && steps[n].wh as real * 0.012 <= kw
  }

  ghost predicate RowFits(g: Layout, row: Session) {
    var bay := g.bay(row.charger);
    && RowOk(row, FreeParking(bay.ac, g.site(bay.station).kind), g.ticks)
    && TotalsOk(row, TariffOf(g, row.city))
    && row.before + row.energy <= g.car(row.user).capacity
    && row.city == g.site(bay.station).city && row.charger < g.count
    && PowerOk(row.steps, MinReal(bay.rated, g.car(row.user).acceptance))
  }

  ghost predicate RowsOk(g: Layout, sessions: seq<Session>) {
    forall i :: 0 <= i < |sessions| ==> RowFits(g, sessions[i])
  }

  function SpentOn(sessions: seq<Session>, key: (nat, nat)): nat {
    if sessions == [] then 0
    else
      var row := sessions[|sessions| - 1];
      SpentOn(sessions[..|sessions| - 1], key) + if (row.city, row.block) == key then row.discount else 0
  }

  ghost predicate SpendOk(s: Sim) {
    forall key: (nat, nat) :: SpendOf(s, key) == SpentOn(s.sessions, key) <= BUDGET
  }

  /** The run is within its bounds, and the battery is not above 85 percent: what
      holds whenever a session is started. */
  ghost predicate CanStart(g: Layout, s: Sim, r: Request, tick: nat) {
    var pack := PackOf(g, s, r.user);
    pack.energy * 100 < 85 * g.car(r.user).capacity && pack.tick <= tick
  }

  lemma JobIsOk(g: Layout, s: Sim, r: Request, c: nat, tick: nat, d: SessionDraw)
    requires CanStart(g, s, r, tick)
    requires Min(PlanFor(g, s, r, c, tick, d).limit, g.ticks - 12 - tick) > 0
    ensures var plan, job := PlanFor(g, s, r, c, tick, d), JobFor(g, s, r, c, tick, d);
      && 500 <= plan.target <= g.car(r.user).capacity - PackOf(g, s, r.user).energy
      && 0 < job.limit && tick + job.limit + 12 <= g.ticks
      && 0 < job.target <= plan.target && (d.anomaly.EarlyStop? ==> job.target < plan.target)
      && (!d.anomaly.EarlyStop? ==> job.target == plan.target)
      && 0.0 <= job.kw <= MinReal(g.bay(c).rated, g.car(r.user).acceptance) && job.start == tick
      && job.target == ActualTarget(plan.target, d.anomaly) && job.tariff == TariffOf(g, g.site(g.bay(c).station).city)
  {
    PlanIsBounded(g.car(r.user), PackOf(g, s, r.user).energy, g.bay(c).ac, g.site(g.bay(c).station).kind, tick, d.plan);
    hide SessionPlan, PackOf, TariffOf;
    ShareOf(MinReal(g.bay(c).rated, g.car(r.user).acceptance), if d.anomaly.Derating? then 0.4 else 1.0);
  }

  lemma StepsAreOk(job: Job)
    requires job.kw >= 0.0 && 0 < job.limit && 0 < job.target
    ensures var steps := Steps(job);
      && 0 < |steps| <= job.limit && 0 < Wh(steps) <= job.target && Wh(steps) <= Grid(steps)
      && (Wh(steps) == job.target || |steps| == job.limit)
      && forall kw :: job.kw <= kw && kw >= 1.0 ==> PowerOk(steps, kw)
  {
    Nothing(job);
    ChargedFrom(job, []);
    assert [] + Steps(job) == Steps(job);
    GridCoversEnergy(job, Steps(job));
    NotNothing(job);
    hide Steps, Wh, Grid;
  }

  lemma DiscountIsSmall(spent: nat, coupon: bool, fees: nat)
    ensures var discount := Discount(spent, coupon, fees);
      discount <= fees && discount <= DISCOUNT && (spent <= BUDGET ==> spent + discount <= BUDGET)
  {
  }

  lemma UnplugsInTime(end: nat, tick: nat, plan: Plan, ticks: nat)
    requires end + 12 <= ticks
    ensures var unplugged := Max(0, Min(Max(Max(end, tick + plan.connected), end + plan.parking), ticks - 2));
      end <= unplugged <= ticks - 2
  {
  }

  /** Everything the validator recomputes from a row holds of the row written. */
  lemma SessionIsOk(g: Layout, s: Sim, r: Request, c: nat, tick: nat, d: SessionDraw)
    requires CanStart(g, s, r, tick) && c < g.count
    requires Min(PlanFor(g, s, r, c, tick, d).limit, g.ticks - 12 - tick) > 0
    ensures var row := SessionFor(g, s, r, c, tick, d);
      && RowFits(g, row) && row.user == r.user && row.charger == c && row.start == tick && row.request == r.id
      && row.before == PackOf(g, s, r.user).energy
  {
    hide PlanFor, JobFor, Steps, Wh, Grid, Cost, EnergyFee, ServiceFee, ParkingFee, FreeParking, Discount, PackOf, TariffOf,
      PowerOk, ActualTarget, SpendOf;
    var plan, job := PlanFor(g, s, r, c, tick, d), JobFor(g, s, r, c, tick, d);
    JobIsOk(g, s, r, c, tick, d);
    StepsAreOk(job);
    var row, steps, site := SessionFor(g, s, r, c, tick, d), Steps(job), g.site(g.bay(c).station);
    UnplugsInTime(tick + |steps|, tick, plan, g.ticks);
    DiscountIsSmall(SpendOf(s, (site.city, Block(tick))), d.coupon,
                    EnergyFee(steps, tick, job.tariff) + ServiceFee(steps, tick, job.tariff));
  }

  lemma NotNothing(job: Job)
    requires job.kw >= 0.0 && 0 < job.limit && 0 < job.target
    ensures Steps(job) != []
  {
  }
}
