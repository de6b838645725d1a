/** The paired capacity-insertion simulator: both policies replay the same
    requests against the same fixed background, and each served request is
    given a whole charging interval.

    Instants are seconds. A forecast with its scores is one deterministic
    function of what a request can see, the `Planner`; the recorded background
    is the `Oracle`, one count of free chargers per five-minute slot. */
module Experiment {
  import opened Basics

  type Id = int
  type Instant = real

  datatype Interval = Interval(start: Instant, end: Instant)
  datatype Policy = Nearest | Incentive
  datatype Route = Route(station: Id, distance: real, eta: real)

  /** `draw` is the take-up draw, fixed before either policy runs. */
  datatype Request = Request(id: nat, time: Instant, draw: real, energy: real, routes: seq<Route>)

  /** What a recommendation may use: a route, and the leases outstanding now. */
  datatype Seen = Seen(route: Route, outstanding: nat)

  datatype Ranked = Ranked(station: Id, distance: real, eta: real, minutes: real, rank: nat, points: nat)

  /** Minutes, except for `rank` and `reward`. */
  datatype Row = Row(served: bool, wait: real, drive: real, total: real, free: bool, rank: Option<nat>, reward: nat)

  datatype Run = Run(slots: map<Id, seq<Interval>>, leases: map<Id, seq<Instant>>, rows: seq<Row>)

  type Planner = (Request, seq<Seen>) -> seq<Ranked>
  type Oracle = (Id, int) -> nat

  const EMPTY := Run(map[], map[], [])
  const STEPS := 25
  const STEP := 300.0
  const SAMPLES := 144

  function Of<T>(m: map<Id, seq<T>>, key: Id): seq<T> {
    if key in m then m[key] else []
  }

  function Appended<T>(m: map<Id, seq<T>>, key: Id, value: T): map<Id, seq<T>> {
    m[key := Of(m, key) + [value]]
  }

  /** The five-minute slot of an instant. */
  function Slot(t: Instant): int {
    t.Floor / 300
  }

  function Boundary(slot: int): Instant {
    (300 * slot) as real
  }

  predicate Covers(i: Interval, t: Instant) {
    i.start <= t < i.end
  }

  function Occupied(slots: seq<Interval>, t: Instant): nat {
    if slots == [] then 0
    else Occupied(slots[..|slots| - 1], t) + if Covers(slots[|slots| - 1], t) then 1 else 0
  }

  function Outstanding(leases: seq<Instant>, now: Instant): nat {
    if leases == [] then 0
    else Outstanding(leases[..|leases| - 1], now) + if leases[|leases| - 1] > now then 1 else 0
  }

  /** One more interval can be taken at every instant of `i`. */
  ghost predicate Fits(slots: seq<Interval>, station: Id, i: Interval, oracle: Oracle) {
    forall t: Instant :: Covers(i, t) ==> Occupied(slots, t) < oracle(station, Slot(t))
  }

  /** Our own charging never exceeds what the background leaves, at any instant. */
  ghost predicate Within(slots: seq<Interval>, station: Id, oracle: Oracle) {
    forall t: Instant :: Occupied(slots, t) <= oracle(station, Slot(t))
  }

  // ---- finitely many instants decide every instant ----

  /** The start and end instants of existing intervals that fall into `i`. */
  function Edges(slots: seq<Interval>, i: Interval): set<Instant> {
    (set s | s in slots && Covers(i, s.start) :: s.start) + (set s | s in slots && Covers(i, s.end) :: s.end)
  }

  predicate Passes(slots: seq<Interval>, station: Id, t: Instant, oracle: Oracle) {
    Occupied(slots, t) < oracle(station, Slot(t))
  }

  ghost function Latest(s: set<Instant>): (m: Instant)
    requires s != {}
    ensures m in s && forall x :: x in s ==> x <= m
  {
    var x := Pick(s);
    if s == {x} then x else
      var rest := Latest(s - {x});
      assert forall y :: y in s ==> y == x || y in s - {x};
      if x > rest then x else rest
  }

  lemma {:induction false} OccupancyIsFlat(slots: seq<Interval>, c: Instant, t: Instant)
    requires c <= t
    requires forall s :: s in slots ==> !(c < s.start <= t) && !(c < s.end <= t)
    ensures Occupied(slots, c) == Occupied(slots, t)
  {
    if slots != [] {
      var last := slots[|slots| - 1];
      assert last in slots;
      OccupancyIsFlat(slots[..|slots| - 1], c, t);
    }
  }

  lemma SlotIsFlat(c: Instant, t: Instant)
    requires c <= t
    requires forall k: int :: !(c < Boundary(k) <= t)
    ensures Slot(c) == Slot(t)
  {
    assert !(c < Boundary(Slot(t)) <= t);
  }

  /** The instants the search looks at inside `i`. */
  ghost predicate Enough(checks: set<Instant>, slots: seq<Interval>, i: Interval) {
    && i.start in checks
    && (forall c :: c in checks ==> Covers(i, c))
    && Edges(slots, i) <= checks
    && forall k: int :: i.start < Boundary(k) < i.end ==> Boundary(k) in checks
  }

  /** At any instant of the interval, the last check before it sees the same
      occupancy and the same background. */
  lemma LastCheckDecides(slots: seq<Interval>, i: Interval, checks: set<Instant>, t: Instant) returns (c: Instant)
    requires Covers(i, t) && Enough(checks, slots, i)
    ensures c in checks && Occupied(slots, c) == Occupied(slots, t) && Slot(c) == Slot(t)
  {
    var before := set c | c in checks && c <= t;
    assert i.start in before;
    c := Latest(before);
    forall s | s in slots ensures !(c < s.start <= t) && !(c < s.end <= t) {
      assert Covers(i, s.start) ==> s.start in Edges(slots, i);
      assert Covers(i, s.end) ==> s.end in Edges(slots, i);
      assert s.start in checks && s.start <= t ==> s.start in before;
      assert s.end in checks && s.end <= t ==> s.end in before;
    }
    OccupancyIsFlat(slots, c, t);
    forall k: int ensures !(c < Boundary(k) <= t) {
      assert Boundary(k) in checks && Boundary(k) <= t ==> Boundary(k) in before;
    }
    SlotIsFlat(c, t);
  }

  /** Passing at the start, at every slot boundary and at every edge inside the
      interval is the same as having room at every instant of it. */
  lemma ChecksSuffice(slots: seq<Interval>, station: Id, i: Interval, checks: set<Instant>, oracle: Oracle)
    requires Enough(checks, slots, i)
    ensures (forall c :: c in checks ==> Passes(slots, station, c, oracle)) <==> Fits(slots, station, i, oracle)
  {
    if forall c :: c in checks ==> Passes(slots, station, c, oracle) {
      forall t: Instant | Covers(i, t) ensures Occupied(slots, t) < oracle(station, Slot(t)) {
        var c := LastCheckDecides(slots, i, checks, t);
        assert Passes(slots, station, c, oracle);
      }
    }
  }

  /** The start of the interval and every slot boundary inside it. */
  method Ticks(i: Interval) returns (checks: set<Instant>)
    requires i.start < i.end
    ensures i.start in checks && forall c :: c in checks ==> Covers(i, c)
    ensures forall k: int :: i.start < Boundary(k) < i.end ==> Boundary(k) in checks
  {
    var tick := i.start;
    checks := {i.start};
    while tick < i.end
      invariant i.start <= tick && i.start in checks
      invariant forall c :: c in checks ==> Covers(i, c)
      invariant forall k: int :: i.start < Boundary(k) < tick && Boundary(k) < i.end ==> Boundary(k) in checks
      invariant tick == i.start || tick == Boundary(Slot(tick))
      decreases Slot(i.end) + 1 - Slot(tick)
    {
      checks := checks + {tick};
      var next := Boundary(Slot(tick) + 1);
      assert Slot(next) == Slot(tick) + 1;
      assert forall k: int :: tick <= Boundary(k) < next ==> k == Slot(tick);
      tick := next;
    }
  }

  /** One candidate start: the checked instants in order, up to the first that is full. */
  method Feasible(slots: seq<Interval>, station: Id, i: Interval, oracle: Oracle) returns (feasible: bool)
    requires i.start < i.end
    ensures feasible <==> Fits(slots, station, i, oracle)
  {
    var checks := Ticks(i);
    checks := checks + Edges(slots, i);
    ghost var all := checks;
    feasible := true;
    while checks != {} && feasible
      invariant checks <= all
      invariant feasible ==> forall c :: c in all - checks ==> Passes(slots, station, c, oracle)
      invariant !feasible ==> exists c :: c in all && !Passes(slots, station, c, oracle)
    {
      assert exists c :: c in checks && forall d :: d in checks ==> c <= d by {
        var first := Earliest(checks);
      }
      var tick :| tick in checks && forall d :: d in checks ==> tick <= d;
      if oracle(station, Slot(tick)) <= Occupied(slots, tick) {
        feasible := false;
      }
      checks := checks - {tick};
    }
    ChecksSuffice(slots, station, i, all, oracle);
  }

  // ---- the slot search ----

  function Candidate(arrival: Instant, duration: real, step: nat): Interval {
    var start := arrival + step as real * STEP;
    Interval(start, start + duration)
  }

  /** The first of the remaining candidate starts with room at every instant. */
  ghost function FirstFit(slots: seq<Interval>, station: Id, arrival: Instant, duration: real, oracle: Oracle,
                          step: nat := 0): (found: Option<nat>)
    requires step <= STEPS
    ensures found.Some? ==> step <= found.value < STEPS
    ensures found.Some? ==> Fits(slots, station, Candidate(arrival, duration, found.value), oracle)
    ensures forall k :: step <= k < (if found.Some? then found.value else STEPS) ==>
      !Fits(slots, station, Candidate(arrival, duration, k), oracle)
    decreases STEPS - step
  {
    if step == STEPS then None
    else if Fits(slots, station, Candidate(arrival, duration, step), oracle) then Some(step)
    else FirstFit(slots, station, arrival, duration, oracle, step + 1)
  }

  method Search(slots: seq<Interval>, station: Id, arrival: Instant, duration: real, oracle: Oracle)
    returns (found: Option<nat>)
    requires duration > 0.0
    ensures found == FirstFit(slots, station, arrival, duration, oracle)
  {
    for step := 0 to STEPS
      invariant FirstFit(slots, station, arrival, duration, oracle)
             == FirstFit(slots, station, arrival, duration, oracle, step)
    {
      var feasible := Feasible(slots, station, Candidate(arrival, duration, step), oracle);
      if feasible {
        return Some(step);
      }
    }
    return None;
  }

  // ---- one request ----

  /** The routes within an hour, each with the leases outstanding at `now`. */
  function Visible(routes: seq<Route>, leases: map<Id, seq<Instant>>, now: Instant): seq<Seen> {
    if routes == [] then []
    else
      var rest := Visible(routes[..|routes| - 1], leases, now);
      var route := routes[|routes| - 1];
      if route.eta > 60.0 then rest else rest + [Seen(route, Outstanding(Of(leases, route.station), now))]
  }

  predicate Nearer(a: Ranked, b: Ranked) {
    a.distance < b.distance || (a.distance == b.distance && a.station <= b.station)
  }

  function Closest(ranked: seq<Ranked>): (r: Ranked)
    requires ranked != []
    ensures r in ranked && forall s :: s in ranked ==> Nearer(r, s)
  {
    if |ranked| == 1 then ranked[0]
    else
      var rest := Closest(ranked[1..]);
      assert forall s :: s in ranked ==> s == ranked[0] || s in ranked[1..];
      if Nearer(ranked[0], rest) then ranked[0] else rest
  }

  function Choice(leases: map<Id, seq<Instant>>, request: Request, policy: Policy, plan: Planner): Option<Ranked> {
    var ranked := plan(request, Visible(request.routes, leases, request.time));
    if ranked == [] then None
    else Some(if policy.Incentive? && request.draw < 0.8 then ranked[0] else Closest(ranked))
  }

  function Arrival(request: Request, chosen: Ranked): Instant {
    request.time + chosen.eta * 60.0
  }

  function Minutes(chosen: Ranked): real {
    MaxReal(5.0, chosen.minutes)
  }

  /** Fixed when the station is chosen: arrival, two hours, and the planned charge. */
  function Lease(request: Request, chosen: Ranked): Instant {
    Arrival(request, chosen) + 7200.0 + Minutes(chosen) * 60.0
  }

  function RowFor(chosen: Ranked, policy: Policy, found: Option<nat>, free: bool): Row {
    var wait := if found.Some? then found.value as real * 5.0 else 120.0;
    Row(found.Some?, wait, chosen.eta, chosen.eta + wait + (if found.Some? then Minutes(chosen) else 0.0),
        free, Some(chosen.rank), if policy.Incentive? && found.Some? then chosen.points else 0)
  }

  const NOBODY := Row(false, 120.0, 60.0, 180.0, false, None, 0)

  ghost function Served(run: Run, request: Request, policy: Policy, plan: Planner, oracle: Oracle): Run {
    match Choice(run.leases, request, policy, plan)
    case None => run.(rows := run.rows + [NOBODY])
    case Some(chosen) =>
      var own := Of(run.slots, chosen.station);
      var arrival, duration := Arrival(request, chosen), Minutes(chosen) * 60.0;
      var found := FirstFit(own, chosen.station, arrival, duration, oracle);
      var free := Passes(own, chosen.station, arrival, oracle);
      Run(if found.Some? then Appended(run.slots, chosen.station, Candidate(arrival, duration, found.value))
          else run.slots,
          Appended(run.leases, chosen.station, Lease(request, chosen)),
          run.rows + [RowFor(chosen, policy, found, free)])
  }

  ghost function ServedAll(requests: seq<Request>, policy: Policy, plan: Planner, oracle: Oracle): Run {
    if requests == [] then EMPTY
    else Served(ServedAll(requests[..|requests| - 1], policy, plan, oracle),
                requests[|requests| - 1], policy, plan, oracle)
  }

  // ---- capacity over a whole run ----

  lemma {:induction false} InsertionKeepsCapacity(slots: seq<Interval>, station: Id, i: Interval, oracle: Oracle)
    requires Within(slots, station, oracle)
    requires Fits(slots, station, i, oracle)
    ensures Within(slots + [i], station, oracle)
  {
    assert (slots + [i])[..|slots|] == slots;
    forall t: Instant ensures Occupied(slots + [i], t) <= oracle(station, Slot(t)) {
      assert Occupied(slots, t) <= oracle(station, Slot(t));
    }
  }

  lemma RequestKeepsCapacity(run: Run, request: Request, policy: Policy, plan: Planner, oracle: Oracle, station: Id)
    requires Within(Of(run.slots, station), station, oracle)
    ensures Within(Of(Served(run, request, policy, plan, oracle).slots, station), station, oracle)
  {
    hide Within, Choice, Passes, Fits, Candidate;
    match Choice(run.leases, request, policy, plan)
    case None =>
    case Some(chosen) =>
      var own := Of(run.slots, chosen.station);
      var arrival, duration := Arrival(request, chosen), Minutes(chosen) * 60.0;
      var found := FirstFit(own, chosen.station, arrival, duration, oracle);
      if found.Some? && chosen.station == station {
        InsertionKeepsCapacity(own, station, Candidate(arrival, duration, found.value), oracle);
      }
  }

  /** At every station and every instant, background plus our own charging fits. */
  lemma {:induction false} CapacityHolds(requests: seq<Request>, policy: Policy, plan: Planner, oracle: Oracle,
                                         station: Id)
    ensures Within(Of(ServedAll(requests, policy, plan, oracle).slots, station), station, oracle)
  {
    if requests != [] {
      var before := requests[..|requests| - 1];
      CapacityHolds(before, policy, plan, oracle, station);
      RequestKeepsCapacity(ServedAll(before, policy, plan, oracle), requests[|requests| - 1], policy, plan, oracle, station);
    }
  }

  // ---- causality: two futures, one sequence of decisions ----

  predicate SameDecision(a: Row, b: Row) {
    a.rank == b.rank && a.drive == b.drive
  }

  /** Whatever the two oracles say, the leases are the same, so every request
      chooses the same station, with the same rank and the same drive. */
  lemma {:induction false} ChoicesIgnoreTheFuture(requests: seq<Request>, policy: Policy, plan: Planner,
                                                  future: Oracle, other: Oracle)
    ensures var a, b := ServedAll(requests, policy, plan, future), ServedAll(requests, policy, plan, other);
      && a.leases == b.leases
      && |a.rows| == |b.rows| == |requests|
      && (forall k :: 0 <= k < |requests| ==> SameDecision(a.rows[k], b.rows[k]))
  {
    if requests != [] {
      ChoicesIgnoreTheFuture(requests[..|requests| - 1], policy, plan, future, other);
    }
  }

  /** The station each request is sent to. */
  ghost function Decisions(requests: seq<Request>, policy: Policy, plan: Planner, oracle: Oracle): seq<Option<Ranked>> {
    if requests == [] then []
    else
      var before := requests[..|requests| - 1];
      Decisions(before, policy, plan, oracle)
      + [Choice(ServedAll(before, policy, plan, oracle).leases, requests[|requests| - 1], policy, plan)]
  }

  lemma {:induction false} StationsIgnoreTheFuture(requests: seq<Request>, policy: Policy, plan: Planner,
                                                   future: Oracle, other: Oracle)
    ensures Decisions(requests, policy, plan, future) == Decisions(requests, policy, plan, other)
  {
    if requests != [] {
      StationsIgnoreTheFuture(requests[..|requests| - 1], policy, plan, future, other);
      ChoicesIgnoreTheFuture(requests[..|requests| - 1], policy, plan, future, other);
    }
  }

  // ---- what a request may see, where it is sent, and what it gets ----

  lemma {:induction false} OccupiedCounts(slots: seq<Interval>, t: Instant)
    ensures Occupied(slots, t) == |set k | 0 <= k < |slots| && slots[k].start <= t < slots[k].end|
  {
    var all := set k | 0 <= k < |slots| && slots[k].start <= t < slots[k].end;
    if slots == [] {
      assert all == {};
    } else {
      var n := |slots| - 1;
      var rest := set k | 0 <= k < |slots[..n]| && slots[..n][k].start <= t < slots[..n][k].end;
      OccupiedCounts(slots[..n], t);
      assert all == rest + if Covers(slots[n], t) then {n} else {};
    }
  }

  lemma {:induction false} OutstandingCounts(leases: seq<Instant>, now: Instant)
    ensures Outstanding(leases, now) == |set k | 0 <= k < |leases| && now < leases[k]|
  {
    var all := set k | 0 <= k < |leases| && now < leases[k];
    if leases == [] {
      assert all == {};
    } else {
      var n := |leases| - 1;
      var rest := set k | 0 <= k < |leases[..n]| && now < leases[..n][k];
      OutstandingCounts(leases[..n], now);
      assert all == rest + if now < leases[n] then {n} else {};
    }
  }

  /** `seen` shows the routes at the given places, each with the leases of its station that have not run out. */
  ghost predicate Shows(seen: seq<Seen>, places: seq<nat>, routes: seq<Route>, leases: map<Id, seq<Instant>>, now: Instant) {
    && |seen| == |places|
    && (forall i, j :: 0 <= i < j < |places| ==> places[i] < places[j])
    && forall i :: 0 <= i < |places| ==>
         && places[i] < |routes| && seen[i].route == routes[places[i]]
         && var own := Of(leases, seen[i].route.station);
            seen[i].outstanding == |set k | 0 <= k < |own| && now < own[k]|
  }

  lemma ShowsMore(seen: seq<Seen>, places: seq<nat>, routes: seq<Route>, leases: map<Id, seq<Instant>>, now: Instant)
    requires routes != [] && Shows(seen, places, routes[..|routes| - 1], leases, now)
    ensures var n := |routes| - 1;
      && Shows(seen, places, routes, leases, now)
      && Shows(seen + [Seen(routes[n], Outstanding(Of(leases, routes[n].station), now))], places + [n], routes, leases, now)
  {
    OutstandingCounts(Of(leases, routes[|routes| - 1].station), now);
    hide Outstanding, Of;
  }

  lemma PlacesAreBelow(seen: seq<Seen>, places: seq<nat>, routes: seq<Route>, leases: map<Id, seq<Instant>>, now: Instant)
    requires Shows(seen, places, routes, leases, now)
    ensures forall i :: i in places ==> i < |routes|
  {
  }

  /** A recommendation sees exactly the routes of at most an hour, in their order, and of
      the other users only how many leases have not run out. */
  lemma {:induction false} OnlyRoutesWithinTheHour(routes: seq<Route>, leases: map<Id, seq<Instant>>, now: Instant)
    returns (places: seq<nat>)
    ensures Shows(Visible(routes, leases, now), places, routes, leases, now)
    ensures forall i :: 0 <= i < |routes| ==> (i in places <==> routes[i].eta <= 60.0)
  {
    if routes == [] {
      places := [];
    } else {
      var n := |routes| - 1;
      places := OnlyRoutesWithinTheHour(routes[..n], leases, now);
      ShowsMore(Visible(routes[..n], leases, now), places, routes, leases, now);
      assert forall i :: 0 <= i < n ==> routes[..n][i] == routes[i];
      PlacesAreBelow(Visible(routes[..n], leases, now), places, routes[..n], leases, now);
      hide Shows, Outstanding;
      if routes[n].eta <= 60.0 { places := places + [n]; }
    }
  }

  /** Where a request with this ranking is sent: nowhere without a candidate, to the first
      one with an incentive that is taken up, and otherwise to the nearest, of equally
      near ones to the one with the smaller identifier. */
  predicate SentTo(ranked: seq<Ranked>, policy: Policy, draw: real, decision: Option<Ranked>) {
    if ranked == [] then decision == None
    else if policy == Incentive && draw < 0.8 then decision == Some(ranked[0])
    else decision.Some? && decision.value in ranked && forall r :: r in ranked ==>
      var near := decision.value;
      near.distance < r.distance || (near.distance == r.distance && near.station <= r.station)
  }

  /** There is room at `t` for one more charge at the station. */
  ghost predicate Room(slots: seq<Interval>, station: Id, oracle: Oracle, t: Instant) {
    |set k | 0 <= k < |slots| && slots[k].start <= t < slots[k].end| < oracle(station, t.Floor / 300)
  }

  /** Room at every instant of a charge that starts five-minute steps after the arrival. */
  ghost predicate RoomFrom(slots: seq<Interval>, station: Id, oracle: Oracle, arrival: Instant, duration: real, step: int) {
    forall t: Instant :: arrival + 300.0 * step as real <= t < arrival + 300.0 * step as real + duration ==>
      Room(slots, station, oracle, t)
  }

  /** The first of 25 such starts with room throughout. */
  ghost predicate FirstRoom(slots: seq<Interval>, station: Id, oracle: Oracle, arrival: Instant, duration: real, step: int) {
    && 0 <= step < 25 && RoomFrom(slots, station, oracle, arrival, duration, step)
    && forall k :: 0 <= k < step ==> !RoomFrom(slots, station, oracle, arrival, duration, k)
  }

  ghost predicate NoRoom(slots: seq<Interval>, station: Id, oracle: Oracle, arrival: Instant, duration: real) {
    forall k :: 0 <= k < 25 ==> !RoomFrom(slots, station, oracle, arrival, duration, k)
  }

  function Put<T>(m: map<Id, seq<T>>, key: Id, value: T): map<Id, seq<T>> {
    m[key := (if key in m then m[key] else []) + [value]]
  }

  /** The request leaves a lease whatever happens: two hours and the charge after the arrival. */
  ghost predicate Handled(before: Run, after: Run, row: Row, request: Request, c: Ranked, policy: Policy, oracle: Oracle) {
    var arrival, minutes := request.time + 60.0 * c.eta, if c.minutes > 5.0 then c.minutes else 5.0;
    && after.leases == Put(before.leases, c.station, arrival + 7200.0 + 60.0 * minutes)
    && row.rank == Some(c.rank) && row.drive == c.eta
    && HasSlot(before, after, row, c, policy, oracle, arrival, minutes, 60.0 * minutes)
  }

  /** It takes the first start with room throughout, or none. */
  ghost predicate HasSlot(before: Run, after: Run, row: Row, c: Ranked, policy: Policy, oracle: Oracle,
                          arrival: Instant, minutes: real, duration: real) {
    var own := Of(before.slots, c.station);
    && (row.free <==> Room(own, c.station, oracle, arrival))
    && (row.served ==> exists step ::
         && FirstRoom(own, c.station, oracle, arrival, duration, step)
         && Given(before, after, row, c, policy, arrival, minutes, step))
    && (!row.served ==>
         && NoRoom(own, c.station, oracle, arrival, duration)
         && after.slots == before.slots && row.wait == 120.0 && row.total == c.eta + 120.0 && row.reward == 0)
  }

  /** The slot given, and the row that reports it. */
  predicate Given(before: Run, after: Run, row: Row, c: Ranked, policy: Policy, arrival: Instant, minutes: real, step: int) {
    && after.slots == Put(before.slots, c.station,
         Interval(arrival + 300.0 * step as real, arrival + 300.0 * step as real + 60.0 * minutes))
    && row.wait == 5.0 * step as real && row.total == c.eta + row.wait + minutes
    && row.reward == if policy == Incentive then c.points else 0
  }

  lemma RoomIsFit(slots: seq<Interval>, station: Id, oracle: Oracle, arrival: Instant, duration: real, step: nat)
    ensures RoomFrom(slots, station, oracle, arrival, duration, step)
      <==> Fits(slots, station, Candidate(arrival, duration, step), oracle)
  {
    var i := Candidate(arrival, duration, step);
    forall t: Instant
      ensures Room(slots, station, oracle, t) <==> Occupied(slots, t) < oracle(station, Slot(t))
      ensures Covers(i, t) <==> arrival + 300.0 * step as real <= t < arrival + 300.0 * step as real + duration
    {
      RoomIsFree(slots, station, oracle, t);
    }
    hide Room, Occupied, Slot, Candidate;
    if Fits(slots, station, i, oracle) {
      forall t: Instant | arrival + 300.0 * step as real <= t < arrival + 300.0 * step as real + duration
        ensures Room(slots, station, oracle, t) {
        assert Covers(i, t);
      }
    }
    if RoomFrom(slots, station, oracle, arrival, duration, step) {
      forall t: Instant | Covers(i, t) ensures Occupied(slots, t) < oracle(station, Slot(t)) {
        assert Room(slots, station, oracle, t);
      }
    }
  }

  lemma RoomIsFree(slots: seq<Interval>, station: Id, oracle: Oracle, t: Instant)
    ensures Room(slots, station, oracle, t) <==> Passes(slots, station, t, oracle)
  {
    OccupiedCounts(slots, t);
  }

  lemma FirstFitIsFirstRoom(own: seq<Interval>, station: Id, oracle: Oracle, arrival: Instant, duration: real)
    ensures var found := FirstFit(own, station, arrival, duration, oracle);
      if found.Some? then FirstRoom(own, station, oracle, arrival, duration, found.value)
      else NoRoom(own, station, oracle, arrival, duration)
  {
    var found := FirstFit(own, station, arrival, duration, oracle);
    hide RoomFrom, Fits, FirstFit;
    forall k: nat ensures RoomFrom(own, station, oracle, arrival, duration, k)
        <==> Fits(own, station, Candidate(arrival, duration, k), oracle) {
      RoomIsFit(own, station, oracle, arrival, duration, k);
    }
  }

  lemma ServedWrites(run: Run, request: Request, policy: Policy, plan: Planner, oracle: Oracle, c: Ranked)
    requires Choice(run.leases, request, policy, plan) == Some(c)
    ensures var minutes, own := if c.minutes > 5.0 then c.minutes else 5.0, Of(run.slots, c.station);
      var arrival := request.time + 60.0 * c.eta;
      var next, found := Served(run, request, policy, plan, oracle), FirstFit(own, c.station, arrival, 60.0 * minutes, oracle);
      && |next.rows| == |run.rows| + 1 && next.leases == Put(run.leases, c.station, arrival + 7200.0 + 60.0 * minutes)
      && var row := next.rows[|run.rows|];
         && row.rank == Some(c.rank) && row.drive == c.eta && row.free == Passes(own, c.station, arrival, oracle)
         && row.served == found.Some?
         && (found.Some? ==> Given(run, next, row, c, policy, arrival, minutes, found.value))
         && (found.None? ==> next.slots == run.slots && row.wait == 120.0 && row.total == c.eta + 120.0 && row.reward == 0)
  {
    hide Choice, Passes, FirstFit;
    var minutes := if c.minutes > 5.0 then c.minutes else 5.0;
    assert Minutes(c) == minutes && Minutes(c) * 60.0 == 60.0 * minutes;
    assert Arrival(request, c) == request.time + 60.0 * c.eta;
  }

  lemma SlotIsFirstRoom(before: Run, after: Run, row: Row, c: Ranked, policy: Policy, oracle: Oracle,
                        arrival: Instant, minutes: real, duration: real)
    requires var own := Of(before.slots, c.station); var found := FirstFit(own, c.station, arrival, duration, oracle);
      && row.free == Passes(own, c.station, arrival, oracle) && row.served == found.Some?
      && (found.Some? ==> Given(before, after, row, c, policy, arrival, minutes, found.value))
      && (found.None? ==> after.slots == before.slots && row.wait == 120.0 && row.total == c.eta + 120.0 && row.reward == 0)
    ensures HasSlot(before, after, row, c, policy, oracle, arrival, minutes, duration)
  {
    hide Room, FirstRoom, NoRoom, Passes, FirstFit, Given;
    var own := Of(before.slots, c.station);
    FirstFitIsFirstRoom(own, c.station, oracle, arrival, duration);
    RoomIsFree(own, c.station, oracle, arrival);
  }

  lemma ServedIsHandled(run: Run, request: Request, policy: Policy, plan: Planner, oracle: Oracle, c: Ranked)
    requires Choice(run.leases, request, policy, plan) == Some(c)
    ensures var next := Served(run, request, policy, plan, oracle);
      |next.rows| == |run.rows| + 1 && Handled(run, next, next.rows[|run.rows|], request, c, policy, oracle)
  {
    hide Choice, Passes, FirstFit, Served, Given, HasSlot, Put, Of;
    ServedWrites(run, request, policy, plan, oracle, c);
    var next, minutes := Served(run, request, policy, plan, oracle), if c.minutes > 5.0 then c.minutes else 5.0;
    SlotIsFirstRoom(run, next, next.rows[|run.rows|], c, policy, oracle, request.time + 60.0 * c.eta, minutes, 60.0 * minutes);
  }

  lemma ChoiceIsSentTo(leases: map<Id, seq<Instant>>, request: Request, policy: Policy, plan: Planner)
    ensures SentTo(plan(request, Visible(request.routes, leases, request.time)), policy, request.draw,
                   Choice(leases, request, policy, plan))
  {
    hide Visible;
  }

  lemma ServedAddsARow(run: Run, request: Request, policy: Policy, plan: Planner, oracle: Oracle)
    ensures |Served(run, request, policy, plan, oracle).rows| == |run.rows| + 1
    ensures run.rows <= Served(run, request, policy, plan, oracle).rows
  {
    hide Choice, FirstFit, Passes;
  }

  lemma {:induction false} RowsCount(requests: seq<Request>, policy: Policy, plan: Planner, oracle: Oracle)
    ensures |Decisions(requests, policy, plan, oracle)| == |ServedAll(requests, policy, plan, oracle).rows| == |requests|
  {
    hide Served, Choice;
    if requests != [] {
      var last := |requests| - 1;
      RowsCount(requests[..last], policy, plan, oracle);
      ServedAddsARow(ServedAll(requests[..last], policy, plan, oracle), requests[last], policy, plan, oracle);
    }
  }

  lemma ServedUpTo(requests: seq<Request>, policy: Policy, plan: Planner, oracle: Oracle, n: nat)
    requires n < |requests|
    ensures ServedAll(requests[..n + 1], policy, plan, oracle)
      == Served(ServedAll(requests[..n], policy, plan, oracle), requests[n], policy, plan, oracle)
  {
    hide Served;
    assert requests[..n + 1][..n] == requests[..n];
  }

  /** Decisions and rows are never revised. */
  lemma {:induction false} DecidedInOrder(requests: seq<Request>, policy: Policy, plan: Planner, oracle: Oracle, n: nat)
    requires n < |requests|
    ensures |Decisions(requests, policy, plan, oracle)| == |ServedAll(requests, policy, plan, oracle).rows| == |requests|
    ensures Decisions(requests, policy, plan, oracle)[n]
      == Choice(ServedAll(requests[..n], policy, plan, oracle).leases, requests[n], policy, plan)
    ensures |ServedAll(requests[..n + 1], policy, plan, oracle).rows| == n + 1
    ensures ServedAll(requests, policy, plan, oracle).rows[n] == ServedAll(requests[..n + 1], policy, plan, oracle).rows[n]
  {
    hide Served, Choice;
    var last := |requests| - 1;
    var before := requests[..last];
    RowsCount(requests, policy, plan, oracle);
    RowsCount(before, policy, plan, oracle);
    RowsCount(requests[..n + 1], policy, plan, oracle);
    if n < last {
      DecidedInOrder(before, policy, plan, oracle, n);
      ServedAddsARow(ServedAll(before, policy, plan, oracle), requests[last], policy, plan, oracle);
      assert before[..n] == requests[..n] && before[..n + 1] == requests[..n + 1];
    } else {
      assert requests[..n + 1] == requests;
    }
  }

  /** Every request is sent where its policy sends it, by what it may see, and then gets a
      lease, and a slot and a row that follow from what its station has left. */
  lemma EveryRequestIsHandled(requests: seq<Request>, policy: Policy, plan: Planner, oracle: Oracle, n: nat)
    requires n < |requests|
    ensures |Decisions(requests, policy, plan, oracle)| == |ServedAll(requests, policy, plan, oracle).rows| == |requests|
    ensures var before, after := ServedAll(requests[..n], policy, plan, oracle), ServedAll(requests[..n + 1], policy, plan, oracle);
      var request, row := requests[n], ServedAll(requests, policy, plan, oracle).rows[n];
      var decision := Decisions(requests, policy, plan, oracle)[n];
      && SentTo(plan(request, Visible(request.routes, before.leases, request.time)), policy, request.draw, decision)
      && if decision.Some? then Handled(before, after, row, request, decision.value, policy, oracle)
         else row == Row(false, 120.0, 60.0, 180.0, false, None, 0) && after == before.(rows := before.rows + [row])
  {
    hide Choice, Visible, FirstFit, Handled, SentTo;
    var before, request := ServedAll(requests[..n], policy, plan, oracle), requests[n];
    DecidedInOrder(requests, policy, plan, oracle, n);
    RowsCount(requests[..n], policy, plan, oracle);
    ServedUpTo(requests, policy, plan, oracle, n);
    ChoiceIsSentTo(before.leases, request, policy, plan);
    var decision := Choice(before.leases, request, policy, plan);
    if decision.Some? {
      ServedIsHandled(before, request, policy, plan, oracle, decision.value);
    }
  }

  /** Where no incentive is taken up the two policies do the same, request by request,
      except that only one of them rewards. */
  lemma ServedAlike(a: Run, b: Run, request: Request, plan: Planner, oracle: Oracle)
    requires a.leases == b.leases && a.slots == b.slots && request.draw >= 0.8
    ensures Choice(a.leases, request, Nearest, plan) == Choice(b.leases, request, Incentive, plan)
    ensures var x, y := Served(a, request, Nearest, plan, oracle), Served(b, request, Incentive, plan, oracle);
      && x.leases == y.leases && x.slots == y.slots
      && exists row: Row :: x.rows == a.rows + [row.(reward := 0)] && y.rows == b.rows + [row]
  {
    hide Visible, FirstFit, Passes, Closest;
    var y := Served(b, request, Incentive, plan, oracle);
    var row := y.rows[|b.rows|];
    assert Served(a, request, Nearest, plan, oracle).rows == a.rows + [row.(reward := 0)];
  }

  lemma {:induction false} PoliciesDifferByTheIncentive(requests: seq<Request>, plan: Planner, oracle: Oracle)
    requires forall k :: 0 <= k < |requests| ==> requests[k].draw >= 0.8
    ensures var a, b := ServedAll(requests, Nearest, plan, oracle), ServedAll(requests, Incentive, plan, oracle);
      && a.leases == b.leases && a.slots == b.slots && |a.rows| == |b.rows|
      && forall k :: 0 <= k < |a.rows| ==> a.rows[k] == b.rows[k].(reward := 0)
    ensures Decisions(requests, Nearest, plan, oracle) == Decisions(requests, Incentive, plan, oracle)
  {
    hide Choice, Served;
    if requests != [] {
      var last := |requests| - 1;
      var before := requests[..last];
      assert forall k :: 0 <= k < |before| ==> before[k] == requests[k];
      PoliciesDifferByTheIncentive(before, plan, oracle);
      ServedAlike(ServedAll(before, Nearest, plan, oracle), ServedAll(before, Incentive, plan, oracle), requests[last], plan, oracle);
    }
  }

  // ---- leases are conservative ----

  /** Every interval of the station is matched by its own lease, which ends no earlier. */
  ghost predicate Covered(slots: seq<Interval>, leases: seq<Instant>) {
    forall t: Instant :: Occupied(slots, t) <= Outstanding(leases, t)
  }

  lemma {:induction false} LeaseOutlivesCharge(slots: seq<Interval>, leases: seq<Instant>,
                                               added: Option<Interval>, lease: Instant)
    requires Covered(slots, leases)
    requires added.Some? ==> added.value.end <= lease
    ensures Covered(if added.Some? then slots + [added.value] else slots, leases + [lease])
  {
    assert (leases + [lease])[..|leases|] == leases;
    if added.Some? {
      assert (slots + [added.value])[..|slots|] == slots;
    }
    forall t: Instant
      ensures Occupied(if added.Some? then slots + [added.value] else slots, t) <= Outstanding(leases + [lease], t)
    {
      assert Occupied(slots, t) <= Outstanding(leases, t);
    }
  }

  lemma RequestKeepsCover(run: Run, request: Request, policy: Policy, plan: Planner, oracle: Oracle, station: Id)
    requires Covered(Of(run.slots, station), Of(run.leases, station))
    ensures var next := Served(run, request, policy, plan, oracle);
      Covered(Of(next.slots, station), Of(next.leases, station))
  {
    hide Covered, Choice, FirstFit, Passes;
    match Choice(run.leases, request, policy, plan)
    case None =>
    case Some(chosen) =>
      var own := Of(run.slots, chosen.station);
      var arrival, duration := Arrival(request, chosen), Minutes(chosen) * 60.0;
      var found := FirstFit(own, chosen.station, arrival, duration, oracle);
      var added := if found.Some? then Some(Candidate(arrival, duration, found.value)) else None;
      if chosen.station == station {
        LeaseOutlivesCharge(own, Of(run.leases, station), added, Lease(request, chosen));
      }
  }

  /** What a recommendation sees of earlier users never understates them: at
      every instant the outstanding leases of a station are at least the
      chargers its served users hold. */
  lemma {:induction false} LeasesCoverOccupancy(requests: seq<Request>, policy: Policy, plan: Planner, oracle: Oracle,
                                                station: Id)
    ensures var run := ServedAll(requests, policy, plan, oracle);
      Covered(Of(run.slots, station), Of(run.leases, station))
  {
    if requests != [] {
      var before := ServedAll(requests[..|requests| - 1], policy, plan, oracle);
      LeasesCoverOccupancy(requests[..|requests| - 1], policy, plan, oracle, station);
      RequestKeepsCover(before, requests[|requests| - 1], policy, plan, oracle, station);
    }
  }

  // ---- the report's capacity audit ----

  function Busy(slots: seq<Interval>, station: Id, capacity: nat, opening: Instant, oracle: Oracle, n: nat): int {
    if n == 0 then 0
    else
      var t := opening + (n - 1) as real * STEP;
      Busy(slots, station, capacity, opening, oracle, n - 1)
      + capacity - oracle(station, Slot(t)) + Occupied(slots, t)
  }

  /** Utilization, the busy total over capacity and samples, lies between 0 and 1. */
  lemma {:induction false} BusyIsAShare(slots: seq<Interval>, station: Id, capacity: nat, opening: Instant,
                                        oracle: Oracle, n: nat)
    requires Within(slots, station, oracle)
    requires forall slot :: oracle(station, slot) <= capacity
    ensures 0 <= Busy(slots, station, capacity, opening, oracle, n) <= n * capacity
  {
    if n > 0 {
      var t := opening + (n - 1) as real * STEP;
      BusyIsAShare(slots, station, capacity, opening, oracle, n - 1);
      assert Occupied(slots, t) <= oracle(station, Slot(t)) <= capacity;
      assert n * capacity == (n - 1) * capacity + capacity;
    }
  }

  /** What the recorded background keeps busy, summed over the samples. */
  function Background(station: Id, capacity: nat, opening: Instant, oracle: Oracle, n: nat): int {
    if n == 0 then 0 else
      var taken := capacity - oracle(station, Sampled(opening, n - 1).Floor / 300);
      Background(station, capacity, opening, oracle, n - 1) + taken
  }

  /** Samples are five minutes apart. */
  function Sampled(opening: Instant, k: int): Instant {
    opening + 300.0 * k as real
  }

  /** The samples that fall into an interval. */
  ghost function SamplesIn(i: Interval, opening: Instant, n: nat): set<int> {
    set k | 0 <= k < n && i.start <= Sampled(opening, k) < i.end
  }

  /** The same, summed over the intervals. */
  ghost function InUse(slots: seq<Interval>, opening: Instant, n: nat): int {
    if slots == [] then 0
    else InUse(slots[..|slots| - 1], opening, n) + |SamplesIn(slots[|slots| - 1], opening, n)|
  }

  lemma {:induction false} OneMoreSample(slots: seq<Interval>, opening: Instant, n: nat)
    ensures InUse(slots, opening, n + 1) == InUse(slots, opening, n) + Occupied(slots, opening + n as real * STEP)
  {
    if slots != [] {
      var last := slots[|slots| - 1];
      OneMoreSample(slots[..|slots| - 1], opening, n);
      assert SamplesIn(last, opening, n + 1)
        == SamplesIn(last, opening, n) + if Covers(last, opening + n as real * STEP) then {n as int} else {};
    }
  }

  lemma {:induction false} NoSamples(slots: seq<Interval>, opening: Instant)
    ensures InUse(slots, opening, 0) == 0
  {
    if slots != [] {
      NoSamples(slots[..|slots| - 1], opening);
      assert SamplesIn(slots[|slots| - 1], opening, 0) == {};
    }
  }

  /** The busy total counts every charger the background takes, and every interval once
      for each sample that falls into it. */
  lemma {:induction false} BusyCountsBoth(slots: seq<Interval>, station: Id, capacity: nat, opening: Instant,
                                          oracle: Oracle, n: nat)
    ensures Busy(slots, station, capacity, opening, oracle, n)
      == Background(station, capacity, opening, oracle, n) + InUse(slots, opening, n)
  {
    hide Occupied, InUse;
    if n == 0 {
      NoSamples(slots, opening);
    } else {
      BusyCountsBoth(slots, station, capacity, opening, oracle, n - 1);
      OneMoreSample(slots, opening, n - 1);
    }
  }

  /** The first assertion: at every start and end of an interval, own charging fits. */
  method AuditChanges(slots: seq<Interval>, station: Id, oracle: Oracle) returns (clean: bool)
    ensures Within(slots, station, oracle) ==> clean
    ensures clean ==> forall s :: s in slots ==>
      Occupied(slots, s.start) <= oracle(station, Slot(s.start)) && Occupied(slots, s.end) <= oracle(station, Slot(s.end))
  {
    hide Occupied, Slot;
    var changes := (set s | s in slots :: s.start) + (set s | s in slots :: s.end);
    ghost var all := changes;
    assert forall s :: s in slots ==> s.start in all && s.end in all;
    while changes != {}
      invariant changes <= all
      invariant forall c :: c in all - changes ==> Occupied(slots, c) <= oracle(station, Slot(c))
    {
      assert exists c :: c in changes && forall d :: d in changes ==> c <= d by {
        var first := Earliest(changes);
      }
      var change :| change in changes && forall d :: d in changes ==> change <= d;
      if Occupied(slots, change) > oracle(station, Slot(change)) {
        return false;
      }
      changes := changes - {change};
    }
    clean := true;
  }

  /** `clean` is false when one of the two capacity assertions fires. */
  method Audit(slots: seq<Interval>, station: Id, capacity: nat, opening: Instant, oracle: Oracle)
    returns (clean: bool, busy: int)
    ensures Within(slots, station, oracle) ==> clean
    ensures clean ==> busy == Busy(slots, station, capacity, opening, oracle, 144)
    ensures clean ==> forall s :: s in slots ==>
      Occupied(slots, s.start) <= oracle(station, Slot(s.start)) && Occupied(slots, s.end) <= oracle(station, Slot(s.end))
  {
    hide Occupied, Slot;
    busy := 0;
    clean := AuditChanges(slots, station, oracle);
    if !clean {
      return;
    }
    for n := 0 to SAMPLES
      invariant busy == Busy(slots, station, capacity, opening, oracle, n)
    {
      var tick := opening + n as real * STEP;
      var background := capacity - oracle(station, Slot(tick));
      var own := Occupied(slots, tick);
      if background + own > capacity {
        return false, busy;
      }
      busy := busy + background + own;
    }
  }

  method ServeAll(requests: seq<Request>, policy: Policy, plan: Planner, oracle: Oracle) returns (run: Run)
    ensures run == ServedAll(requests, policy, plan, oracle)
  {
    hide FirstFit, Choice, Occupied, Candidate, RowFor, Appended, Lease, Minutes;
    run := EMPTY;
    for n := 0 to |requests|
      invariant run == ServedAll(requests[..n], policy, plan, oracle)
    {
      assert requests[..n + 1][..n] == requests[..n];
      var request := requests[n];
      var choice := Choice(run.leases, request, policy, plan);
      if choice.None? {
        run := run.(rows := run.rows + [NOBODY]);
      } else {
        var chosen := choice.value;
        var own := Of(run.slots, chosen.station);
        var arrival, duration := Arrival(request, chosen), Minutes(chosen) * 60.0;
        assert duration > 0.0 by { ChargesTakeTime(chosen); }
        var found := Search(own, chosen.station, arrival, duration, oracle);
        var free := oracle(chosen.station, Slot(arrival)) > Occupied(own, arrival);
        var slots := run.slots;
        if found.Some? {
          slots := Appended(slots, chosen.station, Candidate(arrival, duration, found.value));
        }
        run := Run(slots, Appended(run.leases, chosen.station, Lease(request, chosen)),
                   run.rows + [RowFor(chosen, policy, found, free)]);
      }
    }
    assert requests[..|requests|] == requests;
  }

  lemma ChargesTakeTime(chosen: Ranked)
    ensures Minutes(chosen) * 60.0 >= 300.0
  {
  }

  /** One policy over all requests, then the audit of every station of the
      catalogue. No audit fails. */
  method Simulate(requests: seq<Request>, catalog: seq<(Id, nat)>, policy: Policy, plan: Planner, oracle: Oracle,
                  opening: Instant)
    returns (run: Run, clean: bool, busy: seq<int>)
    ensures run == ServedAll(requests, policy, plan, oracle)
    ensures clean
    ensures |busy| == |catalog|
    ensures forall k :: 0 <= k < |catalog| ==>
      busy[k] == Busy(Of(run.slots, catalog[k].0), catalog[k].0, catalog[k].1, opening, oracle, 144)
  {
    hide ServedAll, Within, Busy, Occupied;
    run := ServeAll(requests, policy, plan, oracle);
    clean, busy := true, [];
    for n := 0 to |catalog|
      invariant clean && |busy| == n
      invariant forall k :: 0 <= k < n ==>
        busy[k] == Busy(Of(run.slots, catalog[k].0), catalog[k].0, catalog[k].1, opening, oracle, SAMPLES)
    {
      var own := Of(run.slots, catalog[n].0);
      CapacityHolds(requests, policy, plan, oracle, catalog[n].0);
      var fine, total := Audit(own, catalog[n].0, catalog[n].1, opening, oracle);
      clean, busy := clean && fine, busy + [total];
    }
  }
}
