/** Whole ticks and whole runs of the generator, and what every run promises. */
module SimulatorRuns {
  import opened Basics
  import opened SimulatorSession
  import opened SimulatorWorld
  import opened SimulatorChargers
  import opened SimulatorBooks
  import opened SimulatorRequests
  import opened SimulatorSafety
  import opened SimulatorPlaces

  // ---- a station's queue ----

  function Impatient(queue: seq<Request>, tick: nat): seq<Request> {
    if queue == [] then []
    else if tick >= queue[0].patience then [queue[0]] + Impatient(queue[1..], tick)
    else Impatient(queue[1..], tick)
  }

  lemma {:induction false} QueueSplits(queue: seq<Request>, tick: nat)
    ensures multiset(queue) == multiset(Patient(queue, tick)) + multiset(Impatient(queue, tick))
  {
    if queue != [] {
      assert queue == [queue[0]] + queue[1..];
      QueueSplits(queue[1..], tick);
    }
  }

  lemma {:induction false} GivingUpKeepsInv(g: Layout, s: Sim, queue: seq<Request>, tick: nat)
    requires Inv(g, s, multiset(Impatient(queue, tick)), tick)
    ensures var t := GivenUp(s, queue, tick);
      && Inv(g, t, multiset{}, tick) && Quiet(s, t, tick) && t.chargers == s.chargers && t.waiting == s.waiting
    decreases queue
  {
    hide Inv, Quiet, Finished;
    if queue == [] {
      NothingIsQuiet(s, tick);
    } else if tick >= queue[0].patience {
      var r, rest := queue[0], Impatient(queue[1..], tick);
      assert multiset([r] + rest) == multiset(rest) + multiset{r};
      FinishingKeepsInv(g, s, multiset(rest), r, None, Abandoned, tick, tick);
      FinishingLeavesPlaces(s, r, None, Abandoned, tick);
      GivingUpKeepsInv(g, Finished(s, r, None, Abandoned, tick), queue[1..], tick);
      QuietTwice(s, Finished(s, r, None, Abandoned, tick), GivenUp(s, queue, tick), tick);
    } else {
      GivingUpKeepsInv(g, s, queue[1..], tick);
    }
  }

  lemma FinishingLeavesPlaces(s: Sim, r: Request, c: Option<nat>, outcome: Outcome, tick: nat)
    ensures var t := Finished(s, r, c, outcome, tick); t.chargers == s.chargers && t.waiting == s.waiting
  {
  }

  lemma LapsingKeepsInv(g: Layout, s: Sim, station: nat, tick: nat)
    requires Inv(g, s, multiset{}, tick) && station < g.stations
    ensures var t := Lapsed(s, station, tick); Inv(g, t, multiset{}, tick) && Quiet(s, t, tick) && t.chargers == s.chargers
  {
    hide Inv, Quiet, Patient, Impatient, GivenUp, Queued;
    var queue := QueueAt(s, station);
    var next := Queued(s, station, Patient(queue, tick));
    QueueSplits(queue, tick);
    assert multiset(queue) + multiset{} == multiset(queue);
    QueueingKeepsInv(g, s, station, Patient(queue, tick), multiset{}, multiset(Impatient(queue, tick)), tick);
    GivingUpKeepsInv(g, next, queue, tick);
    QueueingLeavesChargers(s, station, Patient(queue, tick));
    QuietTwice(s, next, Lapsed(s, station, tick), tick);
  }

  lemma QueueingLeavesChargers(s: Sim, station: nat, queue: seq<Request>)
    ensures Queued(s, station, queue).chargers == s.chargers
    ensures QueueAt(Queued(s, station, queue), station) == queue
  {
  }

  predicate Distinct(list: seq<nat>) {
    forall i, j :: 0 <= i < j < |list| ==> list[i] != list[j]
  }

  ghost predicate AllFree(g: Layout, s: Sim, list: seq<nat>, tick: nat) {
    forall i :: 0 <= i < |list| ==> list[i] < g.count && Free(s, list[i], tick) && |SamplesAt(s, list[i])| == tick
  }

  lemma CallingLeavesOthers(s: Sim, station: nat, c: nat, tick: nat, accept: bool)
    requires QueueAt(s, station) != []
    ensures forall i: nat :: i != c ==> Free(CalledOnce(s, station, c, tick, accept), i, tick) == Free(s, i, tick)
  {
  }

  lemma QueueingLeavesFree(s: Sim, station: nat, queue: seq<Request>, c: nat, tick: nat)
    ensures Free(Queued(s, station, queue), c, tick) == Free(s, c, tick)
  {
  }

  lemma CallingKeepsInv(g: Layout, s: Sim, station: nat, c: nat, tick: nat, accept: bool)
    requires Inv(g, s, multiset{}, tick) && station < g.stations && QueueAt(s, station) != []
    requires c < g.count && Free(s, c, tick) && |SamplesAt(s, c)| == tick && tick + 12 < g.ticks
    ensures var t := CalledOnce(s, station, c, tick, accept); Inv(g, t, multiset{}, tick) && Quiet(s, t, tick)
  {
    hide Inv, Quiet, Queued, Held, Free;
    var queue := QueueAt(s, station);
    var next, hold := Queued(s, station, queue[1..]), Hold(queue[0], tick + 1, accept, true);
    assert queue == [queue[0]] + queue[1..];
    assert multiset(queue[1..]) + multiset{queue[0]} == multiset(queue) + multiset{};
    QueueingKeepsInv(g, s, station, queue[1..], multiset{}, multiset{queue[0]}, tick);
    QuietSamples(s, next, tick);
    QueueingLeavesFree(s, station, queue[1..], c, tick);
    HoldingKeepsInv(g, next, c, hold, tick);
    QuietTwice(s, next, CalledOnce(s, station, c, tick, accept), tick);
  }

  lemma RemovingKeepsFree(g: Layout, s: Sim, t: Sim, list: seq<nat>, i: nat, tick: nat)
    requires Distinct(list) && AllFree(g, s, list, tick) && i < |list| && t.samples == s.samples
    requires forall c: nat :: c != list[i] ==> Free(t, c, tick) == Free(s, c, tick)
    ensures Distinct(list[..i] + list[i + 1..]) && AllFree(g, t, list[..i] + list[i + 1..], tick)
  {
    hide Free;
  }

  lemma {:induction false} CallingAllKeepsInv(g: Layout, s: Sim, station: nat, free: seq<nat>, tick: nat, call: nat -> Call)
    requires Inv(g, s, multiset{}, tick) && station < g.stations
    requires Distinct(free) && AllFree(g, s, free, tick)
    ensures var t := CalledAll(g, s, station, free, tick, call); Inv(g, t, multiset{}, tick) && Quiet(s, t, tick)
    decreases |free|
  {
    hide Inv, Quiet, Free, CalledOnce, Distinct;
    if free == [] || QueueAt(s, station) == [] || tick + 12 >= g.ticks {
      NothingIsQuiet(s, tick);
    } else {
      var draw := call(|free|);
      var i := draw.pick % |free|;
      var next := CalledOnce(s, station, free[i], tick, draw.accept);
      CallingKeepsInv(g, s, station, free[i], tick, draw.accept);
      CallingLeavesOthers(s, station, free[i], tick, draw.accept);
      QuietSamples(s, next, tick);
      RemovingKeepsFree(g, s, next, free, i, tick);
      CallingAllKeepsInv(g, next, station, free[..i] + free[i + 1..], tick, call);
      QuietTwice(s, next, CalledAll(g, s, station, free, tick, call), tick);
    }
  }

  // ---- arrivals ----

  lemma RefreshingKeepsChargers(g: Layout, s: Sim, user: nat, tick: nat)
    requires ChargersOk(g, s)
    ensures ChargersOk(g, Refreshed(g, s, user, tick))
  {
    hide ChargerOk, Roaming;
    var t := Refreshed(g, s, user, tick);
    forall c: nat ensures ChargerOk(g.ticks, c, ChargerAt(t, c), SamplesAt(t, c), t.sessions, t.tickets) {
      assert ChargerOk(g.ticks, c, ChargerAt(s, c), SamplesAt(s, c), s.sessions, s.tickets);
    }
  }

  lemma RefreshingLeaves(g: Layout, s: Sim, user: nat, tick: nat)
    ensures var t := Refreshed(g, s, user, tick);
      && (t.chargers, t.waiting, t.locks, t.made, t.samples) == (s.chargers, s.waiting, s.locks, s.made, s.samples)
      && (t.sessions, t.spend, t.closed) == (s.sessions, s.spend, s.closed)
  {
  }

  lemma RefreshingKeepsInv(g: Layout, s: Sim, user: nat, tick: nat)
    requires Inv(g, s, multiset{}, tick) && LockOf(s, user) <= tick <= g.ticks
    ensures var t := Refreshed(g, s, user, tick);
      && Inv(g, t, multiset{}, tick) && Quiet(s, t, tick) && t.chargers == s.chargers && t.waiting == s.waiting
      && PackOf(g, t, user).tick <= tick && LockOf(t, user) <= tick
  {
    RefreshKeepsPacks(g, s, user, tick);
    RefreshingKeepsRequests(g, s, user, tick);
    RefreshingKeepsChargers(g, s, user, tick);
    RefreshingLeaves(g, s, user, tick);
    hide PacksOk, RequestsOk, RowsOk, SpentOn, StartsOk, ChargersOk, Refreshed;
  }

  /** The vehicle that comes is unlocked, up to date, and below 85 percent. */
  lemma {:induction false} ScreeningKeepsInv(g: Layout, s: Sim, candidates: seq<Candidate>, tick: nat)
    requires Inv(g, s, multiset{}, tick) && tick <= g.ticks
    ensures var (t, user) := Screened(g, s, candidates, tick);
      && Inv(g, t, multiset{}, tick) && Quiet(s, t, tick) && t.chargers == s.chargers && t.waiting == s.waiting
      && (user.Some? ==> LockOf(t, user.value) <= tick && CanStart(g, t, Request(t.made, user.value, 0, tick, tick), tick))
    decreases candidates
  {
    hide Inv, Quiet, Refreshed, LockOf;
    if candidates == [] {
      NothingIsQuiet(s, tick);
    } else {
      var candidate := candidates[0];
      if LockOf(s, candidate.user) > tick || candidate.skip {
        ScreeningKeepsInv(g, s, candidates[1..], tick);
      } else {
        var next := Refreshed(g, s, candidate.user, tick);
        RefreshingKeepsInv(g, s, candidate.user, tick);
        if PackOf(g, next, candidate.user).energy * 100 >= 85 * g.car(candidate.user).capacity {
          ScreeningKeepsInv(g, next, candidates[1..], tick);
          QuietTwice(s, next, Screened(g, s, candidates, tick).0, tick);
        }
      }
    }
  }

  lemma OpeningKeepsInv(g: Layout, s: Sim, r: Request, tick: nat)
    requires Inv(g, s, multiset{}, tick) && r.id == s.made && r.tick == tick <= g.ticks
    requires LockOf(s, r.user) <= tick && CanStart(g, s, r, tick)
    ensures var t := Opened(g, s, r);
      Inv(g, t, multiset{r}, tick) && Quiet(s, t, tick) && t.chargers == s.chargers && t.waiting == s.waiting
  {
    var t := Opened(g, s, r);
    OpeningKeeps(g, s, r, tick);
    OnlyHoldsMove(g, s, t);
    hide PacksOk, RequestsOk, RowsOk, SpendOk, StartsOk, ChargerOk;
    forall c: nat ensures ChargerOk(g.ticks, c, ChargerAt(t, c), SamplesAt(t, c), t.sessions, t.tickets) {
      assert ChargerOk(g.ticks, c, ChargerAt(s, c), SamplesAt(s, c), s.sessions, s.tickets);
    }
  }

  lemma AdmittingKeepsInv(g: Layout, s: Sim, station: nat, free: seq<nat>, r: Request, tick: nat, d: Arrival)
    requires Inv(g, s, multiset{r}, tick) && station < g.stations && AllFree(g, s, free, tick) && tick + 24 < g.ticks
    ensures var t := Admitted(g, s, station, free, r, tick, d); Inv(g, t, multiset{}, tick) && Quiet(s, t, tick)
  {
    hide Inv, Quiet, Finished, StartSession, Held, Queued, Free;
    assert multiset{} + multiset{r} == multiset{r};
    if d.fails {
      FinishingKeepsInv(g, s, multiset{}, r, if free != [] then Some(free[0]) else None, Failed, tick, tick);
    } else if free != [] && QueueAt(s, station) == [] {
      var i := d.pick % |free|;
      assert free[i] < g.count && Free(s, free[i], tick) && |SamplesAt(s, free[i])| == tick;
      if d.reserves {
        HoldingKeepsInv(g, s, free[i], Hold(r, tick + d.delay, d.confirms, false), tick);
      } else {
        StartingKeepsInv(g, s, r, free[i], tick, d.session);
      }
    } else if d.queues && |QueueAt(s, station)| < 20 {
      var queue := QueueAt(s, station);
      assert multiset(queue + [r]) + multiset{} == multiset(queue) + multiset{r};
      QueueingKeepsInv(g, s, station, queue + [r], multiset{r}, multiset{}, tick);
    } else {
      FinishingKeepsInv(g, s, multiset{}, r, None, Abandoned, tick, tick);
    }
  }

  lemma SameChargersSameFree(g: Layout, s: Sim, t: Sim, list: seq<nat>, tick: nat)
    requires AllFree(g, s, list, tick) && t.chargers == s.chargers && t.samples == s.samples
    ensures AllFree(g, t, list, tick)
  {
  }

  lemma ArrivingKeepsInv(g: Layout, s: Sim, station: nat, free: seq<nat>, tick: nat, arrival: Option<Arrival>)
    requires Inv(g, s, multiset{}, tick) && station < g.stations && AllFree(g, s, free, tick)
    ensures var t := Arrived(g, s, station, free, tick, arrival); Inv(g, t, multiset{}, tick) && Quiet(s, t, tick)
  {
    hide Inv, Quiet, Screened, Opened, Admitted, AllFree;
    if arrival.None? || tick + 24 >= g.ticks {
      NothingIsQuiet(s, tick);
    } else {
      var d, t := arrival.value, Arrived(g, s, station, free, tick, arrival);
      var candidates := if |d.candidates| > 30 then d.candidates[..30] else d.candidates;
      var (next, user) := Screened(g, s, candidates, tick);
      ScreeningKeepsInv(g, s, candidates, tick);
      if user.Some? {
        var r := Request(next.made, user.value, station, tick, tick + d.patience);
        var entered := Opened(g, next, r);
        OpeningKeepsInv(g, next, r, tick);
        QuietSamples(s, next, tick);
        QuietSamples(next, entered, tick);
        SameChargersSameFree(g, s, entered, free, tick);
        AdmittingKeepsInv(g, entered, station, free, r, tick, d);
        QuietTwice(s, next, entered, tick);
        QuietTwice(s, entered, t, tick);
      }
    }
  }

  // ---- a station's tick ----

  lemma {:induction false} ChargersOfStation(g: Layout, station: nat, n: nat)
    ensures var list := ChargersOf(g, station, n);
      && Distinct(list) && (forall i :: 0 <= i < |list| ==> list[i] < n && g.bay(list[i]).station == station)
      && forall c: nat :: c < n && g.bay(c).station == station ==> c in list
  {
    if n > 0 {
      ChargersOfStation(g, station, n - 1);
    }
  }

  lemma {:induction false} FreeOnesAreFree(g: Layout, s: Sim, list: seq<nat>, tick: nat)
    requires Distinct(list) && forall i :: 0 <= i < |list| ==> list[i] < g.count && |SamplesAt(s, list[i])| == tick
    ensures Distinct(FreeOf(s, list, tick)) && AllFree(g, s, FreeOf(s, list, tick), tick)
    ensures forall c :: c in FreeOf(s, list, tick) ==> c in list
  {
    hide Free;
    if list != [] {
      var before, last := list[..|list| - 1], list[|list| - 1];
      FreeOnesAreFree(g, s, before, tick);
      assert last !in before;
      assert forall i :: 0 <= i < |FreeOf(s, before, tick)| ==> FreeOf(s, before, tick)[i] in before;
    }
  }

  lemma OperatingKeepsInv(g: Layout, s: Sim, station: nat, tick: nat, draws: Draws)
    requires Inv(g, s, multiset{}, tick) && station < g.stations
    requires forall c: nat :: c < g.count && g.bay(c).station == station ==> |SamplesAt(s, c)| == tick
    ensures var t := Operated(g, s, station, tick, draws); Inv(g, t, multiset{}, tick) && Quiet(s, t, tick)
  {
    var list, patient := ChargersOf(g, station, g.count), Lapsed(s, station, tick);
    ChargersOfStation(g, station, g.count);
    hide Inv, Quiet, Lapsed, CalledAll, Arrived, Free, Distinct, AllFree, FreeOf;
    LapsingKeepsInv(g, s, station, tick);
    QuietSamples(s, patient, tick);
    FreeOnesAreFree(g, patient, list, tick);
    var call := (k: nat) => draws.call(tick, station, k);
    var called := CalledAll(g, patient, station, FreeOf(patient, list, tick), tick, call);
    CallingAllKeepsInv(g, patient, station, FreeOf(patient, list, tick), tick, call);
    QuietSamples(patient, called, tick);
    FreeOnesAreFree(g, called, list, tick);
    ArrivingKeepsInv(g, called, station, FreeOf(called, list, tick), tick, draws.arrival(tick, station));
    QuietTwice(s, patient, called, tick);
    QuietTwice(s, called, Arrived(g, called, station, FreeOf(called, list, tick), tick, draws.arrival(tick, station)), tick);
  }

  lemma SamplingKeepsChargers(g: Layout, s: Sim, c: nat, tick: nat)
    requires ChargersOk(g, s) && Stands(s, c, tick)
    ensures ChargersOk(g, Sampled(s, c, tick))
  {
    hide ChargerOk, Reading, Settled;
    var t := Sampled(s, c, tick);
    forall i: nat ensures ChargerOk(g.ticks, i, ChargerAt(t, i), SamplesAt(t, i), t.sessions, t.tickets) {
      assert ChargerOk(g.ticks, i, ChargerAt(s, i), SamplesAt(s, i), s.sessions, s.tickets);
      if i == c {
        SamplingKeeps(g.ticks, c, ChargerAt(s, c), SamplesAt(s, c), s.sessions, s.tickets);
      }
    }
  }

  /** One charger's clock advances; the others are as they were. */
  ghost predicate Advanced(s: Sim, t: Sim, c: nat, tick: nat) {
    && |SamplesAt(t, c)| == tick + 1
    && forall i: nat :: i != c ==>
         SamplesAt(t, i) == SamplesAt(s, i) && (Stands(s, i, tick) ==> Stands(t, i, tick))
  }

  lemma SamplingAdvances(s: Sim, c: nat, tick: nat)
    requires |SamplesAt(s, c)| == tick
    ensures Advanced(s, Sampled(s, c, tick), c, tick)
  {
    hide Reading;
  }

  lemma SamplingKeepsInv(g: Layout, s: Sim, c: nat, tick: nat)
    requires Inv(g, s, multiset{}, tick) && Stands(s, c, tick)
    ensures Inv(g, Sampled(s, c, tick), multiset{}, tick) && Advanced(s, Sampled(s, c, tick), c, tick)
  {
    hide ChargersOk, RequestsOk, PacksOk, RowsOk, SpendOk, StartsOk, Reading, Advanced, Settled;
    SamplingKeepsChargers(g, s, c, tick);
    SamplingAdvances(s, c, tick);
    ChargerChangeKeepsInv(g, s, Sampled(s, c, tick), c, tick);
  }

  lemma {:induction false} SamplingAllKeepsInv(g: Layout, s: Sim, list: seq<nat>, tick: nat)
    requires Inv(g, s, multiset{}, tick) && Distinct(list)
    requires forall i :: 0 <= i < |list| ==> Stands(s, list[i], tick)
    ensures var t := SampledAll(s, list, tick);
      && Inv(g, t, multiset{}, tick)
      && (forall c :: c in list ==> |SamplesAt(t, c)| == tick + 1)
      && forall c: nat :: c !in list ==> SamplesAt(t, c) == SamplesAt(s, c) && (Stands(s, c, tick) ==> Stands(t, c, tick))
  {
    hide Inv, Stands, Sampled;
    if list != [] {
      var before, last := list[..|list| - 1], list[|list| - 1];
      SamplingAllKeepsInv(g, s, before, tick);
      var next := SampledAll(s, before, tick);
      assert last !in before;
      SamplingKeepsInv(g, next, last, tick);
      assert forall c :: c in list <==> c in before || c == last;
    }
  }

  /** Chargers of the first `n` stations have been sampled, the others stand ready. */
  ghost predicate Halfway(g: Layout, s: Sim, n: nat, tick: nat) {
    forall c: nat :: c < g.count ==>
      if g.bay(c).station < n then |SamplesAt(s, c)| == tick + 1 else Stands(s, c, tick)
  }

  lemma QuietStands(s: Sim, t: Sim, c: nat, tick: nat)
    requires Quiet(s, t, tick)
    ensures SamplesAt(t, c) == SamplesAt(s, c) && (Stands(s, c, tick) ==> Stands(t, c, tick))
  {
    hide Calm;
  }

  lemma StationKeepsInv(g: Layout, s: Sim, n: nat, tick: nat, draws: Draws)
    requires Inv(g, s, multiset{}, tick) && n < g.stations && Halfway(g, s, n, tick)
    ensures var t := StationTick(g, s, n, tick, draws); Inv(g, t, multiset{}, tick) && Halfway(g, t, n + 1, tick)
  {
    hide Inv, Quiet, Operated, Calm;
    var busy, list := Operated(g, s, n, tick, draws), ChargersOf(g, n, g.count);
    ChargersOfStation(g, n, g.count);
    OperatingKeepsInv(g, s, n, tick, draws);
    forall c: nat ensures SamplesAt(busy, c) == SamplesAt(s, c) && (Stands(s, c, tick) ==> Stands(busy, c, tick)) {
      QuietStands(s, busy, c, tick);
    }
    SamplingAllKeepsInv(g, busy, list, tick);
    hide Stands, Distinct;
    var t := StationTick(g, s, n, tick, draws);
    forall c: nat | c < g.count
      ensures if g.bay(c).station < n + 1 then |SamplesAt(t, c)| == tick + 1 else Stands(t, c, tick)
    {
      assert c in list ==> g.bay(c).station == n;
    }
  }

  lemma {:induction false} StationsKeepInv(g: Layout, s: Sim, n: nat, tick: nat, draws: Draws)
    requires Inv(g, s, multiset{}, tick) && n <= g.stations && Halfway(g, s, 0, tick)
    ensures var t := StationsTick(g, s, n, tick, draws); Inv(g, t, multiset{}, tick) && Halfway(g, t, n, tick)
  {
    hide Inv, Halfway, StationTick;
    if n > 0 {
      StationsKeepInv(g, s, n - 1, tick, draws);
      StationKeepsInv(g, StationsTick(g, s, n - 1, tick, draws), n - 1, tick, draws);
    }
  }

  ghost predicate Clocks(g: Layout, s: Sim, tick: nat) {
    forall c: nat :: c < g.count ==> |SamplesAt(s, c)| == tick
  }

  lemma {:induction false} ServicingAllKeepsInv(g: Layout, s: Sim, n: nat, tick: nat, draws: Draws)
    requires Inv(g, s, multiset{}, tick) && n <= g.count && Clocks(g, s, tick)
    ensures var t := ServicedAll(g, s, n, tick, draws);
      Inv(g, t, multiset{}, tick) && Clocks(g, t, tick) && forall c: nat :: c < n ==> Stands(t, c, tick)
  {
    hide Inv, Quiet, Calm, Serviced;
    if n > 0 {
      ServicingAllKeepsInv(g, s, n - 1, tick, draws);
      var before := ServicedAll(g, s, n - 1, tick, draws);
      var t := Serviced(g, before, n - 1, tick, draws);
      ServicingKeepsInv(g, before, n - 1, tick, draws);
      forall c: nat ensures SamplesAt(t, c) == SamplesAt(before, c) && (Stands(before, c, tick) ==> Stands(t, c, tick)) {
        QuietStands(before, t, c, tick);
      }
    }
  }

  lemma LaterKeepsInv(g: Layout, s: Sim, now: nat, later: nat)
    requires Inv(g, s, multiset{}, now) && now <= later
    ensures Inv(g, s, multiset{}, later)
  {
    hide ChargersOk, PacksOk, RowsOk, SpendOk, StartsOk, FatesOk, Open, CanStart;
    forall user: nat ensures PackOf(g, s, user).tick <= Max(later, LockOf(s, user)) {
      assert PackOf(g, s, user).tick <= Max(now, LockOf(s, user));
    }
  }

  lemma TickKeepsInv(g: Layout, s: Sim, tick: nat, draws: Draws)
    requires LayoutOk(g) && Inv(g, s, multiset{}, tick) && Clocks(g, s, tick)
    ensures var t := Ticked(g, s, tick, draws); Inv(g, t, multiset{}, tick + 1) && Clocks(g, t, tick + 1)
  {
    hide Inv, Stands;
    ServicingAllKeepsInv(g, s, g.count, tick, draws);
    StationsKeepInv(g, ServicedAll(g, s, g.count, tick, draws), g.stations, tick, draws);
    LaterKeepsInv(g, Ticked(g, s, tick, draws), tick, tick + 1);
  }

  lemma {:induction false} NothingIsOpen(g: Layout, n: nat)
    ensures HeldUpTo(EMPTY, n) == multiset{} && QueuedUpTo(EMPTY, n) == multiset{}
  {
    if n > 0 {
      NothingIsOpen(g, n - 1);
    }
  }

  lemma EmptyChargersAreOk(g: Layout)
    ensures ChargersOk(g, EMPTY)
  {
    forall c: nat ensures ChargerOk(g.ticks, c, IDLE, [], [], []) {
    }
  }

  lemma EmptyPacksAreOk(g: Layout)
    requires LayoutOk(g)
    ensures PacksOk(g, EMPTY)
  {
    hide Reserve;
    forall user: nat ensures PackOk(g, EMPTY, user) {
      assert Reserve(g.car(user).capacity) <= g.initial(user) <= g.car(user).capacity;
    }
  }

  lemma EmptyRequestsAreOk(g: Layout)
    ensures RequestsOk(g, EMPTY, multiset{}, 0)
  {
    NothingIsOpen(g, g.count);
    NothingIsOpen(g, g.stations);
    assert Open(g, EMPTY) + multiset{} == multiset{};
    NothingWaits(g);
    hide Open, CanStart, FatesOk, WaitsOk, LocksCover;
  }

  lemma NothingWaits(g: Layout)
    ensures FatesOk(multiset{}, 0, []) && WaitsOk(g, EMPTY, multiset{}, 0) && LocksCover(g, EMPTY, 0)
  {
    hide CanStart;
  }

  lemma EmptyIsOk(g: Layout)
    requires LayoutOk(g)
    ensures Inv(g, EMPTY, multiset{}, 0) && Clocks(g, EMPTY, 0)
  {
    EmptyChargersAreOk(g);
    EmptyPacksAreOk(g);
    EmptyRequestsAreOk(g);
    hide ChargersOk, PacksOk, RequestsOk, LayoutOk;
  }

  lemma {:induction false} RunKeepsInv(g: Layout, draws: Draws, n: nat)
    requires LayoutOk(g)
    ensures Inv(g, After(g, draws, n), multiset{}, n) && Clocks(g, After(g, draws, n), n)
  {
    hide Inv, Clocks, LayoutOk, Ticked;
    if n == 0 {
      EmptyIsOk(g);
    } else {
      RunKeepsInv(g, draws, n - 1);
      TickKeepsInv(g, After(g, draws, n - 1), n - 1, draws);
    }
  }

  // ---- the end of a run ----

  lemma {:induction false} NothingIsHeld(g: Layout, s: Sim, n: nat)
    requires Inv(g, s, multiset{}, g.ticks) && Clocks(g, s, g.ticks) && n <= g.count
    ensures HeldUpTo(s, n) == multiset{}
  {
    if n > 0 {
      NothingIsHeld(g, s, n - 1);
      NoHoldIsLeft(g, s, n - 1);
    }
  }

  /** Holds are due at least twelve ticks before the end, so none outlives the run. */
  lemma NoHoldIsLeft(g: Layout, s: Sim, c: nat)
    requires Inv(g, s, multiset{}, g.ticks) && Clocks(g, s, g.ticks) && c < g.count
    ensures ChargerAt(s, c).hold.None?
  {
    assert ChargerOk(g.ticks, c, ChargerAt(s, c), SamplesAt(s, c), s.sessions, s.tickets);
  }

  lemma {:induction false} FlushingKeepsInv(g: Layout, s: Sim, queue: seq<Request>, rest: multiset<Request>)
    requires Inv(g, s, rest + multiset(queue), g.ticks)
    ensures var t := Flushed(s, queue, g.ticks);
      Inv(g, t, rest, g.ticks) && t.waiting == s.waiting && SameHistory(s, t)
  {
    hide Inv, Quiet;
    if queue == [] {
      assert rest + multiset(queue) == rest;
    } else {
      var few, last := queue[..|queue| - 1], queue[|queue| - 1];
      assert queue == few + [last];
      assert rest + multiset(queue) == (rest + multiset{last}) + multiset(few);
      FlushingKeepsInv(g, s, few, rest + multiset{last});
      FinishingKeepsInv(g, Flushed(s, few, g.ticks), rest, last, None, StillQueued, g.ticks, g.ticks);
    }
  }

  /** The rows and the vehicles are as they were. */
  predicate SameHistory(s: Sim, t: Sim) {
    && (t.chargers, t.sessions, t.samples, t.tickets) == (s.chargers, s.sessions, s.samples, s.tickets)
    && (t.journal, t.packs, t.spend, t.made) == (s.journal, s.packs, s.spend, s.made)
  }

  lemma SameQueues(s: Sim, t: Sim)
    requires t.waiting == s.waiting
    ensures forall i: nat :: QueueAt(t, i) == QueueAt(s, i)
  {
  }

  lemma SameClocks(g: Layout, s: Sim, t: Sim, tick: nat)
    requires SameHistory(s, t) && Clocks(g, s, tick)
    ensures Clocks(g, t, tick)
  {
    forall c: nat | c < g.count ensures |SamplesAt(t, c)| == tick {
      assert |SamplesAt(s, c)| == tick;
    }
  }

  lemma FlushingOneKeepsInv(g: Layout, s: Sim, station: nat)
    requires Inv(g, s, multiset{}, g.ticks) && station < g.stations
    ensures var t := Flushed(Queued(s, station, []), QueueAt(s, station), g.ticks);
      && Inv(g, t, multiset{}, g.ticks) && SameHistory(s, t)
      && forall i: nat :: QueueAt(t, i) == if i == station then [] else QueueAt(s, i)
  {
    hide Inv, Quiet;
    var queue, emptied := QueueAt(s, station), Queued(s, station, []);
    assert multiset([]) + multiset(queue) == multiset(queue) + multiset{};
    QueueingKeepsInv(g, s, station, [], multiset{}, multiset(queue), g.ticks);
    assert multiset{} + multiset(queue) == multiset(queue);
    FlushingKeepsInv(g, emptied, queue, multiset{});
    SameQueues(emptied, Flushed(emptied, queue, g.ticks));
    assert forall i: nat :: QueueAt(emptied, i) == if i == station then [] else QueueAt(s, i);
  }

  lemma {:induction false} FlushingAllKeepsInv(g: Layout, s: Sim, n: nat)
    requires Inv(g, s, multiset{}, g.ticks) && n <= g.stations
    ensures var t := FlushedAll(g, s, n);
      && Inv(g, t, multiset{}, g.ticks) && SameHistory(s, t)
      && forall i: nat :: QueueAt(t, i) == if i < n then [] else QueueAt(s, i)
  {
    hide Inv, Quiet, Flushed, Queued, QueueAt;
    if n > 0 {
      FlushingAllKeepsInv(g, s, n - 1);
      FlushingOneKeepsInv(g, FlushedAll(g, s, n - 1), n - 1);
    }
  }

  lemma {:induction false} NothingIsQueued(s: Sim, n: nat)
    requires forall i: nat :: i < n ==> QueueAt(s, i) == []
    ensures QueuedUpTo(s, n) == multiset{}
  {
    if n > 0 {
      NothingIsQueued(s, n - 1);
    }
  }

  lemma RunEndsOk(g: Layout, draws: Draws)
    requires LayoutOk(g)
    ensures var s := Run(g, draws);
      && Inv(g, s, multiset{}, g.ticks) && Clocks(g, s, g.ticks) && Open(g, s) == multiset{}
      && SameHistory(After(g, draws, g.ticks), s)
  {
    hide Inv, LayoutOk, FlushedAll, After, HeldUpTo, QueuedUpTo, SameHistory, Clocks;
    RunKeepsInv(g, draws, g.ticks);
    FlushingAllKeepsInv(g, After(g, draws, g.ticks), g.stations);
    SameClocks(g, After(g, draws, g.ticks), Run(g, draws), g.ticks);
    NothingIsHeld(g, Run(g, draws), g.count);
    NothingIsQueued(Run(g, draws), g.stations);
  }

  // ---- what every run promises ----

  /** Every request made in a run is finalised exactly once, nothing is finalised
      that was not made, and no queue or hold is left over. */
  lemma EveryRequestIsFinalisedOnce(g: Layout, draws: Draws, id: nat)
    requires LayoutOk(g)
    ensures var s := Run(g, draws); Closings(s.closed, id) == (if id < s.made then 1 else 0) && Open(g, s) == multiset{}
  {
    RunEndsOk(g, draws);
    var s := Run(g, draws);
    assert Open(g, s) + multiset{} == multiset{};
    hide Open, Run, ChargersOk, PacksOk, RowsOk, SpendOk, StartsOk;
  }

  /** At no tick does a user have two open requests, nor a request two places. */
  lemma NoUserWaitsTwice(g: Layout, draws: Draws, n: nat, r: Request, q: Request)
    requires LayoutOk(g)
    requires r in Open(g, After(g, draws, n)) && q in Open(g, After(g, draws, n)) && (r.user == q.user || r.id == q.id)
    ensures r == q && Open(g, After(g, draws, n))[r] == 1
  {
    RunKeepsInv(g, draws, n);
    var s := After(g, draws, n);
    assert Open(g, s) + multiset{} == Open(g, s);
    hide Open, After, ChargersOk, PacksOk, RowsOk, SpendOk, StartsOk;
  }

  /** A session is never planned for a pack that cannot take it. */
  lemma NoRunRaises(g: Layout, draws: Draws)
    requires LayoutOk(g)
    ensures !Run(g, draws).raised
  {
    RunEndsOk(g, draws);
    hide Run, ChargersOk, PacksOk, RowsOk, SpendOk, StartsOk, Open;
  }

  /** A session and the finalisation of its request name each other, and agree on the
      user, the charger and, as every finalisation at a charger does, on the station. */
  lemma SessionsAnswerRequests(g: Layout, draws: Draws)
    requires LayoutOk(g)
    ensures StartsOk(Run(g, draws).closed, Run(g, draws).sessions)
    ensures forall k :: 0 <= k < |Run(g, draws).closed| ==> ServedThere(g, Run(g, draws).closed[k])
  {
    RunEndsOk(g, draws);
    RunsArePlaced(g, draws);
    hide Run, ChargersOk, PacksOk, RowsOk, SpendOk, StartsOk, Open, HoldsPlaced, QueuesPlaced, ServedThere;
  }

  lemma RowPercentagesFit(g: Layout, row: Session)
    requires RowFits(g, row)
    ensures ShowsItsCharge(g, row)
  {
    hide RowOk, TotalsOk, PowerOk, PercentagesFit;
    RoundingIsTolerated(row.before, row.before + row.energy, g.car(row.user).capacity);
  }

  /** Every row written satisfies what the validator recomputes from it, and each
      campaign's discounts stay within its budget. */
  lemma RowsAreValid(g: Layout, draws: Draws, id: nat, key: (nat, nat))
    requires LayoutOk(g)
    ensures var s := Run(g, draws);
      (id < |s.sessions| ==> RowFits(g, s.sessions[id]) && ShowsItsCharge(g, s.sessions[id]))
      && SpentOn(s.sessions, key) <= BUDGET
  {
    RunEndsOk(g, draws);
    hide Run, ChargersOk, PacksOk, RequestsOk, StartsOk, Open, RowFits, SpentOn, ShowsItsCharge;
    var s := Run(g, draws);
    assert SpendOf(s, key) == SpentOn(s.sessions, key) <= BUDGET;
    if id < |s.sessions| {
      RowPercentagesFit(g, s.sessions[id]);
    }
  }

  lemma ChargerAtEnd(g: Layout, draws: Draws, c: nat)
    requires LayoutOk(g) && c < g.count
    ensures var s := Run(g, draws);
      ChargerOk(g.ticks, c, ChargerAt(s, c), SamplesAt(s, c), s.sessions, s.tickets) && |SamplesAt(s, c)| == g.ticks
  {
    RunEndsOk(g, draws);
    hide Run, PacksOk, RequestsOk, RowsOk, SpendOk, StartsOk, Open, ChargerOk;
    var s := Run(g, draws);
    assert ChargerOk(g.ticks, c, ChargerAt(s, c), SamplesAt(s, c), s.sessions, s.tickets);
  }

  /** For every session of every run: one charging sample for each tick from its
      start to its end and no other, and the samples' energy, grid energy, grid
      cost and hourly fees are those of the row. */
  lemma TelemetryMatchesSessions(g: Layout, draws: Draws, id: nat)
    requires LayoutOk(g) && id < |Run(g, draws).sessions|
    ensures var s := Run(g, draws); var row := s.sessions[id]; var samples := SamplesAt(s, row.charger);
      && |samples| == g.ticks
      && (forall k: nat :: k < g.ticks ==>
            ((samples[k].session == Some(id) && samples[k].state.Charging?) <==> row.start <= k < row.end))
      && Linked(samples, id) == (row.end - row.start, row.energy, row.grid, row.cost)
      && LinkedFees(samples, id, TariffOf(g, row.city)) == (row.energyFee, row.serviceFee)
  {
    var s := Run(g, draws);
    var row := s.sessions[id];
    var c, samples := row.charger, SamplesAt(s, row.charger);
    RowsAreValid(g, draws, id, (0, 0));
    ChargerAtEnd(g, draws, c);
    hide Run, Linked, LinkedFees, TariffOf, MeterOk, HoldOk, RepairsOk, Wh, Grid, Cost, EnergyFee, ServiceFee, SampleOk, PowerOk;
    LinkedIsPrefix(c, samples, s.sessions, s.tickets, id, TariffOf(g, row.city));
    assert row.steps[..|row.steps|] == row.steps;
    forall k: nat | k < g.ticks
      ensures (samples[k].session == Some(id) && samples[k].state.Charging?) <==> row.start <= k < row.end
    {
      assert SampleOk(c, k, samples[k], s.sessions, s.tickets);
      SampleBelongs(c, k, samples[k], s.sessions, s.tickets, id);
    }
  }

  /** No charging interval exceeds the power of its charger or of its car. */
  lemma TelemetryStaysWithinPower(g: Layout, draws: Draws, c: nat, k: nat)
    requires LayoutOk(g) && c < g.count && k < g.ticks
    ensures var s := Run(g, draws); var samples := SamplesAt(s, c);
      && |samples| == g.ticks
      && (samples[k].state.Charging? ==>
           samples[k].session.Some? && samples[k].session.value < |s.sessions|
           && var row := s.sessions[samples[k].session.value];
              1 <= samples[k].wh <= samples[k].grid
              && samples[k].wh as real * 0.012 <= MinReal(g.bay(c).rated, g.car(row.user).acceptance))
  {
    var s := Run(g, draws);
    ChargerAtEnd(g, draws, c);
    hide Run, SlotsOk, HoldOk, RepairsOk, MeterOk, SampleOk, RowFits;
    var x := SamplesAt(s, c)[k];
    assert SampleOk(c, k, x, s.sessions, s.tickets);
    if x.state.Charging? {
      ChargingBelongs(c, k, x, s.sessions, s.tickets);
      RowsAreValid(g, draws, x.session.value, (0, 0));
      PowerOfSample(g, x, s.sessions[x.session.value], k);
    }
  }

  lemma ChargingBelongs(c: nat, k: nat, x: Sample, sessions: seq<Session>, tickets: seq<Ticket>)
    requires SampleOk(c, k, x, sessions, tickets) && x.state.Charging?
    ensures x.session.Some? && x.session.value < |sessions|
    ensures sessions[x.session.value].charger == c && Shows(x, sessions[x.session.value], k)
  {
  }

  lemma PowerOfSample(g: Layout, x: Sample, row: Session, k: nat)
    requires RowFits(g, row) && Shows(x, row, k) && x.state.Charging?
    ensures 1 <= x.wh <= x.grid && x.wh as real * 0.012 <= MinReal(g.bay(row.charger).rated, g.car(row.user).acceptance)
  {
    hide RowOk, TotalsOk, FreeParking;
  }

  /** The meter of every charger is the running total of its intervals, from
      zero; intervals that do not charge draw nothing, none outside a session
      charges, and no interval of a repair belongs to a session. */
  lemma MetersAndRepairs(g: Layout, draws: Draws, c: nat, k: nat)
    requires LayoutOk(g) && c < g.count && k < g.ticks
    ensures var s := Run(g, draws); var samples := SamplesAt(s, c);
      && |samples| == g.ticks
      && samples[k].meter == EnergyOf(samples[..k + 1])
      && (!samples[k].state.Charging? ==> samples[k].wh == 0 && samples[k].grid == 0 && samples[k].cost == 0)
      && (samples[k].session.None? ==> !samples[k].state.Charging?)
      && (forall t :: 0 <= t < |s.tickets| && s.tickets[t].charger == c && s.tickets[t].start <= k < s.tickets[t].end ==>
            samples[k].session.None? && (samples[k].state.Maintenance? || samples[k].state.Offline?))
  {
    var s := Run(g, draws);
    var samples := SamplesAt(s, c);
    ChargerAtEnd(g, draws, c);
    hide Run, SlotsOk, HoldOk, RepairsOk;
    assert SampleOk(c, k, samples[k], s.sessions, s.tickets);
  }

  /** Sessions of one charger, and of one vehicle, follow each other without
      overlap, and never overlap a repair of the charger. */
  lemma NothingOverlaps(g: Layout, draws: Draws, i: nat, j: nat, t: nat)
    requires LayoutOk(g) && i < |Run(g, draws).sessions|
    ensures var s := Run(g, draws); var a := s.sessions[i];
      && (i < j < |s.sessions| && (a.charger == s.sessions[j].charger || a.user == s.sessions[j].user) ==>
           a.unplugged <= s.sessions[j].start)
      && (t < |s.tickets| && s.tickets[t].charger == a.charger ==> Apart(a, s.tickets[t]))
  {
    var s := Run(g, draws);
    RunEndsOk(g, draws);
    assert PackOk(g, s, s.sessions[i].user);
    assert s.sessions[i].charger < g.count by { RowsAreValid(g, draws, i, (0, 0)); }
    ChargerAtEnd(g, draws, s.sessions[i].charger);
    hide Run, SamplesOk, MeterOk, HoldOk, LedgerOk, Balance, EndOf, RowsOk, SpendOk, StartsOk, RequestsOk, ChargersOk, Open;
  }

  /** After every tick, a charger that is held has no session, every earlier session
      and repair of it is over, and its hold ends well within the run. */
  lemma HoldsOverlapNothing(g: Layout, draws: Draws, n: nat, c: nat)
    requires LayoutOk(g) && c < g.count && ChargerAt(After(g, draws, n), c).hold.Some?
    ensures var s := After(g, draws, n); var charger := ChargerAt(s, c);
      && charger.session.None? && n <= charger.hold.value.due && charger.hold.value.due + 12 <= g.ticks
      && (forall i :: 0 <= i < |s.sessions| && s.sessions[i].charger == c ==> s.sessions[i].unplugged <= n)
      && (forall t :: 0 <= t < |s.tickets| && s.tickets[t].charger == c ==> s.tickets[t].end <= n)
  {
    RunKeepsInv(g, draws, n);
    hide After, SamplesOk, MeterOk, PacksOk, RowsOk, SpendOk, StartsOk, RequestsOk;
    var s := After(g, draws, n);
    assert ChargerOk(g.ticks, c, ChargerAt(s, c), SamplesAt(s, c), s.sessions, s.tickets);
  }

  // ---- the power of a station ----

  const TRANSFORMER := 360.0

  /** What the listed chargers draw together in one interval, in kW. */
  function PowerAt(s: Sim, list: seq<nat>, k: nat): real {
    if list == [] then 0.0
    else
      var c := list[|list| - 1];
      PowerAt(s, list[..|list| - 1], k) + if k < |SamplesAt(s, c)| then SamplesAt(s, c)[k].wh as real * 0.012 else 0.0
  }

  function RatingOf(g: Layout, list: seq<nat>): real {
    if list == [] then 0.0 else RatingOf(g, list[..|list| - 1]) + g.bay(list[|list| - 1]).rated
  }

  lemma ChargerStaysWithinRating(g: Layout, draws: Draws, c: nat, k: nat)
    requires LayoutOk(g) && c < g.count && k < g.ticks
    ensures var samples := SamplesAt(Run(g, draws), c);
      |samples| == g.ticks && samples[k].wh as real * 0.012 <= g.bay(c).rated
  {
    TelemetryStaysWithinPower(g, draws, c, k);
    MetersAndRepairs(g, draws, c, k);
    hide Run, EnergyOf;
  }

  lemma {:induction false} ListStaysWithinRating(g: Layout, draws: Draws, list: seq<nat>, k: nat)
    requires LayoutOk(g) && k < g.ticks && forall i :: 0 <= i < |list| ==> list[i] < g.count
    ensures PowerAt(Run(g, draws), list, k) <= RatingOf(g, list)
  {
    hide Run;
    if list != [] {
      ListStaysWithinRating(g, draws, list[..|list| - 1], k);
      ChargerStaysWithinRating(g, draws, list[|list| - 1], k);
    }
  }

  /** The generated network: three chargers a station, the last slow, and at homes the second too. */
  ghost predicate AsBuilt(g: Layout) {
    && g.count == 3 * g.stations
    && forall c: nat :: c < g.count ==>
         var bay := g.bay(c);
         && bay.station == c / 3
         && bay.ac == (c % 3 == 2 || (c % 3 == 1 && g.site(bay.station).kind.Residential?))
         && bay.rated == if bay.ac then 7.0 else if c % 3 == 0 then 60.0 else 120.0
  }

  lemma OneMoreRating(g: Layout, list: seq<nat>, c: nat)
    ensures RatingOf(g, list + [c]) == RatingOf(g, list) + g.bay(c).rated
  {
    assert (list + [c])[..|list|] == list;
  }

  /** The three chargers of a station follow each other. */
  lemma OwnCharger(station: nat, c: nat)
    ensures c / 3 == station <==> 3 * station <= c < 3 * station + 3
    ensures c / 3 == station ==> c % 3 == c - 3 * station
  {
    assert c == 3 * (c / 3) + c % 3;
  }

  lemma BayAsBuilt(g: Layout, station: nat, c: nat)
    requires AsBuilt(g) && c < g.count
    ensures g.bay(c).station == station <==> 3 * station <= c < 3 * station + 3
    ensures g.bay(c).station == station ==>
      g.bay(c).rated <= if c == 3 * station then 60.0 else if c == 3 * station + 1 then 120.0 else 7.0
  {
    OwnCharger(station, c);
  }

  /** At most 60, 120 and 7 kW, in this order, for the first `n` chargers. */
  function MostBy(station: nat, n: nat): real {
    if n <= 3 * station then 0.0
    else if n == 3 * station + 1 then 60.0
    else if n == 3 * station + 2 then 180.0
    else 187.0
  }

  lemma {:induction false} RatingAsBuilt(g: Layout, station: nat, n: nat)
    requires AsBuilt(g) && n <= g.count
    ensures RatingOf(g, ChargersOf(g, station, n)) <= MostBy(station, n)
  {
    hide AsBuilt;
    if n > 0 {
      RatingAsBuilt(g, station, n - 1);
      BayAsBuilt(g, station, n - 1);
      hide RatingOf;
      OneMoreRating(g, ChargersOf(g, station, n - 1), n - 1);
      assert ChargersOf(g, station, n - 1) + [] == ChargersOf(g, station, n - 1);
    }
  }

  /** At every tick a station draws no more than its chargers are rated for, and
      in the generated network little more than half its transformer's power. */
  lemma StationsStayWithinPower(g: Layout, draws: Draws, station: nat, k: nat)
    requires LayoutOk(g) && station < g.stations && k < g.ticks
    ensures var list := ChargersOf(g, station, g.count);
      && PowerAt(Run(g, draws), list, k) <= RatingOf(g, list)
      && (AsBuilt(g) ==> PowerAt(Run(g, draws), list, k) <= 187.0 < TRANSFORMER)
  {
    hide Run, Distinct, PowerAt, RatingOf, AsBuilt;
    ChargersOfStation(g, station, g.count);
    ListStaysWithinRating(g, draws, ChargersOf(g, station, g.count), k);
    if AsBuilt(g) { RatingAsBuilt(g, station, g.count); }
  }

  // ---- the vehicles ----

  lemma PackTells(g: Layout, s: Sim, user: nat, n: nat)
    requires PacksOk(g, s) && n <= |Get(s.journal, user, [])|
    ensures var initial, entries, capacity := g.initial(user), Get(s.journal, user, []), g.car(user).capacity;
      && PackOf(g, s, user).energy == Balance(initial, entries)
      && Reserve(capacity) <= Balance(initial, entries[..n]) <= capacity
      && (n < |entries| ==>
           && EntryOk(user, entries[n], EndOf(entries[..n]), Balance(initial, entries[..n]), s.sessions)
           && TripOk(WishOf(g, user), capacity, entries[n], Balance(initial, entries[..n]))
           && PercentagesFit(Balance(initial, entries[..n]), Balance(initial, entries[..n]) + Gain(entries[n]), capacity))
  {
    hide EntryOk, TripOk, Reserve, PercentagesFit, LedgerOk, Balance, EndOf;
    assert PackOk(g, s, user);
    LedgerTells(user, WishOf(g, user), g.car(user).capacity, g.initial(user), Get(s.journal, user, []), s.sessions, n);
  }

  /** Every vehicle's ledger, at every entry: the energy is what it had, plus what
      it was given outside and at our chargers, less what it drove; it lies
      between the reserve and the capacity; intervals do not overlap, energy
      from outside takes half a day, and a stay is one of the run's sessions. */
  lemma LedgersConserveEnergy(g: Layout, draws: Draws, user: nat, n: nat)
    requires LayoutOk(g) && n <= |Get(Run(g, draws).journal, user, [])|
    ensures var s := Run(g, draws); var entries := Get(s.journal, user, []);
      && PackOf(g, s, user).energy == Balance(g.initial(user), entries)
      && Reserve(g.car(user).capacity) <= Balance(g.initial(user), entries[..n]) <= g.car(user).capacity
      && (n < |entries| ==>
           && EntryOk(user, entries[n], EndOf(entries[..n]), Balance(g.initial(user), entries[..n]), s.sessions)
           && TripOk(WishOf(g, user), g.car(user).capacity, entries[n], Balance(g.initial(user), entries[..n]))
           && PercentagesFit(Balance(g.initial(user), entries[..n]), Balance(g.initial(user), entries[..n]) + Gain(entries[n]),
                             g.car(user).capacity))
  {
    hide Run, RowsOk, SpendOk, StartsOk, RequestsOk, ChargersOk, Open, EntryOk, TripOk, Reserve, PercentagesFit, LedgerOk, Balance, EndOf,
      FlushedAll, After, Clocks, SameHistory, Gain;
    RunEndsOk(g, draws);
    var s := Run(g, draws);
    PackTells(g, s, user, n);
  }
}
