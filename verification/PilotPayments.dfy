/** Payments over whole runs: what was billed, and what was awarded when. */
module PilotPayments {
  import opened Basics
  import opened PilotTypes
  import opened PilotCatchUp
  import opened PilotPolling
  import opened PilotBills
  import opened PilotInvariant
  import opened PilotSafety
  import opened PilotCommands
  import opened PilotWorld
  import opened PilotCommandsKeep
  import opened PilotRuns

  // ---------- bills ----------

  /** The payment is for at most the energy the saved offer was made for, at the
      price it quoted for the station, and for exactly that when the charge ended
      by itself. */
  ghost predicate FairPayment(w: World, t: Id)
    requires t in w.books.payments
  {
    && t in w.yard.trips && w.yard.trips[t].offer in w.books.offers
    && var trip, offer, cents := w.yard.trips[t], w.books.offers[w.yard.trips[t].offer], w.books.payments[t].cents;
       exists c :: c in offer.candidates && c.station == trip.station
         && 0 <= cents <= Cost(offer.energy, c.price)
         && (trip.stop.TargetReached? ==> cents == Cost(offer.energy, c.price))
  }

  lemma BilledFairly(w: World, t: Id)
    requires ClaimsOk(w.yard, w.books) && PaymentsOk(w.yard, w.books) && BillsOk(w.yard) && t in w.books.payments
    ensures FairPayment(w, t)
  {
    var trip := w.yard.trips[t];
    assert BillOk(trip) && Honours(w.books, trip);
    hide ClaimsOk, PaymentsOk, BillsOk, Cost;
    var offer := w.books.offers[trip.offer];
    var c :| c in offer.candidates && c.station == trip.station && c.points == trip.points && c.price == trip.price;
    assert w.books.payments[t].cents == trip.meter.cents;
  }

  /** Every payment of every run is fair. */
  lemma PaymentsAreFair(wall: Instant, start: Instant, steps: seq<Step>, t: Id)
    requires t in Run(Fresh(wall, start), steps).books.payments
    ensures FairPayment(Run(Fresh(wall, start), steps), t)
  {
    hide Run, Fresh, Grows, Ahead, FairPayment;
    FreshOk(wall, start);
    RunKeeps(Fresh(wall, start), steps);
    BilledFairly(Run(Fresh(wall, start), steps), t);
  }

  // ---------- awards ----------

  /** Something was paid, for a charge long and large enough, while its reward lasted. */
  predicate Earns(trip: Trip, now: Instant) {
    EarnsIfInTime(trip) && now < trip.rewardUntil
  }

  predicate EarnsIfInTime(trip: Trip) {
    && trip.meter.cents > 0
    && trip.meter.millis >= 1000 * trip.terms.minimumSeconds
    && trip.meter.energy as real >= trip.terms.minimumEnergy * 100000000.0
  }

  /** Midnight of the operator's time zone, eight hours east of UTC: 16:00 UTC. */
  function Midnight(k: int): Instant {
    86400000.0 * k as real + 57600000.0
  }

  /** The points of the ledger rows written in a span of time. */
  function PointsBetween(ledger: seq<LedgerRow>, from: Instant, to: Instant): int {
    if ledger == [] then 0 else
      var row := ledger[|ledger| - 1];
      PointsBetween(ledger[..|ledger| - 1], from, to) + if from <= row.at < to then row.points else 0
  }

  lemma DaysAreSpans(day: int, now: Instant)
    ensures BusinessDay(now) == day <==> Midnight(day - 1) <= now < Midnight(day)
  {
    hide BusinessDay;
    var d := BusinessDay(now);
    if d < day { assert d + 1 <= day; }
    if day < d { assert day + 1 <= d; }
  }

  lemma {:induction false} UsedIsWithinSpan(ledger: seq<LedgerRow>, day: int)
    requires forall i :: 0 <= i < |ledger| ==> ledger[i].day == BusinessDay(ledger[i].at)
    ensures UsedOn(ledger, day) == PointsBetween(ledger, Midnight(day - 1), Midnight(day))
  {
    hide BusinessDay, Midnight;
    if ledger != [] {
      var rest, row := ledger[..|ledger| - 1], ledger[|ledger| - 1];
      assert forall i :: 0 <= i < |rest| ==> rest[i] == ledger[i];
      UsedIsWithinSpan(rest, day);
      DaysAreSpans(day, row.at);
    }
  }

  lemma DaysOfRows(w: World)
    requires WorldOk(w)
    ensures forall i :: 0 <= i < |w.books.ledger| ==> w.books.ledger[i].day == BusinessDay(w.books.ledger[i].at)
  {
    hide Sound, Ahead, ClaimsOk, OffersOk, PaymentsOk, PointsMatch, Verdict, BusinessDay;
    forall i | 0 <= i < |w.books.ledger| ensures w.books.ledger[i].day == BusinessDay(w.books.ledger[i].at) {
      assert RowOf(w.yard, w.books.ledger[i]);
    }
  }

  /** The trip was awarded what was promised, as far as the budget of that day, from one
      midnight to the next, still went, if it was earned, and otherwise nothing. */
  ghost predicate RightlyAwarded(w: World, trip: Trip) {
    exists k :: Midnight(k) <= w.state.time < Midnight(k + 1) &&
      var left := w.state.config.dailyBudget - PointsBetween(w.books.ledger, Midnight(k), Midnight(k + 1));
      && trip.awarded == (if Earns(trip, w.state.time) then Max(0, Min(trip.points, left)) else 0)
      && Explained(trip, left, w.state.time)
  }

  /** The stored outcome names the first condition that the trip did not meet, or how
      far what was left of the day's budget went. */
  predicate Explained(trip: Trip, left: int, now: Instant) {
    match trip.reward
    case NoPositivePayment => trip.meter.cents <= 0
    case BelowMinimumDuration => trip.meter.cents > 0 && trip.meter.millis < 1000 * trip.terms.minimumSeconds
    case BelowMinimumEnergy =>
      && trip.meter.cents > 0 && trip.meter.millis >= 1000 * trip.terms.minimumSeconds
      && trip.meter.energy as real < trip.terms.minimumEnergy * 100000000.0
    case RewardExpired => EarnsIfInTime(trip) && now >= trip.rewardUntil
    case NoOfferReward => Earns(trip, now) && trip.points == 0
    case DailyBudgetExhausted => Earns(trip, now) && trip.points > 0 && left <= 0
    case DailyBudgetLimit => Earns(trip, now) && 0 < left < trip.points
    case Awarded => Earns(trip, now) && 0 < trip.points <= left
    case _ => false
  }

  /** In the tables `z` this trip is paid, as of `now`, and an award has its ledger row. */
  ghost predicate PaidAsOf(z: World, t: Id, now: Instant) {
    t in z.yard.trips && t in z.books.payments &&
    var trip := z.yard.trips[t];
    && trip.status.Completed? && trip.paidAt == Some(Trunc(now))
    && z.books.payments[t] == Payment(trip.user, trip.meter.cents, now)
    && (trip.awarded != 0 ==>
         exists i :: 0 <= i < |z.books.ledger| && AwardRow(z.books.ledger[i], t, trip, now))
  }

  predicate AwardRow(row: LedgerRow, t: Id, trip: Trip, now: Instant) {
    && row.trip == t && row.user == trip.user && row.station == trip.station
    && row.points == trip.awarded && row.cents == trip.meter.cents && row.at == now
  }

  /** The step is the payment of this trip, which was rightly awarded then and whose
      payment is in the tables `z`. */
  ghost predicate PaysAt(v: World, s: Step, t: Id, z: World) {
    && s.Transact? && !s.crash && s.command.Act? && s.command.action.Pay? && s.command.trip == t
    && t !in v.books.payments && PaidAsOf(z, t, Now(v.state, s.wall))
    && RightlyAwarded(Tick(v, s.wall), z.yard.trips[t])
  }

  lemma PaidWhatIsDue(w: World, t: Id)
    requires WorldOk(w) && t in w.yard.trips && Paid(w, t).Done?
    ensures PaidAsOf(Paid(w, t).value, t, w.state.time)
    ensures RightlyAwarded(w, Paid(w, t).value.yard.trips[t])
  {
    hide WorldOk, Award, Verdict, UsedOn, BusinessDay, PointsBetween, Midnight, FinalVerdict, Explained, Earns, Paid;
    var day := BusinessDay(w.state.time);
    PointsCount(w, t);
    AwardIsExplained(w, t);
    AwardIsDue(w, t);
    DaysOfRows(w);
    UsedIsWithinSpan(w.books.ledger, day);
    DaysAreSpans(day, w.state.time);
    PaymentIsOnTheBooks(w, t);
    assert Midnight(day - 1) <= w.state.time < Midnight(day - 1 + 1);
  }

  lemma PointsCount(w: World, t: Id)
    requires WorldOk(w) && t in w.yard.trips
    ensures w.yard.trips[t].points >= 0
  {
    assert TripOk(w.yard.trips[t]);
  }

  lemma AwardIsDue(w: World, t: Id)
    requires t in w.yard.trips && Paid(w, t).Done? && w.yard.trips[t].points >= 0
    ensures var left := w.state.config.dailyBudget - UsedOn(w.books.ledger, BusinessDay(w.state.time));
      t in Paid(w, t).value.yard.trips && var paid := Paid(w, t).value.yard.trips[t];
      paid.awarded == (if Earns(paid, w.state.time) then Max(0, Min(paid.points, left)) else 0)
  {
    hide UsedOn, BusinessDay, PaidBooks, FinalVerdict;
  }

  lemma AwardIsExplained(w: World, t: Id)
    requires t in w.yard.trips && Paid(w, t).Done? && w.yard.trips[t].points >= 0
    ensures var left := w.state.config.dailyBudget - UsedOn(w.books.ledger, BusinessDay(w.state.time));
      t in Paid(w, t).value.yard.trips && Explained(Paid(w, t).value.yard.trips[t], left, w.state.time)
  {
    hide UsedOn, BusinessDay, PaidBooks;
  }

  lemma PaymentIsOnTheBooks(w: World, t: Id)
    requires t in w.yard.trips && Paid(w, t).Done?
    ensures PaidAsOf(Paid(w, t).value, t, w.state.time)
  {
    hide Award, Verdict, FinalVerdict, BusinessDay;
    var ledger := Paid(w, t).value.books.ledger;
    if Award(w, w.yard.trips[t]) != 0 {
      assert AwardRow(ledger[|ledger| - 1], t, Paid(w, t).value.yard.trips[t], w.state.time);
    }
  }

  lemma PaymentAddsOne(w: World, t: Id)
    requires t in w.yard.trips && Paid(w, t).Done?
    ensures Paid(w, t).value.books.payments.Keys == w.books.payments.Keys + {t}
  {
    hide Award, Verdict, FinalVerdict, BusinessDay;
  }

  /** Only the action `pay` adds a payment, the one of its trip. */
  lemma ActPays(w: World, user: Id, t: Id, action: Action, u: Id)
    requires WorldOk(w) && Acted(w, user, t, action).Done?
    requires u !in w.books.payments && u in Acted(w, user, t, action).value.books.payments
    ensures var z := Acted(w, user, t, action).value;
      action.Pay? && u == t && PaidAsOf(z, u, w.state.time) && RightlyAwarded(w, z.yard.trips[u])
  {
    hide WorldOk, Performed, Dispatch, Paid, Advances, RightlyAwarded, PaidAsOf, Grows;
    if !action.Pay? {
      OnlyPaymentsTouchBooks(w, t, action);
      assert false;
    } else {
      PayIsPaid(w, t);
      PaymentAddsOne(w, t);
      PaidWhatIsDue(w, t);
      var p := Paid(w, t).value;
      PerformedKeeps(w, t, action);
      DispatchedGrows(p);
      PaymentsStay(p, Dispatched(p), t, w.state.time);
    }
  }

  lemma PaymentsStay(w: World, z: World, t: Id, now: Instant)
    requires Grows(w, z) && PaidAsOf(w, t, now)
    ensures PaidAsOf(z, t, now) && z.yard.trips[t] == w.yard.trips[t]
  {
    assert GrowsTrip(w.yard.trips[t], z.yard.trips[t]);
    if w.yard.trips[t].awarded != 0 {
      var i :| 0 <= i < |w.books.ledger| && AwardRow(w.books.ledger[i], t, w.yard.trips[t], now);
      assert z.books.ledger[i] == w.books.ledger[i];
    }
  }

  lemma StepPays(v: World, s: Step, t: Id)
    requires WorldOk(v) && t !in v.books.payments && t in Stepped(v, s).books.payments
    ensures PaysAt(v, s, t, Stepped(v, s))
  {
    hide WorldOk, Synchronize, Apply, Precheck, Acted, RightlyAwarded, PaidAsOf, InstalledAll, Advances;
    match s
    case Install(_) => assert false;
    case Transact(c, wall, crash) =>
      var w := Tick(v, wall);
      TickKeeps(v, wall);
      TickKeepsBooks(v, wall);
      assert Apply(w, c).Done? && Stepped(v, s) == Apply(w, c).value;
      if c.Act? {
        ApplyAct(w, c);
        ActPays(w, c.user, c.trip, c.action, t);
      } else {
        OnlyActsPay(w, c);
        assert false;
      }
  }

  /** Every payment of a run has its moment: the step that paid the trip, which was
      then awarded exactly what was due, and has kept it since. */
  lemma {:induction false} EveryPaymentHasItsMoment(w: World, steps: seq<Step>, t: Id)
    requires WorldOk(w) && t !in w.books.payments && t in Run(w, steps).books.payments
    ensures exists n :: 0 <= n < |steps| && PaysAt(Run(w, steps[..n]), steps[n], t, Run(w, steps))
    decreases |steps|
  {
    hide WorldOk, Stepped, Grows, PaysAt;
    var m, rest := Stepped(w, steps[0]), steps[1..];
    SteppedKeeps(w, steps[0]);
    if t in m.books.payments {
      StepPays(w, steps[0], t);
      RunKeeps(m, rest);
      MomentIsFinal(w, steps[0], t, m, Run(m, rest));
      assert steps[..0] == [];
      assert PaysAt(Run(w, steps[..0]), steps[0], t, Run(w, steps));
    } else {
      EveryPaymentHasItsMoment(m, rest, t);
      var n :| 0 <= n < |rest| && PaysAt(Run(m, rest[..n]), rest[n], t, Run(m, rest));
      assert steps[..n + 1][1..] == rest[..n] && steps[..n + 1][0] == steps[0];
      assert PaysAt(Run(w, steps[..n + 1]), steps[n + 1], t, Run(w, steps));
    }
  }

  lemma MomentIsFinal(v: World, s: Step, t: Id, m: World, z: World)
    requires PaysAt(v, s, t, m) && Grows(m, z)
    ensures PaysAt(v, s, t, z)
  {
    hide Grows, RightlyAwarded, PaidAsOf, Tick;
    PaymentsStay(m, z, t, Now(v.state, s.wall));
  }

  // ---------- the operator's days ----------

  /** Two awards of a run count towards one day exactly when no midnight lies after the
      earlier one and not after the later. */
  lemma DaysTurnAtMidnight(wall: Instant, start: Instant, steps: seq<Step>, i: int, j: int)
    requires var ledger := Run(Fresh(wall, start), steps).books.ledger;
      0 <= i < |ledger| && 0 <= j < |ledger| && ledger[i].at <= ledger[j].at
    ensures var a, b := Run(Fresh(wall, start), steps).books.ledger[i], Run(Fresh(wall, start), steps).books.ledger[j];
      a.day == b.day <==> !exists k :: a.at < Midnight(k) <= b.at
  {
    hide WorldOk, Run, Fresh, Grows, BusinessDay, Midnight;
    FreshOk(wall, start);
    RunKeeps(Fresh(wall, start), steps);
    var ledger := Run(Fresh(wall, start), steps).books.ledger;
    DaysOfRows(Run(Fresh(wall, start), steps));
    MidnightsBetween(ledger[i].at, ledger[j].at);
  }

  lemma MidnightsBetween(a: Instant, b: Instant)
    requires a <= b
    ensures BusinessDay(a) == BusinessDay(b) <==> !exists k :: a < Midnight(k) <= b
  {
    var d, e := BusinessDay(a), BusinessDay(b);
    DaysAreSpans(d, a);
    DaysAreSpans(e, b);
    hide BusinessDay;
    if d == e {
      forall k ensures !(a < Midnight(k) <= b) {
        assert k < d || k >= d;
      }
    } else {
      assert a < Midnight(e - 1) <= b;
    }
  }

  /** From one midnight to the next no run awards more than the largest budget that was
      ever configured. */
  lemma NoDayExceedsTheBudget(wall: Instant, start: Instant, steps: seq<Step>, limit: int, k: int)
    requires BudgetNeverAbove(Fresh(wall, start), steps, limit)
    ensures PointsBetween(Run(Fresh(wall, start), steps).books.ledger, Midnight(k), Midnight(k + 1)) <= limit
  {
    NothingAwardedYet(wall, start, steps, limit);
    hide WorldOk, Run, Fresh, Grows, BudgetNeverAbove, BusinessDay, Midnight;
    FreshOk(wall, start);
    RunKeeps(Fresh(wall, start), steps);
    BudgetOverRuns(Fresh(wall, start), steps, limit);
    DaysOfRows(Run(Fresh(wall, start), steps));
    UsedIsWithinSpan(Run(Fresh(wall, start), steps).books.ledger, k + 1);
  }

  lemma NothingAwardedYet(wall: Instant, start: Instant, steps: seq<Step>, limit: int)
    requires BudgetNeverAbove(Fresh(wall, start), steps, limit)
    ensures WithinBudget(Fresh(wall, start).books, limit)
  {
    hide Stepped;
  }
}
