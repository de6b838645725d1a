/** What a charge costs: a meter runs at a constant rate from the start of the
    charge to its target, and stands still there. */
module PilotBills {
  import opened Basics
  import opened PilotTypes
  import opened PilotCatchUp

  // ---------- what a meter shows ----------

  /** The whole number nearest to `x`; of two equally near, the even one. */
  predicate NearestEven(n: int, x: real) {
    -0.5 <= n as real - x <= 0.5 && (n as real - x == 0.5 || x - n as real == 0.5 ==> n % 2 == 0)
  }

  /** The whole number nearest to `x`; of two equally near, the larger one. */
  predicate NearestUp(n: int, x: real) {
    -0.5 < n as real - x <= 0.5
  }

  /** The meter of a charge that has run for some milliseconds, an hour being
      3600000 of them: what the power delivers in that time, at the price. */
  predicate Shows(m: Meter, power: real, price: real, ran: real) {
    ShowsEnergy(m, power * ran / 3600000.0, price, ran)
  }

  predicate ShowsEnergy(m: Meter, energy: real, price: real, ran: real) {
    NearestEven(m.millis, ran) && NearestEven(m.energy, energy * 100000000.0) && NearestUp(m.cents, energy * price * 100.0)
  }

  /** How long a charge has run by `at`: since its start, until it reaches its target. */
  predicate RanFor(ran: real, target: Positive, power: Positive, start: Instant, at: Instant) {
    && 0.0 <= ran && power * ran <= target * 3600000.0
    && (at <= start ==> ran == 0.0)
    && (start <= at && power * (at - start) <= target * 3600000.0 ==> ran == at - start)
    && (start <= at && power * (at - start) >= target * 3600000.0 ==> power * ran == target * 3600000.0)
  }

  /** What a charge from `start` is billed for at `at`. */
  ghost predicate BilledTo(m: Meter, target: Positive, power: Positive, price: real, start: Instant, at: Instant) {
    exists ran :: RanFor(ran, target, power, start, at) && Shows(m, power, price, ran)
  }

  lemma RoundingIsNearest(x: real)
    ensures NearestEven(RoundHalfEven(x), x) && NearestUp(RoundHalfUp(x), x)
  {
    var low := x.Floor;
    FloorIsNearest(low, x);
    RoundsUp(x);
    hide NearestEven, NearestUp, RoundHalfUp;
  }

  lemma FloorIsNearest(low: int, x: real)
    requires low as real <= x < low as real + 1.0
    ensures x - low as real < 0.5 || (x - low as real == 0.5 && low % 2 == 0) ==> NearestEven(low, x)
    ensures x - low as real > 0.5 || (x - low as real == 0.5 && low % 2 != 0) ==> NearestEven(low + 1, x)
  {
    assert (low + 1) as real == low as real + 1.0;
  }

  lemma RoundsUp(x: real)
    ensures NearestUp(RoundHalfUp(x), x)
  {
    var up := x + 0.5;
    assert up.Floor as real <= up < up.Floor as real + 1.0;
  }

  lemma ChargeTimeIsExact(target: Positive, power: Positive)
    ensures ChargeTime(target, power) > 0.0 && power * ChargeTime(target, power) == target * 3600000.0
  {
    assert target / power * power == target;
  }

  lemma Scales(power: real, a: real, b: real)
    requires power > 0.0
    ensures a < b <==> power * a < power * b
  {
    if a < b { assert power * (b - a) > 0.0; }
    if b < a { assert power * (a - b) > 0.0; }
  }

  /** While it charges, a charge delivers in proportion to the time: equal shares of
      the charge time bring equal shares of the target. */
  lemma ChargesSteadily(target: Positive, power: Positive, a: real, b: real)
    requires 0.0 <= a <= b <= ChargeTime(target, power)
    ensures (Delivered(target, power, b) - Delivered(target, power, a)) * ChargeTime(target, power) == target * (b - a)
    ensures Delivered(target, power, a) * 3600000.0 == power * a
  {
    DeliversPower(target, power, a);
    DeliversPower(target, power, b);
    ChargeTimeIsExact(target, power);
    hide Delivered, ChargeTime;
    var full, x, y := ChargeTime(target, power), Delivered(target, power, a), Delivered(target, power, b);
    assert (y - x) * 3600000.0 == power * (b - a);
    assert (y - x) * 3600000.0 * full == power * (b - a) * full == power * full * (b - a);
  }

  lemma DeliversPower(target: Positive, power: Positive, a: real)
    requires 0.0 <= a <= ChargeTime(target, power)
    ensures Delivered(target, power, a) * 3600000.0 == power * a
  {
    ChargeTimeIsExact(target, power);
    hide ChargeTime;
    Scales(power, a, ChargeTime(target, power));
    Scales(power, ChargeTime(target, power), a);
    assert a * power == power * a;
  }

  /** A meter read at any instant shows what the charge has run for by then. */
  lemma ReadingIsBilledTo(target: Positive, power: Positive, price: real, start: Instant, at: Instant)
    ensures BilledTo(Reading(target, power, price, start, at), target, power, price, start, at)
  {
    var full, passed := ChargeTime(target, power), MaxReal(0.0, at - start);
    var ran := MinReal(passed, full);
    ChargeTimeIsExact(target, power);
    DeliversPower(target, power, ran);
    DeliveredTo(target, power, passed);
    hide ChargeTime, Delivered;
    Scales(power, passed, full);
    Scales(power, full, passed);
    assert power * 0.0 == 0.0;
    assert RanFor(ran, target, power, start, at);
    ReadingShows(target, power, price, start, at, ran);
  }

  lemma DeliveredTo(target: Positive, power: Positive, passed: real)
    requires 0.0 <= passed
    ensures Delivered(target, power, passed) == Delivered(target, power, MinReal(passed, ChargeTime(target, power)))
  {
    ChargeTimeIsExact(target, power);
    hide ChargeTime;
    var full := ChargeTime(target, power);
    Scales(power, passed, full);
    Scales(power, full, passed);
    assert passed * power == power * passed && full * power == power * full;
  }

  lemma ReadingShows(target: Positive, power: Positive, price: real, start: Instant, at: Instant, ran: real)
    requires var passed := MaxReal(0.0, at - start);
      ran == MinReal(passed, ChargeTime(target, power)) && Delivered(target, power, passed) * 3600000.0 == power * ran
    ensures Shows(Reading(target, power, price, start, at), power, price, ran)
  {
    hide Delivered, ChargeTime;
    var energy := Delivered(target, power, MaxReal(0.0, at - start));
    assert Reading(target, power, price, start, at)
      == Meter(RoundHalfEven(ran), RoundHalfEven(energy * 100000000.0), RoundHalfUp(energy * price * 100.0));
    RoundedShows(price, ran, energy);
    assert energy == power * ran / 3600000.0;
  }

  lemma RoundedShows(price: real, ran: real, energy: real)
    ensures ShowsEnergy(Meter(RoundHalfEven(ran), RoundHalfEven(energy * 100000000.0), RoundHalfUp(energy * price * 100.0)),
                        energy, price, ran)
  {
    RoundingIsNearest(ran);
    RoundingIsNearest(energy * 100000000.0);
    RoundingIsNearest(energy * price * 100.0);
  }

  // ---------- bills ----------

  lemma DeliveredGrows(target: Positive, power: Positive, a: real, b: real)
    requires 0.0 <= a <= b
    ensures 0.0 <= Delivered(target, power, a) <= Delivered(target, power, b) <= target
  {
    assert a * power <= b * power;
  }

  lemma DeliveredInFull(target: Positive, power: Positive)
    ensures ChargeTime(target, power) > 0.0
    ensures Delivered(target, power, ChargeTime(target, power)) == target
  {
    assert target / power * HOUR * power == target * HOUR;
  }

  lemma CostGrows(a: real, b: real, price: real)
    requires a <= b && price >= 0.0
    ensures Cost(a, price) <= Cost(b, price)
  {
    assert a * price <= b * price;
  }

  lemma NothingIsFree(price: real)
    ensures Cost(0.0, price) == 0
  {
    assert 0.0 * price == 0.0;
  }

  lemma CentsOfReading(target: Positive, power: Positive, price: real, start: Instant, at: Instant)
    ensures Reading(target, power, price, start, at).cents ==
      Cost(Delivered(target, power, MaxReal(0.0, at - start)), price)
  {
    hide Delivered, ChargeTime, RoundHalfEven, Cost;
  }

  /** The meter of a charge that has run to its target. */
  function FullMeter(target: Positive, power: Positive, price: real): Meter {
    Meter(RoundHalfEven(ChargeTime(target, power)), RoundHalfEven(target * 100000000.0), Cost(target, price))
  }

  /** A charge that runs to its target is billed for exactly the target; stopped earlier, for no more;
      and a meter read later never shows less. */
  lemma BillsAreFair(target: Positive, power: Positive, price: real, start: Instant, at: Instant, later: Instant)
    requires price >= 0.0 && start <= at <= later
    ensures Reading(target, power, price, start, at).cents <= Reading(target, power, price, start, later).cents
    ensures Reading(target, power, price, start, later).cents <= Cost(target, price)
    ensures at >= start + ChargeTime(target, power) ==> Reading(target, power, price, start, at).cents == Cost(target, price)
  {
    CentsOfReading(target, power, price, start, at);
    CentsOfReading(target, power, price, start, later);
    DeliveredInFull(target, power);
    hide Reading, ChargeTime, Cost, Delivered;
    var full := ChargeTime(target, power);
    DeliveredGrows(target, power, at - start, later - start);
    CostGrows(Delivered(target, power, at - start), Delivered(target, power, later - start), price);
    CostGrows(Delivered(target, power, later - start), target, price);
    if at >= start + full {
      DeliveredGrows(target, power, full, at - start);
      assert Delivered(target, power, at - start) == target;
    }
  }

  // ---------- the bill of a trip ----------

  /** The charge has ended, by hand or by itself. */
  predicate Charged(trip: Trip) {
    trip.status.PendingPayment? || trip.status.Completed?
  }

  /** A trip owes at most its target, and exactly its target when the charge ended by itself. */
  predicate BillOk(trip: Trip) {
    && trip.price >= 0.0
    && 0 <= trip.meter.cents <= Cost(trip.target, trip.price)
    && (Charged(trip) <==> trip.stop.TargetReached? || trip.stop.Manual?)
    && (trip.stop.TargetReached? ==> trip.meter == FullMeter(trip.target, trip.power, trip.price))
  }

  /** The full meter is that of a charge that has run to its target. */
  lemma FullMeterShows(target: Positive, power: Positive, price: real, start: Instant)
    ensures exists ran :: power * ran == target * 3600000.0 && Shows(FullMeter(target, power, price), power, price, ran)
  {
    var full := ChargeTime(target, power);
    ChargeTimeIsExact(target, power);
    DeliversPower(target, power, full);
    DeliveredInFull(target, power);
    ReadingInFull(target, power, price, start);
    hide ChargeTime, Delivered, FullMeter;
    ReadingShows(target, power, price, start, start + full, full);
  }

  lemma ReadingIsBounded(target: Positive, power: Positive, price: real, start: Instant, at: Instant)
    requires price >= 0.0
    ensures 0 <= Reading(target, power, price, start, at).cents <= Cost(target, price)
  {
    CentsOfReading(target, power, price, start, at);
    NothingIsFree(price);
    hide Reading, Cost, Delivered;
    var passed := MaxReal(0.0, at - start);
    DeliveredGrows(target, power, passed, passed);
    CostGrows(0.0, Delivered(target, power, passed), price);
    CostGrows(Delivered(target, power, passed), target, price);
  }

  lemma ReadingInFull(target: Positive, power: Positive, price: real, start: Instant)
    ensures Reading(target, power, price, start, start + ChargeTime(target, power)) == FullMeter(target, power, price)
  {
    DeliveredInFull(target, power);
    hide ChargeTime, Cost, Delivered, RoundHalfEven;
  }

  lemma MeteredBill(trip: Trip, at: Instant)
    requires BillOk(trip) && trip.status.Charging?
    ensures BillOk(Metered(trip, at))
  {
    hide Reading, Cost;
    if trip.startedAt.Some? {
      ReadingIsBounded(trip.target, trip.power, trip.price, trip.startedAt.value, at);
    }
  }

  lemma StoppedBill(trip: Trip, at: Instant)
    requires BillOk(trip) && trip.status.Charging?
    ensures BillOk(FinishedTrip(trip, at, Manual))
  {
    MeteredBill(trip, at);
    hide Reading, Cost, FullMeter;
  }

  /** The event loop stops a charge at its completion instant, so the bill of a trip that reached its
      target does not depend on when anybody looked. */
  lemma FinishedBill(trip: Trip, at: Instant)
    requires BillOk(trip) && Completion(trip) == Some(at)
    ensures BillOk(FinishedTrip(trip, at, TargetReached))
  {
    ReadingIsBounded(trip.target, trip.power, trip.price, trip.startedAt.value, at);
    ReadingInFull(trip.target, trip.power, trip.price, trip.startedAt.value);
    hide Reading, Cost, FullMeter, ChargeTime;
  }
}
