/** The commands of the operational store, as functions on a world whose clock
    has just been brought up to date. */
module PilotCommands {
  import opened Basics
  import opened PilotTypes
  import opened PilotCatchUp
  import opened PilotPolling

  datatype Action = Arrive | Confirm | Start | Stop | Pay | Cancel | UnknownAction

  /** One line of the initial background load; the program fails on a missing count. */
  datatype Snapshot = Snapshot(station: Id, free: Option<real>, delay: real)

  /** One field of a configuration patch: `Malformed` is a known field whose value
      has the wrong shape, `Unsupported` an unknown field. */
  datatype Setting =
    | Weights(values: seq<real>) | Malformed | Unsupported
    | Rewards(first: real, second: real) | MinimumEnergy(value: real) | MinimumSeconds(value: real)
    | DailyBudget(value: real) | CallTimeout(value: real) | ReservationTimeout(value: real)
    | RewardWindow(value: real)

  /** When an offer is to expire: unsaid, at an instant, or in a text that is no timestamp. */
  datatype Expiry = Unsaid | Until(at: Instant) | Unreadable

  /** A recommendation without an identifier of its own is given a new one; `None` is a malformed one. */
  datatype Command =
    | ReadClock
    | CreateSession(user: Id)
    | SaveOffer(user: Id, id: Option<Id>, expires: Expiry, energy: real, candidates: seq<Candidate>)
    | Select(user: Id, offer: Id, station: Id, newId: Id)
    | Act(user: Id, trip: Id, action: Action)
    | SetBaseline(snapshot: seq<Snapshot>)
    | SetBackground(station: Id, busy: real, delay: real)
    | Configure(patch: seq<Setting>)
    | Advance(seconds: real)
    | ConfigureClock(speed: Option<real>, paused: Option<bool>)

  datatype Code =
    | Unauthorized | TripNotFound | InvalidAction | InvalidTransition | ArrivalTooEarly | InvalidTimestamp
    | OfferNotFound | OfferAlreadyUsed | OfferExpired | IneligibleStation | ActiveTrip | InvalidOffer
    | StationNotFound | CapacityConflict | InvalidConfig

  /** A command finishes, is refused with a domain error, or fails for another reason. */
  datatype Reply<+T> = Done(value: T) | Refused(code: Code) | Failed

  const DEFAULT_WEIGHTS := [0.30, 0.25, 0.20, 0.10, 0.10, 0.05]

  // ---------- argument checks ----------

  predicate InRange(x: real, low: real, high: real) {
    low <= x <= high
  }

  predicate WholeInRange(x: real, low: real, high: real) {
    InRange(x, low, high) && x == x.Floor as real
  }

  /** Checks made before the transaction opens: they leave even the clock alone. */
  function Precheck(c: Command): Option<Code> {
    match c
    case Act(_, _, action) => if action.UnknownAction? then Some(InvalidAction) else None
    case SetBackground(_, busy, delay) =>
      if WholeInRange(busy, 0.0, 10000.0) && InRange(delay, if busy != 0.0 then 1.0 else 0.0, 604800.0)
      then None else Some(InvalidConfig)
    case Configure(patch) => if patch == [] || Unsupported in patch then Some(InvalidConfig) else None
    case Advance(seconds) => if InRange(seconds, 0.0, 604800.0) then None else Some(InvalidConfig)
    case ConfigureClock(speed, _) =>
      if speed.Some? && !InRange(speed.value, 0.0, 3600.0) then Some(InvalidConfig) else None
    case _ => None
  }

  // ---------- shared pieces ----------

  function After(now: Instant, seconds: real): Instant {
    now + seconds * 1000.0
  }

  function Grace(w: World): Instant {
    Millis(w.state.config.callTimeout)
  }

  function HoldTime(w: World): Instant {
    Millis(w.state.config.reservationTimeout)
  }

  /** Chargers a new arrival may take. */
  ghost function CurrentFree(y: Yard, s: Id): int
    requires s in y.stations
  {
    Max(0, Free(y, s))
  }

  ghost function Recorded(w: World, t: Id, next: Trip, kind: EventKind): World {
    w.(yard := Record(w.yard, t, next, kind, w.state.time))
  }

  ghost function Dispatched(w: World): World {
    w.(yard := Dispatch(w.yard, w.state.time, Grace(w)))
  }

  // ---------- recommendations ----------

  function RewardOf(config: Config, rank: real): int {
    if rank == 1.0 then config.firstReward else if rank == 2.0 then config.secondReward else 0
  }

  /** A candidate with its reward computed from the configuration in force, whatever was sent. */
  function Priced(config: Config, c: Candidate): Candidate {
    c.(points := RoundHalfEven(RewardOf(config, c.rank) as real * c.multiplier))
  }

  predicate CandidateOk(c: Candidate) {
    && WholeInRange(c.rank, 1.0, 10000.0) && InRange(c.eta, 0.0, 1440.0)
    && (c.multiplier == 0.5 || c.multiplier == 1.0 || c.multiplier == 2.0)
    && InRange(c.price, 0.0, 1000.0)
  }

  /** The error of the first bad candidate, if any. */
  function CandidateError(y: Yard, cs: seq<Candidate>, seen: set<Id>, ranks: set<real>): Option<Code> {
    if cs == [] then None else
      var c := cs[0];
      if c.station !in y.stations || c.station in seen then Some(InvalidOffer)
      else if !WholeInRange(c.rank, 1.0, 10000.0) then Some(InvalidConfig)
      else if c.rank in ranks then Some(InvalidOffer)
      else if !InRange(c.eta, 0.0, 1440.0) || !InRange(c.multiplier, 0.5, 2.0) then Some(InvalidConfig)
      else if !(c.multiplier == 0.5 || c.multiplier == 1.0 || c.multiplier == 2.0) then Some(InvalidOffer)
      else if !InRange(c.price, 0.0, 1000.0) then Some(InvalidConfig)
      else CandidateError(y, cs[1..], seen + {c.station}, ranks + {c.rank})
  }

  function PricedAll(config: Config, cs: seq<Candidate>): (r: seq<Candidate>)
    ensures |r| == |cs| && forall i :: 0 <= i < |cs| ==> r[i] == Priced(config, cs[i])
  {
    if cs == [] then [] else [Priced(config, cs[0])] + PricedAll(config, cs[1..])
  }

  ghost function SavedOffer(w: World, user: Id, id: Option<Id>, expires: Expiry, energy: real, cs: seq<Candidate>)
    : Reply<World>
  {
    if user !in w.books.points then Refused(Unauthorized)
    else if id.None? then Refused(InvalidOffer)
    else if id.value in w.books.offers then
      if w.books.offers[id.value].user != user then Refused(OfferNotFound) else Done(w)
    else if cs == [] then Refused(InvalidOffer)
    else
      var bad := CandidateError(w.yard, cs, {}, {});
      if bad.Some? then Refused(bad.value)
      else if expires.Unreadable? then Refused(InvalidTimestamp)
      else
        var until := if expires.Until? then expires.at else w.state.time + Millis(900);
        if until <= w.state.time || until > w.state.time + Millis(86400) then Refused(InvalidOffer)
        else if !InRange(energy, 0.01, 500.0) then Refused(InvalidConfig)
        else
          var c := w.state.config;
          var offer := Offer(user, until, energy, Terms(c.minimumEnergy, c.minimumSeconds, c.rewardWindow), PricedAll(c, cs));
          Done(w.(books := w.books.(offers := w.books.offers[id.value := offer])))
  }

  function FindCandidate(cs: seq<Candidate>, station: Id): (r: Option<Candidate>)
    ensures r.Some? ==> r.value in cs && r.value.station == station && r.value.eligible
  {
    if cs == [] then None
    else if cs[0].station == station && cs[0].eligible then Some(cs[0])
    else FindCandidate(cs[1..], station)
  }

  ghost predicate HasActiveTrip(y: Yard, user: Id) {
    exists t :: t in y.trips && y.trips[t].user == user && y.trips[t].status.Active()
  }

  function NewTrip(user: Id, id: Id, offer: Offer, c: Candidate, power: Positive, now: Instant): Trip {
    Trip(user, id, c.station, EnRoute, Trunc(now), Trunc(now),
      Trunc(now + c.eta * 60000.0), Trunc(now + Millis(offer.terms.rewardWindow)), offer.terms,
      offer.energy, power, c.price, c.points,
      None, None, None, None, None, None, None, NO_METER, NotStopped, 0, NotPaid, None)
  }

  ghost function SelectedTrip(w: World, user: Id, id: Id, station: Id, newId: Id): Reply<World> {
    var y := w.yard;
    if user !in w.books.points then Refused(Unauthorized)
    else if id !in w.books.offers || w.books.offers[id].user != user then Refused(OfferNotFound)
    else if exists t :: t in y.trips && y.trips[t].offer == id then
      if exists t :: t in y.trips && y.trips[t].offer == id && y.trips[t].station == station
      then Done(w) else Refused(OfferAlreadyUsed)
    else
      var offer := w.books.offers[id];
      var c := FindCandidate(offer.candidates, station);
      if offer.expires <= w.state.time then Refused(OfferExpired)
      else if c.None? then Refused(IneligibleStation)
      else if HasActiveTrip(y, user) then Refused(ActiveTrip)
      else if station !in y.stations || newId in y.trips then Failed
      else Done(Recorded(w, newId, NewTrip(user, id, offer, c.value, y.stations[station].power, w.state.time), Selected))
  }

  // ---------- trip actions ----------

  predicate AlreadyDone(action: Action, s: Status) {
    match action
    case Arrive => s.Queued? || s.Called? || s.Reserved?
    case Confirm => s.Reserved?
    case Start => s.Charging?
    case Stop => s.PendingPayment? || s.Completed?
    case Pay => s.Completed?
    case Cancel => s.Cancelled?
    case UnknownAction => false
  }

  predicate Allowed(action: Action, s: Status) {
    match action
    case Arrive => s.EnRoute?
    case Confirm => s.Called?
    case Start => s.Reserved?
    case Stop => s.Charging?
    case Pay => s.PendingPayment?
    case Cancel => s.EnRoute? || s.Queued? || s.Called? || s.Reserved?
    case UnknownAction => false
  }

  ghost function Arrived(w: World, t: Id): Reply<World>
    requires t in w.yard.trips && w.yard.trips[t].station in w.yard.stations
  {
    var now, trip := w.state.time, w.yard.trips[t];
    if now < trip.arrivalFrom then Refused(ArrivalTooEarly)
    else
      var free := CurrentFree(w.yard, trip.station);
      var here := trip.(arrivedAt := Some(Trunc(now)), freeAtArrival := Some(free));
      if free > 0 && Line(w.yard, trip.station) == {} then
        Done(Recorded(w, t, Moved(here.(holdUntil := Some(Trunc(now + HoldTime(w)))), Reserved, now), ArrivedReserved))
      else
        var ticket := w.state.lastTicket + 1;
        Done(Recorded(w.(state := w.state.(lastTicket := ticket)), t,
          Moved(here.(ticket := Some(ticket)), Queued, now), ArrivedQueued))
  }

  ghost function Confirmed(w: World, t: Id): World
    requires t in w.yard.trips
  {
    var now := w.state.time;
    Recorded(w, t, Moved(w.yard.trips[t].(holdUntil := Some(Trunc(now + HoldTime(w)))), Reserved, now), CallConfirmed)
  }

  ghost function Started(w: World, t: Id): World
    requires t in w.yard.trips
  {
    var now := w.state.time;
    Recorded(w, t, Moved(w.yard.trips[t].(startedAt := Some(Trunc(now))), Charging, now), ChargingStarted)
  }

  ghost function Stopped(w: World, t: Id): World
    requires t in w.yard.trips
  {
    Recorded(w, t, FinishedTrip(w.yard.trips[t], w.state.time, Manual), ChargingStopped)
  }

  ghost function CancelledBy(w: World, t: Id): World
    requires t in w.yard.trips
  {
    Recorded(w, t, Moved(w.yard.trips[t].(stop := ByCancel, reward := RewardCancelled), Cancelled, w.state.time), CancelledByUser)
  }

  // ---------- payment ----------

  /** Days are counted in the operator's time zone, eight hours east of UTC. */
  function BusinessDay(now: Instant): (day: int)
    ensures 86400000.0 * day as real - 28800000.0 <= now < 86400000.0 * (day + 1) as real - 28800000.0
  {
    ((now + 28800000.0) / 86400000.0).Floor
  }

  function UsedOn(ledger: seq<LedgerRow>, day: int): int {
    if ledger == [] then 0 else
      var row := ledger[|ledger| - 1];
      UsedOn(ledger[..|ledger| - 1], day) + if row.day == day then row.points else 0
  }

  /** Why a paid trip earns no reward, or `Awarded` when it qualifies. */
  function Verdict(trip: Trip, now: Instant): RewardStatus {
    if trip.meter.cents <= 0 then NoPositivePayment
    else if trip.meter.millis < 1000 * trip.terms.minimumSeconds then BelowMinimumDuration
    else if trip.meter.energy as real < trip.terms.minimumEnergy * 100000000.0 then BelowMinimumEnergy
    else if now >= trip.rewardUntil then RewardExpired
    else if trip.points <= 0 then NoOfferReward
    else Awarded
  }

  function Award(w: World, trip: Trip): int {
    var remaining := Max(0, w.state.config.dailyBudget - UsedOn(w.books.ledger, BusinessDay(w.state.time)));
    if Verdict(trip, w.state.time).Awarded? then Min(trip.points, remaining) else 0
  }

  function FinalVerdict(trip: Trip, verdict: RewardStatus, award: int): RewardStatus {
    if verdict.Awarded? && award < trip.points
    then if award != 0 then DailyBudgetLimit else DailyBudgetExhausted
    else verdict
  }

  function PaidTrip(trip: Trip, award: int, verdict: RewardStatus, now: Instant): Trip {
    Moved(trip.(awarded := award, reward := verdict, paidAt := Some(Trunc(now))), Completed, now)
  }

  /** The payment, and for an award its ledger row and the user's points. */
  function PaidBooks(b: Books, t: Id, trip: Trip, award: int, now: Instant): Books
    requires trip.user in b.points
  {
    var row := LedgerRow(t, trip.user, trip.station, award, trip.meter.cents, now, BusinessDay(now));
    b.(payments := b.payments[t := Payment(trip.user, trip.meter.cents, now)],
       ledger := if award != 0 then b.ledger + [row] else b.ledger,
       points := b.points[trip.user := b.points[trip.user] + award])
  }

  ghost function Paid(w: World, t: Id): Reply<World>
    requires t in w.yard.trips
  {
    var now, trip := w.state.time, w.yard.trips[t];
    if t in w.books.payments || trip.user !in w.books.points then Failed else
      var award := Award(w, trip);
      var verdict := FinalVerdict(trip, Verdict(trip, now), award);
      Done(Recorded(w.(books := PaidBooks(w.books, t, trip, award, now)), t,
        PaidTrip(trip, award, verdict, now), PaymentCompleted(trip.meter.cents, award, verdict)))
  }

  ghost function Performed(w: World, t: Id, action: Action): Reply<World>
    requires t in w.yard.trips && w.yard.trips[t].station in w.yard.stations
  {
    match action
    case Arrive => Arrived(w, t)
    case Confirm => Done(Confirmed(w, t))
    case Start => if w.yard.trips[t].arrivedAt.None? then Refused(InvalidTimestamp) else Done(Started(w, t))
    case Stop => if w.yard.trips[t].startedAt.None? then Refused(InvalidTimestamp) else Done(Stopped(w, t))
    case Pay => Paid(w, t)
    case Cancel => Done(CancelledBy(w, t))
    case UnknownAction => Refused(InvalidAction)
  }

  ghost function Acted(w: World, user: Id, t: Id, action: Action): Reply<World> {
    if user !in w.books.points then Refused(Unauthorized)
    else if t !in w.yard.trips || w.yard.trips[t].user != user then Refused(TripNotFound)
    else
      var status := w.yard.trips[t].status;
      if AlreadyDone(action, status) then Done(w)
      else if !Allowed(action, status) then Refused(InvalidTransition)
      else if w.yard.trips[t].station !in w.yard.stations then Failed
      else
        var r := Performed(w, t, action);
        if r.Done? then Done(Dispatched(r.value)) else r
  }

  // ---------- background load ----------

  datatype Load = Load(station: Id, busy: int, release: Option<Instant>)

  function Loaded(y: Yard, l: Load): Yard {
    if l.station in y.stations
    then y.(stations := y.stations[l.station := y.stations[l.station].(busy := l.busy, release := l.release)]) else y
  }

  ghost function LoadedAll(y: Yard, ls: seq<Load>): Yard
    decreases |ls|
  {
    if ls == [] then y else LoadedAll(Loaded(y, ls[0]), ls[1..])
  }

  /** The load one snapshot line asks for: never more than is free, whatever load there was before. */
  ghost function BaselineLoad(y: Yard, now: Instant, item: Snapshot): Load
    requires item.station in y.stations && item.free.Some?
  {
    var busy := Min(y.stations[item.station].capacity - item.free.value.Floor, CurrentFree(y, item.station));
    Load(item.station, busy, if busy != 0 then Some(After(now, item.delay)) else None)
  }

  ghost function Prepared(y: Yard, now: Instant, items: seq<Snapshot>): Reply<seq<Load>> {
    if items == [] then Done([]) else
      var item := items[0];
      if item.station !in y.stations then Refused(StationNotFound)
      else if item.free.None? then Failed
      else if !WholeInRange(item.free.value, 0.0, y.stations[item.station].capacity as real) then Refused(InvalidConfig)
      else if !InRange(item.delay, 1.0, 604800.0) then Refused(InvalidConfig)
      else
        var rest := Prepared(y, now, items[1..]);
        if rest.Done? then Done([BaselineLoad(y, now, item)] + rest.value) else rest
  }

  ghost function BaselineSet(w: World, items: seq<Snapshot>): Reply<World> {
    if w.state.baseline then Done(w) else
      match Prepared(w.yard, w.state.time, items)
      case Done(loads) => Done(w.(yard := LoadedAll(w.yard, loads), state := w.state.(baseline := true)))
      case Refused(code) => Refused(code)
      case Failed => Failed
  }

  function BackgroundLoad(s: Id, busy: int, delay: real, now: Instant): Load {
    Load(s, busy, if busy != 0 then Some(After(now, delay)) else None)
  }

  ghost function BackgroundSet(w: World, s: Id, busy: int, delay: real): Reply<World> {
    if s !in w.yard.stations then Refused(StationNotFound)
    else if busy > w.yard.stations[s].capacity - |Holders(w.yard, s)| then Refused(CapacityConflict)
    else Done(Dispatched(w.(yard := Loaded(w.yard, BackgroundLoad(s, busy, delay, w.state.time)))))
  }

  // ---------- configuration and clock ----------

  /** Six weights between zero and one that sum to one, up to 1e-8. */
  predicate WeightsOk(v: seq<real>) {
    && |v| == 6 && (forall i :: 0 <= i < |v| ==> InRange(v[i], 0.0, 1.0))
    && InRange(v[0] + v[1] + v[2] + v[3] + v[4] + v[5], 0.99999999, 1.00000001)
  }

  function Patched(c: Config, s: Setting): Option<Config> {
    match s
    case Weights(v) => if WeightsOk(v) then Some(c.(weights := v)) else None
    case Malformed | Unsupported => None
    case Rewards(a, b) =>
      if WholeInRange(a, 0.0, 100000.0) && WholeInRange(b, 0.0, 100000.0)
      then Some(c.(firstReward := a.Floor, secondReward := b.Floor)) else None
    case MinimumEnergy(x) => if InRange(x, 0.001, 500.0) then Some(c.(minimumEnergy := x)) else None
    case MinimumSeconds(x) => if WholeInRange(x, 1.0, 604800.0) then Some(c.(minimumSeconds := x.Floor)) else None
    case DailyBudget(x) => if WholeInRange(x, 0.0, 10000000.0) then Some(c.(dailyBudget := x.Floor)) else None
    case CallTimeout(x) => if WholeInRange(x, 1.0, 604800.0) then Some(c.(callTimeout := x.Floor)) else None
    case ReservationTimeout(x) =>
      if WholeInRange(x, 1.0, 604800.0) then Some(c.(reservationTimeout := x.Floor)) else None
    case RewardWindow(x) => if WholeInRange(x, 1.0, 604800.0) then Some(c.(rewardWindow := x.Floor)) else None
  }

  /** All settings or none. */
  function PatchedAll(c: Config, patch: seq<Setting>): Option<Config>
    decreases |patch|
  {
    if patch == [] then Some(c) else
      var first := Patched(c, patch[0]);
      if first.None? then None else PatchedAll(first.value, patch[1..])
  }

  ghost function Advanced(w: World, seconds: real): World {
    CaughtUpTo(w, After(w.state.time, seconds))
  }

  /** The effect of a command on a world whose clock is up to date. */
  ghost function Apply(w: World, c: Command): Reply<World> {
    match c
    case ReadClock => Done(w)
    case CreateSession(user) =>
      if user in w.books.points then Failed
      else Done(w.(books := w.books.(points := w.books.points[user := 0])))
    case SaveOffer(user, id, expires, energy, cs) => SavedOffer(w, user, id, expires, energy, cs)
    case Select(user, offer, station, newId) => SelectedTrip(w, user, offer, station, newId)
    case Act(user, trip, action) => Acted(w, user, trip, action)
    case SetBaseline(items) => BaselineSet(w, items)
    case SetBackground(s, busy, delay) => BackgroundSet(w, s, busy.Floor, delay)
    case Configure(patch) =>
      var config := PatchedAll(w.state.config, patch);
      if config.None? then Refused(InvalidConfig) else Done(w.(state := w.state.(config := config.value)))
    case Advance(seconds) => Done(Advanced(w, seconds))
    case ConfigureClock(speed, paused) =>
      Done(w.(state := w.state.(speed := if speed.Some? then speed.value else w.state.speed,
                                paused := if paused.Some? then paused.value else w.state.paused)))
  }

  // ---------- the transaction ----------

  /** A full effect, the catch-up alone, or nothing: `crash` stands for any failure of the database. */
  ghost function Transaction(w: World, wall: Instant, c: Command, crash: bool): World {
    if Precheck(c).Some? || crash then w else
      var ticked := Tick(w, wall);
      match Apply(ticked, c)
      case Done(after) => after
      case Refused(_) => ticked
      case Failed => w
  }
}
