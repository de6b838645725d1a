/** The rows of the charging pilot's operational tables.

    An instant is a real number of milliseconds. Deadlines are stored with
    millisecond precision, so the program cuts them off with `Trunc`; release
    and completion instants keep their fraction. Identifiers are numbers whose
    order stands for the order of the identifier strings. */
module PilotTypes {
  import opened Basics

  type Id = int
  type Instant = real
  type Positive = x: real | x > 0.0 witness 1.0

  datatype Status =
    EnRoute | Queued | Called | Reserved | Charging | PendingPayment | Completed | Cancelled | Expired
  {
    /** The program's ALLOCATED set: the trip occupies a charger. */
    predicate Holding() {
      Called? || Reserved? || Charging?
    }

    /** The program's ACTIVE set: the trip is not finished. */
    predicate Active() {
      EnRoute? || Queued? || Holding() || PendingPayment?
    }
  }

  /** `weights` are the six scoring weights, in the order of their names. */
  datatype Config = Config(
    weights: seq<real>,
    firstReward: int, secondReward: int, minimumEnergy: real, minimumSeconds: int,
    dailyBudget: int, callTimeout: int, reservationTimeout: int, rewardWindow: int)

  function Millis(seconds: int): Instant {
    1000.0 * seconds as real
  }

  /** `busy` chargers are taken by background load until `release`. */
  datatype Station = Station(
    capacity: int, power: Positive, price: real, busy: int, release: Option<Instant>)

  /** Reward conditions, frozen when the recommendation is saved. */
  datatype Terms = Terms(minimumEnergy: real, minimumSeconds: int, rewardWindow: int)

  /** What has been delivered: milliseconds, units of 1e-8 kWh, cents. */
  datatype Meter = Meter(millis: int, energy: int, cents: int)

  const NO_METER := Meter(0, 0, 0)

  datatype StopReason = NotStopped | TargetReached | Manual | ByCancel | Timeout(previous: Status)

  datatype RewardStatus =
    | NotPaid | RewardLapsed | RewardCancelled
    | Awarded | NoPositivePayment | BelowMinimumDuration | BelowMinimumEnergy
    | RewardExpired | NoOfferReward | DailyBudgetLimit | DailyBudgetExhausted

  datatype Trip = Trip(
    user: Id, offer: Id, station: Id, status: Status, createdAt: Instant, updatedAt: Instant,
    arrivalFrom: Instant, rewardUntil: Instant, terms: Terms,
    target: Positive, power: Positive, price: real, points: int,
    callUntil: Option<Instant>, holdUntil: Option<Instant>, ticket: Option<int>,
    arrivedAt: Option<Instant>, freeAtArrival: Option<int>,
    startedAt: Option<Instant>, stoppedAt: Option<Instant>,
    meter: Meter, stop: StopReason, awarded: int, reward: RewardStatus, paidAt: Option<Instant>)

  datatype EventKind =
    | Selected | ArrivedReserved | ArrivedQueued | CalledOut | CallConfirmed
    | ChargingStarted | ChargingStopped | CancelledByUser | TimedOut(previous: Status)
    | PaymentCompleted(cents: int, awarded: int, reward: RewardStatus)

  datatype Event = Event(trip: Id, kind: EventKind, status: Status, at: Instant)

  /** The tables the clock works on: stations, trips, and the append-only event log. */
  datatype Yard = Yard(stations: map<Id, Station>, trips: map<Id, Trip>, events: seq<Event>)

  /** The single row that is also the lock of every transaction. */
  datatype State = State(
    time: Instant, wall: Instant, speed: real, paused: bool,
    config: Config, baseline: bool, lastTicket: int)

  /** A ranked station of a recommendation; `eta` is in minutes. */
  datatype Candidate = Candidate(
    station: Id, rank: real, eta: real, multiplier: real, price: real, points: int, eligible: bool)

  datatype Offer = Offer(
    user: Id, expires: Instant, energy: Positive, terms: Terms, candidates: seq<Candidate>)

  datatype Payment = Payment(user: Id, cents: int, at: Instant)

  datatype LedgerRow = LedgerRow(
    trip: Id, user: Id, station: Id, points: int, cents: int, at: Instant, day: int)

  /** Users' points, offers, payments and the reward ledger. */
  datatype Books = Books(
    points: map<Id, int>, offers: map<Id, Offer>, payments: map<Id, Payment>, ledger: seq<LedgerRow>)

  datatype World = World(state: State, yard: Yard, books: Books)
}
