/** When a command is refused and what it writes otherwise, read off its arguments and
    the tables it finds. */
module PilotOutcomes {
  import opened Basics
  import opened PilotTypes
  import opened PilotCatchUp
  import opened PilotPolling
  import opened PilotBills
  import opened PilotInvariant
  import opened PilotSafety
  import opened PilotCommands
  import opened PilotWorld
  import opened PilotCommandsKeep
  import opened PilotRuns
  import opened PilotTheorems

  predicate WholeBetween(x: real, low: int, high: int) {
    x == x.Floor as real && low as real <= x <= high as real
  }

  // ---------- arguments ----------

  /** What is asked of a command's arguments before its transaction opens. */
  predicate ArgumentsOk(c: Command) {
    match c
    case Act(_, _, action) => !action.UnknownAction?
    case SetBackground(_, busy, delay) =>
      WholeBetween(busy, 0, 10000) && 0.0 <= delay <= 604800.0 && (busy == 0.0 || delay >= 1.0)
    case Configure(patch) => |patch| > 0 && forall i :: 0 <= i < |patch| ==> !patch[i].Unsupported?
    case Advance(seconds) => 0.0 <= seconds <= 604800.0
    case ConfigureClock(speed, _) => speed == None || 0.0 <= speed.value <= 3600.0
    case _ => true
  }

  lemma ArgumentsAreChecked(c: Command)
    ensures Precheck(c) == if ArgumentsOk(c) then None else if c.Act? then Some(InvalidAction) else Some(InvalidConfig)
  {
    if c.Configure? && Unsupported in c.patch {
      var i :| 0 <= i < |c.patch| && c.patch[i] == Unsupported;
    }
  }

  // ---------- offers ----------

  predicate CandidateFits(y: Yard, c: Candidate) {
    && c.station in y.stations && WholeBetween(c.rank, 1, 10000) && 0.0 <= c.eta <= 1440.0
    && (c.multiplier == 0.5 || c.multiplier == 1.0 || c.multiplier == 2.0) && 0.0 <= c.price <= 1000.0
  }

  /** Every candidate is in order, and no two share their station or their rank. */
  predicate CandidatesFit(y: Yard, cs: seq<Candidate>) {
    && (forall i :: 0 <= i < |cs| ==> CandidateFits(y, cs[i]))
    && (forall i, j :: 0 <= i < j < |cs| ==> cs[i].station != cs[j].station && cs[i].rank != cs[j].rank)
  }

  predicate Unseen(cs: seq<Candidate>, seen: set<Id>, ranks: set<real>) {
    forall i :: 0 <= i < |cs| ==> cs[i].station !in seen && cs[i].rank !in ranks
  }

  lemma {:induction false} CandidatesAreChecked(y: Yard, cs: seq<Candidate>, seen: set<Id>, ranks: set<real>)
    ensures CandidateError(y, cs, seen, ranks).None? <==> CandidatesFit(y, cs) && Unseen(cs, seen, ranks)
    decreases |cs|
  {
    if cs != [] {
      var c, rest := cs[0], cs[1..];
      CandidatesAreChecked(y, rest, seen + {c.station}, ranks + {c.rank});
      assert forall i :: 0 <= i < |rest| ==> rest[i] == cs[i + 1];
      assert forall i :: 0 < i < |cs| ==> cs[i] == rest[i - 1];
      assert CandidatesFit(y, cs) && Unseen(cs, seen, ranks) ==> CandidateFits(y, cs[0]);
    }
  }

  /** An offer as it is kept: the terms in force, and for every candidate the first or
      second reward times its multiplier, to the nearest even point. */
  predicate Promises(offer: Offer, user: Id, until: Instant, energy: real, config: Config, cs: seq<Candidate>) {
    && offer.user == user && offer.expires == until && offer.energy == energy
    && offer.terms.minimumEnergy == config.minimumEnergy && offer.terms.minimumSeconds == config.minimumSeconds
    && offer.terms.rewardWindow == config.rewardWindow
    && |offer.candidates| == |cs|
    && forall i :: 0 <= i < |cs| ==>
         offer.candidates[i] == cs[i].(points := offer.candidates[i].points)
         && Rewarded(offer.candidates[i].points, cs[i], config)
  }

  predicate Rewarded(points: int, c: Candidate, config: Config) {
    if c.rank == 1.0 then NearestEven(points, Multiplied(config.firstReward, c.multiplier))
    else if c.rank == 2.0 then NearestEven(points, Multiplied(config.secondReward, c.multiplier))
    else points == 0
  }

  function Multiplied(reward: int, multiplier: real): real {
    reward as real * multiplier
  }

  lemma PricedAs(config: Config, c: Candidate, reward: int)
    requires reward == RewardOf(config, c.rank)
    ensures Priced(config, c) == c.(points := RoundHalfEven(Multiplied(reward, c.multiplier)))
  {
  }

  lemma NoRewardIsNone(multiplier: real)
    ensures RoundHalfEven(Multiplied(0, multiplier)) == 0
  {
    assert Multiplied(0, multiplier) == 0.0;
  }

  lemma PricesAreRewards(config: Config, c: Candidate)
    ensures Priced(config, c) == c.(points := Priced(config, c).points) && Rewarded(Priced(config, c).points, c, config)
  {
    hide Priced, Multiplied, NearestEven, RoundHalfEven;
    PricedAs(config, c, RewardOf(config, c.rank));
    RoundingIsNearest(Multiplied(config.firstReward, c.multiplier));
    RoundingIsNearest(Multiplied(config.secondReward, c.multiplier));
    NoRewardIsNone(c.multiplier);
  }

  function ExpiryOf(expires: Expiry, now: Instant): Instant {
    if expires.Until? then expires.at else now + 900000.0
  }

  /** A new offer is kept exactly when its candidates are in order and distinct, it
      expires within a day, and its energy is in range; then as it was promised. */
  lemma OffersAreKept(w: World, user: Id, id: Id, expires: Expiry, energy: real, cs: seq<Candidate>)
    requires user in w.books.points && id !in w.books.offers
    ensures var r, now := SavedOffer(w, user, Some(id), expires, energy, cs), w.state.time;
      var until := ExpiryOf(expires, now);
      && (r.Done? <==>
           && |cs| > 0 && CandidatesFit(w.yard, cs) && !expires.Unreadable?
           && now < until <= now + 86400000.0 && 0.01 <= energy <= 500.0)
      && (r.Done? ==>
           var offers := r.value.books.offers;
           && id in offers && Promises(offers[id], user, until, energy, w.state.config, cs)
           && r.value == w.(books := w.books.(offers := w.books.offers[id := offers[id]])))
      && !r.Failed?
  {
    CandidatesAreChecked(w.yard, cs, {}, {});
    hide CandidateError, CandidatesFit, Rewarded, Priced;
    forall i | 0 <= i < |cs|
      ensures PricedAll(w.state.config, cs)[i] == cs[i].(points := PricedAll(w.state.config, cs)[i].points)
      ensures Rewarded(PricedAll(w.state.config, cs)[i].points, cs[i], w.state.config)
    {
      PricesAreRewards(w.state.config, cs[i]);
    }
    hide PricedAll;
  }

  // ---------- selecting ----------

  /** A trip as it begins: on the way to the station, with the offer's terms and the
      candidate's price and reward, not expected before the drive is over. */
  predicate Begins(trip: Trip, user: Id, id: Id, offer: Offer, c: Candidate, power: real, now: Instant) {
    && trip.user == user && trip.offer == id && trip.station == c.station && trip.status == EnRoute
    && trip.createdAt == trip.updatedAt == Trunc(now) && trip.arrivalFrom == Trunc(now + 60000.0 * c.eta)
    && trip.rewardUntil == Trunc(now + 1000.0 * offer.terms.rewardWindow as real)
    && trip.terms == offer.terms && trip.target == offer.energy && trip.power == power
    && trip.price == c.price && trip.points == c.points && trip.awarded == 0 && trip.reward == NotPaid
    && trip.callUntil == trip.holdUntil == trip.arrivedAt == trip.startedAt == trip.stoppedAt == trip.paidAt == None
    && trip.ticket == trip.freeAtArrival == None && trip.meter == Meter(0, 0, 0) && trip.stop == NotStopped
  }

  lemma {:induction false} CandidateIsFound(cs: seq<Candidate>, station: Id)
    ensures FindCandidate(cs, station).Some? <==>
      exists i :: 0 <= i < |cs| && cs[i].station == station && cs[i].eligible
    decreases |cs|
  {
    if cs != [] {
      CandidateIsFound(cs[1..], station);
      assert forall i :: 0 <= i < |cs| - 1 ==> cs[1..][i] == cs[i + 1];
      if exists i :: 0 < i < |cs| && cs[i].station == station && cs[i].eligible {
        var i :| 0 < i < |cs| && cs[i].station == station && cs[i].eligible;
        assert cs[1..][i - 1] == cs[i];
      }
    }
  }

  ghost predicate UserIsOut(y: Yard, user: Id) {
    exists t :: t in y.trips && y.trips[t].user == user && !Finished(y.trips[t].status)
  }

  predicate Finished(s: Status) {
    s.Completed? || s.Cancelled? || s.Expired?
  }

  /** A first selection from a user's own offer succeeds exactly when the offer is alive,
      the station is an eligible candidate and the user has no other trip under way. */
  lemma SelectionsBegin(w: World, user: Id, id: Id, station: Id, newId: Id)
    requires user in w.books.points && id in w.books.offers && w.books.offers[id].user == user
    requires station in w.yard.stations && newId !in w.yard.trips
    requires forall t :: t in w.yard.trips ==> w.yard.trips[t].offer != id
    ensures var r, now, offer, y := SelectedTrip(w, user, id, station, newId), w.state.time, w.books.offers[id], w.yard;
      && (r.Done? <==>
           && now < offer.expires && !UserIsOut(y, user)
           && exists i :: 0 <= i < |offer.candidates| && offer.candidates[i].station == station && offer.candidates[i].eligible)
      && (r.Done? ==>
           && newId in r.value.yard.trips
           && r.value == w.(yard := Yard(y.stations, y.trips[newId := r.value.yard.trips[newId]],
                                         y.events + [Event(newId, Selected, EnRoute, now)]))
           && exists c :: c in offer.candidates && c.station == station && c.eligible
                && Begins(r.value.yard.trips[newId], user, id, offer, c, y.stations[station].power, now))
  {
    var r, offer := SelectedTrip(w, user, id, station, newId), w.books.offers[id];
    CandidateIsFound(offer.candidates, station);
    assert UserIsOut(w.yard, user) <==> HasActiveTrip(w.yard, user);
    hide UserIsOut, HasActiveTrip;
    if r.Done? {
      var c := FindCandidate(offer.candidates, station).value;
      hide FindCandidate;
      assert Begins(r.value.yard.trips[newId], user, id, offer, c, w.yard.stations[station].power, w.state.time);
    }
  }

  /** Selecting from an offer a second time answers with the first trip or refuses. */
  lemma SelectionsAreUnique(w: World, user: Id, id: Id, station: Id, newId: Id, t: Id)
    requires user in w.books.points && id in w.books.offers && w.books.offers[id].user == user
    requires WorldOk(w) && t in w.yard.trips && w.yard.trips[t].offer == id
    ensures SelectedTrip(w, user, id, station, newId) ==
      if w.yard.trips[t].station == station then Done(w) else Refused(OfferAlreadyUsed)
  {
    assert ClaimsOk(w.yard, w.books);
    hide WorldOk, FindCandidate, HasActiveTrip, Honours;
  }

  // ---------- actions ----------

  /** The actions a trip in this status is open to. */
  predicate OpenTo(s: Status, action: Action) {
    match s
    case EnRoute => action.Arrive? || action.Cancel?
    case Queued => action.Cancel?
    case Called => action.Confirm? || action.Cancel?
    case Reserved => action.Start? || action.Cancel?
    case Charging => action.Stop?
    case PendingPayment => action.Pay?
    case _ => false
  }

  /** The actions that brought a trip to this status, or only led through it. */
  predicate BroughtBy(s: Status, action: Action) {
    match s
    case Queued => action.Arrive?
    case Called => action.Arrive?
    case Reserved => action.Arrive? || action.Confirm?
    case Charging => action.Start?
    case PendingPayment => action.Stop?
    case Completed => action.Stop? || action.Pay?
    case Cancelled => action.Cancel?
    case _ => false
  }

  /** The status an action leads to; an arrival that has to queue may be called at once. */
  predicate LeadsTo(action: Action, s: Status) {
    match action
    case Arrive => s.Reserved? || s.Queued? || s.Called?
    case Confirm => s.Reserved?
    case Start => s.Charging?
    case Stop => s.PendingPayment?
    case Pay => s.Completed?
    case Cancel => s.Cancelled?
    case UnknownAction => false
  }

  /** An action on a user's own trip is carried out exactly when the trip's status is open
      to it, nothing happens when it already was, and otherwise it is refused; only an
      arrival can also come too early. */
  lemma ActionsAreAnswered(w: World, user: Id, t: Id, action: Action)
    requires WorldOk(w) && user in w.books.points && t in w.yard.trips && w.yard.trips[t].user == user
    ensures var r, trip := Acted(w, user, t, action), w.yard.trips[t];
      if BroughtBy(trip.status, action) then r == Done(w)
      else if !OpenTo(trip.status, action) then r == Refused(InvalidTransition)
      else if action.Arrive? && w.state.time < trip.arrivalFrom then r == Refused(ArrivalTooEarly)
      else r.Done? && t in r.value.yard.trips && LeadsTo(action, r.value.yard.trips[t].status)
  {
    TripRow(w, t);
    var status := w.yard.trips[t].status;
    TableAgrees(status, action);
    hide WorldOk, Performed, Dispatched, BroughtBy, OpenTo, AlreadyDone, Allowed, TripOk, LeadsTo;
    if Allowed(action, status) && !AlreadyDone(action, status) {
      PerformedAnswers(w, t, action);
      var r := Performed(w, t, action);
      if r.Done? { DispatchLeads(r.value, t, action); }
    }
  }

  lemma TableAgrees(s: Status, action: Action)
    ensures AlreadyDone(action, s) == BroughtBy(s, action) && Allowed(action, s) == OpenTo(s, action)
  {
  }

  lemma PerformedAnswers(w: World, t: Id, action: Action)
    requires WorldOk(w) && t in w.yard.trips && w.yard.trips[t].station in w.yard.stations
    requires Allowed(action, w.yard.trips[t].status)
    ensures var r := Performed(w, t, action);
      if action.Arrive? && w.state.time < w.yard.trips[t].arrivalFrom then r == Refused(ArrivalTooEarly)
      else r.Done? && t in r.value.yard.trips && LeadsTo(action, r.value.yard.trips[t].status)
  {
    assert TripOk(w.yard.trips[t]);
    if action.Pay? { PaidKeeps(w, t); }
    hide WorldOk, Free, Line, Award, Verdict, FinalVerdict, PaidBooks, Metered;
  }

  lemma DispatchLeads(p: World, t: Id, action: Action)
    requires t in p.yard.trips && LeadsTo(action, p.yard.trips[t].status)
    ensures t in Dispatched(p).yard.trips && LeadsTo(action, Dispatched(p).yard.trips[t].status)
  {
    DispatchAllOnlyCalls(p.yard, p.yard.stations.Keys, p.state.time, Grace(p), t);
  }

  /** Nobody acts on a trip that is not theirs. */
  lemma StrangersAreRefused(w: World, user: Id, t: Id, action: Action)
    ensures user !in w.books.points ==> Acted(w, user, t, action) == Refused(Unauthorized)
    ensures user in w.books.points && (t !in w.yard.trips || w.yard.trips[t].user != user) ==>
      Acted(w, user, t, action) == Refused(TripNotFound)
  {
    hide Performed, Dispatched;
  }

  // ---------- background load ----------

  /** A background load is set as asked unless it would displace a trip's charger. */
  lemma BackgroundIsAsAsked(w: World, s: Id, busy: int, delay: real)
    requires s in w.yard.stations
    ensures var r, st := BackgroundSet(w, s, busy, delay), w.yard.stations[s];
      if busy + |Holders(w.yard, s)| > st.capacity then r == Refused(CapacityConflict) else
        && r.Done? && r.value.state == w.state && r.value.books == w.books
        && r.value.yard.stations == w.yard.stations[s :=
             st.(busy := busy, release := if busy == 0 then None else Some(w.state.time + 1000.0 * delay))]
  {
    hide Holders, DispatchAll;
  }

  /** What a line of the initial load leaves of a station: as many chargers busy as the
      line reports taken and the trips leave free, until the reported release. */
  ghost predicate LoadedBy(y: Yard, now: Instant, item: Snapshot, after: Station)
    requires item.station in y.stations && item.free.Some?
  {
    var before := y.stations[item.station];
    var taken, free := before.capacity - item.free.value.Floor,
                       before.capacity - before.busy - |Holders(y, item.station)|;
    && 0 <= after.busy <= taken && (free >= 0 ==> after.busy <= free)
    && (after.busy == taken || after.busy == free || (free < 0 && after.busy == 0))
    && after.release == (if after.busy == 0 then None else Some(now + 1000.0 * item.delay))
    && after.capacity == before.capacity && after.power == before.power && after.price == before.price
  }

  predicate ItemOk(y: Yard, item: Snapshot) {
    && item.station in y.stations && item.free.Some?
    && WholeBetween(item.free.value, 0, y.stations[item.station].capacity) && 1.0 <= item.delay <= 604800.0
  }

  lemma {:induction false} ItemsArePrepared(y: Yard, now: Instant, items: seq<Snapshot>)
    ensures var r := Prepared(y, now, items);
      && (r.Done? <==> forall i :: 0 <= i < |items| ==> ItemOk(y, items[i]))
      && (r.Done? ==> |r.value| == |items| && forall i :: 0 <= i < |items| ==>
           items[i].station in y.stations && items[i].free.Some? && r.value[i] == BaselineLoad(y, now, items[i]))
    decreases |items|
  {
    hide BaselineLoad;
    if items != [] {
      ItemsArePrepared(y, now, items[1..]);
      assert forall i :: 0 <= i < |items| - 1 ==> items[1..][i] == items[i + 1];
      assert forall i :: 0 < i < |items| ==> items[i] == items[1..][i - 1];
    }
  }

  predicate LastOn(ls: seq<Load>, i: int, s: Id) {
    0 <= i < |ls| && ls[i].station == s && forall j :: i < j < |ls| ==> ls[j].station != s
  }

  lemma {:induction false} LastLoadStays(y: Yard, ls: seq<Load>, s: Id, i: int)
    requires s in y.stations
    ensures s in LoadedAll(y, ls).stations
    ensures LastOn(ls, i, s) ==>
      LoadedAll(y, ls).stations[s] == y.stations[s].(busy := ls[i].busy, release := ls[i].release)
    ensures (forall j :: 0 <= j < |ls| ==> ls[j].station != s) ==> LoadedAll(y, ls).stations[s] == y.stations[s]
    decreases |ls|
  {
    if ls != [] {
      var m, rest := Loaded(y, ls[0]), ls[1..];
      assert forall j :: 0 <= j < |rest| ==> rest[j] == ls[j + 1];
      LastLoadStays(m, rest, s, i - 1);
      if LastOn(ls, i, s) && i > 0 { assert LastOn(rest, i - 1, s); }
    }
  }

  lemma LineLoads(y: Yard, now: Instant, item: Snapshot)
    requires ItemOk(y, item)
    ensures var l := BaselineLoad(y, now, item);
      l.station == item.station
      && LoadedBy(y, now, item, y.stations[item.station].(busy := l.busy, release := l.release))
  {
    hide Holders;
  }

  /** The initial load is taken once and as a whole: every listed station ends as its last
      line says, every other one as it was. */
  lemma BaselineIsAsReported(w: World, items: seq<Snapshot>, s: Id, i: int)
    requires !w.state.baseline && s in w.yard.stations
    ensures var r := BaselineSet(w, items);
      && (r.Done? <==> forall j :: 0 <= j < |items| ==> ItemOk(w.yard, items[j]))
      && (r.Done? ==>
           && r.value.state == w.state.(baseline := true) && r.value.books == w.books
           && r.value.yard.trips == w.yard.trips && r.value.yard.events == w.yard.events
           && s in r.value.yard.stations
           && ((forall j :: 0 <= j < |items| ==> items[j].station != s) ==>
                r.value.yard.stations[s] == w.yard.stations[s])
           && (0 <= i < |items| && items[i].station == s && (forall j :: i < j < |items| ==> items[j].station != s) ==>
                items[i].free.Some? && LoadedBy(w.yard, w.state.time, items[i], r.value.yard.stations[s])))
  {
    ItemsArePrepared(w.yard, w.state.time, items);
    var r := BaselineSet(w, items);
    if r.Done? {
      var ls := Prepared(w.yard, w.state.time, items).value;
      LoadedAllEffect(w.yard, ls);
      hide LoadedAll, Prepared, LoadedBy, BaselineLoad;
      forall j | 0 <= j < |items|
        ensures ls[j].station == items[j].station
        ensures LoadedBy(w.yard, w.state.time, items[j], w.yard.stations[items[j].station].(busy := ls[j].busy, release := ls[j].release))
      {
        assert ItemOk(w.yard, items[j]);
        LineLoads(w.yard, w.state.time, items[j]);
      }
      LastLoadStays(w.yard, ls, s, i);
    }
  }

  // ---------- configuration ----------

  /** The setting is well-formed and in range. */
  predicate SettingOk(s: Setting) {
    match s
    case Weights(v) =>
      && |v| == 6 && (forall i :: 0 <= i < 6 ==> 0.0 <= v[i] <= 1.0)
      && -0.00000001 <= v[0] + v[1] + v[2] + v[3] + v[4] + v[5] - 1.0 <= 0.00000001
    case Rewards(a, b) => WholeBetween(a, 0, 100000) && WholeBetween(b, 0, 100000)
    case MinimumEnergy(x) => 0.001 <= x <= 500.0
    case DailyBudget(x) => WholeBetween(x, 0, 10000000)
    case MinimumSeconds(x) => WholeBetween(x, 1, 604800)
    case CallTimeout(x) => WholeBetween(x, 1, 604800)
    case ReservationTimeout(x) => WholeBetween(x, 1, 604800)
    case RewardWindow(x) => WholeBetween(x, 1, 604800)
    case Malformed => false
    case Unsupported => false
  }

  /** The configuration shows the setting. */
  predicate ShowsSetting(c: Config, s: Setting) {
    match s
    case Weights(v) => c.weights == v
    case Rewards(a, b) => c.firstReward as real == a && c.secondReward as real == b
    case MinimumEnergy(x) => c.minimumEnergy == x
    case DailyBudget(x) => c.dailyBudget as real == x
    case MinimumSeconds(x) => c.minimumSeconds as real == x
    case CallTimeout(x) => c.callTimeout as real == x
    case ReservationTimeout(x) => c.reservationTimeout as real == x
    case RewardWindow(x) => c.rewardWindow as real == x
    case Malformed => true
    case Unsupported => true
  }

  /** The setting of a configuration that has the same field as `s`. */
  function Present(c: Config, s: Setting): Setting {
    match s
    case Weights(_) => Weights(c.weights)
    case Rewards(_, _) => Rewards(c.firstReward as real, c.secondReward as real)
    case MinimumEnergy(_) => MinimumEnergy(c.minimumEnergy)
    case DailyBudget(_) => DailyBudget(c.dailyBudget as real)
    case MinimumSeconds(_) => MinimumSeconds(c.minimumSeconds as real)
    case CallTimeout(_) => CallTimeout(c.callTimeout as real)
    case ReservationTimeout(_) => ReservationTimeout(c.reservationTimeout as real)
    case RewardWindow(_) => RewardWindow(c.rewardWindow as real)
    case Malformed => Malformed
    case Unsupported => Unsupported
  }

  predicate SameField(a: Setting, b: Setting) {
    || (a.Weights? && b.Weights?) || (a.Rewards? && b.Rewards?) || (a.MinimumEnergy? && b.MinimumEnergy?)
    || (a.DailyBudget? && b.DailyBudget?) || (a.MinimumSeconds? && b.MinimumSeconds?)
    || (a.CallTimeout? && b.CallTimeout?) || (a.ReservationTimeout? && b.ReservationTimeout?)
    || (a.RewardWindow? && b.RewardWindow?)
  }

  lemma OneSetting(c: Config, s: Setting, other: Setting)
    ensures Patched(c, s).Some? <==> SettingOk(s)
    ensures SettingOk(s) ==> ShowsSetting(Patched(c, s).value, s)
    ensures SettingOk(s) && !SameField(s, other) ==> Present(Patched(c, s).value, other) == Present(c, other)
  {
  }

  predicate Untouched(patch: seq<Setting>, s: Setting) {
    forall i :: 0 <= i < |patch| ==> !SameField(patch[i], s)
  }

  lemma {:induction false} OtherSettingsStay(c: Config, patch: seq<Setting>, other: Setting)
    requires PatchedAll(c, patch).Some? && Untouched(patch, other)
    ensures Present(PatchedAll(c, patch).value, other) == Present(c, other)
    decreases |patch|
  {
    hide Patched, SettingOk, ShowsSetting, Present, SameField;
    if patch != [] {
      OneSetting(c, patch[0], other);
      assert !SameField(patch[0], other);
      assert forall i :: 0 <= i < |patch| - 1 ==> patch[1..][i] == patch[i + 1];
      OtherSettingsStay(Patched(c, patch[0]).value, patch[1..], other);
    }
  }

  /** A patch is applied exactly when every one of its settings is in order. */
  lemma {:induction false} PatchesAreChecked(c: Config, patch: seq<Setting>)
    ensures PatchedAll(c, patch).Some? <==> forall i :: 0 <= i < |patch| ==> SettingOk(patch[i])
    decreases |patch|
  {
    hide Patched, SettingOk, ShowsSetting, Present, SameField;
    if patch != [] {
      OneSetting(c, patch[0], patch[0]);
      if SettingOk(patch[0]) {
        PatchesAreChecked(Patched(c, patch[0]).value, patch[1..]);
        assert forall i :: 0 < i < |patch| ==> patch[i] == patch[1..][i - 1];
        assert forall i :: 0 <= i < |patch| - 1 ==> patch[1..][i] == patch[i + 1];
      }
    }
  }

  /** A setting that no later one of the patch overrides is in force afterwards, and a
      field that the patch does not name is as it was. */
  lemma {:induction false} SettingsTakeEffect(c: Config, patch: seq<Setting>, i: int)
    requires 0 <= i < |patch| && PatchedAll(c, patch).Some? && Untouched(patch[i + 1..], patch[i])
    ensures ShowsSetting(PatchedAll(c, patch).value, patch[i])
    decreases |patch|
  {
    hide Patched, SettingOk, ShowsSetting, Present, SameField;
    var next, rest := Patched(c, patch[0]).value, patch[1..];
    if i == 0 {
      OneSetting(c, patch[0], patch[0]);
      OtherSettingsStay(next, rest, patch[0]);
      PresentDecides(next, PatchedAll(next, rest).value, patch[0]);
    } else {
      assert patch[i + 1..] == rest[i..];
      SettingsTakeEffect(next, rest, i - 1);
    }
  }

  lemma PresentDecides(a: Config, b: Config, s: Setting)
    requires Present(a, s) == Present(b, s) && ShowsSetting(a, s)
    ensures ShowsSetting(b, s)
  {
  }

  // ---------- the catalogue ----------

  ghost predicate RowFits(y: Yard, r: CatalogRow) {
    && WholeBetween(r.capacity, 1, 10000) && 0.001 <= r.power <= 10000.0 && 0.0 <= r.price <= 1000.0
    && (r.station in y.stations ==> y.stations[r.station].busy + |Holders(y, r.station)| <= r.capacity.Floor)
  }

  /** The station as its row has it; background load stays. */
  predicate AsListed(y: Yard, r: CatalogRow, after: Station) {
    && after.capacity as real == r.capacity && after.power == r.power && after.price == r.price
    && if r.station in y.stations
       then after.busy == y.stations[r.station].busy && after.release == y.stations[r.station].release
       else after.busy == 0 && after.release == None
  }

  lemma OneRow(y: Yard, r: CatalogRow, other: CatalogRow)
    requires RowsOk(y)
    ensures Installed(y, r).Some? <==> RowFits(y, r)
    ensures RowFits(y, r) ==>
      var z := Installed(y, r).value;
      && r.station in z.stations && AsListed(y, r, z.stations[r.station])
      && z.stations == y.stations[r.station := z.stations[r.station]] && z.trips == y.trips && z.events == y.events
      && RowsOk(z) && (RowFits(z, other) <==> RowFits(y, other))
  {
    if RowFits(y, r) {
      var z := Installed(y, r).value;
      SameHolders(y, z, other.station);
      SameHolders(y, z, r.station);
      if r.station !in y.stations { NobodyThere(y, r.station); }
      hide Holders, TripOk;
    }
  }

  lemma NobodyThere(y: Yard, s: Id)
    requires RowsOk(y) && s !in y.stations
    ensures Holders(y, s) == {}
  {
    assert forall t :: t in y.trips ==> y.trips[t].station != s;
  }

  lemma SameHolders(y: Yard, z: Yard, s: Id)
    requires z.trips == y.trips
    ensures Holders(z, s) == Holders(y, s)
  {
  }

  /** A catalogue is loaded exactly when every row is in range and leaves room for what is
      there; then each station is as its last row has it. */
  lemma {:induction false} CataloguesAreLoaded(y: Yard, rows: seq<CatalogRow>, i: int)
    requires RowsOk(y)
    ensures InstalledAll(y, rows).Some? <==> forall j :: 0 <= j < |rows| ==> RowFits(y, rows[j])
    ensures InstalledAll(y, rows).Some? && 0 <= i < |rows| && (forall j :: i < j < |rows| ==> rows[j].station != rows[i].station)
      ==> rows[i].station in InstalledAll(y, rows).value.stations
          && AsListed(y, rows[i], InstalledAll(y, rows).value.stations[rows[i].station])
    decreases |rows|
  {
    hide RowFits, Installed, RowsOk;
    if rows != [] {
      var rest := rows[1..];
      OneRow(y, rows[0], rows[0]);
      if RowFits(y, rows[0]) {
        var m := Installed(y, rows[0]).value;
        assert forall j :: 0 < j < |rows| ==> rows[j] == rest[j - 1];
        assert forall j :: 0 <= j < |rest| ==> rest[j] == rows[j + 1];
        forall j | 0 <= j < |rest| ensures RowFits(m, rest[j]) <==> RowFits(y, rest[j]) {
          OneRow(y, rows[0], rest[j]);
        }
        CataloguesAreLoaded(m, rest, i - 1);
        if InstalledAll(m, rest).Some? && i == 0 && forall j :: 0 < j < |rows| ==> rows[j].station != rows[0].station {
          UnlistedStay(m, rest, rows[0].station);
        }
      }
    }
  }

  lemma {:induction false} UnlistedStay(y: Yard, rows: seq<CatalogRow>, s: Id)
    requires InstalledAll(y, rows).Some? && s in y.stations && forall j :: 0 <= j < |rows| ==> rows[j].station != s
    ensures var z := InstalledAll(y, rows).value; s in z.stations && z.stations[s] == y.stations[s]
    decreases |rows|
  {
    hide Holders;
    if rows != [] {
      assert rows[0].station != s;
      assert forall j :: 0 <= j < |rows| - 1 ==> rows[1..][j] == rows[j + 1];
      UnlistedStay(Installed(y, rows[0]).value, rows[1..], s);
    }
  }
}
