/** Every step of the generator keeps the histories of the chargers, the energy
    ledgers, the rows, the campaign money and the requests in order. */
module SimulatorSafety {
  import opened Basics
  import opened SimulatorSession
  import opened SimulatorWorld
  import opened SimulatorChargers
  import opened SimulatorBooks
  import opened SimulatorRequests

  ghost predicate LayoutOk(g: Layout) {
    && (forall c: nat :: c < g.count ==> g.bay(c).station < g.stations)
    && forall user: nat :: Reserve(g.car(user).capacity) <= g.initial(user) <= g.car(user).capacity
  }

  ghost predicate ChargersOk(g: Layout, s: Sim) {
    forall c: nat :: ChargerOk(g.ticks, c, ChargerAt(s, c), SamplesAt(s, c), s.sessions, s.tickets)
  }

  /** `extra` are requests in hand between two places. */
  ghost predicate Inv(g: Layout, s: Sim, extra: multiset<Request>, now: nat) {
    && ChargersOk(g, s) && PacksOk(g, s) && RowsOk(g, s.sessions) && SpendOk(s) && StartsOk(s.closed, s.sessions)
    && RequestsOk(g, s, extra, now)
  }

  ghost predicate Calm(s: Sim, c: nat, tick: nat) {
    Settled(ChargerAt(s, c), tick, s.sessions)
  }

  /** Nothing is sampled, and what was dealt with at this tick stays so. */
  ghost predicate Quiet(s: Sim, t: Sim, tick: nat) {
    t.samples == s.samples && forall c: nat :: Calm(s, c, tick) ==> Calm(t, c, tick)
  }

  /** The charger stands at this tick, and its dues are dealt with. */
  ghost predicate Stands(s: Sim, c: nat, tick: nat) {
    |SamplesAt(s, c)| == tick && Calm(s, c, tick)
  }

  lemma QuietTwice(s: Sim, t: Sim, u: Sim, tick: nat)
    requires Quiet(s, t, tick) && Quiet(t, u, tick)
    ensures Quiet(s, u, tick)
  {
    hide Calm;
  }

  // ---- finishing and booking ----

  lemma FinishingKeepsInv(g: Layout, s: Sim, extra: multiset<Request>, r: Request, c: Option<nat>,
                          outcome: Outcome, tick: nat, now: nat)
    requires Inv(g, s, extra + multiset{r}, now) && !outcome.Began?
    ensures Inv(g, Finished(s, r, c, outcome, tick), extra, now)
    ensures Quiet(s, Finished(s, r, c, outcome, tick), now)
  {
    hide ChargerOk, PackOk, RowsOk, RequestsOk, StartsOk;
    var next := Finished(s, r, c, outcome, tick);
    FinishingKeeps(g, s, extra, r, c, outcome, tick, now);
    FinishingKeepsStarts(s.closed, s.sessions, Close(r.id, r.user, r.station, c, outcome));
    forall user: nat ensures PackOk(g, next, user) {
      assert PackOk(g, s, user);
      SamePack(g, s, next, user);
    }
    forall i: nat ensures ChargerOk(g.ticks, i, ChargerAt(next, i), SamplesAt(next, i), next.sessions, next.tickets) {
      assert ChargerOk(g.ticks, i, ChargerAt(s, i), SamplesAt(s, i), s.sessions, s.tickets);
    }
  }

  lemma FinishingKeepsStarts(closed: seq<Close>, sessions: seq<Session>, x: Close)
    requires StartsOk(closed, sessions) && !x.outcome.Began?
    ensures StartsOk(closed + [x], sessions)
  {
    hide Answers;
    var shut := closed + [x];
    forall k | 0 <= k < |shut| && shut[k].outcome.Began?
      ensures var id := shut[k].outcome.session; id < |sessions| && Answers(shut[k], sessions[id], id)
    {
      assert k < |closed| && shut[k] == closed[k];
    }
    forall i | 0 <= i < |sessions| ensures exists k :: 0 <= k < |shut| && Answers(shut[k], sessions[i], i) {
      var k :| 0 <= k < |closed| && Answers(closed[k], sessions[i], i);
      assert shut[k] == closed[k];
    }
  }

  lemma SamePack(g: Layout, s: Sim, t: Sim, user: nat)
    requires PackOk(g, s, user) && (t.packs, t.journal, t.sessions) == (s.packs, s.journal, s.sessions)
    ensures PackOk(g, t, user)
  {
    hide LedgerOk, Balance, EndOf;
  }

  lemma {:induction false} PluggingKeepsLedger(user: nat, wish: Wish, capacity: nat, initial: nat, entries: seq<Entry>,
                                               sessions: seq<Session>, row: Session)
    requires LedgerOk(user, wish, capacity, initial, entries, sessions)
    requires row.user == user && EndOf(entries) <= row.start < row.unplugged
    requires row.before == Balance(initial, entries) && row.before + row.energy <= capacity
    ensures var more := entries + [Plugged(row.start, row.unplugged, |sessions|, row.energy)];
      && LedgerOk(user, wish, capacity, initial, more, sessions + [row]) && EndOf(more) == row.unplugged
      && Balance(initial, more) == Balance(initial, entries) + row.energy
  {
    var more := entries + [Plugged(row.start, row.unplugged, |sessions|, row.energy)];
    assert more[..|entries|] == entries;
    LedgerSurvivesSessions(user, wish, capacity, initial, entries, sessions, row);
    hide Reserve;
  }

  lemma BookingKeepsPacks(g: Layout, s: Sim, r: Request, row: Session)
    requires PacksOk(g, s) && row.user == r.user && PackOf(g, s, r.user).tick <= row.start < row.unplugged
    requires row.before == PackOf(g, s, r.user).energy && row.before + row.energy <= g.car(r.user).capacity
    ensures PacksOk(g, Booked(g, s, r, row))
  {
    hide LedgerOk, Balance, EndOf;
    var next := Booked(g, s, r, row);
    forall user: nat ensures PackOk(g, next, user) {
      var entries := Get(s.journal, user, []);
      assert PackOk(g, s, user);
      assert forall i :: 0 <= i < |s.sessions| ==> next.sessions[i] == s.sessions[i];
      if user == r.user {
        PluggingKeepsLedger(user, WishOf(g, user), g.car(user).capacity, g.initial(user), entries, s.sessions, row);
      } else {
        LedgerSurvivesSessions(user, WishOf(g, user), g.car(user).capacity, g.initial(user), entries, s.sessions, row);
      }
    }
  }

  lemma BookingKeepsSpend(g: Layout, s: Sim, r: Request, row: Session)
    requires SpendOk(s) && SpendOf(s, (row.city, row.block)) + row.discount <= BUDGET
    ensures SpendOk(Booked(g, s, r, row))
  {
    var next, mine := Booked(g, s, r, row), (row.city, row.block);
    assert next.sessions[..|s.sessions|] == s.sessions;
    forall key: (nat, nat) ensures SpendOf(next, key) == SpentOn(next.sessions, key) <= BUDGET {
      assert SpendOf(s, key) == SpentOn(s.sessions, key);
      assert key != mine ==> SpendOf(next, key) == SpendOf(s, key);
    }
  }

  lemma BookingKeepsStarts(closed: seq<Close>, sessions: seq<Session>, row: Session, x: Close)
    requires StartsOk(closed, sessions) && Answers(x, row, |sessions|)
    ensures StartsOk(closed + [x], sessions + [row])
  {
    hide Answers;
    assert x.outcome == Began(|sessions|) by { AnswersNameTheirSession(x, row, |sessions|); }
    var shut, more := closed + [x], sessions + [row];
    forall k | 0 <= k < |shut| && shut[k].outcome.Began?
      ensures var id := shut[k].outcome.session; id < |more| && Answers(shut[k], more[id], id)
    {
      if k < |closed| {
        assert shut[k] == closed[k];
        assert more[closed[k].outcome.session] == sessions[closed[k].outcome.session];
      } else {
        assert shut[k] == x && more[|sessions|] == row;
      }
    }
    forall i | 0 <= i < |more| ensures exists k :: 0 <= k < |shut| && Answers(shut[k], more[i], i) {
      if i < |sessions| {
        var k :| 0 <= k < |closed| && Answers(closed[k], sessions[i], i);
        assert shut[k] == closed[k] && more[i] == sessions[i];
        assert Answers(shut[k], more[i], i);
      } else {
        assert shut[|closed|] == x && more[i] == row;
        assert Answers(shut[|closed|], more[i], i);
      }
    }
  }

  lemma AnswersNameTheirSession(x: Close, row: Session, id: nat)
    requires Answers(x, row, id)
    ensures x.outcome == Began(id)
  {
  }

  lemma BookingKeepsChargers(g: Layout, s: Sim, r: Request, row: Session)
    requires ChargersOk(g, s) && Free(s, row.charger, row.start) && |SamplesAt(s, row.charger)| == row.start
    requires row.start < row.end <= row.unplugged && |row.steps| == row.end - row.start
    ensures ChargersOk(g, Booked(g, s, r, row)) && Quiet(s, Booked(g, s, r, row), row.start)
  {
    hide ChargerOk;
    var next := Booked(g, s, r, row);
    forall c: nat ensures ChargerOk(g.ticks, c, ChargerAt(next, c), SamplesAt(next, c), next.sessions, next.tickets) {
      NewSessionKeeps(g.ticks, c, ChargerAt(s, c), SamplesAt(s, c), s.sessions, s.tickets, row);
    }
    forall c: nat | Calm(s, c, row.start) ensures Calm(next, c, row.start) {
      SessionsExist(g, s, c);
    }
  }

  lemma SessionsExist(g: Layout, s: Sim, c: nat)
    requires ChargersOk(g, s)
    ensures ChargerAt(s, c).session.Some? ==> ChargerAt(s, c).session.value < |s.sessions|
  {
    assert ChargerOk(g.ticks, c, ChargerAt(s, c), SamplesAt(s, c), s.sessions, s.tickets);
  }

  lemma StartingKeepsInv(g: Layout, s: Sim, r: Request, c: nat, tick: nat, d: SessionDraw)
    requires Inv(g, s, multiset{r}, tick) && Free(s, c, tick) && |SamplesAt(s, c)| == tick && c < g.count
    ensures Inv(g, StartSession(g, s, r, c, tick, d), multiset{}, tick)
    ensures Quiet(s, StartSession(g, s, r, c, tick, d), tick)
  {
    InHandCanStart(g, s, r, tick);
    hide Inv, Quiet, PlanFor, SessionFor, RowFits, SessionPlan;
    if Min(PlanFor(g, s, r, c, tick, d).limit, g.ticks - 12 - tick) <= 0 {
      assert multiset{} + multiset{r} == multiset{r};
      FinishingKeepsInv(g, s, multiset{}, r, Some(c), Failed, tick, tick);
    } else {
      SessionIsOk(g, s, r, c, tick, d);
      DiscountFits(g, s, r, c, tick, d);
      BookingKeepsInv(g, s, r, SessionFor(g, s, r, c, tick, d));
    }
  }

  lemma BookingKeepsInv(g: Layout, s: Sim, r: Request, row: Session)
    requires Inv(g, s, multiset{r}, row.start) && CanStart(g, s, r, row.start)
    requires Free(s, row.charger, row.start) && |SamplesAt(s, row.charger)| == row.start
    requires RowFits(g, row) && row.user == r.user && row.request == r.id
    requires row.before == PackOf(g, s, r.user).energy && row.before + row.energy <= g.car(r.user).capacity
    requires SpendOf(s, (row.city, row.block)) + row.discount <= BUDGET
    ensures Inv(g, Booked(g, s, r, row), multiset{}, row.start) && Quiet(s, Booked(g, s, r, row), row.start)
  {
    hide ChargersOk, PacksOk, SpendOk, StartsOk, RequestsOk;
    BookingKeepsChargers(g, s, r, row);
    BookingKeepsPacks(g, s, r, row);
    BookingKeepsSpend(g, s, r, row);
    BookingKeepsStarts(s.closed, s.sessions, row, Close(r.id, r.user, r.station, Some(row.charger), Began(|s.sessions|)));
    BookingKeepsRequests(g, s, r, row, row.start);
  }

  lemma InHandCanStart(g: Layout, s: Sim, r: Request, tick: nat)
    requires Inv(g, s, multiset{r}, tick)
    ensures CanStart(g, s, r, tick) && SpendOk(s)
  {
    assert multiset{} + multiset{r} == multiset{r};
    InHandWaits(g, s, multiset{}, r, tick);
  }

  lemma DiscountFits(g: Layout, s: Sim, r: Request, c: nat, tick: nat, d: SessionDraw)
    requires SpendOk(s) && CanStart(g, s, r, tick)
    ensures var row := SessionFor(g, s, r, c, tick, d); SpendOf(s, (row.city, row.block)) + row.discount <= BUDGET
  {
    var row := SessionFor(g, s, r, c, tick, d);
    assert SpendOf(s, (row.city, row.block)) <= BUDGET;
    DiscountIsSmall(SpendOf(s, (row.city, row.block)), d.coupon, row.energyFee + row.serviceFee);
  }

  // ---- the steps of a tick ----

  /** A step that only moves requests and one charger's hold. */
  lemma OnlyHoldsMove(g: Layout, s: Sim, t: Sim)
    requires PacksOk(g, s) && RowsOk(g, s.sessions) && SpendOk(s) && StartsOk(s.closed, s.sessions)
    requires (t.packs, t.journal, t.sessions, t.spend, t.closed) == (s.packs, s.journal, s.sessions, s.spend, s.closed)
    ensures PacksOk(g, t) && RowsOk(g, t.sessions) && SpendOk(t) && StartsOk(t.closed, t.sessions)
  {
    hide PackOk, RowsOk, StartsOk;
    forall user: nat ensures PackOk(g, t, user) {
      assert PackOk(g, s, user);
      SamePack(g, s, t, user);
    }
  }

  lemma UnholdingKeepsChargers(g: Layout, s: Sim, c: nat, now: nat)
    requires ChargersOk(g, s) && ChargerAt(s, c).hold.Some?
    ensures ChargersOk(g, Unheld(s, c)) && Quiet(s, Unheld(s, c), now)
    ensures |SamplesAt(s, c)| <= now ==> Free(Unheld(s, c), c, now)
  {
    var next := Unheld(s, c);
    assert ChargerOk(g.ticks, c, ChargerAt(s, c), SamplesAt(s, c), s.sessions, s.tickets);
    UnholdingKeeps(g.ticks, c, ChargerAt(s, c), SamplesAt(s, c), s.sessions, s.tickets);
    assert ChargerAt(s, c).session.None? && (|SamplesAt(s, c)| <= now ==> ChargerAt(s, c).blocked <= now);
    hide ChargerOk;
    forall i: nat ensures ChargerOk(g.ticks, i, ChargerAt(next, i), SamplesAt(next, i), next.sessions, next.tickets) {
      assert ChargerOk(g.ticks, i, ChargerAt(s, i), SamplesAt(s, i), s.sessions, s.tickets);
    }
  }

  lemma UnholdingKeepsInv(g: Layout, s: Sim, c: nat, now: nat)
    requires Inv(g, s, multiset{}, now) && c < g.count && ChargerAt(s, c).hold.Some?
    ensures Inv(g, Unheld(s, c), multiset{ChargerAt(s, c).hold.value.request}, now)
    ensures Quiet(s, Unheld(s, c), now)
    ensures |SamplesAt(s, c)| <= now ==> Free(Unheld(s, c), c, now)
  {
    hide ChargersOk, RequestsOk, PacksOk, RowsOk, SpendOk, StartsOk, Quiet, Free;
    UnholdingKeepsRequests(g, s, c, now);
    UnholdingKeepsChargers(g, s, c, now);
    OnlyHoldsMove(g, s, Unheld(s, c));
  }

  lemma HoldingKeepsChargers(g: Layout, s: Sim, c: nat, hold: Hold, now: nat)
    requires ChargersOk(g, s) && Free(s, c, now) && |SamplesAt(s, c)| == now
    requires now < hold.due && hold.due + 12 <= g.ticks
    ensures ChargersOk(g, Held(s, c, hold)) && Quiet(s, Held(s, c, hold), now)
  {
    var next := Held(s, c, hold);
    assert ChargerOk(g.ticks, c, ChargerAt(s, c), SamplesAt(s, c), s.sessions, s.tickets);
    HoldingKeeps(g.ticks, c, ChargerAt(s, c), SamplesAt(s, c), s.sessions, s.tickets, hold);
    hide ChargerOk;
    forall i: nat ensures ChargerOk(g.ticks, i, ChargerAt(next, i), SamplesAt(next, i), next.sessions, next.tickets) {
      assert ChargerOk(g.ticks, i, ChargerAt(s, i), SamplesAt(s, i), s.sessions, s.tickets);
    }
  }

  lemma HoldingKeepsInv(g: Layout, s: Sim, c: nat, hold: Hold, now: nat)
    requires Inv(g, s, multiset{hold.request}, now) && c < g.count && Free(s, c, now) && |SamplesAt(s, c)| == now
    requires now < hold.due && hold.due + 12 <= g.ticks
    ensures Inv(g, Held(s, c, hold), multiset{}, now) && Quiet(s, Held(s, c, hold), now)
  {
    hide ChargersOk, RequestsOk, PacksOk, RowsOk, SpendOk, StartsOk, Quiet;
    HoldingKeepsRequests(g, s, c, hold, now);
    HoldingKeepsChargers(g, s, c, hold, now);
    OnlyHoldsMove(g, s, Held(s, c, hold));
  }

  lemma QueueingKeepsInv(g: Layout, s: Sim, station: nat, queue: seq<Request>, extra: multiset<Request>,
                         left: multiset<Request>, now: nat)
    requires Inv(g, s, extra, now) && station < g.stations
    requires multiset(queue) + left == multiset(QueueAt(s, station)) + extra
    ensures Inv(g, Queued(s, station, queue), left, now) && Quiet(s, Queued(s, station, queue), now)
  {
    var next := Queued(s, station, queue);
    QueueingKeepsRequests(g, s, station, queue, extra, left, now);
    OnlyHoldsMove(g, s, next);
    hide ChargerOk, RequestsOk, PacksOk, RowsOk, SpendOk, StartsOk;
    forall i: nat ensures ChargerOk(g.ticks, i, ChargerAt(next, i), SamplesAt(next, i), next.sessions, next.tickets) {
      assert ChargerOk(g.ticks, i, ChargerAt(s, i), SamplesAt(s, i), s.sessions, s.tickets);
    }
  }

  lemma ChargerChangeKeepsInv(g: Layout, s: Sim, t: Sim, c: nat, now: nat)
    requires Inv(g, s, multiset{}, now)
    requires t == s.(chargers := t.chargers, tickets := t.tickets, samples := t.samples)
    requires forall i: nat :: ChargerAt(t, i).hold == ChargerAt(s, i).hold
    requires ChargersOk(g, t)
    ensures Inv(g, t, multiset{}, now)
  {
    SamePlaces(g, s, t);
    OnlyHoldsMove(g, s, t);
    hide ChargersOk, PacksOk, RowsOk, SpendOk, StartsOk, FatesOk, Open;
    PlacesSuffice(g, s, t, multiset{}, multiset{}, now);
  }

  lemma LeavingKeepsChargers(g: Layout, s: Sim, c: nat, tick: nat)
    requires ChargersOk(g, s) && |SamplesAt(s, c)| == tick
    ensures ChargersOk(g, Left(s, c, tick))
  {
    hide ChargerOk;
    var t, charger := Left(s, c, tick), ChargerAt(s, c);
    SessionsExist(g, s, c);
    forall i: nat ensures ChargerOk(g.ticks, i, ChargerAt(t, i), SamplesAt(t, i), t.sessions, t.tickets) {
      assert ChargerOk(g.ticks, i, ChargerAt(s, i), SamplesAt(s, i), s.sessions, s.tickets);
      if i == c && charger.session.Some? && tick >= s.sessions[charger.session.value].unplugged {
        LeavingKeeps(g.ticks, c, charger, SamplesAt(s, c), s.sessions, s.tickets);
      }
    }
  }

  /** A car that stays is not due yet. */
  ghost predicate Stays(s: Sim, c: nat, tick: nat) {
    ChargerAt(s, c).session.Some? ==>
      var id := ChargerAt(s, c).session.value; id < |s.sessions| && tick < s.sessions[id].unplugged
  }

  lemma LeavingIsQuiet(g: Layout, s: Sim, c: nat, tick: nat)
    requires ChargersOk(g, s)
    ensures Quiet(s, Left(s, c, tick), tick) && Stays(Left(s, c, tick), c, tick)
  {
    hide ChargersOk;
    SessionsExist(g, s, c);
    var t, charger := Left(s, c, tick), ChargerAt(s, c);
    if charger.session.Some? && charger.session.value < |s.sessions| && tick >= s.sessions[charger.session.value].unplugged {
      assert ChargerAt(t, c).session.None? && ChargerAt(t, c).hold == charger.hold;
    } else {
      assert t == s;
    }
  }

  lemma LeavingKeepsInv(g: Layout, s: Sim, c: nat, tick: nat)
    requires Inv(g, s, multiset{}, tick) && |SamplesAt(s, c)| == tick
    ensures var t := Left(s, c, tick); Inv(g, t, multiset{}, tick) && Quiet(s, t, tick) && Stays(t, c, tick)
  {
    hide ChargersOk, RequestsOk, PacksOk, RowsOk, SpendOk, StartsOk, Quiet, Stays;
    LeavingKeepsChargers(g, s, c, tick);
    LeavingIsQuiet(g, s, c, tick);
    ChargerChangeKeepsInv(g, s, Left(s, c, tick), c, tick);
  }

  lemma MaintainingKeepsChargers(g: Layout, s: Sim, c: nat, tick: nat, fault: Fault)
    requires ChargersOk(g, s) && |SamplesAt(s, c)| == tick && Free(s, c, tick)
    ensures var t := Maintained(s, c, tick, Some(fault)); ChargersOk(g, t) && Quiet(s, t, tick)
  {
    hide ChargerOk;
    var t := Maintained(s, c, tick, Some(fault));
    forall i: nat ensures ChargerOk(g.ticks, i, ChargerAt(t, i), SamplesAt(t, i), t.sessions, t.tickets) {
      assert ChargerOk(g.ticks, i, ChargerAt(s, i), SamplesAt(s, i), s.sessions, s.tickets);
      NewRepairKeeps(g.ticks, i, ChargerAt(s, i), SamplesAt(s, i), s.sessions, s.tickets,
                     Ticket(c, tick, tick + fault.downtime), fault.offline);
    }
  }

  lemma MaintainingMovesNoHold(s: Sim, c: nat, tick: nat, fault: Option<Fault>)
    requires Free(s, c, tick) && fault.Some?
    ensures var t := Maintained(s, c, tick, fault);
      && t == s.(chargers := t.chargers, tickets := t.tickets, samples := t.samples)
      && forall i: nat :: ChargerAt(t, i).hold == ChargerAt(s, i).hold
  {
  }

  lemma MaintainingKeepsInv(g: Layout, s: Sim, c: nat, tick: nat, fault: Option<Fault>)
    requires Inv(g, s, multiset{}, tick) && |SamplesAt(s, c)| == tick
    ensures var t := Maintained(s, c, tick, fault); Inv(g, t, multiset{}, tick) && Quiet(s, t, tick)
  {
    hide ChargersOk, RequestsOk, PacksOk, RowsOk, SpendOk, StartsOk, Quiet;
    if Free(s, c, tick) && fault.Some? {
      MaintainingKeepsChargers(g, s, c, tick, fault.value);
      MaintainingMovesNoHold(s, c, tick, fault);
      hide Free, Maintained;
      ChargerChangeKeepsInv(g, s, Maintained(s, c, tick, fault), c, tick);
    } else {
      NothingIsQuiet(s, tick);
    }
  }

  lemma ServicingKeepsInv(g: Layout, s: Sim, c: nat, tick: nat, draws: Draws)
    requires Inv(g, s, multiset{}, tick) && |SamplesAt(s, c)| == tick && c < g.count
    ensures var t := Serviced(g, s, c, tick, draws); Inv(g, t, multiset{}, tick) && Quiet(s, t, tick) && Calm(t, c, tick)
  {
    hide Inv, Quiet, Calm, Stays, Left, Resolved, Maintained;
    var left := Left(s, c, tick);
    LeavingKeepsInv(g, s, c, tick);
    ResolvingKeepsInv(g, left, c, tick, draws.resolve(tick, c)) by { QuietSamples(s, left, tick); }
    var resolved := Resolved(g, left, c, tick, draws.resolve(tick, c));
    MaintainingKeepsInv(g, resolved, c, tick, draws.fault(tick, c)) by {
      QuietSamples(s, left, tick);
      QuietSamples(left, resolved, tick);
    }
    var t := Maintained(resolved, c, tick, draws.fault(tick, c));
    QuietTwice(s, left, resolved, tick);
    QuietTwice(s, resolved, t, tick);
    CalmStays(resolved, t, c, tick);
  }

  lemma QuietSamples(s: Sim, t: Sim, tick: nat)
    requires Quiet(s, t, tick)
    ensures t.samples == s.samples
  {
  }

  lemma CalmStays(s: Sim, t: Sim, c: nat, tick: nat)
    requires Quiet(s, t, tick) && Calm(s, c, tick)
    ensures Calm(t, c, tick)
  {
  }

  lemma ResolvingKeepsInv(g: Layout, s: Sim, c: nat, tick: nat, d: SessionDraw)
    requires Inv(g, s, multiset{}, tick) && |SamplesAt(s, c)| == tick && c < g.count
    requires Stays(s, c, tick)
    ensures var t := Resolved(g, s, c, tick, d); Inv(g, t, multiset{}, tick) && Quiet(s, t, tick) && Calm(t, c, tick)
  {
    hide Inv, Quiet, StartSession;
    var charger, t := ChargerAt(s, c), Resolved(g, s, c, tick, d);
    if charger.hold.Some? && tick >= charger.hold.value.due {
      var hold, free := charger.hold.value, Unheld(s, c);
      UnholdingKeepsInv(g, s, c, tick);
      assert Calm(free, c, tick);
      QuietSamples(s, free, tick);
      if hold.accept {
        StartingKeepsInv(g, free, hold.request, c, tick, d);
      } else {
        assert multiset{} + multiset{hold.request} == multiset{hold.request};
        FinishingKeepsInv(g, free, multiset{}, hold.request, Some(c), if hold.queued then Abandoned else ReservationLost,
                          tick, tick);
      }
      QuietTwice(s, free, t, tick);
      CalmStays(free, t, c, tick);
    } else {
      NothingIsQuiet(s, tick);
    }
  }

  lemma NothingIsQuiet(s: Sim, tick: nat)
    ensures Quiet(s, s, tick)
  {
  }
}
