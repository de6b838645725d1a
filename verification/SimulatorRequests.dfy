/** What becomes of each charging request: it is open in exactly one place, a
    queue or a hold, or it has been finalised, once. */
module SimulatorRequests {
  import opened Basics
  import opened SimulatorSession
  import opened SimulatorWorld
  import opened SimulatorBooks

  function HeldBy(charger: Charger): multiset<Request> {
    if charger.hold.Some? then multiset{charger.hold.value.request} else multiset{}
  }

  function HeldUpTo(s: Sim, n: nat): multiset<Request> {
    if n == 0 then multiset{} else HeldUpTo(s, n - 1) + HeldBy(ChargerAt(s, n - 1))
  }

  function QueuedUpTo(s: Sim, n: nat): multiset<Request> {
    if n == 0 then multiset{} else QueuedUpTo(s, n - 1) + multiset(QueueAt(s, n - 1))
  }

  /** The requests that are still open, with multiplicity. */
  function Open(g: Layout, s: Sim): multiset<Request> {
    HeldUpTo(s, g.count) + QueuedUpTo(s, g.stations)
  }

  function Closings(closed: seq<Close>, id: nat): nat {
    if closed == [] then 0
    else Closings(closed[..|closed| - 1], id) + if closed[|closed| - 1].request == id then 1 else 0
  }

  /** Every request made is open or finalised, never both, and finalised at most
      once; no user has two open requests. */
  ghost predicate FatesOk(open: multiset<Request>, made: nat, closed: seq<Close>) {
    && (forall r :: r in open ==> open[r] == 1 && r.id < made)
    && (forall r, q :: r in open && q in open && (r.id == q.id || r.user == q.user) ==> r == q)
    && forall id: nat :: Closings(closed, id) == if id < made && !(exists r :: r in open && r.id == id) then 1 else 0
  }

  /** An open request's user is locked for good, and the car waits as it came. */
  ghost predicate WaitsOk(g: Layout, s: Sim, open: multiset<Request>, now: nat) {
    forall r :: r in open ==> LockOf(s, r.user) == g.ticks + 1 && r.tick <= now && CanStart(g, s, r, r.tick)
  }

  /** A battery runs ahead of the clock only while its car is at a charger, and its user locked. */
  ghost predicate LocksCover(g: Layout, s: Sim, now: nat) {
    forall user: nat :: PackOf(g, s, user).tick <= Max(now, LockOf(s, user))
  }

  /** `extra` are requests in hand: out of their queue or hold, not yet finalised. */
  ghost predicate RequestsOk(g: Layout, s: Sim, extra: multiset<Request>, now: nat) {
    && FatesOk(Open(g, s) + extra, s.made, s.closed)
    && WaitsOk(g, s, Open(g, s) + extra, now)
    && LocksCover(g, s, now)
    && !s.raised
  }

  /** The final row of a request that got this session. */
  predicate Answers(x: Close, row: Session, id: nat) {
    x.outcome == Began(id) && x.request == row.request && x.user == row.user && x.charger == Some(row.charger)
  }

  /** Sessions and the finalisations that name them agree. */
  ghost predicate StartsOk(closed: seq<Close>, sessions: seq<Session>) {
    && (forall k :: 0 <= k < |closed| && closed[k].outcome.Began? ==>
         var id := closed[k].outcome.session; id < |sessions| && Answers(closed[k], sessions[id], id))
    && (forall i :: 0 <= i < |sessions| ==> exists k :: 0 <= k < |closed| && Answers(closed[k], sessions[i], i))
  }

  lemma Swap(a: multiset<Request>, b: multiset<Request>, x: multiset<Request>, y: multiset<Request>, rest: multiset<Request>)
    requires a + x == b + y
    ensures (a + rest) + x == (b + rest) + y
    ensures (rest + a) + x == (rest + b) + y
  {
    forall r
      ensures ((a + rest) + x)[r] == ((b + rest) + y)[r]
      ensures ((rest + a) + x)[r] == ((rest + b) + y)[r]
    {
      assert (a + x)[r] == (b + y)[r];
    }
  }

  lemma {:induction false} HoldsMove(s: Sim, t: Sim, n: nat, c: nat)
    requires forall i: nat :: i != c ==> ChargerAt(t, i).hold == ChargerAt(s, i).hold
    ensures c < n ==> HeldUpTo(t, n) + HeldBy(ChargerAt(s, c)) == HeldUpTo(s, n) + HeldBy(ChargerAt(t, c))
    ensures c >= n ==> HeldUpTo(t, n) == HeldUpTo(s, n)
  {
    hide HeldBy, ChargerAt;
    if n > 0 {
      HoldsMove(s, t, n - 1, c);
      var last, same := ChargerAt(s, n - 1), ChargerAt(t, n - 1);
      SameHold(last, same);
      if c < n - 1 {
        Swap(HeldUpTo(t, n - 1), HeldUpTo(s, n - 1), HeldBy(ChargerAt(s, c)), HeldBy(ChargerAt(t, c)), HeldBy(same));
      }
    }
  }

  lemma SameHold(a: Charger, b: Charger)
    ensures a.hold == b.hold ==> HeldBy(a) == HeldBy(b)
  {
  }

  lemma {:induction false} QueuesMove(s: Sim, t: Sim, n: nat, station: nat)
    requires forall i: nat :: i != station ==> QueueAt(t, i) == QueueAt(s, i)
    ensures station < n ==>
      QueuedUpTo(t, n) + multiset(QueueAt(s, station)) == QueuedUpTo(s, n) + multiset(QueueAt(t, station))
    ensures station >= n ==> QueuedUpTo(t, n) == QueuedUpTo(s, n)
  {
    hide QueueAt;
    if n > 0 {
      QueuesMove(s, t, n - 1, station);
      var same := multiset(QueueAt(t, n - 1));
      if station < n - 1 {
        Swap(QueuedUpTo(t, n - 1), QueuedUpTo(s, n - 1), multiset(QueueAt(s, station)), multiset(QueueAt(t, station)), same);
      }
    }
  }

  lemma HoldChanges(g: Layout, s: Sim, t: Sim, c: nat)
    requires c < g.count && t.waiting == s.waiting
    requires forall i: nat :: i != c ==> ChargerAt(t, i).hold == ChargerAt(s, i).hold
    ensures Open(g, t) + HeldBy(ChargerAt(s, c)) == Open(g, s) + HeldBy(ChargerAt(t, c))
  {
    HoldsMove(s, t, g.count, c);
    QueuesMove(s, t, g.stations, g.stations);
    Swap(HeldUpTo(t, g.count), HeldUpTo(s, g.count), HeldBy(ChargerAt(s, c)), HeldBy(ChargerAt(t, c)),
         QueuedUpTo(s, g.stations));
  }

  lemma QueueChanges(g: Layout, s: Sim, t: Sim, station: nat)
    requires station < g.stations && t.chargers == s.chargers
    requires forall i: nat :: i != station ==> QueueAt(t, i) == QueueAt(s, i)
    ensures Open(g, t) + multiset(QueueAt(s, station)) == Open(g, s) + multiset(QueueAt(t, station))
  {
    HoldsMove(s, t, g.count, g.count);
    QueuesMove(s, t, g.stations, station);
    Swap(QueuedUpTo(t, g.stations), QueuedUpTo(s, g.stations), multiset(QueueAt(s, station)),
         multiset(QueueAt(t, station)), HeldUpTo(s, g.count));
  }

  lemma SamePlaces(g: Layout, s: Sim, t: Sim)
    requires forall c: nat :: ChargerAt(t, c).hold == ChargerAt(s, c).hold
    requires t.waiting == s.waiting
    ensures Open(g, t) == Open(g, s)
  {
    HoldsMove(s, t, g.count, g.count);
    QueuesMove(s, t, g.stations, g.stations);
  }

  lemma OpeningKeepsFates(open: multiset<Request>, made: nat, closed: seq<Close>, r: Request)
    requires FatesOk(open, made, closed) && r.id == made
    requires forall q :: q in open ==> q.user != r.user
    ensures FatesOk(open + multiset{r}, made + 1, closed)
  {
    var more := open + multiset{r};
    assert forall q :: q in more <==> q in open || q == r;
    forall id: nat
      ensures Closings(closed, id) == if id < made + 1 && !(exists q :: q in more && q.id == id) then 1 else 0
    {
      assert r in more;
      assert forall q :: q in open ==> q in more;
    }
  }

  lemma ClosingKeepsFates(open: multiset<Request>, made: nat, closed: seq<Close>, r: Request, x: Close)
    requires FatesOk(open + multiset{r}, made, closed) && x.request == r.id
    ensures FatesOk(open, made, closed + [x])
  {
    var more := open + multiset{r};
    assert r in more && more[r] == 1;
    assert forall q :: q in more <==> q in open || q == r;
    assert (closed + [x])[..|closed|] == closed;
    forall id: nat
      ensures Closings(closed + [x], id)
           == if id < made && !(exists q :: q in open && q.id == id) then 1 else 0
    {
      assert id != r.id ==> ((exists q :: q in more && q.id == id) <==> exists q :: q in open && q.id == id);
    }
  }

  /** A step that touches one user's lock and pack leaves the others waiting. */
  lemma WaitsSurvive(g: Layout, s: Sim, t: Sim, open: multiset<Request>, user: nat, now: nat)
    requires WaitsOk(g, s, open, now) && forall q :: q in open ==> q.user != user
    requires forall other: nat :: other != user ==>
      LockOf(t, other) == LockOf(s, other) && PackOf(g, t, other) == PackOf(g, s, other)
    ensures WaitsOk(g, t, open, now)
  {
    hide LockOf, PackOf;
    forall q | q in open ensures LockOf(t, q.user) == g.ticks + 1 && q.tick <= now && CanStart(g, t, q, q.tick) {
      assert CanStart(g, s, q, q.tick);
    }
  }

  lemma CoverSurvives(g: Layout, s: Sim, t: Sim, user: nat, now: nat)
    requires LocksCover(g, s, now) && PackOf(g, t, user).tick <= Max(now, LockOf(t, user))
    requires forall other: nat :: other != user ==>
      LockOf(t, other) == LockOf(s, other) && PackOf(g, t, other) == PackOf(g, s, other)
    ensures LocksCover(g, t, now)
  {
    hide LockOf, PackOf;
    forall other: nat ensures PackOf(g, t, other).tick <= Max(now, LockOf(t, other)) {
      assert PackOf(g, s, other).tick <= Max(now, LockOf(s, other));
    }
  }

  lemma InHandWaits(g: Layout, s: Sim, extra: multiset<Request>, r: Request, now: nat)
    requires RequestsOk(g, s, extra + multiset{r}, now)
    ensures PackOf(g, s, r.user).tick <= now && CanStart(g, s, r, now)
  {
    hide PackOf, LockOf, LocksCover, FatesOk, Open;
    assert r in Open(g, s) + (extra + multiset{r});
  }

  lemma FewerWait(g: Layout, s: Sim, few: multiset<Request>, r: Request, now: nat)
    requires WaitsOk(g, s, few + multiset{r}, now)
    ensures WaitsOk(g, s, few, now)
  {
    hide LockOf, CanStart;
    assert forall q :: q in few ==> q in few + multiset{r};
  }

  lemma FinishingKeeps(g: Layout, s: Sim, extra: multiset<Request>, r: Request, c: Option<nat>,
                       outcome: Outcome, tick: nat, now: nat)
    requires RequestsOk(g, s, extra + multiset{r}, now) && !outcome.Began?
    ensures RequestsOk(g, Finished(s, r, c, outcome, tick), extra, now)
  {
    var next, open := Finished(s, r, c, outcome, tick), Open(g, s) + extra;
    SamePlaces(g, s, next);
    InHandWaits(g, s, extra, r, now);
    CoverSurvives(g, s, next, r.user, now);
    hide Open, FatesOk, WaitsOk, LocksCover;
    assert Open(g, s) + (extra + multiset{r}) == open + multiset{r};
    ClosingKeepsFates(open, s.made, s.closed, r, Close(r.id, r.user, r.station, c, outcome));
    OthersWait(open, s.made, s.closed, r);
    FewerWait(g, s, open, r, now);
    WaitsSurvive(g, s, next, open, r.user, now);
  }

  lemma OthersWait(open: multiset<Request>, made: nat, closed: seq<Close>, r: Request)
    requires FatesOk(open + multiset{r}, made, closed)
    ensures forall q :: q in open ==> q.user != r.user
  {
    var more := open + multiset{r};
    assert more[r] == 1;
    assert forall q :: q in open ==> q in more;
  }

  lemma BookingTouchesOne(g: Layout, s: Sim, r: Request, row: Session)
    ensures var t := Booked(g, s, r, row);
      && (t.made, t.raised, t.waiting) == (s.made, s.raised, s.waiting)
      && t.closed == s.closed + [Close(r.id, r.user, r.station, Some(row.charger), Began(|s.sessions|))]
      && PackOf(g, t, r.user).tick <= LockOf(t, r.user)
      && (forall user: nat :: user != r.user ==> LockOf(t, user) == LockOf(s, user) && PackOf(g, t, user) == PackOf(g, s, user))
      && forall c: nat :: ChargerAt(t, c).hold == ChargerAt(s, c).hold
  {
    hide RevisitAfter, SpendOf;
  }

  /** A session ends its request; other cars and locks are not touched. */
  lemma BookingKeepsRequests(g: Layout, s: Sim, r: Request, row: Session, now: nat)
    requires RequestsOk(g, s, multiset{r}, now)
    ensures RequestsOk(g, Booked(g, s, r, row), multiset{}, now)
  {
    hide Booked, PackOf, LockOf, Open, FatesOk, WaitsOk, LocksCover;
    var next, open := Booked(g, s, r, row), Open(g, s);
    BookingTouchesOne(g, s, r, row);
    SamePlaces(g, s, next);
    CoverSurvives(g, s, next, r.user, now);
    ClosingKeepsFates(open, s.made, s.closed, r, Close(r.id, r.user, r.station, Some(row.charger), Began(|s.sessions|)));
    OthersWait(open, s.made, s.closed, r);
    FewerWait(g, s, open, r, now);
    WaitsSurvive(g, s, next, open, r.user, now);
    assert open + multiset{} == open;
  }

  lemma UnholdingKeepsRequests(g: Layout, s: Sim, c: nat, now: nat)
    requires RequestsOk(g, s, multiset{}, now) && c < g.count && ChargerAt(s, c).hold.Some?
    ensures RequestsOk(g, Unheld(s, c), multiset{ChargerAt(s, c).hold.value.request}, now)
  {
    var next, r := Unheld(s, c), ChargerAt(s, c).hold.value.request;
    HoldChanges(g, s, next, c);
    assert HeldBy(ChargerAt(next, c)) == multiset{} && HeldBy(ChargerAt(s, c)) == multiset{r};
    hide FatesOk, Open;
    PlacesSuffice(g, s, next, multiset{}, multiset{r}, now);
  }

  lemma HoldingKeepsRequests(g: Layout, s: Sim, c: nat, hold: Hold, now: nat)
    requires RequestsOk(g, s, multiset{hold.request}, now) && c < g.count && ChargerAt(s, c).hold.None?
    ensures RequestsOk(g, Held(s, c, hold), multiset{}, now)
  {
    var next := Held(s, c, hold);
    HoldChanges(g, s, next, c);
    assert HeldBy(ChargerAt(s, c)) == multiset{} && HeldBy(ChargerAt(next, c)) == multiset{hold.request};
    hide FatesOk, Open;
    PlacesSuffice(g, s, next, multiset{hold.request}, multiset{}, now);
  }

  /** Only where requests are changes. */
  lemma PlacesSuffice(g: Layout, s: Sim, t: Sim, extra: multiset<Request>, left: multiset<Request>, now: nat)
    requires RequestsOk(g, s, extra, now) && Open(g, t) + left == Open(g, s) + extra
    requires (t.made, t.closed, t.locks, t.packs, t.raised) == (s.made, s.closed, s.locks, s.packs, s.raised)
    ensures RequestsOk(g, t, left, now)
  {
    hide FatesOk, Open;
    assert LocksCover(g, t, now) by {
      forall user: nat ensures PackOf(g, t, user).tick <= Max(now, LockOf(t, user)) {
        assert PackOf(g, s, user).tick <= Max(now, LockOf(s, user));
      }
    }
    forall r | r in Open(g, t) + left ensures LockOf(t, r.user) == g.ticks + 1 && r.tick <= now && CanStart(g, t, r, r.tick) {
      assert CanStart(g, s, r, r.tick);
    }
  }

  /** A queue changes; what left it is in hand, what joined it no longer is. */
  lemma QueueingKeepsRequests(g: Layout, s: Sim, station: nat, queue: seq<Request>, extra: multiset<Request>,
                              left: multiset<Request>, now: nat)
    requires RequestsOk(g, s, extra, now) && station < g.stations
    requires multiset(queue) + left == multiset(QueueAt(s, station)) + extra
    ensures RequestsOk(g, Queued(s, station, queue), left, now)
  {
    var next, was := Queued(s, station, queue), multiset(QueueAt(s, station));
    QueueChanges(g, s, next, station);
    hide FatesOk, Open;
    Swap(Open(g, next), Open(g, s), was, multiset(queue), left);
    assert (Open(g, s) + left) + multiset(queue) == (Open(g, s) + extra) + was by {
      assert left + multiset(queue) == multiset(queue) + left && extra + was == was + extra;
      Swap(left, extra, multiset(queue), was, Open(g, s));
    }
    SameSum(Open(g, next) + left, Open(g, s) + extra, was);
    PlacesSuffice(g, s, next, extra, left, now);
  }

  lemma SameSum(a: multiset<Request>, b: multiset<Request>, c: multiset<Request>)
    requires a + c == b + c
    ensures a == b
  {
    forall r ensures a[r] == b[r] {
      assert (a + c)[r] == (b + c)[r];
    }
  }

  lemma UnlockedUsersAreIdle(g: Layout, s: Sim, open: multiset<Request>, user: nat, now: nat)
    requires WaitsOk(g, s, open, now) && LockOf(s, user) <= now <= g.ticks
    ensures forall q :: q in open ==> q.user != user
  {
    hide CanStart;
  }

  lemma OneMoreWaits(g: Layout, s: Sim, open: multiset<Request>, r: Request, now: nat)
    requires WaitsOk(g, s, open, now) && LockOf(s, r.user) == g.ticks + 1 && r.tick <= now && CanStart(g, s, r, r.tick)
    ensures WaitsOk(g, s, open + multiset{r}, now)
  {
    hide LockOf, CanStart;
    assert forall q :: q in open + multiset{r} ==> q in open || q == r;
  }

  lemma OpeningLocksOne(g: Layout, s: Sim, r: Request)
    ensures var t := Opened(g, s, r);
      && LockOf(t, r.user) == g.ticks + 1
      && (forall user: nat :: PackOf(g, t, user) == PackOf(g, s, user))
      && (forall user: nat :: user != r.user ==> LockOf(t, user) == LockOf(s, user))
      && (t.made, t.closed, t.raised) == (s.made + 1, s.closed, s.raised)
  {
  }

  lemma OpeningKeeps(g: Layout, s: Sim, r: Request, now: nat)
    requires RequestsOk(g, s, multiset{}, now)
    requires r.id == s.made && LockOf(s, r.user) <= now <= g.ticks && r.tick == now && CanStart(g, s, r, now)
    ensures RequestsOk(g, Opened(g, s, r), multiset{r}, now)
  {
    var next, open := Opened(g, s, r), Open(g, s);
    SamePlaces(g, s, next);
    OpeningLocksOne(g, s, r);
    hide Open, FatesOk, WaitsOk, LocksCover, LockOf, PackOf, Opened;
    CoverSurvives(g, s, next, r.user, now);
    assert open + multiset{} == open;
    UnlockedUsersAreIdle(g, s, open, r.user, now);
    OpeningKeepsFates(open, s.made, s.closed, r);
    WaitsSurvive(g, s, next, open, r.user, now);
    OneMoreWaits(g, next, open, r, now);
  }

  /** Only unlocked vehicles are looked at, and they have no open request. */
  lemma RefreshingKeepsRequests(g: Layout, s: Sim, user: nat, now: nat)
    requires RequestsOk(g, s, multiset{}, now) && LockOf(s, user) <= now <= g.ticks
    ensures var t := Refreshed(g, s, user, now);
      RequestsOk(g, t, multiset{}, now) && PackOf(g, t, user).tick <= now && LockOf(t, user) <= now
  {
    var next, open := Refreshed(g, s, user, now), Open(g, s) + multiset{};
    SamePlaces(g, s, next);
    assert PackOf(g, s, user).tick <= Max(now, LockOf(s, user));
    CoverSurvives(g, s, next, user, now);
    hide Open, FatesOk, WaitsOk, Roaming, LocksCover;
    UnlockedUsersAreIdle(g, s, open, user, now);
    WaitsSurvive(g, s, next, open, user, now);
  }
}
