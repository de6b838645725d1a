/** The request tracker of the desktop client: what becomes of each request
    under any interleaving of sends, link changes, payloads, timeouts and
    deferred failures.

    A request's identifier is the number of requests issued before it. Payloads
    arrive already decoded. Every handler is one step, or several where it
    emits a signal in its middle, so that whatever a directly connected slot
    does in between is another step of the same run. */
module ClientRequests {

  type Id = nat
  type Kind = string

  datatype Link = Unconnected | Connecting | Connected | Closing
  datatype Cause = Encoding | TimedOut | Connection | Protocol
  datatype Pending = Pending(kind: Kind, sent: bool)
  datatype Failure = Failure(id: Id, cause: Cause)
  datatype Signal = StateChanged(connected: bool) | Answered(id: Id, kind: Kind) | Failed(failure: Failure) | Event
  datatype Payload = Unreadable | BadEvent | GoodEvent | Response(id: Id, kind: Kind)

  /** `scheduled` are the failures to be signalled on a later turn of the event
      loop; `wire` are the frames handed to the socket. */
  datatype Client = Client(
    issued: seq<Kind>, pending: map<Id, Pending>, unsent: seq<Id>, link: Link,
    scheduled: multiset<Failure>, signals: seq<Signal>, wire: seq<Id>)

  const NEW := Client([], map[], [], Unconnected, multiset{}, [], [])

  // ---- the steps ----

  /** `removeOne`: the first occurrence goes. */
  function Without(queue: seq<Id>, id: Id): seq<Id> {
    if queue == [] then []
    else if queue[0] == id then queue[1..]
    else [queue[0]] + Without(queue[1..], id)
  }

  function Dropped(c: Client, id: Id, cause: Cause): Client {
    if id !in c.pending then c
    else c.(pending := c.pending - {id},
            unsent := if c.pending[id].sent then c.unsent else Without(c.unsent, id),
            scheduled := c.scheduled + multiset{Failure(id, cause)})
  }

  function Failures(ids: set<Id>, cause: Cause): multiset<Failure> {
    multiset(set id | id in ids :: Failure(id, cause))
  }

  lemma OneMoreFailure(ids: set<Id>, id: Id, cause: Cause)
    requires id !in ids
    ensures Failures(ids + {id}, cause) == Failures(ids, cause) + multiset{Failure(id, cause)}
  {
    var few := set i | i in ids :: Failure(i, cause);
    assert (set i | i in ids + {id} :: Failure(i, cause)) == few + {Failure(id, cause)};
  }

  function AllDropped(c: Client, cause: Cause): Client {
    c.(pending := map[], unsent := [],
       scheduled := c.scheduled + Failures(c.pending.Keys, cause))
  }

  function Noted(c: Client, signal: Signal): Client {
    c.(signals := c.signals + [signal])
  }

  /** The link is gone; requests of the old connection fail before observers hear of it. */
  function Lost(c: Client): Client {
    Noted(if c.pending != map[] then AllDropped(c, Connection) else c, StateChanged(false))
  }

  function Aborted(c: Client): Client {
    var gone := c.(link := Unconnected);
    if c.link.Connected? || c.link.Closing? then Lost(gone) else gone
  }

  function Written(c: Client): Client
    requires c.unsent != [] && c.unsent[0] in c.pending
  {
    var id := c.unsent[0];
    c.(unsent := c.unsent[1..], pending := c.pending[id := c.pending[id].(sent := true)], wire := c.wire + [id])
  }

  /** Queued frames are written in order; the socket takes the first `accepts` of
      them whole and falls short of the next. */
  function Flushed(c: Client, accepts: nat): Client
    decreases |c.unsent|
  {
    if !c.link.Connected? || c.unsent == [] then c
    else
      var id := c.unsent[0];
      if id !in c.pending || c.pending[id].sent then Flushed(c.(unsent := c.unsent[1..]), accepts)
      else
        var written := Written(c);
        if accepts == 0 then Aborted(AllDropped(written, Connection)) else Flushed(written, accepts - 1)
  }

  function Issued(c: Client, kind: Kind, link: Link): Client {
    var id := |c.issued|;
    c.(issued := c.issued + [kind], pending := c.pending[id := Pending(kind, false)],
       unsent := c.unsent + [id], link := link)
  }

  function Unencoded(c: Client, kind: Kind): Client {
    c.(issued := c.issued + [kind], scheduled := c.scheduled + multiset{Failure(|c.issued|, Encoding)})
  }

  function Sent(c: Client, kind: Kind, encodes: bool, accepts: nat): Client {
    if !encodes then Unencoded(c, kind)
    else if c.link.Connected? then Flushed(Issued(c, kind, Connected), accepts)
    else Issued(c, kind, if c.link.Unconnected? then Connecting else c.link)
  }

  function Closed(c: Client, cause: Cause): Client {
    Aborted(AllDropped(c, cause))
  }

  function Received(c: Client, payload: Payload): Client {
    match payload
    case GoodEvent => Noted(c, Event)
    case Unreadable | BadEvent => Closed(c, Protocol)
    case Response(id, kind) =>
      if id !in c.pending then c
      else if c.pending[id].kind != kind then Closed(c, Protocol)
      else Noted(c.(pending := c.pending - {id}), Answered(id, kind))
  }

  /** The connection is given up; payloads behind this one are not looked at. */
  predicate Fatal(c: Client, payload: Payload) {
    payload.Unreadable? || payload.BadEvent?
    || (payload.Response? && payload.id in c.pending && c.pending[payload.id].kind != payload.kind)
  }

  function ReceivedAll(c: Client, payloads: seq<Payload>): Client
    decreases payloads
  {
    if payloads == [] then c
    else if Fatal(c, payloads[0]) then Received(c, payloads[0])
    else ReceivedAll(Received(c, payloads[0]), payloads[1..])
  }

  datatype Step =
    | Send(kind: Kind, encodes: bool, accepts: nat) | Disconnect
    | Established | Flush(accepts: nat) | LinkClosing | LinkLost | SocketError
    | FrameError | Read(payload: Payload)
    | Timeout(id: Id) | Fire(failure: Failure)

  function Next(c: Client, step: Step): Client {
    match step
    case Send(kind, encodes, accepts) => Sent(c, kind, encodes, accepts)
    case Disconnect => Closed(c, Connection)
    case Established => if c.link.Connecting? then Noted(c.(link := Connected), StateChanged(true)) else c
    case Flush(accepts) => Flushed(c, accepts)
    case LinkClosing => if c.link.Connected? then c.(link := Closing) else c
    case LinkLost => if c.link.Connected? || c.link.Closing? then Lost(c.(link := Unconnected)) else c
    case SocketError =>
      var failed := if c.link.Connecting? then c.(link := Unconnected) else c;
      if c.pending != map[] then AllDropped(failed, Connection) else failed
    case FrameError => Closed(c, Protocol)
    case Read(payload) => Received(c, payload)
    case Timeout(id) => Dropped(c, id, TimedOut)
    case Fire(failure) =>
      if failure in c.scheduled
      then Noted(c.(scheduled := c.scheduled - multiset{failure}), Failed(failure)) else c
  }

  function Run(steps: seq<Step>): Client {
    if steps == [] then NEW else Next(Run(steps[..|steps| - 1]), steps[|steps| - 1])
  }

  /** `failAllRequests` between two of its requests. */
  function PartlyDropped(c: Client, done: set<Id>, cause: Cause): Client {
    c.(pending := c.pending - done, unsent := [], scheduled := c.scheduled + Failures(done, cause))
  }

  lemma DroppedNone(c: Client, cause: Cause)
    ensures PartlyDropped(c, {}, cause) == c.(unsent := [])
  {
    assert Failures({}, cause) == multiset{};
  }

  lemma DroppedEverything(c: Client, cause: Cause)
    ensures PartlyDropped(c, c.pending.Keys, cause) == AllDropped(c, cause)
  {
    assert c.pending - c.pending.Keys == map[];
  }

  lemma DroppedOneMore(c: Client, done: set<Id>, id: Id, cause: Cause)
    requires id in c.pending && id !in done
    ensures Dropped(PartlyDropped(c, done, cause), id, cause) == PartlyDropped(c, done + {id}, cause)
  {
    OneMoreFailure(done, id, cause);
    assert Without([], id) == [];
    assert (c.pending - done) - {id} == c.pending - (done + {id});
    hide Failures;
  }

  // ---- the program ----

  class ClientConnection {
    var issued: seq<Kind>
    var pending: map<Id, Pending>
    var unsent: seq<Id>
    var link: Link
    var scheduled: multiset<Failure>
    var signals: seq<Signal>
    var wire: seq<Id>

    function View(): Client
      reads this
    {
      Client(issued, pending, unsent, link, scheduled, signals, wire)
    }

    constructor ()
      ensures View() == NEW
    {
      issued, pending, unsent, link := [], map[], [], Unconnected;
      scheduled, signals, wire := multiset{}, [], [];
    }

    method FailRequest(id: Id, cause: Cause)
      modifies this
      ensures View() == Dropped(old(View()), id, cause)
    {
      if id !in pending {
        return;
      }
      if !pending[id].sent {
        unsent := Without(unsent, id);
      }
      pending := pending - {id};
      scheduled := scheduled + multiset{Failure(id, cause)};
    }

    method FailAllRequests(cause: Cause)
      modifies this
      ensures View() == AllDropped(old(View()), cause)
    {
      ghost var before, done := View(), {};
      var ids := pending.Keys;
      DroppedNone(before, cause);
      DroppedEverything(before, cause);
      hide Dropped, PartlyDropped, AllDropped;
      unsent := [];
      while ids != {}
        invariant ids == before.pending.Keys - done && done <= before.pending.Keys
        invariant View() == PartlyDropped(before, done, cause)
        decreases |ids|
      {
        var id :| id in ids;
        DroppedOneMore(before, done, id, cause);
        FailRequest(id, cause);
        ids, done := ids - {id}, done + {id};
      }
      assert done == before.pending.Keys;
    }

    method HandleDisconnected()
      modifies this
      ensures View() == Lost(old(View()))
    {
      if pending != map[] {
        FailAllRequests(Connection);
      }
      signals := signals + [StateChanged(false)];
    }

    /** The socket reports the loss of a link that was up before it returns. */
    method Abort()
      modifies this
      ensures View() == Aborted(old(View()))
    {
      var up := link.Connected? || link.Closing?;
      link := Unconnected;
      if up {
        HandleDisconnected();
      }
    }

    method DisconnectFromServer()
      modifies this
      ensures View() == Next(old(View()), Disconnect)
    {
      FailAllRequests(Connection);
      Abort();
    }

    method CloseForProtocolError()
      modifies this
      ensures View() == Closed(old(View()), Protocol)
    {
      FailAllRequests(Protocol);
      Abort();
    }

    method SendPendingRequests(accepts: nat)
      modifies this
      ensures View() == Next(old(View()), Flush(accepts))
    {
      if !link.Connected? {
        return;
      }
      var left := accepts;
      while unsent != []
        invariant link.Connected?
        invariant Flushed(View(), left) == Flushed(old(View()), accepts)
        decreases |unsent|
      {
        var id := unsent[0];
        if id !in pending || pending[id].sent {
          unsent := unsent[1..];
          continue;
        }
        unsent, pending, wire := unsent[1..], pending[id := pending[id].(sent := true)], wire + [id];
        if left == 0 {
          FailAllRequests(Connection);
          Abort();
          return;
        }
        left := left - 1;
      }
    }

    method SendRequest(kind: Kind, encodes: bool, accepts: nat) returns (id: Id)
      modifies this
      ensures id == |old(issued)|
      ensures View() == Next(old(View()), Send(kind, encodes, accepts))
    {
      id := |issued|;
      issued := issued + [kind];
      if !encodes {
        scheduled := scheduled + multiset{Failure(id, Encoding)};
        return;
      }
      pending := pending[id := Pending(kind, false)];
      unsent := unsent + [id];
      if link.Connected? {
        SendPendingRequests(accepts);
      } else if link.Unconnected? {
        link := Connecting;
      }
    }

    method HandleReadyRead(framed: bool, payloads: seq<Payload>)
      modifies this
      ensures View() == if framed then ReceivedAll(old(View()), payloads) else Next(old(View()), FrameError)
    {
      if !framed {
        CloseForProtocolError();
        return;
      }
      for n := 0 to |payloads|
        invariant ReceivedAll(View(), payloads[n..]) == ReceivedAll(old(View()), payloads)
      {
        assert payloads[n..][1..] == payloads[n + 1..];
        match payloads[n]
        case GoodEvent =>
          signals := signals + [Event];
        case Unreadable | BadEvent =>
          CloseForProtocolError();
          return;
        case Response(id, kind) =>
          if id in pending {
            if pending[id].kind != kind {
              CloseForProtocolError();
              return;
            }
            pending := pending - {id};
            signals := signals + [Answered(id, kind)];
          }
      }
    }

    method HandleSocketError()
      modifies this
      ensures View() == Next(old(View()), SocketError)
    {
      if link.Connecting? {
        link := Unconnected;
      }
      if pending != map[] {
        FailAllRequests(Connection);
      }
    }
  }

  // ---- the invariant ----

  function Waiting(c: Client, id: Id): nat {
    if id in c.pending then 1 else 0
  }

  function Scheduled(scheduled: multiset<Failure>, id: Id): nat {
    scheduled[Failure(id, Encoding)] + scheduled[Failure(id, TimedOut)]
    + scheduled[Failure(id, Connection)] + scheduled[Failure(id, Protocol)]
  }

  predicate Ends(signal: Signal, id: Id) {
    match signal
    case Answered(i, _) => i == id
    case Failed(failure) => failure.id == id
    case _ => false
  }

  /** Terminal signals of the request so far. */
  function Ended(signals: seq<Signal>, id: Id): nat {
    if signals == [] then 0
    else Ended(signals[..|signals| - 1], id) + if Ends(signals[|signals| - 1], id) then 1 else 0
  }

  function Fates(c: Client, id: Id): nat {
    Waiting(c, id) + Scheduled(c.scheduled, id) + Ended(c.signals, id)
  }

  /** Every issued request has one fate: waiting, about to fail, failed or answered. */
  ghost predicate OneFate(c: Client) {
    forall id: Id :: Fates(c, id) == if id < |c.issued| then 1 else 0
  }

  predicate Increasing(s: seq<Id>) {
    forall i, j :: 0 <= i < j < |s| ==> s[i] < s[j]
  }

  ghost predicate QueueOk(c: Client) {
    && Increasing(c.unsent) && Increasing(c.wire)
    && (forall i, j :: 0 <= i < |c.wire| && 0 <= j < |c.unsent| ==> c.wire[i] < c.unsent[j])
    && (forall id :: id in c.unsent || id in c.wire ==> id < |c.issued|)
    && (forall id :: id in c.pending ==> id < |c.issued| && (id in c.unsent <==> !c.pending[id].sent))
    && (forall id :: id in c.pending && c.pending[id].sent ==> id in c.wire)
  }

  ghost predicate KindsMatch(c: Client) {
    && (forall id :: id in c.pending ==> id < |c.issued| && c.pending[id].kind == c.issued[id])
    && forall k :: 0 <= k < |c.signals| && c.signals[k].Answered? ==>
         var id := c.signals[k].id; id < |c.issued| && c.signals[k].kind == c.issued[id]
  }

  ghost predicate Ok(c: Client) {
    OneFate(c) && QueueOk(c) && KindsMatch(c) && (c.link.Unconnected? ==> c.pending == map[])
  }

  lemma HeadIsGone(queue: seq<Id>)
    requires queue != [] && Increasing(queue)
    ensures forall i :: i in queue[1..] <==> i in queue && i != queue[0]
    ensures forall i :: i in queue[1..] ==> queue[0] < i
    ensures Increasing(queue[1..])
  {
    assert queue == [queue[0]] + queue[1..];
    forall i | i in queue[1..] ensures queue[0] < i {
      var k :| 0 <= k < |queue[1..]| && queue[1..][k] == i;
      assert queue[k + 1] == i;
    }
  }

  lemma {:induction false} WithoutTakesOnly(queue: seq<Id>, id: Id)
    ensures forall i :: i in Without(queue, id) ==> i in queue
    ensures forall i :: i in queue && i != id ==> i in Without(queue, id)
  {
    if queue != [] {
      WithoutTakesOnly(queue[1..], id);
      assert queue == [queue[0]] + queue[1..];
    }
  }

  lemma {:induction false} WithoutKeepsOrder(queue: seq<Id>, id: Id)
    requires Increasing(queue)
    ensures Increasing(Without(queue, id)) && id !in Without(queue, id)
    ensures forall i :: i in Without(queue, id) <==> i in queue && i != id
  {
    WithoutTakesOnly(queue, id);
    if queue != [] {
      var rest := queue[1..];
      HeadIsGone(queue);
      if queue[0] != id {
        WithoutKeepsOrder(rest, id);
        WithoutTakesOnly(rest, id);
        var fewer := Without(rest, id);
        forall k | 0 <= k < |fewer| ensures queue[0] < fewer[k] {
          assert fewer[k] in rest;
        }
      }
    }
  }

  lemma NotingKeeps(c: Client, signal: Signal)
    requires Ok(c) && (signal.StateChanged? || signal.Event?)
    ensures Ok(Noted(c, signal))
  {
    var d := Noted(c, signal);
    assert d.signals[..|d.signals| - 1] == c.signals;
    forall id: Id ensures Fates(d, id) == Fates(c, id) {
    }
  }

  lemma QueueWithout(c: Client, id: Id)
    requires QueueOk(c) && id in c.pending
    ensures QueueOk(c.(pending := c.pending - {id}))
    ensures !c.pending[id].sent ==> QueueOk(c.(pending := c.pending - {id}, unsent := Without(c.unsent, id)))
  {
    WithoutKeepsOrder(c.unsent, id);
    var shorter := Without(c.unsent, id);
    forall i, j | 0 <= i < |c.wire| && 0 <= j < |shorter| ensures c.wire[i] < shorter[j] {
      assert shorter[j] in shorter;
    }
  }

  lemma DroppingKeepsFate(c: Client, id: Id, cause: Cause, i: Id)
    requires id in c.pending
    ensures Fates(Dropped(c, id, cause), i) == Fates(c, i)
  {
  }

  lemma DroppingKeeps(c: Client, id: Id, cause: Cause)
    requires Ok(c)
    ensures Ok(Dropped(c, id, cause))
  {
    if id in c.pending {
      QueueWithout(c, id);
      hide QueueOk, Fates, Without;
      var d := Dropped(c, id, cause);
      forall i: Id ensures Fates(d, i) == Fates(c, i) {
        DroppingKeepsFate(c, id, cause, i);
      }
    }
  }

  lemma DroppingAllKeeps(c: Client, cause: Cause, link: Link)
    requires OneFate(c) && QueueOk(c) && KindsMatch(c)
    ensures Ok(AllDropped(c, cause).(link := link))
  {
    var d := AllDropped(c, cause).(link := link);
    var added := Failures(c.pending.Keys, cause);
    forall id: Id ensures Fates(d, id) == Fates(c, id) {
      assert added[Failure(id, cause)] == Waiting(c, id);
      assert forall other :: other != cause ==> added[Failure(id, other)] == 0;
    }
  }

  lemma AbortKeeps(c: Client, cause: Cause)
    requires OneFate(c) && QueueOk(c) && KindsMatch(c)
    ensures Ok(Closed(c, cause))
  {
    DroppingAllKeeps(c, cause, Unconnected);
    var gone := AllDropped(c, cause).(link := Unconnected);
    NotingKeeps(gone, StateChanged(false));
  }

  lemma WritingKeepsQueue(c: Client)
    requires QueueOk(c) && c.unsent != []
    requires c.unsent[0] in c.pending && !c.pending[c.unsent[0]].sent
    ensures QueueOk(Written(c))
  {
    var id, d := c.unsent[0], Written(c);
    HeadIsGone(c.unsent);
    assert forall i :: i in d.wire <==> i in c.wire || i == id;
    forall i, j | 0 <= i < |d.wire| && 0 <= j < |d.unsent| ensures d.wire[i] < d.unsent[j] {
      assert d.unsent[j] == c.unsent[j + 1] && c.unsent[0] < c.unsent[j + 1];
    }
  }

  lemma WritingKeeps(c: Client)
    requires Ok(c) && c.unsent != []
    requires c.unsent[0] in c.pending && !c.pending[c.unsent[0]].sent
    ensures Ok(Written(c))
  {
    hide QueueOk;
    WritingKeepsQueue(c);
    assert c.unsent[0] < |c.issued|;
    forall i: Id ensures Fates(Written(c), i) == Fates(c, i) {
    }
  }

  lemma SkippingKeeps(c: Client)
    requires Ok(c) && c.unsent != []
    requires c.unsent[0] !in c.pending || c.pending[c.unsent[0]].sent
    ensures Ok(c.(unsent := c.unsent[1..]))
  {
    HeadIsGone(c.unsent);
    var d := c.(unsent := c.unsent[1..]);
    forall id: Id ensures Fates(d, id) == Fates(c, id) {
    }
  }

  lemma {:induction false} FlushKeeps(c: Client, accepts: nat)
    requires Ok(c)
    ensures Ok(Flushed(c, accepts))
    ensures c.link.Connected? ==> Flushed(c, accepts).unsent == []
    decreases |c.unsent|
  {
    hide OneFate, QueueOk, KindsMatch;
    if c.link.Connected? && c.unsent != [] {
      var id := c.unsent[0];
      if id !in c.pending || c.pending[id].sent {
        SkippingKeeps(c);
        FlushKeeps(c.(unsent := c.unsent[1..]), accepts);
      } else {
        var written := Written(c);
        WritingKeeps(c);
        if accepts == 0 {
          AbortKeeps(written, Connection);
        } else {
          FlushKeeps(written, accepts - 1);
        }
      }
    }
  }

  lemma IssuingKeepsQueue(c: Client, kind: Kind, link: Link)
    requires QueueOk(c)
    ensures QueueOk(Issued(c, kind, link))
  {
    var id, d := |c.issued|, Issued(c, kind, link);
    assert forall i :: i in d.unsent <==> i in c.unsent || i == id;
    forall i | 0 <= i < |c.unsent| ensures c.unsent[i] < id {
      assert c.unsent[i] in c.unsent;
    }
    forall i | 0 <= i < |c.wire| ensures c.wire[i] < id {
      assert c.wire[i] in c.wire;
    }
  }

  lemma IssuingAddsOneFate(c: Client, kind: Kind, link: Link, i: Id)
    requires |c.issued| !in c.pending
    ensures var one := if i == |c.issued| then 1 else 0;
      Fates(Issued(c, kind, link), i) == Fates(c, i) + one && Fates(Unencoded(c, kind), i) == Fates(c, i) + one
  {
  }

  lemma IssuingKeeps(c: Client, kind: Kind, link: Link)
    requires Ok(c) && !link.Unconnected?
    ensures Ok(Issued(c, kind, link)) && Ok(Unencoded(c, kind))
  {
    IssuingKeepsQueue(c, kind, link);
    assert QueueOk(Unencoded(c, kind));
    hide QueueOk, Fates;
    var id := |c.issued|;
    assert Fates(c, id) == 0;
    forall i: Id
      ensures Fates(Issued(c, kind, link), i) == Fates(c, i) + if i == id then 1 else 0
      ensures Fates(Unencoded(c, kind), i) == Fates(c, i) + if i == id then 1 else 0
    {
      IssuingAddsOneFate(c, kind, link, i);
    }
  }

  lemma AnsweringKeeps(c: Client, id: Id)
    requires Ok(c) && id in c.pending
    ensures Ok(Noted(c.(pending := c.pending - {id}), Answered(id, c.pending[id].kind)))
  {
    var d := Noted(c.(pending := c.pending - {id}), Answered(id, c.pending[id].kind));
    QueueWithout(c, id);
    assert d.signals[..|d.signals| - 1] == c.signals;
    forall i: Id ensures Fates(d, i) == Fates(c, i) {
    }
  }

  lemma OneFewer(scheduled: multiset<Failure>, failure: Failure, id: Id)
    requires failure in scheduled
    ensures Scheduled(scheduled - multiset{failure}, id) + (if id == failure.id then 1 else 0) == Scheduled(scheduled, id)
  {
    var rest := scheduled - multiset{failure};
    assert scheduled[failure] == rest[failure] + 1;
    assert forall other: Failure :: other != failure ==> rest[other] == scheduled[other];
    match failure.cause
    case Encoding => assert failure == Failure(failure.id, Encoding);
    case TimedOut => assert failure == Failure(failure.id, TimedOut);
    case Connection => assert failure == Failure(failure.id, Connection);
    case Protocol => assert failure == Failure(failure.id, Protocol);
  }

  lemma FiringKeeps(c: Client, failure: Failure)
    requires Ok(c) && failure in c.scheduled
    ensures Ok(Noted(c.(scheduled := c.scheduled - multiset{failure}), Failed(failure)))
  {
    var d := Noted(c.(scheduled := c.scheduled - multiset{failure}), Failed(failure));
    assert d.signals[..|d.signals| - 1] == c.signals;
    forall i: Id ensures Fates(d, i) == Fates(c, i) {
      OneFewer(c.scheduled, failure, i);
    }
  }

  lemma RelinkingKeeps(c: Client, link: Link)
    requires Ok(c) && (c.pending == map[] || !link.Unconnected?)
    ensures Ok(c.(link := link))
  {
    var d := c.(link := link);
    forall i: Id ensures Fates(d, i) == Fates(c, i) {
    }
  }

  lemma ReceivingKeeps(c: Client, payload: Payload)
    requires Ok(c)
    ensures Ok(Received(c, payload))
  {
    hide OneFate, QueueOk, KindsMatch;
    match payload
    case GoodEvent => NotingKeeps(c, Event);
    case Unreadable | BadEvent => AbortKeeps(c, Protocol);
    case Response(id, kind) =>
      if id in c.pending {
        if c.pending[id].kind != kind {
          AbortKeeps(c, Protocol);
        } else {
          AnsweringKeeps(c, id);
        }
      }
  }

  lemma LossKeeps(c: Client)
    requires Ok(c)
    ensures Ok(Lost(c.(link := Unconnected)))
  {
    hide OneFate, QueueOk, KindsMatch;
    var gone := c.(link := Unconnected);
    if c.pending != map[] {
      DroppingAllKeeps(c, Connection, Unconnected);
      assert AllDropped(c, Connection).(link := Unconnected) == AllDropped(gone, Connection);
      NotingKeeps(AllDropped(gone, Connection), StateChanged(false));
    } else {
      RelinkingKeeps(c, Unconnected);
      NotingKeeps(gone, StateChanged(false));
    }
  }

  lemma StepKeeps(c: Client, step: Step)
    requires Ok(c)
    ensures Ok(Next(c, step))
  {
    hide OneFate, QueueOk, KindsMatch;
    match step
    case Send(kind, encodes, accepts) =>
      IssuingKeeps(c, kind, if c.link.Unconnected? then Connecting else c.link);
      if encodes && c.link.Connected? {
        FlushKeeps(Issued(c, kind, c.link), accepts);
      }
    case Disconnect => AbortKeeps(c, Connection);
    case Established =>
      RelinkingKeeps(c, Connected);
      NotingKeeps(c.(link := Connected), StateChanged(true));
    case Flush(accepts) => FlushKeeps(c, accepts);
    case LinkClosing => RelinkingKeeps(c, Closing);
    case LinkLost => LossKeeps(c);
    case SocketError =>
      var failed := if c.link.Connecting? then c.(link := Unconnected) else c;
      if c.pending != map[] {
        DroppingAllKeeps(c, Connection, failed.link);
        assert AllDropped(c, Connection).(link := failed.link) == AllDropped(failed, Connection);
      } else {
        RelinkingKeeps(c, failed.link);
      }
    case FrameError => AbortKeeps(c, Protocol);
    case Read(payload) => ReceivingKeeps(c, payload);
    case Timeout(id) => DroppingKeeps(c, id, TimedOut);
    case Fire(failure) =>
      if failure in c.scheduled {
        FiringKeeps(c, failure);
      }
  }

  lemma {:induction false} RunKeeps(steps: seq<Step>)
    ensures Ok(Run(steps))
  {
    if steps != [] {
      RunKeeps(steps[..|steps| - 1]);
      StepKeeps(Run(steps[..|steps| - 1]), steps[|steps| - 1]);
    }
  }

  // ---- what every run promises ----

  /** Each issued request is in exactly one place, and an identifier that was
      never issued is in none; so a request has at most one terminal signal. */
  lemma EveryRequestHasOneFate(steps: seq<Step>, id: Id)
    ensures var c := Run(steps);
      Waiting(c, id) + Scheduled(c.scheduled, id) + Ended(c.signals, id) == if id < |c.issued| then 1 else 0
  {
    RunKeeps(steps);
    assert Fates(Run(steps), id) == if id < |Run(steps).issued| then 1 else 0;
  }

  /** Once nothing waits and nothing is scheduled, every request has been told its end. */
  lemma QuietClientsHaveAnswered(steps: seq<Step>, id: Id)
    requires var c := Run(steps); c.pending == map[] && c.scheduled == multiset{} && id < |c.issued|
    ensures Ended(Run(steps).signals, id) == 1
  {
    EveryRequestHasOneFate(steps, id);
  }

  /** Frames go out at most once each and in the order of issue, and a waiting
      request that has not gone out is still queued. */
  lemma WireFollowsIssue(steps: seq<Step>)
    ensures var c := Run(steps);
      && Increasing(c.wire)
      && (forall id :: id in c.pending && !c.pending[id].sent ==> id in c.unsent && id !in c.wire)
      && (forall id :: id in c.pending && c.pending[id].sent ==> id in c.wire)
  {
    RunKeeps(steps);
    var c := Run(steps);
    forall id | id in c.pending && !c.pending[id].sent ensures id in c.unsent && id !in c.wire {
      var j :| 0 <= j < |c.unsent| && c.unsent[j] == id;
      assert forall i :: 0 <= i < |c.wire| ==> c.wire[i] < c.unsent[j];
    }
  }

  /** A response reaches the caller only for a request of the same kind. */
  lemma AnswersFitTheirRequests(steps: seq<Step>, k: nat)
    requires k < |Run(steps).signals| && Run(steps).signals[k].Answered?
    ensures var c := Run(steps);
      c.signals[k].id < |c.issued| && c.signals[k].kind == c.issued[c.signals[k].id]
  {
    RunKeeps(steps);
  }

  /** No request waits without a connection or an attempt at one. */
  lemma NothingWaitsOffline(steps: seq<Step>)
    requires Run(steps).link.Unconnected?
    ensures Run(steps).pending == map[]
  {
    RunKeeps(steps);
  }

  /** Whatever a payload's slot does, the rest of the batch is read one payload
      at a time: reading a batch is a run of single reads that stops at the
      first fatal one. */
  lemma {:induction false} BatchesAreRuns(c: Client, payloads: seq<Payload>) returns (n: nat)
    ensures n <= |payloads|
    ensures ReceivedAll(c, payloads) == ReadEach(c, payloads[..n])
    ensures n < |payloads| ==> n > 0 && Fatal(ReadEach(c, payloads[..n - 1]), payloads[n - 1])
    decreases payloads
  {
    if payloads == [] {
      n := 0;
    } else if Fatal(c, payloads[0]) {
      n := 1;
      assert payloads[..1] == [payloads[0]] && payloads[..0] == [] && [payloads[0]][1..] == [];
      assert ReadEach(c, [payloads[0]]) == ReadEach(Received(c, payloads[0]), []);
    } else {
      var m := BatchesAreRuns(Received(c, payloads[0]), payloads[1..]);
      n := m + 1;
      assert payloads[..n][1..] == payloads[1..][..m];
      assert m > 0 ==> payloads[..n - 1][1..] == payloads[1..][..m - 1];
    }
  }

  function ReadEach(c: Client, payloads: seq<Payload>): Client
    decreases payloads
  {
    if payloads == [] then c else ReadEach(Next(c, Read(payloads[0])), payloads[1..])
  }

  // ---- where signals come from ----

  /** The step explains the signal: an event was read, a request that waited was answered,
      or the connection came up or was lost. */
  predicate Explains(before: Client, step: Step, signal: Signal) {
    match signal
    case Event => step == Read(GoodEvent)
    case Answered(id, kind) => step == Read(Response(id, kind)) && id in before.pending
    case StateChanged(connected) =>
      if connected then step.Established? && before.link.Connecting?
      else (before.link.Connected? || before.link.Closing?) && !step.Established?
    case Failed(failure) => step == Fire(failure) && failure in before.scheduled
  }

  /** What the step makes requests fail with. */
  predicate Blames(before: Client, step: Step, failure: Failure) {
    match step
    case Send(_, encodes, _) => failure.cause == if encodes then Connection else Encoding
    case Flush(_) => failure.cause == Connection
    case Disconnect => failure.cause == Connection
    case LinkLost => failure.cause == Connection
    case SocketError => failure.cause == Connection
    case FrameError => failure.cause == Protocol
    case Read(payload) =>
      && failure.cause == Protocol
      && (payload.Unreadable? || payload.BadEvent?
          || (payload.Response? && payload.id in before.pending && before.pending[payload.id].kind != payload.kind))
    case Timeout(id) => failure.id == id && failure.cause == TimedOut
    case _ => false
  }

  /** The step made the request fail: it waited, or was just being issued, and waits no longer. */
  predicate Fails(before: Client, step: Step, after: Client, failure: Failure) {
    && Blames(before, step, failure) && failure.id < |after.issued| && failure.id !in after.pending
    && (failure.id in before.pending || failure.id == |before.issued|)
  }

  /** New signals are explained by the step, new failures are its doing. */
  ghost predicate Accounted(before: Client, step: Step, after: Client) {
    && before.issued <= after.issued && before.signals <= after.signals
    && (forall k :: |before.signals| <= k < |after.signals| ==> Explains(before, step, after.signals[k]))
    && (forall failure :: failure in after.scheduled ==> failure in before.scheduled || Fails(before, step, after, failure))
  }

  /** The part of a step that lets requests fail with one cause, and perhaps loses the link. */
  ghost predicate Lets(c: Client, d: Client, cause: Cause) {
    && d.issued == c.issued && (d.signals == c.signals || Loses(c, d))
    && (forall id :: id in d.pending ==> id in c.pending)
    && forall failure :: failure in d.scheduled ==>
         failure in c.scheduled || (failure.cause == cause && failure.id in c.pending && failure.id !in d.pending)
  }

  predicate Loses(c: Client, d: Client) {
    (c.link.Connected? || c.link.Closing?) && d.signals == c.signals + [StateChanged(false)]
  }

  lemma ClosingLets(c: Client, cause: Cause)
    ensures Lets(c, Closed(c, cause), cause)
    ensures Closed(c, cause).pending == map[] && Closed(c, cause).link.Unconnected?
  {
    assert forall failure :: failure in Failures(c.pending.Keys, cause) ==>
      failure.cause == cause && failure.id in c.pending;
  }

  lemma {:induction false} FlushingLets(c: Client, accepts: nat)
    ensures Lets(c, Flushed(c, accepts), Connection)
    decreases |c.unsent|
  {
    hide Aborted, AllDropped;
    if c.link.Connected? && c.unsent != [] {
      var id := c.unsent[0];
      if id !in c.pending || c.pending[id].sent {
        FlushingLets(c.(unsent := c.unsent[1..]), accepts);
      } else {
        var written := Written(c);
        ClosingLets(written, Connection);
        if accepts > 0 { FlushingLets(written, accepts - 1); }
      }
    }
  }

  lemma LossIsAccounted(c: Client)
    requires c.link.Connected? || c.link.Closing?
    requires forall id :: id in c.pending ==> id < |c.issued|
    ensures Accounted(c, LinkLost, Lost(c.(link := Unconnected)))
  {
    assert forall failure :: failure in Failures(c.pending.Keys, Connection) ==>
      failure.cause == Connection && failure.id in c.pending;
  }

  lemma LettingIsAccounted(c: Client, step: Step, d: Client, cause: Cause)
    requires Lets(c, d, cause) && !step.Established?
    requires forall failure: Failure :: failure.cause == cause ==> Blames(c, step, failure)
    requires forall id :: id in c.pending ==> id < |c.issued|
    ensures Accounted(c, step, d)
  {
    hide Blames;
  }

  lemma DroppingIsAccounted(c: Client, id: Id)
    requires forall i :: i in c.pending ==> i < |c.issued|
    ensures Accounted(c, Timeout(id), Dropped(c, id, TimedOut))
  {
  }

  lemma SocketErrorsLet(c: Client)
    ensures Lets(c, Next(c, SocketError), Connection)
  {
    assert forall failure :: failure in Failures(c.pending.Keys, Connection) ==>
      failure.cause == Connection && failure.id in c.pending;
  }

  lemma SendingIsAccounted(c: Client, kind: Kind, encodes: bool, accepts: nat)
    requires Ok(c)
    ensures Accounted(c, Send(kind, encodes, accepts), Sent(c, kind, encodes, accepts))
  {
    var issued := Issued(c, kind, Connected);
    FlushingLets(issued, accepts);
    assert forall id :: id in issued.pending ==> id in c.pending || id == |c.issued|;
    assert |c.issued| !in c.pending;
    hide Flushed;
  }

  lemma ReadingIsAccounted(c: Client, payload: Payload)
    requires Ok(c)
    ensures Accounted(c, Read(payload), Received(c, payload))
  {
    ClosingLets(c, Protocol);
    hide Closed, OneFate, QueueOk;
    if Fatal(c, payload) {
      LettingIsAccounted(c, Read(payload), Closed(c, Protocol), Protocol);
    }
  }

  lemma StepIsAccounted(c: Client, step: Step)
    requires Ok(c)
    ensures Accounted(c, step, Next(c, step))
  {
    hide OneFate, QueueOk;
    match step
    case Send(kind, encodes, accepts) => SendingIsAccounted(c, kind, encodes, accepts);
    case Read(payload) => ReadingIsAccounted(c, payload);
    case Disconnect =>
      ClosingLets(c, Connection);
      LettingIsAccounted(c, step, Next(c, step), Connection);
    case FrameError =>
      ClosingLets(c, Protocol);
      LettingIsAccounted(c, step, Next(c, step), Protocol);
    case Flush(accepts) =>
      FlushingLets(c, accepts);
      LettingIsAccounted(c, step, Next(c, step), Connection);
    case SocketError =>
      SocketErrorsLet(c);
      LettingIsAccounted(c, step, Next(c, step), Connection);
    case LinkLost => if c.link.Connected? || c.link.Closing? { LossIsAccounted(c); }
    case Timeout(id) => DroppingIsAccounted(c, id);
    case Established =>
    case LinkClosing =>
    case Fire(_) =>
  }

  /** The step at which the run stands is the one that made this request fail. */
  ghost predicate FailedAt(steps: seq<Step>, n: nat, failure: Failure)
    requires n < |steps|
  {
    Fails(Run(steps[..n]), steps[n], Run(steps[..n + 1]), failure)
  }

  lemma FailuresStayExplained(steps: seq<Step>, n: nat, failure: Failure)
    requires steps != [] && n < |steps| - 1 && FailedAt(steps[..|steps| - 1], n, failure)
    ensures FailedAt(steps, n, failure)
  {
    var before := steps[..|steps| - 1];
    assert before[..n] == steps[..n] && before[..n + 1] == steps[..n + 1];
  }

  /** Every failure, scheduled or signalled, carries the cause of the step that dropped
      its request. */
  lemma {:induction false} FailuresHaveTheirCause(steps: seq<Step>, failure: Failure)
    requires failure in Run(steps).scheduled || Failed(failure) in Run(steps).signals
    ensures exists n :: 0 <= n < |steps| && FailedAt(steps, n, failure)
  {
    hide Next, Ok, Fails;
    var last := |steps| - 1;
    assert steps != [];
    var before, after := Run(steps[..last]), Run(steps);
    RunKeeps(steps[..last]);
    StepIsAccounted(before, steps[last]);
    assert steps[..last + 1] == steps;
    if Failed(failure) in after.signals && Failed(failure) !in before.signals {
      var k :| 0 <= k < |after.signals| && after.signals[k] == Failed(failure);
      assert k >= |before.signals| && Explains(before, steps[last], after.signals[k]);
    }
    if failure in before.scheduled || Failed(failure) in before.signals {
      FailuresHaveTheirCause(steps[..last], failure);
      var n :| 0 <= n < last && FailedAt(steps[..last], n, failure);
      FailuresStayExplained(steps, n, failure);
    } else {
      assert FailedAt(steps, last, failure);
    }
  }

  /** Event signals so far, and event payloads read so far. */
  function EventsSignalled(signals: seq<Signal>): nat {
    |set k | 0 <= k < |signals| && signals[k].Event?|
  }

  function EventsRead(steps: seq<Step>): nat {
    |set k | 0 <= k < |steps| && steps[k] == Read(GoodEvent)|
  }

  lemma OneMoreSignal(signals: seq<Signal>, signal: Signal)
    ensures EventsSignalled(signals + [signal]) == EventsSignalled(signals) + if signal.Event? then 1 else 0
  {
    var few, all := set k | 0 <= k < |signals| && signals[k].Event?,
                    set k | 0 <= k < |signals + [signal]| && (signals + [signal])[k].Event?;
    assert all == few + if signal.Event? then {|signals|} else {};
  }

  lemma OneMoreStep(steps: seq<Step>)
    requires steps != []
    ensures EventsRead(steps) == EventsRead(steps[..|steps| - 1]) + if steps[|steps| - 1] == Read(GoodEvent) then 1 else 0
  {
    var n := |steps| - 1;
    var few, all := set k | 0 <= k < |steps[..n]| && steps[..n][k] == Read(GoodEvent),
                    set k | 0 <= k < |steps| && steps[k] == Read(GoodEvent);
    assert all == few + if steps[n] == Read(GoodEvent) then {n} else {};
  }

  lemma {:induction false} NoEventsAmong(signals: seq<Signal>, n: nat)
    requires n <= |signals| && forall k :: n <= k < |signals| ==> !signals[k].Event?
    ensures EventsSignalled(signals) == EventsSignalled(signals[..n])
  {
    assert (set k | 0 <= k < |signals| && signals[k].Event?) == (set k | 0 <= k < |signals[..n]| && signals[..n][k].Event?);
  }

  /** Every well-formed event that is read is signalled, once, and nothing else is
      signalled as an event. */
  lemma {:induction false} EventsAreSignalledOnce(steps: seq<Step>)
    ensures EventsSignalled(Run(steps).signals) == EventsRead(steps)
  {
    hide Next, Ok, EventsSignalled, EventsRead;
    if steps == [] {
      NothingHappened();
    } else {
      var last := |steps| - 1;
      var before, after := Run(steps[..last]), Run(steps);
      EventsAreSignalledOnce(steps[..last]);
      OneMoreStep(steps);
      RunKeeps(steps[..last]);
      StepIsAccounted(before, steps[last]);
      if steps[last] == Read(GoodEvent) {
        assert after.signals == before.signals + [Event] by { EventIsNoted(before); }
        OneMoreSignal(before.signals, Event);
      } else {
        assert forall k :: |before.signals| <= k < |after.signals| ==> Explains(before, steps[last], after.signals[k]);
        NoEventsAmong(after.signals, |before.signals|);
        assert after.signals[..|before.signals|] == before.signals;
      }
    }
  }

  lemma NothingHappened()
    ensures EventsSignalled(NEW.signals) == 0 && EventsRead([]) == 0
  {
  }

  lemma EventIsNoted(c: Client)
    ensures Next(c, Read(GoodEvent)).signals == c.signals + [Event]
  {
  }

  /** Connection changes are announced in turn: up, lost, up, lost. */
  predicate InTurn(signals: seq<Signal>, up: bool)
    decreases |signals|
  {
    if signals == [] then !up
    else match signals[|signals| - 1]
      case StateChanged(connected) => connected == up && InTurn(signals[..|signals| - 1], !up)
      case _ => InTurn(signals[..|signals| - 1], up)
  }

  predicate IsUp(c: Client) {
    c.link.Connected? || c.link.Closing?
  }

  lemma NotedInTurn(signals: seq<Signal>, signal: Signal, up: bool)
    requires InTurn(signals, up)
    ensures signal.StateChanged? ==> (signal.connected == !up ==> InTurn(signals + [signal], !up))
    ensures !signal.StateChanged? ==> InTurn(signals + [signal], up)
  {
    assert (signals + [signal])[..|signals|] == signals;
  }

  lemma {:induction false} FlushedInTurn(c: Client, accepts: nat)
    requires InTurn(c.signals, IsUp(c))
    ensures InTurn(Flushed(c, accepts).signals, IsUp(Flushed(c, accepts)))
    decreases |c.unsent|
  {
    hide InTurn, AllDropped;
    if c.link.Connected? && c.unsent != [] {
      var id := c.unsent[0];
      if id !in c.pending || c.pending[id].sent {
        FlushedInTurn(c.(unsent := c.unsent[1..]), accepts);
      } else if accepts > 0 {
        FlushedInTurn(Written(c), accepts - 1);
      } else {
        ClosedInTurn(Written(c), Connection);
      }
    }
  }

  lemma ClosedInTurn(c: Client, cause: Cause)
    requires InTurn(c.signals, IsUp(c))
    ensures InTurn(Closed(c, cause).signals, IsUp(Closed(c, cause)))
  {
    hide InTurn;
    NotedInTurn(c.signals, StateChanged(false), IsUp(c));
  }

  lemma StepInTurn(c: Client, step: Step)
    requires InTurn(c.signals, IsUp(c))
    ensures InTurn(Next(c, step).signals, IsUp(Next(c, step)))
  {
    hide InTurn, Closed, Flushed;
    NotedInTurn(c.signals, StateChanged(!IsUp(c)), IsUp(c));
    match step
    case Send(kind, encodes, accepts) => if c.link.Connected? { FlushedInTurn(Issued(c, kind, Connected), accepts); }
    case Flush(accepts) => FlushedInTurn(c, accepts);
    case Disconnect => ClosedInTurn(c, Connection);
    case FrameError => ClosedInTurn(c, Protocol);
    case Read(payload) =>
      ClosedInTurn(c, Protocol);
      NotedInTurn(c.signals, Event, IsUp(c));
      if payload.Response? { NotedInTurn(c.signals, Answered(payload.id, payload.kind), IsUp(c)); }
    case Fire(failure) => NotedInTurn(c.signals, Failed(failure), IsUp(c));
    case LinkLost =>
    case Established =>
    case LinkClosing =>
    case SocketError =>
    case Timeout(_) =>
  }

  /** Observers hear of the connection in turn, and what they heard last is true. */
  lemma {:induction false} ConnectionsAreAnnounced(steps: seq<Step>)
    ensures InTurn(Run(steps).signals, IsUp(Run(steps)))
  {
    hide Next;
    if steps != [] {
      ConnectionsAreAnnounced(steps[..|steps| - 1]);
      StepInTurn(Run(steps[..|steps| - 1]), steps[|steps| - 1]);
    }
  }

  lemma BreakingLeavesNothing(c: Client, step: Step)
    requires step.Disconnect? || step.SocketError? || step.FrameError? || (step.LinkLost? && IsUp(c))
      || (step.Read? && Fatal(c, step.payload))
    ensures Next(c, step).pending == map[]
    ensures !step.SocketError? ==> Next(c, step).link.Unconnected?
  {
    ClosingLets(c, Protocol);
    ClosingLets(c, Connection);
    hide Closed, Failures, Lets, Flushed, Issued, Dropped;
  }

  /** When the connection is given up, lost or in error, nothing of it waits any longer. */
  lemma BrokenLinksLeaveNothingWaiting(steps: seq<Step>)
    requires steps != []
    requires var step, before := steps[|steps| - 1], Run(steps[..|steps| - 1]);
      step.Disconnect? || step.SocketError? || step.FrameError? || (step.LinkLost? && IsUp(before))
      || (step.Read? && Fatal(before, step.payload))
    ensures Run(steps).pending == map[]
    ensures !steps[|steps| - 1].SocketError? ==> Run(steps).link.Unconnected?
  {
    hide Next, Fatal, IsUp;
    BreakingLeavesNothing(Run(steps[..|steps| - 1]), steps[|steps| - 1]);
  }
}
