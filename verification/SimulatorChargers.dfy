/** What a charger's own history promises: its sessions, holds and repairs never
    overlap, and its telemetry shows each of them tick by tick.

    The number of samples written so far is the charger's clock. */
module SimulatorChargers {
  import opened Basics
  import opened SimulatorSession
  import opened SimulatorWorld

  /** The sessions of a charger follow each other; only the current one is not over. */
  ghost predicate SlotsOk(c: nat, now: nat, charger: Charger, sessions: seq<Session>) {
    && (charger.session.Some? ==>
         var id := charger.session.value;
         id < |sessions| && sessions[id].charger == c && now <= sessions[id].unplugged && charger.hold.None?)
    && (forall i :: 0 <= i < |sessions| && sessions[i].charger == c ==>
         && sessions[i].start <= now && sessions[i].start < sessions[i].end <= sessions[i].unplugged
         && |sessions[i].steps| == sessions[i].end - sessions[i].start
         && (charger.session == Some(i) || sessions[i].unplugged <= now))
    && (forall i, j :: 0 <= i < j < |sessions| && sessions[i].charger == c && sessions[j].charger == c ==>
         sessions[i].unplugged <= sessions[j].start)
  }

  ghost predicate HoldOk(ticks: nat, now: nat, charger: Charger) {
    charger.hold.Some? ==> charger.session.None? && now <= charger.hold.value.due && charger.hold.value.due + 12 <= ticks
  }

  ghost predicate Apart(row: Session, ticket: Ticket) {
    row.unplugged <= ticket.start || ticket.end <= row.start
  }

  /** Repairs never overlap a session, and none is under way while a charger is in use or held. */
  ghost predicate RepairsOk(c: nat, now: nat, charger: Charger, sessions: seq<Session>, tickets: seq<Ticket>) {
    && (charger.session.Some? || charger.hold.Some? ==> charger.blocked <= now)
    && (forall k :: 0 <= k < |tickets| && tickets[k].charger == c ==>
         tickets[k].start <= now && tickets[k].end <= charger.blocked)
    && (forall i, k :: 0 <= i < |sessions| && 0 <= k < |tickets| && sessions[i].charger == c && tickets[k].charger == c ==>
         Apart(sessions[i], tickets[k]))
  }

  function EnergyOf(samples: seq<Sample>): nat {
    if samples == [] then 0 else EnergyOf(samples[..|samples| - 1]) + samples[|samples| - 1].wh
  }

  /** The meter is the running total of the interval energies. */
  ghost predicate MeterOk(charger: Charger, samples: seq<Sample>) {
    && charger.meter == EnergyOf(samples)
    && forall k :: 0 <= k < |samples| ==> samples[k].meter == EnergyOf(samples[..k + 1])
  }

  /** The interval of a session: charging with its step until it ends, then occupied. */
  predicate Shows(x: Sample, row: Session, k: nat) {
    && row.start <= k < row.unplugged
    && (if k < row.end then
          && k - row.start < |row.steps| && x.state.Charging?
          && var step := row.steps[k - row.start];
             x.wh == step.wh && x.grid == step.grid && x.cost == step.cost
        else x.state.Occupied? && x.wh == 0 && x.grid == 0 && x.cost == 0)
  }

  ghost predicate SampleOk(c: nat, k: nat, x: Sample, sessions: seq<Session>, tickets: seq<Ticket>) {
    && (x.session.Some? ==>
         var id := x.session.value;
         id < |sessions| && sessions[id].charger == c && Shows(x, sessions[id], k))
    && (x.session.None? ==> x.wh == 0 && x.grid == 0 && x.cost == 0 && !x.state.Charging? && !x.state.Occupied?)
    && (forall i :: 0 <= i < |sessions| && sessions[i].charger == c && sessions[i].start <= k < sessions[i].unplugged ==>
         x.session == Some(i))
    && (forall t :: 0 <= t < |tickets| && tickets[t].charger == c && tickets[t].start <= k < tickets[t].end ==>
         x.state.Maintenance? || x.state.Offline?)
  }

  ghost predicate SamplesOk(c: nat, samples: seq<Sample>, sessions: seq<Session>, tickets: seq<Ticket>) {
    forall k :: 0 <= k < |samples| ==> SampleOk(c, k, samples[k], sessions, tickets)
  }

  ghost predicate ChargerOk(ticks: nat, c: nat, charger: Charger, samples: seq<Sample>, sessions: seq<Session>,
                            tickets: seq<Ticket>) {
    && SlotsOk(c, |samples|, charger, sessions)
    && HoldOk(ticks, |samples|, charger)
    && RepairsOk(c, |samples|, charger, sessions, tickets)
    && MeterOk(charger, samples)
    && SamplesOk(c, samples, sessions, tickets)
  }

  /** Sessions and holds that were due at this tick have been dealt with. */
  ghost predicate Settled(charger: Charger, now: nat, sessions: seq<Session>) {
    && (charger.session.Some? && charger.session.value < |sessions| ==> now < sessions[charger.session.value].unplugged)
    && (charger.hold.Some? ==> now < charger.hold.value.due)
  }

  // ---- one charger, one step ----

  lemma LeavingKeeps(ticks: nat, c: nat, charger: Charger, samples: seq<Sample>, sessions: seq<Session>, tickets: seq<Ticket>)
    requires ChargerOk(ticks, c, charger, samples, sessions, tickets)
    requires charger.session.Some? ==> |samples| >= sessions[charger.session.value].unplugged
    ensures ChargerOk(ticks, c, charger.(session := None), samples, sessions, tickets)
  {
    hide SamplesOk;
  }

  lemma UnholdingKeeps(ticks: nat, c: nat, charger: Charger, samples: seq<Sample>, sessions: seq<Session>, tickets: seq<Ticket>)
    requires ChargerOk(ticks, c, charger, samples, sessions, tickets)
    ensures ChargerOk(ticks, c, charger.(hold := None), samples, sessions, tickets)
  {
    hide SamplesOk;
  }

  lemma HoldingKeeps(ticks: nat, c: nat, charger: Charger, samples: seq<Sample>, sessions: seq<Session>,
                     tickets: seq<Ticket>, hold: Hold)
    requires ChargerOk(ticks, c, charger, samples, sessions, tickets)
    requires charger.session.None? && charger.hold.None? && charger.blocked <= |samples| < hold.due && hold.due + 12 <= ticks
    ensures ChargerOk(ticks, c, charger.(hold := Some(hold)), samples, sessions, tickets)
    ensures Settled(charger.(hold := Some(hold)), |samples|, sessions)
  {
    hide SamplesOk;
  }

  /** Earlier samples say nothing about a session or a repair that starts now. */
  lemma LaterRowsKeepSamples(c: nat, samples: seq<Sample>, sessions: seq<Session>, tickets: seq<Ticket>,
                             row: Session, ticket: Ticket)
    requires SamplesOk(c, samples, sessions, tickets)
    ensures row.charger != c || |samples| <= row.start ==> SamplesOk(c, samples, sessions + [row], tickets)
    ensures ticket.charger != c || |samples| <= ticket.start ==> SamplesOk(c, samples, sessions, tickets + [ticket])
  {
    var more, later := sessions + [row], tickets + [ticket];
    assert forall i :: 0 <= i < |sessions| ==> more[i] == sessions[i];
    forall k | 0 <= k < |samples| && (row.charger != c || |samples| <= row.start)
      ensures SampleOk(c, k, samples[k], more, tickets)
    {
      assert SampleOk(c, k, samples[k], sessions, tickets);
    }
    forall k | 0 <= k < |samples| && (ticket.charger != c || |samples| <= ticket.start)
      ensures SampleOk(c, k, samples[k], sessions, later)
    {
      assert SampleOk(c, k, samples[k], sessions, tickets);
    }
  }

  lemma NewSessionKeepsSlots(c: nat, now: nat, charger: Charger, sessions: seq<Session>, row: Session)
    requires SlotsOk(c, now, charger, sessions)
    requires row.charger == c ==>
      && charger.session.None? && charger.hold.None? && row.start == now < row.end <= row.unplugged
      && |row.steps| == row.end - row.start
    ensures SlotsOk(c, now, if row.charger == c then charger.(session := Some(|sessions|)) else charger, sessions + [row])
  {
    var more := sessions + [row];
    forall i, j | 0 <= i < j < |more| && more[i].charger == c && more[j].charger == c
      ensures more[i].unplugged <= more[j].start
    {
      assert more[i] == sessions[i];
      assert j < |sessions| ==> more[j] == sessions[j];
    }
  }

  lemma NewSessionKeepsRepairs(c: nat, now: nat, charger: Charger, sessions: seq<Session>, tickets: seq<Ticket>, row: Session)
    requires RepairsOk(c, now, charger, sessions, tickets)
    requires row.charger == c ==> charger.blocked <= now == row.start
    ensures RepairsOk(c, now, if row.charger == c then charger.(session := Some(|sessions|)) else charger,
                      sessions + [row], tickets)
  {
    var more := sessions + [row];
    forall i, k | 0 <= i < |more| && 0 <= k < |tickets| && more[i].charger == c && tickets[k].charger == c
      ensures Apart(more[i], tickets[k])
    {
      assert i < |sessions| ==> Apart(sessions[i], tickets[k]);
    }
  }

  lemma NewSessionKeeps(ticks: nat, c: nat, charger: Charger, samples: seq<Sample>, sessions: seq<Session>,
                        tickets: seq<Ticket>, row: Session)
    requires ChargerOk(ticks, c, charger, samples, sessions, tickets)
    requires row.charger == c ==>
      && charger.session.None? && charger.hold.None? && charger.blocked <= |samples| == row.start
      && row.start < row.end <= row.unplugged && |row.steps| == row.end - row.start
    ensures ChargerOk(ticks, c, if row.charger == c then charger.(session := Some(|sessions|)) else charger,
                      samples, sessions + [row], tickets)
  {
    NewSessionKeepsSlots(c, |samples|, charger, sessions, row);
    NewSessionKeepsRepairs(c, |samples|, charger, sessions, tickets, row);
    LaterRowsKeepSamples(c, samples, sessions, tickets, row, Ticket(c, |samples|, |samples|));
    hide SlotsOk, RepairsOk, SamplesOk;
  }

  lemma NewRepairKeeps(ticks: nat, c: nat, charger: Charger, samples: seq<Sample>, sessions: seq<Session>,
                       tickets: seq<Ticket>, ticket: Ticket, offline: bool)
    requires ChargerOk(ticks, c, charger, samples, sessions, tickets)
    requires ticket.charger == c ==>
      && charger.session.None? && charger.hold.None?
      && charger.blocked <= |samples| == ticket.start < ticket.end
    ensures ChargerOk(ticks, c, if ticket.charger == c then charger.(blocked := ticket.end, offline := offline) else charger,
                      samples, sessions, tickets + [ticket])
  {
    LaterRowsKeepSamples(c, samples, sessions, tickets, Session(0, 0, c, 0, |samples|, 0, 0, [], 0, 0, 0, 0, 0, 0, 0, 0, 0,
                                                                TargetReached, 0, 0), ticket);
    hide SamplesOk;
    var more := tickets + [ticket];
    forall i, k | 0 <= i < |sessions| && 0 <= k < |more| && sessions[i].charger == c && more[k].charger == c
      ensures Apart(sessions[i], more[k])
    {
      assert k < |tickets| ==> Apart(sessions[i], tickets[k]);
    }
  }

  /** What is written now is what the charger's history says of this tick. */
  lemma ReadingIsOk(ticks: nat, c: nat, charger: Charger, now: nat, sessions: seq<Session>, tickets: seq<Ticket>)
    requires SlotsOk(c, now, charger, sessions) && RepairsOk(c, now, charger, sessions, tickets)
    requires Settled(charger, now, sessions)
    ensures SampleOk(c, now, Reading(charger, sessions, now), sessions, tickets)
  {
    forall t | 0 <= t < |tickets| && tickets[t].charger == c && tickets[t].start <= now < tickets[t].end
      ensures Reading(charger, sessions, now).state.Maintenance? || Reading(charger, sessions, now).state.Offline?
    {
      assert tickets[t].end <= charger.blocked;
    }
  }

  lemma AppendKeepsMeter(charger: Charger, samples: seq<Sample>, x: Sample)
    requires MeterOk(charger, samples) && x.meter == charger.meter + x.wh
    ensures MeterOk(charger.(meter := x.meter), samples + [x])
  {
    var more := samples + [x];
    assert more[..|samples|] == samples && more[..|more|] == more;
    assert EnergyOf(more) == EnergyOf(samples) + x.wh;
    hide EnergyOf;
    forall k | 0 <= k < |more| ensures more[k].meter == EnergyOf(more[..k + 1]) {
      if k < |samples| {
        assert more[k] == samples[k] && more[..k + 1] == samples[..k + 1];
      }
    }
  }

  lemma ReadingKeepsMeter(charger: Charger, samples: seq<Sample>, sessions: seq<Session>, tick: nat)
    requires MeterOk(charger, samples)
    ensures var x := Reading(charger, sessions, tick); MeterOk(charger.(meter := x.meter), samples + [x])
  {
    AppendKeepsMeter(charger, samples, Reading(charger, sessions, tick));
  }

  lemma TimePasses(ticks: nat, c: nat, charger: Charger, now: nat, sessions: seq<Session>, tickets: seq<Ticket>, meter: nat)
    requires SlotsOk(c, now, charger, sessions) && HoldOk(ticks, now, charger)
    requires RepairsOk(c, now, charger, sessions, tickets)
    requires Settled(charger, now, sessions)
    ensures var next := charger.(meter := meter);
      SlotsOk(c, now + 1, next, sessions) && HoldOk(ticks, now + 1, next) && RepairsOk(c, now + 1, next, sessions, tickets)
  {
  }

  lemma SamplingKeeps(ticks: nat, c: nat, charger: Charger, samples: seq<Sample>, sessions: seq<Session>, tickets: seq<Ticket>)
    requires ChargerOk(ticks, c, charger, samples, sessions, tickets)
    requires Settled(charger, |samples|, sessions)
    ensures var x := Reading(charger, sessions, |samples|);
      ChargerOk(ticks, c, charger.(meter := x.meter), samples + [x], sessions, tickets)
  {
    hide SampleOk, Reading, MeterOk, SlotsOk, HoldOk, RepairsOk, Settled;
    var x := Reading(charger, sessions, |samples|);
    ReadingIsOk(ticks, c, charger, |samples|, sessions, tickets);
    ReadingKeepsMeter(charger, samples, sessions, |samples|);
    TimePasses(ticks, c, charger, |samples|, sessions, tickets, x.meter);
    forall k | 0 <= k < |samples + [x]| ensures SampleOk(c, k, (samples + [x])[k], sessions, tickets) {
      assert k < |samples| ==> SampleOk(c, k, samples[k], sessions, tickets);
    }
  }

  // ---- a session and its telemetry ----

  /** The samples linked to a session, added up as the validator does. */
  function Linked(samples: seq<Sample>, id: nat): (nat, nat, nat, nat)
  {
    if samples == [] then (0, 0, 0, 0)
    else
      var (count, wh, grid, cost) := Linked(samples[..|samples| - 1], id);
      var x := samples[|samples| - 1];
      if x.session == Some(id) && x.state.Charging? then (count + 1, wh + x.wh, grid + x.grid, cost + x.cost)
      else (count, wh, grid, cost)
  }

  function LinkedFees(samples: seq<Sample>, id: nat, tariff: nat -> Tariff): (nat, nat) {
    if samples == [] then (0, 0)
    else
      var k := |samples| - 1;
      var (energy, service) := LinkedFees(samples[..k], id, tariff);
      var x, price := samples[k], tariff(Hour(k));
      if x.session == Some(id) && x.state.Charging?
      then (energy + Cents(x.wh, price.energy), service + Cents(x.wh, price.service)) else (energy, service)
  }

  /** How much of the session the first `n` samples have seen. */
  function Seen(row: Session, n: nat): nat {
    if n <= row.start then 0 else Min(n - row.start, |row.steps|)
  }

  lemma SeenGrows(row: Session, k: nat, tariff: nat -> Tariff)
    requires row.start <= k < row.start + |row.steps|
    ensures var n := k - row.start; var few, more := row.steps[..n], row.steps[..n + 1];
      && Wh(more) == Wh(few) + row.steps[n].wh && Grid(more) == Grid(few) + row.steps[n].grid
      && Cost(more) == Cost(few) + row.steps[n].cost
      && EnergyFee(more, row.start, tariff) == EnergyFee(few, row.start, tariff) + Cents(row.steps[n].wh, tariff(Hour(k)).energy)
      && ServiceFee(more, row.start, tariff) == ServiceFee(few, row.start, tariff) + Cents(row.steps[n].wh, tariff(Hour(k)).service)
  {
    var n := k - row.start;
    assert row.steps[..n + 1][..n] == row.steps[..n];
    assert row.steps[..n + 1] == row.steps[..n] + [row.steps[n]];
    assert row.start + n == k;
  }

  lemma SampleBelongs(c: nat, k: nat, x: Sample, sessions: seq<Session>, tickets: seq<Ticket>, id: nat)
    requires SampleOk(c, k, x, sessions, tickets)
    requires id < |sessions| && sessions[id].charger == c
    requires sessions[id].start < sessions[id].end <= sessions[id].unplugged
    ensures var row := sessions[id];
      && ((x.session == Some(id) && x.state.Charging?) <==> row.start <= k < row.end)
      && (row.start <= k < row.end ==> Shows(x, row, k))
  {
  }

  /** What is linked so far is what the steps seen so far add up to. */
  ghost predicate Matches(samples: seq<Sample>, row: Session, id: nat, tariff: nat -> Tariff) {
    var seen := row.steps[..Seen(row, |samples|)];
    && Linked(samples, id) == (|seen|, Wh(seen), Grid(seen), Cost(seen))
    && LinkedFees(samples, id, tariff) == (EnergyFee(seen, row.start, tariff), ServiceFee(seen, row.start, tariff))
  }

  lemma OneMoreMatches(samples: seq<Sample>, row: Session, id: nat, tariff: nat -> Tariff)
    requires samples != [] && Matches(samples[..|samples| - 1], row, id, tariff) && |row.steps| == row.end - row.start
    requires row.start < row.end <= row.unplugged
    requires var k := |samples| - 1; var x := samples[k];
      && ((x.session == Some(id) && x.state.Charging?) <==> row.start <= k < row.end)
      && (row.start <= k < row.end ==> Shows(x, row, k))
    ensures Matches(samples, row, id, tariff)
  {
    hide Wh, Grid, Cost, EnergyFee, ServiceFee, Hour, Cents;
    var k := |samples| - 1;
    if row.start <= k < row.end {
      SeenGrows(row, k, tariff);
      assert Seen(row, |samples|) == k - row.start + 1 && Seen(row, k) == k - row.start;
    } else {
      assert Seen(row, |samples|) == Seen(row, k);
    }
  }

  /** Telemetry up to any tick adds up to the steps charged by then. */
  lemma {:induction false} LinkedIsPrefix(c: nat, samples: seq<Sample>, sessions: seq<Session>, tickets: seq<Ticket>,
                                          id: nat, tariff: nat -> Tariff)
    requires SamplesOk(c, samples, sessions, tickets)
    requires id < |sessions| && sessions[id].charger == c
    requires |sessions[id].steps| == sessions[id].end - sessions[id].start
    requires sessions[id].start < sessions[id].end <= sessions[id].unplugged
    ensures Matches(samples, sessions[id], id, tariff)
  {
    if samples != [] {
      var k := |samples| - 1;
      var x, before := samples[k], samples[..k];
      assert SamplesOk(c, before, sessions, tickets) by {
        assert forall i :: 0 <= i < k ==> before[i] == samples[i] && SampleOk(c, i, samples[i], sessions, tickets);
      }
      LinkedIsPrefix(c, before, sessions, tickets, id, tariff);
      assert SampleOk(c, k, x, sessions, tickets);
      SampleBelongs(c, k, x, sessions, tickets, id);
      hide *;
      OneMoreMatches(samples, sessions[id], id, tariff);
    }
  }
}
