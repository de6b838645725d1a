# Charging platform: a verified model

This project models the parts of the charging platform whose correctness is
hardest to see by reading, and proves what they promise.

- **The charging pilot's operational store** (`Pilot*.dfy`). One database row is
  the replay clock and the lock of every transaction, so concurrent workers are a
  sequence of atomic steps. Each step computes the new instant, catches up with
  everything that fell due in between (background releases, lapsed calls,
  reservations and offers, finished charges, and first-come-first-served
  dispatch after each batch of equal instants), and then runs one command from a
  savepoint. `PilotCatchUp` is the event loop, `PilotPolling` its independence
  from when it is called, `PilotBills` what a charge costs, `PilotInvariant` and
  `PilotSafety` what the clock keeps, `PilotCommands` the commands, `PilotWorld`
  and `PilotCommandsKeep` the invariant of the whole store, `PilotRuns`,
  `PilotPayments`, `PilotCharges` and `PilotTheorems` the results, `PilotProgress`
  and `PilotDeadlines` what time alone does and to the instant, `PilotOutcomes` when
  each command is refused and what it writes, `PilotScenarios` runs that end where a
  promise fails, and `PilotStore` the class whose methods change the tables in place
  and are proved to do exactly what those functions say.
- **The paired capacity-insertion experiment** (`Experiment.dfy`): the search
  that looks at finitely many instants, where each policy sends a request, and the
  independence of every choice from the recorded future.
- **The synthetic generator** (`Simulator*.dfy`): sessions, holds, queues,
  repairs and vehicles over ticks, with every random draw arbitrary.
  `SimulatorSession` plans and charges one session, `SimulatorWorld` is the state
  and its steps, `SimulatorChargers`, `SimulatorBooks` and `SimulatorRequests` are
  the invariants of chargers, ledgers and requests, `SimulatorSafety` their
  preservation, `SimulatorPlaces` where requests wait and are served,
  `SimulatorTurns` in which order, `SimulatorOutcomes` what single steps write,
  `SimulatorRuns` the results, and `Simulator` the class.
- **The dirty-data injector** (`DirtyInjection.dfy`) against the cleaning rule
  that must not notice it.
- **Three small cores**: the desktop client's request tracker
  (`ClientRequests.dfy`), the SQL placeholder rewriter (`SqlFormat.dfy`) and the
  sliding-window limiter (`WindowLimiter.dfy`).

State that the program updates in place is modelled twice: as a function from one
state to the next, about which the lemmas speak, and as a class whose methods are
proved to agree with that function.

Instants of the pilot are real milliseconds, and what the program writes with
millisecond precision is cut off the same way. Energy, power and price are exact
reals; kilowatt-hours are stored in units of 1e-8 and money in cents, rounded as
the program rounds. The experiment uses real seconds, the generator whole ticks,
watt-hours and cents.

What the proofs brought out about the program:

- The initial background load (`set_baseline`) takes its count from the chargers
  that are free now, so a station that has both a queue and background load loses
  that load, and a charger stands free beside the queue until the next catch-up.
  `BaselineConserves` says exactly when this happens,
  `PilotScenarios.BaselineCanIdleACharger` is a run from fresh tables in which it
  does. A catalogue load does the same exactly when it raises the capacity of a
  station that has a queue (`InstallConserves`,
  `PilotScenarios.InstallCanIdleACharger`).
- Arguments that are refused before the transaction opens do not even read the
  clock; refusals inside it do (`Execute`). Neither matters to anybody: taken out
  of a run together with all clock reads, they leave the next transaction as it
  was (`OnlySuccessesMatter`).
- Repeating an action at the same instant changes nothing, except after a `start`
  whose meter, read from the start cut off to the millisecond up to the present,
  already shows something; then the repetition stores that reading.
  `RepeatedActsAreIdle` has the condition, which looks only at the trip and the
  clock before the action and can fail only between two milliseconds
  (`FirstReadingOnTheGrid`);
  `PilotScenarios.RepeatedStartReadsTheMeter` is a run in which it does.
- An early stop charges more than was asked for when fewer than 100 Wh were asked
  (`ActualTarget`); in every run at least 500 Wh are asked (`RowsAreValid`).
- The injector reconciles with its log exactly when as many already misformatted
  statuses are misformatted again as misformatted rows are copied
  (`CleaningIsUndisturbed`); `CopyingMisformattedRowsFails` has two rows, one
  `COMPLETED`, one `completed`, that it accepts, corrupts, and then refuses.

## Model

| member | source | states |
|---|---|---|
| PilotPolling.PollingIndependence | data_analysis/chargepilot/store.py:144-148 | any series of clock reads before a given wall instant leaves the trips, meters, stations, log and clock that one read at that instant would |
| PilotPolling.SynchronizeInSteps | data_analysis/chargepilot/store.py:222-263 | catching up to one instant and then to a later one is catching up to the later one at once |
| PilotPolling.CatchUpInSteps | data_analysis/chargepilot/store.py:225-258 | the event loop alone composes in the same way |
| PilotCatchUp.RoundShrinksAgenda | data_analysis/chargepilot/store.py:239-258 | one round takes exactly its batch of equal instants off the set of things that can still fall due and adds nothing to it, so the loop ends |
| PilotCatchUp.RoundsMoveForward | data_analysis/chargepilot/store.py:242-258 | after a round everything still scheduled lies strictly later, so batch instants increase |
| PilotCatchUp.SynchronizeSettles | data_analysis/chargepilot/store.py:222-263 | after a catch-up nothing due is left and no station has both a free charger and a queued trip |
| PilotCatchUp.DispatchConserves | data_analysis/chargepilot/store.py:204-212 | a dispatch leaves no charger free beside a queue |
| PilotSafety.SynchronizeKeeps | data_analysis/chargepilot/store.py:222-263 | a catch-up keeps capacity, turn order, tickets and logs, and moves each trip only along the status graph |
| PilotInvariant.PathsAreShort | data_analysis/chargepilot/store.py:443-450 | a path of the status graph from EN_ROUTE has at most seven entries |
| PilotCommandsKeep.ApplyKeeps | data_analysis/chargepilot/store.py:394-592 | every command keeps the invariant of the whole store |
| PilotRuns.RunKeeps | data_analysis/chargepilot/store.py:85-170 | over every run of commands, clock reads, crashes and catalogue loads the invariant holds, and offers, payments, ledger rows, log entries, finished charges and finished trips are never rewritten |
| PilotRuns.NeverOverbooked | data_analysis/chargepilot/store.py:115-126 | in every reachable state background load plus called, reserved and charging trips fit the station's capacity |
| PilotRuns.NeverOvertaken | data_analysis/chargepilot/store.py:204-212 | calls at a station happen in ticket order over the whole log, and none precedes a smaller ticket that still waits |
| PilotRuns.ServedInOrderOfArrival | data_analysis/chargepilot/store.py:204-212 | of two trips that joined the queue of a station, in the order of the log, once the later one is called the earlier one waits no longer, and if it was called, it was called before |
| PilotRuns.NobodySlipsPast | data_analysis/chargepilot/store.py:458-464 | when an arriving trip got a charger at once, everybody who had queued at the station before it in the log had gone on by then |
| PilotRuns.LogsArePaths | data_analysis/chargepilot/store.py:195-202 | every trip's log is a path from EN_ROUTE to the stored status with at most seven entries |
| PilotRuns.TripsAreExclusive | data_analysis/chargepilot/store.py:401-416 | a recommendation leads to at most one trip and a user has at most one unfinished trip |
| PilotRuns.DeadlinesAreAhead | data_analysis/chargepilot/store.py:195-202 | a call deadline exists exactly while called, a reservation deadline exactly while reserved, and neither they nor, on the way and in the queue, the trip's reward expiry have been reached |
| PilotRuns.PointsConserved | data_analysis/chargepilot/store.py:506-509 | a user's points are the sum of the user's ledger rows |
| PilotRuns.PaymentsMatchTrips | data_analysis/chargepilot/store.py:484-511 | payments correspond one to one with completed trips at the metered amount, and every award of a run went to a charge that cost something, was long and large enough and was paid before its reward expired, within what the saved offer promised for that station |
| PilotPayments.EveryPaymentHasItsMoment | data_analysis/chargepilot/store.py:484-511 | every payment of a run was made by one `pay` of its trip at the replay time of that step, for the metered amount; the trip was then, and still is, awarded what was promised as far as the budget went for the rows between the two local midnights around that time, if something was paid for a charge long and large enough while its reward lasted, and nothing otherwise; the stored outcome names the first condition that was not met |
| PilotPayments.DaysTurnAtMidnight | data_analysis/chargepilot/store.py:500-503 | two awards of a run count towards one day exactly when no midnight eight hours east of UTC (16:00 UTC) lies after the earlier one and not after the later |
| PilotPayments.NoDayExceedsTheBudget | data_analysis/chargepilot/store.py:500-505 | the points of the awards of a run between one such midnight and the next sum to at most the largest budget ever configured |
| PilotCharges.EveryStopHasItsMoment | data_analysis/chargepilot/store.py:472-474 | every charge of a run stopped by hand has its `stop`, at which it was charging; its duration, energy and cents are those of the time from the stored start to that instant at the power of its station, up to its target, and no later step changes them |
| PilotCharges.EveryPaymentIsForItsCharge | data_analysis/chargepilot/store.py:484-487 | every payment of a run is what its meter shows, for the energy of the saved offer at the price quoted for the station: the whole target when the charge ended by itself, and otherwise as just said of its `stop` |
| PilotCharges.MetersShowTheCharge | data_analysis/chargepilot/store.py:259-262 | after every catch-up each running meter shows the time, energy and cents from its stored start to the present, up to its target |
| PilotPayments.PaymentsAreFair | data_analysis/chargepilot/store.py:214-220 | every payment of a run is at most what the energy of the saved offer costs at the price quoted for the station, and exactly that when the charge ended by itself |
| PilotRuns.BudgetOverRuns | data_analysis/chargepilot/store.py:500-505 | over a run no day's awards exceed the largest budget ever configured, a day being the number stored with the row |
| PilotTheorems.CommandsIgnorePolls | data_analysis/chargepilot/store.py:135-153 | clock reads before a command do not change what it leaves behind, whether it succeeds or is refused |
| PilotTheorems.OnlySuccessesMatter | data_analysis/chargepilot/store.py:135-170 | deleting every clock read and every refused or failed command from a run, at wall readings that do not decrease, changes neither what the next transaction finds nor what it leaves |
| PilotTheorems.CommandsConserve | data_analysis/chargepilot/store.py:436-592 | every command but the initial load leaves no charger free beside a queue |
| PilotTheorems.TransactionsConserve | data_analysis/chargepilot/store.py:135-153 | every transaction but the initial load changes nothing or leaves no charger free beside a queue, whatever state it starts from |
| PilotTheorems.InstallConserves | data_analysis/chargepilot/store.py:115-126 | a catalogue load leaves no charger free beside a queue if and only if it raises the capacity of no station that has one |
| PilotTheorems.BaselineConserves | data_analysis/chargepilot/store.py:513-530 | the initial load leaves no charger free beside a queue if and only if no listed station has both a queue and background load |
| PilotScenarios.BaselineCanIdleACharger | data_analysis/chargepilot/store.py:513-530 | a run from fresh tables whose last transaction is an initial load that leaves a charger free beside a queue |
| PilotScenarios.InstallCanIdleACharger | data_analysis/chargepilot/store.py:115-126 | the same run followed by a catalogue with a second charger, which stays free beside the queue |
| PilotTheorems.ArrivalsDoNotOvertake | data_analysis/chargepilot/store.py:453-482 | a transaction that lets a trip arrive gives it a charger exactly when the catch-up left one free, and then nobody was queued; otherwise it queues behind everybody, and no other trip moves |
| PilotTheorems.LapsedClaimsAreDead | data_analysis/chargepilot/store.py:448-471 | only a call or reservation whose deadline is still ahead can be confirmed or started |
| PilotTheorems.RepeatIsClockRead | data_analysis/chargepilot/store.py:443-447 | repeating a successful action at the same instant succeeds and only reads the meters |
| PilotTheorems.RepeatChangesNothing | data_analysis/chargepilot/store.py:436-482 | right after a catch-up, an action that succeeded succeeds again and changes nothing, if and only if it did not start a charge whose meter shows something at once |
| PilotTheorems.RepeatedActsAreIdle | data_analysis/chargepilot/store.py:436-482 | sending any action twice at the same instant leaves the store as sending it once does, however the first ended, under exactly that condition |
| PilotScenarios.RepeatedStartReadsTheMeter | data_analysis/chargepilot/store.py:468-471 | a run from fresh tables that ends in a start whose repetition at the same instant changes the meter |
| PilotBills.BillsAreFair | data_analysis/chargepilot/store.py:214-220 | bills never decrease with time, never exceed the target's price, and equal it once the target is reached |
| PilotBills.ChargesSteadily | data_analysis/chargepilot/store.py:214-216 | until its target a charge delivers at a constant rate: equal shares of the charge time bring equal shares of the target, as the power of the station gives them |
| PilotBills.ReadingIsBilledTo | data_analysis/chargepilot/store.py:214-219 | a meter read at any instant shows the time since the stored start, but no more than reaches the target, what the power delivers in it, and its price, each to the nearest unit with ties as the program breaks them |
| PilotBills.FinishedBill | data_analysis/chargepilot/store.py:253-257 | a charge that finishes by itself leaves exactly the meter of its target, whenever anybody looks |
| PilotProgress.TripsEndByThemselves | data_analysis/chargepilot/store.py:222-263 | with no command, any clock reads end every unfinished trip by an instant that can be read off its row: a charge then awaits payment of exactly its target, anything else has expired |
| PilotProgress.RunningClocksEndTrips | data_analysis/chargepilot/store.py:146-148 | a clock that is not paused gets there |
| PilotDeadlines.DeadlinesAreExact | data_analysis/chargepilot/store.py:222-263 | nothing ends early or late: left to any clock reads, a trip on the way, called or reserved is as it was until exactly the deadline in its row and expired, as of that instant, from then on; a queued one besides may have been called, with the configured time to confirm; a charge runs, with its meter read, until power times time is its target and ended at that instant |
| PilotDeadlines.LoadsLastUntilRelease | data_analysis/chargepilot/store.py:225-246 | left to the clock, background load is whole until its release and gone from then on |
| PilotDeadlines.ReservationsLast | data_analysis/chargepilot/store.py:458-467 | a reservation, confirmed or granted on arrival, is stored until that instant plus the configured time, cut off to the millisecond, and, left alone, lapses exactly then |
| PilotOutcomes.ArgumentsAreChecked | data_analysis/chargepilot/store.py:532-583 | which arguments are refused before the transaction opens, and with which error |
| PilotOutcomes.OffersAreKept | data_analysis/chargepilot/store.py:349-392 | a new offer is kept exactly when its candidates are in order, with distinct stations and ranks, it expires within a day and its energy is in range; then with the terms in force, and for the first and second rank the configured reward times the multiplier, to the nearest even point |
| PilotOutcomes.SelectionsBegin | data_analysis/chargepilot/store.py:394-434 | a first selection from a user's own offer succeeds exactly when the offer is alive, the station an eligible candidate and no other trip of the user unfinished; the trip begins with the offer's terms and the candidate's price and reward, not expected before the drive is over |
| PilotOutcomes.SelectionsAreUnique | data_analysis/chargepilot/store.py:394-416 | a second selection from an offer finds the first trip, or is refused for another station |
| PilotOutcomes.ActionsAreAnswered | data_analysis/chargepilot/store.py:436-482 | for every status and action: carried out, answered as already done, or refused; only an arrival can be too early |
| PilotOutcomes.StrangersAreRefused | data_analysis/chargepilot/store.py:436-442 | nobody acts on a trip that is not theirs, and an unknown user on none |
| PilotOutcomes.BackgroundIsAsAsked | data_analysis/chargepilot/store.py:532-543 | a background load is set as asked, until the present plus the delay, unless it would displace a trip's charger |
| PilotOutcomes.BaselineIsAsReported | data_analysis/chargepilot/store.py:513-530 | the initial load is taken exactly when every line is in order; then a listed station has as many chargers busy as its last line reports taken and the present leaves free, until the reported release, and every other station is as it was |
| PilotOutcomes.PatchesAreChecked | data_analysis/chargepilot/store.py:545-566 | a patch is applied exactly when every setting of it is well-formed and in range |
| PilotOutcomes.SettingsTakeEffect | data_analysis/chargepilot/store.py:545-568 | a setting that no later one of the patch overrides is in force afterwards |
| PilotOutcomes.OtherSettingsStay | data_analysis/chargepilot/store.py:545-568 | a field the patch does not name is as it was |
| PilotOutcomes.CataloguesAreLoaded | data_analysis/chargepilot/store.py:105-130 | a catalogue is loaded exactly when every row is in range and leaves room for what is there; then each station has the capacity, power and price of its last row, and keeps its load |
| PilotStore.ChargePilotStore.Initialize | data_analysis/chargepilot/store.py:115-130 | loads the whole catalogue, or nothing when one row is malformed or would displace allocations |
| PilotStore.ChargePilotStore.Execute | data_analysis/chargepilot/store.py:135-170 | one transaction: everything on success, the catch-up alone on a domain error raised inside, nothing on an argument refused beforehand or any other failure |
| PilotStore.ChargePilotStore.Progress | data_analysis/chargepilot/store.py:144-148 | the clock advance, speed times wall time unless paused, and the catch-up that precede every command |
| PilotStore.ChargePilotStore.Transition | data_analysis/chargepilot/store.py:195-202 | a status change clears the deadlines of other statuses and appends one log entry |
| PilotStore.ChargePilotStore.Waiting | data_analysis/chargepilot/store.py:208-209 | the queue of a station in ticket order |
| PilotStore.ChargePilotStore.DispatchStation | data_analysis/chargepilot/store.py:206-212 | calls the first queued trips, as many as chargers are free |
| PilotStore.ChargePilotStore.Dispatch | data_analysis/chargepilot/store.py:204-212 | the same for every station |
| PilotStore.ChargePilotStore.Settle | data_analysis/chargepilot/store.py:244-257 | releases background load, expires a lapsed claim, or finishes a charge with its final bill |
| PilotStore.ChargePilotStore.SettleBatch | data_analysis/chargepilot/store.py:242-258 | one round: everything due at the earliest instant, then a dispatch |
| PilotStore.ChargePilotStore.DueBy | data_analysis/chargepilot/store.py:225-240 | everything that is due by now: releases, lapsed deadlines, finished charges |
| PilotStore.ChargePilotStore.CatchUpTo | data_analysis/chargepilot/store.py:225-258 | the event loop runs every round up to the present |
| PilotStore.ChargePilotStore.ReadMeters | data_analysis/chargepilot/store.py:259-262 | reads the meter of every running charge: its time, energy and cents from its stored start to the present, up to its target |
| PilotStore.ChargePilotStore.Synchronize | data_analysis/chargepilot/store.py:222-263 | the whole catch-up |
| PilotStore.ChargePilotStore.SaveRecommendation | data_analysis/chargepilot/store.py:349-392 | stores a checked offer once, with rewards computed from the configuration and the reward terms frozen; malformed identifiers, times and candidates are refused in the program's order |
| PilotStore.ChargePilotStore.CheckCandidates | data_analysis/chargepilot/store.py:367-383 | the first error of the candidate list, if any |
| PilotStore.ChargePilotStore.Select | data_analysis/chargepilot/store.py:394-434 | creates the one trip of a live offer, or returns it, or refuses |
| PilotStore.ChargePilotStore.Arrive | data_analysis/chargepilot/store.py:453-464 | reserves a free charger when nobody waits, or queues with the next ticket |
| PilotStore.ChargePilotStore.PayFor | data_analysis/chargepilot/store.py:484-511 | writes the payment, the verdict, and for an award the ledger row, with the local day of the present, and the points |
| PilotStore.ChargePilotStore.Perform | data_analysis/chargepilot/store.py:453-480 | the effect of each of the six actions; a stop bills the time from the stored start to the present, a confirmation holds for the configured time |
| PilotStore.ChargePilotStore.Act | data_analysis/chargepilot/store.py:436-482 | checks user, trip and status, performs the action, and dispatches |
| PilotStore.ChargePilotStore.SetBaseline | data_analysis/chargepilot/store.py:513-530 | the initial load, once, all stations or none |
| PilotStore.ChargePilotStore.SetBackground | data_analysis/chargepilot/store.py:532-543 | sets a station's background load unless it would displace a trip, and dispatches |
| PilotStore.ChargePilotStore.SetConfiguration | data_analysis/chargepilot/store.py:545-568 | applies every setting of a patch, scoring weights included, or none |
| PilotStore.ChargePilotStore.ControlClock | data_analysis/chargepilot/store.py:590-592 | sets speed and pause |
| PilotStore.ChargePilotStore.Forward | data_analysis/chargepilot/store.py:588-589 | advances the replay clock with a catch-up |
| Experiment.ChecksSuffice | data_analysis/chargepilot/experiment.py:121-138 | passing at the start, at each five-minute boundary and at each allocation edge inside the interval is equivalent to having room at every instant of it |
| Experiment.Feasible | data_analysis/chargepilot/experiment.py:122-138 | the checks accept a candidate exactly when every instant of it has room |
| Experiment.Search | data_analysis/chargepilot/experiment.py:120-143 | the first of the 25 candidate starts with room throughout, or none |
| Experiment.CapacityHolds | data_analysis/chargepilot/experiment.py:81-154 | after any requests, at every station and instant, own charging stays within what the background leaves |
| Experiment.ChoicesIgnoreTheFuture | data_analysis/chargepilot/experiment.py:81-154 | for any two recordings of the future the leases are the same, and every request gets the same rank and drive |
| Experiment.StationsIgnoreTheFuture | data_analysis/chargepilot/experiment.py:83-117 | and every request is sent to the same station |
| Experiment.EveryRequestIsHandled | data_analysis/chargepilot/experiment.py:83-154 | every request is sent to the nearest ranked station, ties by identifier, or, under the incentive with a draw below 0.8, to the planner's first; the row has that station's rank and drive; it leaves a lease two hours and the charge after its arrival whatever happens, takes the first of 25 five-minute starts with room at every instant of the charge or none, and its waiting, total, immediate availability and reward follow from that |
| Experiment.OnlyRoutesWithinTheHour | data_analysis/chargepilot/experiment.py:85-97 | a recommendation sees exactly the routes of at most an hour, in order, and of other users only the number of leases that have not run out |
| Experiment.PoliciesDifferByTheIncentive | data_analysis/chargepilot/experiment.py:81-154 | when no draw is below 0.8 the two policies give the same leases, slots and decisions, and the same rows except for rewards |
| Experiment.LeasesCoverOccupancy | data_analysis/chargepilot/experiment.py:97-97 | the outstanding leases a recommendation sees are at any instant at least the chargers earlier users hold |
| Experiment.BusyIsAShare | data_analysis/chargepilot/experiment.py:165-178 | utilization lies between zero and one |
| Experiment.BusyCountsBoth | data_analysis/chargepilot/experiment.py:165-174 | the busy total is what the background takes at each sample plus, for every allocation, the number of samples that fall into it |
| Experiment.Audit | data_analysis/chargepilot/experiment.py:156-174 | the two capacity assertions and the busy total of a station |
| Experiment.Simulate | data_analysis/chargepilot/experiment.py:81-178 | one policy over all requests, handled as above; neither capacity assertion fires, and the busy totals are over 144 samples |
| SqlFormat.MysqlParameters | data_analysis/backend/database.py:32-75 | the look-ahead scanner computes what a lexer reading one character at a time translates |
| SqlFormat.TranslationMeansTheSame | data_analysis/backend/database.py:32-75 | expanding the rewritten text with the format rule gives the original with exactly its code question marks replaced in order, and any other number of values is refused |
| SqlFormat.TranslationIsReversible | data_analysis/backend/database.py:32-75 | filling every placeholder with a question mark gives back the original text |
| SqlFormat.PlaceholdersSplit | data_analysis/backend/database.py:41-74 | what a piece of text becomes depends only on the lexical state the text before it leaves |
| SqlFormat.ShortestComment | data_analysis/backend/database.py:46-64 | the star that opens a block comment may also close it |
| SqlFormat.LineCommentsShield | data_analysis/backend/database.py:42-44 | a comment from two dashes or a hash to the end of its line holds no placeholder |
| SqlFormat.BlockCommentsShield | data_analysis/backend/database.py:45-50 | a block comment up to its first end holds none |
| SqlFormat.LiteralsShield | data_analysis/backend/database.py:51-61 | a literal in any of the three quotes, with escapes and doubled quotes, holds none |
| SqlFormat.PlainTextIsCode | data_analysis/backend/database.py:68-71 | where neither a comment nor a literal can begin, every question mark is a placeholder |
| WindowLimiter.Limiter.Check | data_analysis/chargepilot/app.py:84-96 | one call: sweep when a new key finds the table full, prune, accept or refuse |
| WindowLimiter.AgreesWithHistory | data_analysis/chargepilot/app.py:84-96 | a call is accepted exactly when the table has room for its key and fewer than the maximum of all calls ever accepted lie in the last period |
| WindowLimiter.TableIsBoundedAndComplete | data_analysis/chargepilot/app.py:87-93 | at most 4096 keys are kept and none whose calls still count is missing |
| WindowLimiter.NoWindowOverflows | data_analysis/chargepilot/app.py:92-96 | no window of one period, wherever it lies, holds more accepted calls of a key than its maximum |
| ClientRequests.EveryRequestHasOneFate | client/network/client_connection.cpp:37-76 | under any interleaving an issued request is in exactly one of waiting, about to fail, failed or answered, so it gets at most one terminal signal |
| ClientRequests.QuietClientsHaveAnswered | client/network/client_connection.cpp:209-240 | once nothing waits and nothing is scheduled every request has had exactly one terminal signal |
| ClientRequests.WireFollowsIssue | client/network/client_connection.cpp:182-207 | frames are written at most once each and in order of issue, and every waiting unsent request is still queued |
| ClientRequests.AnswersFitTheirRequests | client/network/client_connection.cpp:145-163 | a response is delivered only for a request of the same type |
| ClientRequests.NothingWaitsOffline | client/network/client_connection.cpp:106-116 | no request waits while the socket is unconnected |
| ClientRequests.EventsAreSignalledOnce | client/network/client_connection.cpp:127-137 | over a run there are as many event signals as well-formed event payloads were read |
| ClientRequests.FailuresHaveTheirCause | client/network/client_connection.cpp:209-250 | every failure, scheduled or signalled, carries the cause of the step that dropped its request: encoding, its own timeout, the connection, or the protocol |
| ClientRequests.ConnectionsAreAnnounced | client/network/client_connection.cpp:99-116 | observers hear of the connection coming up and being lost in turn, and what they heard last is true |
| ClientRequests.BrokenLinksLeaveNothingWaiting | client/network/client_connection.cpp:83-87 | when the connection is given up, lost, in error or unreadable, nothing of it waits any longer |
| ClientRequests.BatchesAreRuns | client/network/client_connection.cpp:127-164 | reading a batch of payloads is reading them one by one up to the first that closes the connection |
| ClientRequests.RunKeeps | client/network/client_connection.cpp:37-250 | the tracker's invariant over every run |
| ClientRequests.ClientConnection.SendRequest | client/network/client_connection.cpp:37-76 | issues, queues, and writes or connects; an encoding failure is only scheduled |
| ClientRequests.ClientConnection.SendPendingRequests | client/network/client_connection.cpp:182-207 | writes the queue in order; a short write fails everything and aborts |
| ClientRequests.ClientConnection.FailRequest | client/network/client_connection.cpp:209-231 | drops one waiting request and schedules its failure |
| ClientRequests.ClientConnection.FailAllRequests | client/network/client_connection.cpp:233-240 | drops every waiting request and empties the queue |
| ClientRequests.ClientConnection.HandleReadyRead | client/network/client_connection.cpp:118-165 | answers, ignores unknown identifiers, and closes on an unreadable frame, payload or type |
| ClientRequests.ClientConnection.HandleDisconnected | client/network/client_connection.cpp:106-116 | fails the old connection's requests before observers hear of the loss |
| ClientRequests.ClientConnection.DisconnectFromServer | client/network/client_connection.cpp:83-87 | fails everything and aborts |
| ClientRequests.ClientConnection.HandleSocketError | client/network/client_connection.cpp:167-173 | fails everything that waits |
| DirtyInjection.CleaningIsUndisturbed | data_analysis/charging_data/inject_dirty.py:172-243 | cleaning the corrupted batch gives the sessions cleaning the original gave, and its counts reconcile with the log and manifest exactly when as many misformatted statuses are misformatted again as misformatted rows are copied |
| DirtyInjection.InjectionSucceedsExactly | data_analysis/charging_data/inject_dirty.py:150-273 | when the injector succeeds, that it then preserves the sessions, and that its canonical count never differs |
| DirtyInjection.RefusalsAreExplained | data_analysis/charging_data/inject_dirty.py:164-238 | an accepted batch is refused before the result is checked exactly when one of the names of as many corruptions as rows were drawn is in its log already, or a drawn row is to have an unknown station while the sentinel is a known one |
| DirtyInjection.OnlyUntouchedSessionsAreCorrupted | data_analysis/charging_data/inject_dirty.py:164-243 | the injector adds exactly one log entry for every session that no input entry names and whose first valid row was drawn, with the kind drawn, and none for any other; and exactly those rows are spoiled or followed by a corrupted copy, all others and the old log being as they were |
| DirtyInjection.FormattedRowsReconcile | data_analysis/charging_data/inject_dirty.py:219-224 | statuses in format on all chosen rows suffice for the counts to reconcile |
| DirtyInjection.CopyingMisformattedRowsFails | data_analysis/charging_data/inject_dirty.py:226-239 | a batch of two rows that the validator accepts whatever their other columns, and whose corruption it then refuses |
| DirtyInjection.InjectionTallies | data_analysis/charging_data/inject_dirty.py:219-239 | after any number of rows both tables clean to the same sessions, with the counts of each kind apart by what was planned |
| DirtyInjection.MisformattingIsInvisible | data_analysis/charging_data/inject_dirty.py:223-224 | spoiling a status keeps its normal form and is always noticed |
| DirtyInjection.CanonicalSessions | data_analysis/charging_data/behavior_audit.py:116-151 | the cleaning cohort with its counts reconciled, or the first reason for refusal |
| DirtyInjection.CleaningKeepsWhatCounts | data_analysis/charging_data/behavior_audit.py:116-151 | cleaning keeps one row, with a normal status, for each session with a row that has an identifier, a known station and no negative fee, counts every other row by what is wrong with it, and is refused exactly when two rows of one session disagree |
| DirtyInjection.BatchesAreAudited | data_analysis/charging_data/behavior_audit.py:116-151 | a batch is accepted exactly when no rows disagree, its log names such sessions and the action for each kind, the counts of table, log and manifest agree for every kind, and the manifest has the number of sessions |
| DirtyInjection.Select | data_analysis/charging_data/inject_dirty.py:164-191 | the operations on the first valid rows, drawn, of sessions that the log does not name, one each, or a corruption identifier that collides |
| DirtyInjection.Rewrite | data_analysis/charging_data/inject_dirty.py:218-239 | the corrupted table, or a sentinel station that exists |
| DirtyInjection.InjectDataset | data_analysis/charging_data/inject_dirty.py:150-273 | validation, selection, rewriting, and validation of the result; a result corrupts the drawn first rows of untouched sessions once and nothing else |
| SimulatorSession.PlanIsBounded | data_analysis/charging_data/behavior.py:107-142 | a plan asks for between 500 Wh, or what is left, and what is left, and lasts 6 to 168 ticks |
| SimulatorOutcomes.PlansAreAsWished | data_analysis/charging_data/behavior.py:107-142 | a plan charges to a wish between 85 and 95 percent at a slow charger and between 76 and 89 or a little above the present at a fast one, and lasts the drawn stay, over night at home until a morning between seven and nine; at offices and campuses both are as measured |
| SimulatorSession.Charge | data_analysis/charging_data/generator.py:315-344 | the charging loop: at most the target, at least one watt-hour a step, up to the target or the limit, with every total the sum of its steps |
| SimulatorSession.EveryStepIsExact | data_analysis/charging_data/generator.py:321-335 | each step gives what full power gives in five minutes in whole watt-hours, at least one and at most what is still wanted, draws it from the grid at 92 or 95 percent, rounded up, and costs the hour's price to the nearest cent |
| SimulatorSession.ActualTarget | data_analysis/charging_data/generator.py:312-314 | only an early stop departs from the request, and stays below it exactly when more than 100 Wh were asked |
| SimulatorBooks.SessionIsOk | data_analysis/charging_data/generator.py:345-367 | the row satisfies the rules on times, energy, target, stop reason, fees, discount and power, names its request, and starts from the battery as it was, which can take its energy |
| SimulatorOutcomes.JobsAreAsPlanned | data_analysis/charging_data/generator.py:307-333 | what a session charges for, how long at most and with what power, for each anomaly |
| SimulatorOutcomes.RowsSayWhatWasPlanned | data_analysis/charging_data/generator.py:345-367 | the times, stay, parking fee, discount and total of a session's row |
| SimulatorOutcomes.StopsAreExplained | data_analysis/charging_data/generator.py:311-347 | why a session ended |
| SimulatorBooks.RefreshKeepsPacks | data_analysis/charging_data/generator.py:233-264 | an interval away from the chargers conserves energy, stays between reserve and capacity, drives the whole wish when the battery above its reserve allows it, and charges elsewhere exactly when it does not and half a day has passed, in half packs and no more than the wish takes |
| SimulatorRuns.EveryRequestIsFinalisedOnce | data_analysis/charging_data/generator.py:564-606 | every request of a run is finalised exactly once and no hold or queue is left over |
| SimulatorRuns.NoUserWaitsTwice | data_analysis/charging_data/generator.py:468-481 | at no tick does a user have two open requests |
| SimulatorRuns.NoRunRaises | data_analysis/charging_data/behavior.py:109-113 | no session is planned for a battery that cannot take it |
| SimulatorRuns.SessionsAnswerRequests | data_analysis/charging_data/validate.py:242-245 | a session and the finalisation of its request name each other and agree on user, charger and station |
| SimulatorRuns.RowsAreValid | data_analysis/charging_data/validate.py:232-297 | every row meets those rules, its rounded percentages of charge stay in range and agree with its energy within the validator's tolerance, and every campaign stays within its budget |
| SimulatorRuns.TelemetryMatchesSessions | data_analysis/charging_data/validate.py:575-629 | each session has one charging sample per tick from start to end and no other, and their energy, grid energy, cost and hourly fees sum to the row |
| SimulatorRuns.TelemetryStaysWithinPower | data_analysis/charging_data/validate.py:553-583 | no charging interval exceeds charger or car |
| SimulatorRuns.StationsStayWithinPower | data_analysis/charging_data/validate.py:531-538 | at every tick a station draws at most what its chargers are rated for, in the generated network at most 187 of the transformer's 360 kW |
| SimulatorRuns.MetersAndRepairs | data_analysis/charging_data/validate.py:563-607 | each meter is the running total from zero, intervals that do not charge draw nothing, and no repair interval belongs to a session |
| SimulatorRuns.NothingOverlaps | data_analysis/charging_data/validate.py:283-339 | sessions of one charger or one vehicle never overlap, and no session overlaps a repair of its charger |
| SimulatorRuns.HoldsOverlapNothing | data_analysis/charging_data/generator.py:553-584 | after every tick a held charger has no session, its earlier sessions and repairs are over, and the hold is not overdue |
| SimulatorTurns.FirstComeFirstServed | data_analysis/charging_data/generator.py:564-584 | after every tick each queue is in the order in which its requests came, and whoever has been called from it to a charger came before everybody who still waits for that station |
| SimulatorTurns.NobodyIsPassedOver | data_analysis/charging_data/generator.py:576-584 | of two requests of one station the later one is never called while the earlier one still waits |
| SimulatorTurns.NobodyWaitsBesideAFreeCharger | data_analysis/charging_data/generator.py:576-584 | until the last hour no charger of a station is free after a tick while somebody waits there |
| SimulatorTurns.NobodyWaitsTooLong | data_analysis/charging_data/generator.py:565-574 | after every tick whoever waits still has patience |
| SimulatorTurns.CallsAreAnsweredNext | data_analysis/charging_data/generator.py:559-583 | after every tick each call from a queue is due at the next one |
| SimulatorOutcomes.TheFirstSuitableComes | data_analysis/charging_data/generator.py:463-475 | of the candidates looked at the first comes that is unlocked, interested and below 85 percent |
| SimulatorOutcomes.ArrivalsComeFromThirty | data_analysis/charging_data/generator.py:450-507 | nobody comes in the last two hours; otherwise one of the first thirty candidates, whose request fails, reserves, starts, queues or leaves as drawn |
| SimulatorOutcomes.SamplesShowTheCharger | data_analysis/charging_data/generator.py:509-542 | a charger is sampled as available exactly when it is free, as reserved when it is held, and its meter counts what it delivers |
| SimulatorRuns.LedgersConserveEnergy | data_analysis/charging_data/validate.py:458-514 | each vehicle's ledger conserves energy at every entry, stays between reserve and capacity, never overlaps itself, drives and charges elsewhere as its wish and battery allow, its rounded percentages pass the validator's tolerance, and its stays are the run's sessions, which start from the battery as the ledger left it |
| Simulator.Simulator.FinalizeRequest | data_analysis/charging_data/generator.py:266-272 | ends a request, at a charger or not, and without a session locks its user for three ticks |
| Simulator.Simulator.RefreshVehicle | data_analysis/charging_data/generator.py:233-264 | the step of the vehicle ledger |
| Simulator.Simulator.StartSession | data_analysis/charging_data/generator.py:301-407 | plans, charges, prices and books a session, or fails the request at the period's end |
| Simulator.Simulator.ChargeSession | data_analysis/charging_data/generator.py:307-367 | the row of a session |
| Simulator.Simulator.ResolveHold | data_analysis/charging_data/generator.py:409-426 | a hold ends in a session or in the request's finalisation |
| Simulator.Simulator.Service | data_analysis/charging_data/generator.py:557-563 | a charger's turn: departure, due hold, repair |
| Simulator.Simulator.GiveUp | data_analysis/charging_data/generator.py:565-574 | requests whose patience has run out leave in order |
| Simulator.Simulator.Call | data_analysis/charging_data/generator.py:576-584 | queue heads are called to free chargers, in turn and as many as there are |
| Simulator.Simulator.NewRequest | data_analysis/charging_data/generator.py:450-507 | an arrival fails, reserves, starts, queues or leaves |
| Simulator.Simulator.Telemetry | data_analysis/charging_data/generator.py:509-542 | one sample and the meter |
| Simulator.Simulator.Run | data_analysis/charging_data/generator.py:544-606 | the whole run |

## Left out

- PilotRuns.BudgetOverRuns: starts from tables within the limit; the budget of a day may be lowered below what was already awarded, and then nothing more is awarded that day.
- PilotStore.ChargePilotStore.SaveRecommendation: city, origin and the explanatory fields of a candidate are not kept; an identifier is any number, a malformed one is `None`.
- PilotStore.ChargePilotStore.SetConfiguration: a setting arrives as a tagged value; which JSON shapes are malformed is not modelled beyond numbers and ranges.
- PilotStore.ChargePilotStore.ControlClock: unknown fields and actions of a clock command.
- Experiment.Simulate: the recorded background is total; the program aborts when an interval leaves the recorded period. Quantities are exact, without rounding to microseconds.
- DirtyInjection.MisformattingIsInvisible: characters outside ASCII have no case and are not blank.
- DirtyInjection.InjectDataset: of the validator's rules for cleaned sessions only the status words are spelled out; the others are an arbitrary predicate on those sessions, and its rules for tables the injector copies are left out.
- SimulatorBooks.SessionIsOk: the payment status, whether the user had registered, and the connector and site relations of the static tables are not in the row.
- SimulatorRuns.RowsAreValid: the same; a vehicle is identified with its user.
- SimulatorRuns.StationsStayWithinPower: power is exact, without the validator's rounding allowance.
- DirtyInjection.InjectionSucceedsExactly: corruption identifiers are any function of the operation's number that never repeats.
- SimulatorBooks.RefreshKeepsPacks: the driving wish between two ticks is an arbitrary non-negative amount.
- The pilot's floating-point rounding: energy, prices and instants are exact, and amounts are rounded once where the program rounds.
- User names, session tokens and their expiry by wall time; a user is an identifier that has been created.
- City names, origins, and the waiting minutes stored for reports: nothing modelled depends on them. The six scoring weights are checked and stored; scoring itself is not modelled.
- Ordering of two queued trips with equal ticket numbers and of trips by their table sequence: tickets are proved distinct.
- The pilot's read-only projections (`me`, `stations`, `admin`, `feedback`): clock reads with a view.
- Random identifiers of the pilot: a new trip's identifier is an argument, and one that exists is refused as any other failure.
- MySQL itself, drivers, DDL and locks: a transaction is one atomic step.
- Prediction, routing and scoring: the experiment's planner is an arbitrary deterministic function of what a request may see.
- The other statistics of the experiment's report.
- The limiter's lock, and callers with different window lengths: every caller uses the default.
- Frame encoding, JSON parsing, timers and sockets of the client: payloads arrive decoded, a timeout may happen at any time, and the socket accepts any number of frames.
- Failure messages and server error codes of the client, apart from the four causes.
- Files, hashes, previews, manifests and table partitions of the injector and the generator; the injector's dataset names.
- Rows of tables other than sessions that the generator writes for reports: payments, refunds, reviews, battery samples, daily and hourly summaries, queue and reservation rows, maintenance events.
- The generator's own corruption of one session in some: the injector's five corruptions are modelled instead.
- The generator's demand, weather and charging-curve formulas: arbitrary draws and an arbitrary derating between zero and one.
- The floating-point percentage the generator carries beside a battery's energy: it is computed from the watt-hours, which are exact.
