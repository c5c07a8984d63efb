# AetherRelay delivery engine: a verified model

AetherRelay accepts webhooks, stores them in SQLite and delivers them downstream
with a background worker. This project models the part of it that decides what
happens to an accepted event: the event queue and its tables, the dispatch worker
and its loop, the circuit breaker of each endpoint, the backoff, the dead-letter
queue with replay, the accepting and deleting transactions, and, beside them, the
verification of a Stripe signature header.

Two machines carry the main results.

* The *delivery machine* (`DeliveryMachine`, `RunRecords`, `Answers`, `Forensics`,
  `Provenance`, `QueueRefinement`, `Fifo`, `Drain`, `Sleeps`) takes whole calls as steps:
  create and delete an endpoint, accept an event, replay a dead letter, one pass of the
  worker with any answer from downstream. One worker runs, as `src/main.rs:58` starts one
  loop. Each step carries what it takes from outside: new identifiers, clock readings,
  the downstream's answer. A run is any sequence of enabled steps from the empty
  database, and its record lists what was registered, accepted, contacted with what
  answer, finished, replayed and dropped.
* The *statement machine* (`StatementMachine`, `Leases`, `ProbeSlots`, `ProbeWatch`,
  `FaultFree`, `ReplayRace`, `StatementLedger`, `Accounts`, `FaultBudget`,
  `StatementBudget`, `SplitBudget`, `DeliveredEvents`, `StatementProvenance`,
  `StatementAnswers`, `Progress`) takes single SQL statements as steps, for any number of
  workers, each with a program counter. Any worker statement may fail, and the requeue
  that follows may fail too: a ghost set `stranded` collects the events for which it did.
  Replays run whole or statement by statement. `SoloPasses`, `SoloReplays` and
  `Simulation` tie the two machines together.

Where a promise does not hold in general, a theorem says exactly when it does, and a
run that breaks it is built from the empty database, for every configuration it concerns:
`ReplayOverlap`, `StaleCount` and `DeliveredAgain` (interleaved replays), `FaultRuns`
(storage faults), `ProbeOverlap` (two probes at once), `ClockSetBack` (order of arrival)
and `NoPause` (deferrals that let no time pass). `Reachability` and `Exhaustion` serve
these runs.

The operations themselves are imperative, as in the source: `Storage.Store` updates
its tables in place, `CircuitBreakers.CircuitBreaker` and
`Dispatching.SharedBreakers` are mutable objects, `Dispatching.RunDispatchOnce` and
`Drain.RunDispatchLoop` drive them, `StripeHeaders.ParseHeader` and
`StripeSignatures.Verify` are loops. Each is proved equal to a function of the old
state, and the lemmas are about those functions. What those functions mean is said once
more without them, in the terms of the outside world: by `Answers` and
`StatementAnswers` what an answer from downstream does to breaker and tables, by
`BreakerCycle` how failures open a breaker, by `StripeBlanks` what a header's characters
mean.

Conventions. Identifiers and times are natural numbers (milliseconds for the
monotone clock); only the order and the freshness of identifiers matter. B is the
effective retry budget, the larger of 1 and `max_attempts`; T is the effective
threshold, the larger of 1 and `failure_threshold`; R is the recovery time. A
random draw is any value of its range. Verify with `dafny verify dfyconfig.toml`.

## Where code and documentation differ

The model follows the code.

* `README.md:76` says that a repeated request returns the original event's
  identifier; `src/core/idempotency.rs:26-28` answers with a conflict that carries the
  event's present status.
* `src/worker/runner.rs:42-44` describes `Settled` as delivered or parked;
  `src/worker/runner.rs:122` also returns it for a failed attempt with budget left, so
  such retries follow at once.
* `docs/rust/PRD.md:36` calls the replay atomic; `src/api/dlq.rs:65-97` is four
  statements, each committed by itself. `ReplayOverlap`, `StaleCount` and `DeliveredAgain`
  show what that costs. Exactly when it costs nothing is said one promise at a time: by
  `Leases` for the leases, `StatementLedger` for the numbering of attempts, `SplitBudget`
  for the retry budget, and `DeliveredEvents` for delivered events. `ReplayRace` says what
  survives it in any case.
* `src/api/dlq.rs:84-86` says that clearing the attempts keeps a replayed event from
  being parked again at its first failure; a worker that counts between the requeue and
  the delete parks it there all the same, as `StaleCount` shows.
* `CHANGELOG.md:26` mentions millisecond timestamps being turned into seconds;
  `src/crypto/stripe.rs:23-46` compares the number as it is.
* The older design notes under `docs/` speak of lock expiry, other statuses and
  scheduled attempts; none of it is in the code.

## Model

| member | source | states |
|---|---|---|
| CircuitBreakers.HistoryDecides | src/worker/circuit_breaker.rs:38-61 | for every timed sequence of calls, the observed state is Closed iff the failures since the last success are fewer than T, else Open iff now is before the last failure plus R, else HalfOpen; an attempt is granted iff Closed, or HalfOpen with no grant since the last record |
| CircuitBreakers.PollsNeverMatter | src/worker/circuit_breaker.rs:38-46 | when and how often the state was polled changes nothing a later caller can observe |
| CircuitBreakers.HalfOpenDisjunctIsRedundant | src/worker/circuit_breaker.rs:70-77 | on every breaker that calls can produce, a failure opens it iff the count reaches the threshold: the test for HalfOpen adds nothing |
| CircuitBreakers.CircuitBreaker.constructor | src/worker/circuit_breaker.rs:27-36 | a fresh breaker has the empty history |
| CircuitBreakers.CircuitBreaker.State | src/worker/circuit_breaker.rs:38-46 | answers what the history of recorded results dictates at this moment |
| CircuitBreakers.CircuitBreaker.CanAttempt | src/worker/circuit_breaker.rs:48-61 | grants exactly when the history dictates it, and appends the question to it |
| CircuitBreakers.CircuitBreaker.RecordSuccess | src/worker/circuit_breaker.rs:63-68 | the new fields are those the extended history gives |
| CircuitBreakers.CircuitBreaker.RecordFailure | src/worker/circuit_breaker.rs:70-77 | the new fields are those the extended history gives |
| BreakerCycle.FailuresOpen | src/worker/circuit_breaker.rs:48-77 | at least T failures in a row, whatever came before, and the breaker grants from R after the last one on, and not a moment sooner |
| BreakerCycle.FewerFailuresDoNot | src/worker/circuit_breaker.rs:48-77 | fewer than T failures since the start or a success: it grants |
| BreakerCycle.OneProbe | src/worker/circuit_breaker.rs:48-61 | after one grant at or after that moment it grants nothing, however often asked or polled, until a result is recorded |
| BreakerCycle.FailedProbeReopens | src/worker/circuit_breaker.rs:70-77 | a further failure starts the wait of R anew |
| BreakerRates.ProbesAreApart | src/worker/circuit_breaker.rs:48-77 | two HalfOpen grants with no success between them are at least R apart, whoever made the calls |
| BreakerRates.ContactRate | src/worker/circuit_breaker.rs:48-77 | with one worker and an endpoint that always fails, at most T + L / R grants fall in the window of length L that starts with the first |
| RunRecords.RunsKeepTheContactRate | src/worker/dispatcher.rs:83-144 | the same bound in every run of the delivery machine, for every endpoint that has never succeeded |
| Backoff.DelaysAreAnInterval | src/worker/backoff.rs:10-12 | the possible delays are exactly the interval from min(base, cap) to min(cap, max(min(3 * previous, 2^64 - 1), base)) |
| Backoff.DecorrelatedJitter | src/worker/backoff.rs:4-13 | the delay for a draw is a possible delay, and within [min(base, cap), min(cap, max(3 * previous, base))] |
| Backoff.ChainsAreBounded | src/worker/backoff.rs:10-12 | the n-th consecutive sleep is at most min(cap, 3^n * base); n of them sum to at most n * cap and base * (3^(n+1) - 3) / 2 |
| Sleeps.SleepsStayBounded | src/worker/runner.rs:148-164 | in every run of the loop, with any calls of the handlers between its passes: the n-th backoff since a pass settled, or since the start, sleeps between min(base, cap) and min(cap, 3^n * base), and these n together at most n * cap and base * (3^(n+1) - 3) / 2 |
| Sleeps.PassesArePaced | src/worker/runner.rs:148-164 | in every run of the loop, two passes in a row are the poll interval apart after an idle one, and, after a deferred or failed one, the sleep drawn for it, which lies between min(base, cap) and max(3 * previous, base) |
| Tables.NextEvent | src/worker/runner.rs:63-70 | the claim query yields a waiting event that precedes all others by (created_at, id), and none iff nothing waits |
| Storage.Store.ClaimNextEvent | src/worker/runner.rs:56-82 | moves exactly that event to PROCESSING and returns it with its endpoint, or changes nothing when nothing waits |
| Storage.Store.AcceptEvent | src/core/idempotency.rs:6-45 | the transaction computes the accept function, tables and answer |
| Storage.Store.TransitionStatus | src/core/idempotency.rs:47-66 | the transaction computes the compare-and-swap function, tables and answer |
| Storage.Store.ReplayDeadLetter | src/api/dlq.rs:62-100 | the four statements in a row compute the replay function, tables and answer |
| Storage.Store.RemoveEndpoint | src/api/endpoints.rs:219-251 | the transaction computes the retire function, tables and answer |
| Storage.Store.CreateEndpoint | src/api/endpoints.rs:136-161 | inserts the row iff the identifier is new |
| Operations.AcceptMeans | src/core/idempotency.rs:17-44 | a row is added, RECEIVED and with the given contents, iff the endpoint exists and has not seen the key; a duplicate is told the present status and changes nothing; refused iff there is no such endpoint |
| Operations.TransitionMeans | src/core/idempotency.rs:47-66 | true iff the event exists in the expected status; then its status alone changes, else nothing |
| Operations.ReplayMeans | src/api/dlq.rs:65-97 | the event is RECEIVED with no attempts and no dead letter, and every other row is as before; an unknown letter changes nothing |
| Operations.RetireMeans | src/api/endpoints.rs:225-250 | refused, with their number, iff events of the endpoint are RECEIVED or PROCESSING; otherwise, iff the endpoint exists, it goes with exactly its events and their attempts and dead letters |
| Operations.RetireKeeps | src/db/migrations.rs:29-53 | the cascade leaves no dangling reference |
| CompareAndSwap.SwapsBalance | src/core/idempotency.rs:47-66 | over every run of calls, the true returns that leave a status are the entries into it (with the first stay) less the present stay |
| CompareAndSwap.RaceHasOneWinner | src/core/idempotency.rs:47-66 | of callers racing to take an event out of the status it is in, exactly one wins; none if it is not in it |
| Dispatching.SharedBreakers.MayAttempt | src/worker/dispatcher.rs:83-89 | creates the endpoint's breaker at its first use, asks it, and leaves all other breakers alone |
| Dispatching.SharedBreakers.Record | src/worker/dispatcher.rs:135-144 | tells the endpoint's breaker, if there is one, and no other; after an answer of 200 to 299 it has no failures in a row, after any other one more |
| Dispatching.SettleEvent | src/worker/dispatcher.rs:150-204 | records the attempt and settles the event as the settle function says, stopping at the first refused statement; the row has the status code or the transport error of the answer, the attempt's number and the time |
| Dispatching.DispatchSingleEvent | src/worker/dispatcher.rs:33-212 | tables, breaker calls, outcome and request are those of the dispatch function |
| Dispatching.RunDispatchOnce | src/worker/runner.rs:88-131 | one whole pass, with the requeue after an error, computes the pass function |
| DeliveryMachine.PassCases | src/worker/runner.rs:88-131 | from a sound state a pass is idle, or defers and leaves every table as it was, or makes exactly one contact for the oldest waiting event; it never errs |
| DeliveryMachine.ContactKeepsLedger | src/worker/dispatcher.rs:110-199 | a contact keeps every event's attempts numbered 1..n and consistent with its status |
| DeliveryMachine.StepKeepsInv | src/worker/dispatcher.rs:161-199 | every step keeps the schema's constraints, the attempt ledger, the agreement of dead letters and FAILED events, and the breaker histories of a single worker |
| DeliveryMachine.ReachableStatesAreSound | src/db/migrations.rs:20-54 | all of that holds in every reachable state: events have endpoints, attempts and dead letters have events, keys and dead letters are unique |
| Answers.BreakerHearsTheAnswer | src/worker/dispatcher.rs:118-144 | after a contact answered with 200 to 299 the endpoint's breaker is seen Closed at any moment; any other answer is one more failure in a row, at that moment; no other breaker hears of it |
| Answers.SettledByTheAnswer | src/worker/dispatcher.rs:118-199 | the row of a settled attempt has the answer's status code or its error, and the event is DELIVERED after 200 to 299, else RECEIVED while the number is below max_attempts, else FAILED |
| Answers.PassesLetGo | src/worker/runner.rs:88-131 | from any tables whatever, a pass over an event leaves it in a status other than PROCESSING, and in RECEIVED if it was deferred or erred |
| Answers.PassesAskTheBreaker | src/worker/dispatcher.rs:83-144 | from any tables, a pass asks the breaker of its event's endpoint once, makes its contact iff that breaker grants at that moment, and then tells it the answer; all other breakers are left alone |
| Answers.AttemptsTellTheAnswers | src/worker/dispatcher.rs:118-166 | in every run each attempt on file is the row of exactly one contact of the run: its event, number, time, status code and error are those of that contact and its answer |
| Answers.BreakersHearTheAnswers | src/worker/dispatcher.rs:118-144 | in every run, for every endpoint, the results its breaker was told are, one by one and in order, successes for the contacts answered with 200 to 299 and failures for the others |
| Answers.FailingEndpointsKeepTheRate | src/worker/dispatcher.rs:83-144 | in every run the bound on the contact rate holds for each endpoint none of whose contacts was answered with 200 to 299 |
| RunRecords.AttemptLedger | src/worker/dispatcher.rs:67-199 | in every reachable state attempts are numbered 1..n without gaps; RECEIVED means n < B and all failed, FAILED n = B and all failed, DELIVERED 1 <= n <= B and only the last succeeded; nothing stays in PROCESSING |
| RunRecords.DeadLettersAreFailedEvents | src/worker/dispatcher.rs:174-189 | in every reachable state an event is FAILED iff it has a dead letter, and it has at most one |
| RunRecords.ReplayRestoresBudget | src/api/dlq.rs:78-97 | a replay finds B attempts used and leaves none |
| RunRecords.TotalContacts | src/worker/dispatcher.rs:110-199 | with k replays an event is contacted at most (k + 1) * B times, and exactly k * B plus its attempts on file while it exists |
| RunRecords.AcceptedAtMostOnce | src/core/idempotency.rs:17-44 | over every run one endpoint accepts one key at most once |
| Forensics.RunIsTruthful | src/worker/dispatcher.rs:118-166 | in every reachable state an attempt row has no error iff it has a 2xx status, the error of any other answer names its status, and every dead letter repeats its event's last attempt |
| Forensics.DeadLettersTellTheLastAttempt | src/worker/dispatcher.rs:182-189 | in every reachable state a dead letter names its event's endpoint and repeats status, error and time of the B-th attempt; the fallback reason is never used |
| Provenance.ContactsCarryWhatWasAccepted | src/worker/dispatcher.rs:51-116 | every contact of every run carried the body accepted under the event's identifier to the URL registered for the event's endpoint |
| Provenance.EndpointsStayAsCreated | src/api/endpoints.rs:136-161 | in every run the row of an endpoint is, column by column, the one it was created with |
| Provenance.NoSilentLoss | src/api/endpoints.rs:225-250 | an accepted event still has its row, with what was accepted, or it was finished and its endpoint deleted |
| Provenance.NoStepRemovesPending | src/api/endpoints.rs:225-247 | no step removes a RECEIVED or PROCESSING event |
| Provenance.DeliveredIsFinal | src/worker/dispatcher.rs:168-173 | from any sound state on, a DELIVERED event stays so with the same attempts while its row exists |
| QueueRefinement.QueueExists | src/worker/runner.rs:63-70 | every database is represented by a queue of its waiting events, oldest first, with attempt counts |
| QueueRefinement.PassRefines | src/worker/runner.rs:88-131 | each pass is a stutter that leaves the tables alone or exactly one step of that queue, at its head and with the next attempt number |
| QueueRefinement.RunsRefine | src/worker/dispatcher.rs:91-199 | every run, from any sound state: the tables end up where a queue does that inserts by sort key what is accepted or replayed, forgets what is deleted and serves its head for each real contact; deferred and idle passes, refusals and duplicates take it no step |
| QueueRefinement.RunsRefineFromStart | src/worker/runner.rs:56-131 | in particular every run from the empty database, from the empty queue |
| Fifo.FinishedInOrderOfArrival | src/worker/runner.rs:65 | without replays, and with each accepted event sorting behind those that wait: the finished events are a prefix of the accepted ones, in the same order over all endpoints; the rest wait in order; the contacts of one event are consecutive |
| Fifo.OrderOfArrivalIff | src/worker/runner.rs:65 | a run of the delivery machine keeps that order throughout iff it replays nothing and every event it accepts sorts behind all that wait |
| ClockSetBack.LaterEventFinishesFirst | src/core/idempotency.rs:30-43 | a run, for every configuration, in which a clock set back between two acceptances lets the later event be finished first |
| Drain.TurnPays | src/worker/runner.rs:148-166 | every claiming pass of the loop lowers a measure made of remaining budget, breaker time and sleep |
| Drain.DrainBound | src/worker/runner.rs:148-166 | if min(base, cap) > 0 or R = 0: from any sound state at most M * (1 + ceil(R / max(1, min(base, cap)))) passes claim an event before the first idle one, M the sum over waiting events of B less the attempts |
| NoPause.BoundedIff | src/worker/runner.rs:157-164 | every reachable state has a bound on the claiming passes in a row iff min(base, cap) > 0 or R = 0; NoPauseNoBound builds the state that has none |
| Drain.LoopDrains | src/worker/runner.rs:148-166 | every longer run of the loop has an idle pass within that bound, and then every event is DELIVERED or FAILED |
| Drain.RunDispatchLoop | src/worker/runner.rs:136-167 | the loop over the real tables and breakers reaches that state within the bound |
| StatementMachine.RunKeepsIntegrity | src/db/migrations.rs:20-54 | no interleaving of statements, faults and replays violates a constraint of the schema |
| Leases.MoveKeepsLeasesIff | src/worker/runner.rs:121-129 | each statement of a worker or replay, each fault and each whole handler call keeps the leases (held events PROCESSING, or FAILED on the way to their dead letter; one holder each; a PROCESSING event held or stranded) iff, if it is a replay's status update, it hits an event that nobody holds |
| Leases.LeasesHoldIff | src/api/dlq.rs:78-82 | in every run with any number of workers, faults and replays whole or interleaved, the leases hold throughout iff no replay puts back an event that a worker holds |
| Leases.LeaseExclusivity | src/worker/runner.rs:56-82 | in every run with any number of workers, faults at any statement and whole replays: no event has two holders; a PROCESSING event has one or is stranded, never both |
| Leases.OnlyTheHolderActs | src/worker/dispatcher.rs:150-202 | in every such run a step that is not the holder's own leaves the held event with its holder and in its status, and can remove it only once FAILED, with its endpoint |
| ProbeSlots.NoSlotLeaks | src/worker/dispatcher.rs:83-144 | in every run of the statement machine, grants less records of an endpoint are the workers between the two; a set probe flag means there is one; with none, a HalfOpen breaker grants |
| ProbeSlots.ProbesStayApart | src/worker/dispatcher.rs:83-144 | in every run, two probes of one endpoint with no success between them are at least R apart |
| ProbeWatch.GrantsAnotherIff | src/worker/circuit_breaker.rs:48-61 | in every run, a breaker seen HalfOpen grants another attempt iff each probe that is out, if any, has been overtaken by a record |
| ProbeWatch.OvertakenByAnother | src/worker/dispatcher.rs:135-144 | the record that overtook a probe still out was another worker's |
| ProbeWatch.OneProbeIff | src/worker/circuit_breaker.rs:48-77 | in every run, at most one probe of an endpoint is out throughout iff its breaker, seen HalfOpen, is never asked while a probe is out that a record has overtaken |
| ProbeWatch.OwnRecordsKeepOneProbe | src/worker/dispatcher.rs:83-144 | a run has at most one probe out throughout if each record made while a probe is out is the probe's own |
| ProbeOverlap.TwoProbesOut | src/worker/circuit_breaker.rs:63-77 | a run, for every configuration and without storage faults, with two probes of one endpoint out at once |
| ReplayRace.FailedEventsAreExplained | src/worker/dispatcher.rs:174-199 | in every run, faults and interleaved replays included: a FAILED event has a dead letter that no replay is about to delete, or a worker about to insert one, or a worker about to requeue it after an error, or it is stranded |
| ReplayRace.FailedEventsAreNotLost | src/api/dlq.rs:65-97 | without storage faults only the first two remain |
| SoloReplays.SoloReplay | src/api/dlq.rs:65-97 | wherever a replay's first statement can run the other three can follow, and the four together do to the tables exactly what the whole replay does |
| SoloReplays.ReplaysSplit | src/api/dlq.rs:65-97 | every run of the statement machine is matched, to the same state, by one whose replays are all made of single statements |
| ReplayRace.HasLetterIff | src/worker/dispatcher.rs:174-189 | with whole replays and any faults, a FAILED event has a dead letter iff no worker holds it and it is not stranded |
| FaultRuns.FaultsLoseTheLetter | src/worker/runner.rs:121-129 | a run, for every configuration, after which faults have left a FAILED event with no dead letter and no holder |
| StatementLedger.AttemptsAreNumbered | src/worker/dispatcher.rs:67-166 | in every run with any number of workers, faults at any statement and whole replays: attempts are numbered 1..n without gaps, and a worker between its count and its insert has counted right |
| StatementLedger.BooksHoldIff | src/api/dlq.rs:78-92 | in every run, faults and interleaved replays included: leases and numbering hold throughout iff no replay puts back an event that a worker holds, or deletes attempts that a worker has counted for the row it is about to insert |
| SplitBudget.BudgetHoldsIff | src/api/dlq.rs:78-92 | in every run, faults and interleaved replays included: the leases hold, no worker carries a count of B or more, and every RECEIVED event has fewer than B attempts or a replay about to clear them, all throughout, iff no replay puts back a held event, no worker counts B attempts between a replay's requeue and its delete, and no requeue after an error hits an event with B attempts that no replay is about to clear |
| SplitBudget.CountsStayWithinIff | src/worker/dispatcher.rs:67-80 | without faults, and with no replay that puts back a held event: no worker ever carries a count of B or more iff none counts B attempts between a replay's requeue and its delete |
| SplitBudget.NoAttemptPastBudget | src/worker/dispatcher.rs:150-166 | in every run that meets those conditions no attempt is numbered past B, and no event has more than B on file |
| SplitBudget.ReplaysAreWorthABudgetEach | src/worker/dispatcher.rs:110-199 | and an event whose attempts k replays have cleared is contacted at most (k + 1) * B times, and once more for each verdict that a fault kept from the log |
| StaleCount.ReplayedButFailedAtOnce | src/api/dlq.rs:78-92 | a run, for every configuration and without faults, through such a count, with the delete during the contact: the replayed event is FAILED again after one attempt, numbered past the budget |
| StaleCount.ReplayedAndPassedOver | src/api/dlq.rs:78-92 | the same with the delete after the burial, in a run whose replays never touch what is held or counted: one contact leaves the event FAILED with B + 1 attempts on file, and the delete leaves it FAILED with none |
| Accounts.ContactsAreAccountedFor | src/worker/dispatcher.rs:110-166 | in every run, faults and interleaved replays included: the contacts of a stored event are exactly the attempts on file, those cleared by replays, the verdicts about to be logged, and those that a fault kept from the log |
| StatementBudget.ContactsStayWithinBudget | src/worker/dispatcher.rs:110-199 | all workers together, without faults and with k whole replays: at most (k + 1) * B contacts of an event, and, while it exists, exactly k * B plus the attempts on file and the verdict about to be logged |
| StatementBudget.StatusCountsAttemptsIff | src/worker/runner.rs:121-129 | in every run with whole replays and any faults: RECEIVED means fewer than B attempts, FAILED exactly B, DELIVERED between 1 and B, throughout, iff no requeue after an error hits a stored event with B attempts |
| StatementBudget.StatusCountsAttempts | src/worker/dispatcher.rs:161-199 | so without faults the statuses always mean that |
| FaultBudget.FaultsCostOneContactEach | src/worker/runner.rs:121-129 | with whole replays and faults at any statement: at most (k + 1) * B contacts, and one more for each fault between verdict and log, or after the log with B attempts on file; no other fault costs a contact |
| FaultRuns.FaultSparesTheBudget | src/worker/dispatcher.rs:193-199 | a run, for every configuration, after which one fault has left an event waiting with B attempts on file |
| FaultRuns.FaultCostsAContact | src/worker/runner.rs:121-129 | from there a run, for every configuration and without any replay, that contacts an event more than B times |
| ReplayOverlap.InterleavedReplaysShareAnEvent | src/api/dlq.rs:65-97 | for every configuration, from the start and without faults, two replays of one dead letter lead two workers to hold one event |
| DeliveredEvents.DeliveredIsFinal | src/worker/dispatcher.rs:168-173 | in every run with whole replays, any number of workers and any faults: a DELIVERED event stays so, with its attempts, while its row exists |
| DeliveredEvents.DeliveredStayIff | src/api/dlq.rs:78-92 | in every run, faults and interleaved replays included: leases hold and DELIVERED events stay so with their attempts, throughout, iff no replay puts back a held or a DELIVERED event or clears attempts of a DELIVERED one |
| DeliveredAgain.DeliveredThenReplayed | src/api/dlq.rs:65-81 | a run, for every configuration and without faults, in which a replay that lags behind another puts a DELIVERED event back into the queue |
| StatementProvenance.ContactsCarryWhatWasAccepted | src/worker/dispatcher.rs:51-116 | in every run of the statement machine, whatever comes between fetch and contact: a worker in contact carries the body accepted under its event's identifier and the URL registered for the endpoint it was accepted for |
| StatementProvenance.NoSilentLoss | src/api/endpoints.rs:225-250 | in every run of the statement machine an accepted event has its row, with what was accepted, or at some move of the run it was DELIVERED or FAILED and its endpoint was deleted, for good |
| StatementProvenance.EndpointsStayAsCreated | src/api/endpoints.rs:136-161 | in every run of the statement machine the row of an endpoint is, column by column, one it was created with |
| StatementAnswers.BreakersHearTheAnswers | src/worker/dispatcher.rs:118-144 | in every run, any workers, faults and replays: the results a breaker was told are, one by one and in order, successes for the answers of 200 to 299 its endpoint gave and failures for the others |
| StatementAnswers.AttemptsTellTheAnswers | src/worker/dispatcher.rs:118-166 | in every such run each attempt on file tells an answer that some worker got for that event on its try of that number |
| Progress.ErrsIff | src/worker/dispatcher.rs:41-204 | a pass errs iff a statement of it faults, finds its row gone or is refused by a constraint; a breaker that does not grant is no error |
| Progress.LetsGoWith | src/worker/runner.rs:112-131 | a worker lets go of its event only by the statement that settles it, buries it or requeues it, or stranded, by a requeue after an error that failed |
| Progress.ComesToRest | src/worker/dispatcher.rs:33-212 | from any state at all, a worker's own next statements bring it to rest, at most nine of them and none failing, whatever the downstream answers |
| Progress.HoldersCanLetGo | src/worker/runner.rs:56-131 | in every run with any workers, faults and whole replays, the holder of an event can let it go so: then nobody holds it and it is not PROCESSING |
| SoloPasses.SoloPass | src/worker/dispatcher.rs:33-212 | a worker that runs its statements without interruption does exactly what one whole pass does, whatever else is under way |
| Simulation.RunLifts | src/worker/runner.rs:88-131 | every run of the delivery machine is matched by a faultless run of the statement machine that ends with the same tables and breaker calls and every worker at rest |
| StripeHeaders.ParseHeader | src/crypto/stripe.rs:15-31 | the loop finds the last well-formed timestamp and all signatures in order |
| StripeHeaders.SplitOfJoin | src/crypto/stripe.rs:18 | splitting undoes joining, for items without commas |
| StripeHeaders.JoinOfSplit | src/crypto/stripe.rs:18 | joining undoes splitting, for every header |
| StripeBlanks.MeaningIgnoresBlanks | src/crypto/stripe.rs:18-29 | an item means the same with any of the 25 white space characters of Unicode before and after its key and its value |
| StripeBlanks.ItemsMean | src/crypto/stripe.rs:19-29 | so surrounded, v1 with a value is a signature, and t with a value is a timestamp iff the value reads as a number |
| StripeBlanks.OtherItemsSayNothing | src/crypto/stripe.rs:19-29 | an item under another key, or without an equals sign, says nothing |
| StripeBlanks.ParsesIff | src/crypto/stripe.rs:24 | a text reads as a number iff it is decimal digits, with at most one plus sign before them, of a value below 2^64 |
| StripeBlanks.SpacedHeaderParses | src/crypto/stripe.rs:18-29 | a header printed with a comma and a space between its items says what the one printed with commas says: its timestamp and its signatures |
| StripeHeaders.SignaturesAreClean | src/crypto/stripe.rs:18-28 | every signature found is trimmed and free of commas |
| StripeHeaders.PrintedHeaderParses | src/crypto/stripe.rs:15-31 | parsing a printed header gives back its 64-bit timestamp and its signatures iff those are trimmed and free of commas |
| StripeSignatures.Verify | src/crypto/stripe.rs:9-65 | accepts iff the last well-formed timestamp is within the tolerance and some listed signature decodes to the MAC of timestamp, dot and body |
| StripeSignatures.AcceptsIff | src/crypto/stripe.rs:33-64 | that is: the timestamp is at most the tolerance, or 300 seconds, before or after the clock, and the MAC is taken over its decimal digits without leading zeros, the byte 46 and the body |
| StripeSignatures.PermutingSignatures | src/crypto/stripe.rs:27-64 | rearranging the signatures never changes the verdict |
| StripeSignatures.UnknownItemsNeverMatter | src/crypto/stripe.rs:18-31 | inserting an item that is neither a well-formed timestamp nor a signature never changes the verdict |
| StripeSignatures.PrintedHeaderVerdict | src/crypto/stripe.rs:33-64 | a printed header is accepted iff its timestamp is within the tolerance and one of its signatures decodes to the MAC |
| StripeSignatures.PayloadIsInjective | src/crypto/stripe.rs:48-51 | two pairs of timestamp and body sign the same payload only if they are equal |

## Left out

- HTTP routing, the HTTP client, API keys, URL validation, configuration, metrics, logging, health checks, connection pools and file permissions: a contact is any response, and a transaction or a single statement is one atomic step.
- Process crashes and restarts: nothing in the code recovers PROCESSING rows at startup, so there is nothing to state beyond `stranded`.
- Storage faults outside the worker: faults occur in the statement machine only, and there only at worker statements; a failed statement changes nothing.
- Handlers between the statements of one pass: covered by the statement machine's results (constraints, leases, probe slots, dead letters), not by the delivery machine's.
- The GitHub, generic, Midtrans and Discord adapters, and the internals of HMAC, SHA-256 and hex: the MAC and the decoding are parameters of the Stripe model.
- The lists of endpoints and dead letters and the migration version check: plain reads and one guard.
- Counters of 32 bits: `failure_count`, `attempt_count` and the thresholds are natural numbers, so the wrap-around of a counter after four billion failures is not modelled; neither is an overflow of the clock.
- Durations are whole milliseconds, as the backoff formula has them; base and previous sleep are taken to fit 64 bits.
- The columns `response_body` (never written), and the text of a transport error, which is any string.
- Drain.RunDispatchLoop: runs up to its first idle pass on a given sequence of inputs, because the source's loop never returns; it asks for min(base, cap) > 0 or R = 0, which NoPause.BoundedIff shows to be the exact condition.
- Leases.LeaseExclusivity: speaks of whole replays; Leases.LeasesHoldIff says exactly which interleaved ones keep the leases.
- StatementLedger.AttemptsAreNumbered: speaks of whole replays; StatementLedger.BooksHoldIff says exactly which interleaved ones keep the numbering.
- StatementBudget.StatusCountsAttempts: speaks of runs without faults; StatementBudget.StatusCountsAttemptsIff says exactly which runs with faults it extends to.
- StatementBudget.ContactsStayWithinBudget: speaks of whole replays without faults; FaultBudget.FaultsCostOneContactEach covers faults and SplitBudget.ReplaysAreWorthABudgetEach interleaved replays.
- Progress.HoldersCanLetGo: speaks of whole replays; with interleaved ones Progress.ComesToRest still holds, but another worker may hold the event too.
- SplitBudget.CountsStayWithinIff: speaks of runs without faults in which no replay puts back a held event; SplitBudget.BudgetHoldsIff covers all runs.
