/** Runs in which a fault strikes at the last attempt: one leaves a FAILED event without
    a dead letter, one a waiting event whose budget is spent, to be contacted once more. */
module FaultRuns {
  import opened Foundation
  import opened Tables
  import opened CircuitBreakers
  import opened Dispatching
  import opened StatementMachine
  import opened FaultFree
  import opened SoloPasses
  import opened Reachability
  import opened ReplayRace
  import opened Exhaustion
  import opened Simulation
  import opened StatementLedger
  import opened Accounts
  import opened Leases
  import opened StaleCount
  import Delivery = DeliveryMachine

  lemma WritesFailed(config: Config, s: System, t: System, w: Id, event: Id, row: Fetched, response: Response)
    requires Reaches(config, s, FAULTY, t) && w in t.workers && t.workers[w] == Logged(event, row, response)
    requires FinalStatus(config, row.tried + 1, response) == Failed
    ensures Reaches(config, s, FAULTY, At(t.(db := SetStatus(t.db, event, Failed)), w, Burying(event, row, response)))
  {
    ReachesMore(config, s, FAULTY, t, Worker(w, SetFinal));
  }

  lemma FaultHits(config: Config, s: System, t: System, w: Id, event: Id, row: Fetched, response: Response)
    requires Reaches(config, s, FAULTY, At(t, w, Burying(event, row, response)))
    ensures Reaches(config, s, FAULTY, At(t, w, Erring(event)))
  {
    ReachesMore(config, s, FAULTY, At(t, w, Burying(event, row, response)), Worker(w, Fault));
    OnlyTheLastPlaceCounts(t, w, Burying(event, row, response), Erring(event));
  }

  lemma FaultStrands(config: Config, s: System, t: System, w: Id, event: Id)
    requires Reaches(config, s, FAULTY, At(t, w, Erring(event)))
    ensures Reaches(config, s, FAULTY, At(t.(stranded := t.stranded + {event}), w, Resting))
  {
    ReachesMore(config, s, FAULTY, At(t, w, Erring(event)), Worker(w, Fault));
    OnlyTheLastPlaceCounts(t.(stranded := t.stranded + {event}), w, Erring(event), Resting);
  }

  /** A worker that holds the last attempt's verdict writes FAILED, fails to insert the
      dead letter, and fails to requeue the event. */
  lemma TwoFaults(config: Config, s: System, t: System, w: Id, event: Id, row: Fetched, response: Response)
    requires Reaches(config, s, FAULTY, t) && w in t.workers && t.workers[w] == Logged(event, row, response)
    requires FinalStatus(config, row.tried + 1, response) == Failed
    ensures Reaches(config, s, FAULTY,
      At(t.(db := SetStatus(t.db, event, Failed), stranded := t.stranded + {event}), w, Resting))
  {
    var failed := t.(db := SetStatus(t.db, event, Failed));
    WritesFailed(config, s, t, w, event, row, response);
    FaultHits(config, s, failed, w, event, row, response);
    FaultStrands(config, s, failed, w, event);
  }

  /** All but the last attempt of the only event have failed, and the breaker would
      grant the last. */
  lemma LastAttemptIsDue(config: Config) returns (s: System, at: Instant, clock: Instant)
    ensures Reaches(config, ONE_AT_REST, SMOOTH, s) && s.workers == map[0 := Resting] && s.clock <= at
    ensures Integrity(s.db) && AttemptsKnown(s) && s.db.deadLetters == map[] && s.stranded == {}
    ensures IsOnly(s.db, 1, Received) && s.db.events[1].endpointId == 0
    ensures |AttemptsOf(s.db, 1)| == Delivery.Budget(config) - 1
    ensures forall id :: id in s.minted ==> id < 2 * Delivery.Budget(config)
    ensures GrantsFrom(config.failureThreshold, config.recovery, HistoryOf(s.calls, 0), at)
    ensures Delivery.SoundHistory(config, HistoryOf(s.calls, 0), clock) && clock <= at
  {
    var steps := FailsInVain(config, Delivery.Budget(config) - 1);
    Delivery.ReachableStatesAreSound(config, steps);
    var world := Delivery.Run(config, Delivery.START, steps);
    NoLettersYet(world.db);
    s := RunLifts(config, ONE_AT_REST, SMOOTH, 0, steps);
    ReachableAttemptsKnown(config, ONE_AT_REST, SMOOTH, s);
    clock, at := world.clock, world.clock + config.recovery;
    GrantsAfterRecovery(config, HistoryOf(s.calls, 0), clock, at);
  }

  lemma OneMoreOnFile(db: Database, claimed: Database, after: Database, id: Id, row: Attempt)
    requires claimed.attempts == db.attempts && InsertAttempt(claimed, id, row) == Some(after)
    ensures |AttemptsOf(after, row.eventId)| == |AttemptsOf(db, row.eventId)| + 1
  {
    AttemptsAfterInsert(claimed, after, row.eventId, id, row);
    assert AttemptsOf(claimed, row.eventId) == AttemptsOf(db, row.eventId);
  }

  /** The last attempt, up to its row in the tables. */
  lemma LastAttempt(config: Config, s: System, at: Instant) returns (t: System, row: Fetched)
    requires Integrity(s.db) && AttemptsKnown(s) && s.workers == map[0 := Resting] && s.clock <= at
    requires IsOnly(s.db, 1, Received) && s.db.events[1].endpointId == 0
    requires |AttemptsOf(s.db, 1)| == Delivery.Budget(config) - 1 && 2 * Delivery.Budget(config) !in s.minted
    requires GrantsFrom(config.failureThreshold, config.recovery, HistoryOf(s.calls, 0), at)
    ensures Leads(config, s, 0, false, t) && 0 in t.workers && t.workers == s.workers[0 := Logged(1, row, Http(500))]
    ensures row.tried + 1 == Delivery.Budget(config) && |AttemptsOf(t.db, 1)| == Delivery.Budget(config)
    ensures IsOnly(t.db, 1, Processing) && t.db.deadLetters == s.db.deadLetters && t.db.events[1].endpointId == 0
    ensures t.minted == s.minted + {2 * Delivery.Budget(config)} && t.clock == at && t.stranded == s.stranded
    ensures HistoryOf(t.calls, 0) == HistoryOf(s.calls, 0) + [Ask(at)] + [Failure(at)]
  {
    OnlyIsNext(s.db, 1);
    row := ClaimReadAsk(config, s, 0, 1, at);
    var claimed := s.(db := SetStatus(s.db, 1, Processing), calls := Extended(s.calls, 0, Ask(at)), clock := at);
    var asked := At(claimed, 0, Contacting(1, row));
    var id := 2 * Delivery.Budget(config);
    t := ContactAndLog(config, s, 0, asked, 1, row, Input(at, at, 0, Http(500), id, id + 1));
    OneMoreOnFile(s.db, claimed.db, t.db, id, AttemptRow(1, row.tried + 1, Http(500), 0));
    OnlyTheLastPlaceCounts(s, 0, Contacting(1, row), Logged(1, row, Http(500)));
  }

  /** The last attempt of the only event has been logged. */
  lemma LastAttemptIsLogged(config: Config) returns (t: System, row: Fetched)
    ensures Reaches(config, ONE_AT_REST, FAULTY, t) && t.workers == map[0 := Logged(1, row, Http(500))]
    ensures FinalStatus(config, row.tried + 1, Http(500)) == Failed && |AttemptsOf(t.db, 1)| == Delivery.Budget(config)
    ensures IsOnly(t.db, 1, Processing) && t.db.deadLetters == map[] && t.db.events[1].endpointId == 0
    ensures (forall id :: id in t.minted ==> id < 2 * Delivery.Budget(config) + 1) && t.stranded == {}
    ensures Delivery.SoundHistory(config, HistoryOf(t.calls, 0), t.clock)
  {
    var s, at, clock := LastAttemptIsDue(config);
    t, row := LastAttempt(config, s, at);
    Delivery.ContactKeepsHistory(config, HistoryOf(s.calls, 0), clock, Input(at, at, 0, Http(500), 0, 1));
    TermsWiden(config, ONE_AT_REST, SMOOTH, FAULTY, s);
    ReachesSolo(config, ONE_AT_REST, FAULTY, s, 0, false, t);
  }

  lemma NoLettersYet(db: Database)
    requires Delivery.DeadLettersAgree(db) && IsOnly(db, 1, Received)
    ensures db.deadLetters == map[]
  {
    assert forall d :: d !in db.deadLetters || HasStatus(db, db.deadLetters[d].eventId, Failed);
  }

  /** With faults a FAILED event can lack a dead letter for good: for every
      configuration, the insert and the requeue after it both fail. */
  lemma FaultsLoseTheLetter(config: Config) returns (u: System)
    ensures IsStart(ONE_AT_REST) && Reaches(config, ONE_AT_REST, FAULTY, u)
    ensures HasStatus(u.db, 1, Failed) && 1 in u.stranded && u.db.deadLetters == map[] && !Accounted(u, 1)
  {
    var t, row := LastAttemptIsLogged(config);
    TwoFaults(config, ONE_AT_REST, t, 0, 1, row, Http(500));
    u := At(t.(db := SetStatus(t.db, 1, Failed), stranded := t.stranded + {1}), 0, Resting);
  }

  lemma FaultThenRequeue(config: Config, s: System, t: System, w: Id, event: Id, row: Fetched, response: Response)
    requires Reaches(config, s, FAULTY, t) && w in t.workers && t.workers[w] == Logged(event, row, response)
    ensures Reaches(config, s, FAULTY, At(t.(db := SetStatus(t.db, event, Received)), w, Resting))
  {
    ReachesMore(config, s, FAULTY, t, Worker(w, Fault));
    ReachesMore(config, s, FAULTY, At(t, w, Erring(event)), Worker(w, Requeue));
    OnlyTheLastPlaceCounts(t.(db := SetStatus(t.db, event, Received)), w, Erring(event), Resting);
  }

  /** With faults an event can wait again although its budget is spent: for every
      configuration, the last status update fails and the requeue after it does not. */
  lemma FaultSparesTheBudget(config: Config) returns (u: System)
    ensures IsStart(ONE_AT_REST) && Reaches(config, ONE_AT_REST, FAULTY, u)
    ensures u.workers == map[0 := Resting] && HasStatus(u.db, 1, Received)
    ensures |AttemptsOf(u.db, 1)| == Delivery.Budget(config)
    ensures exists at, next :: IsSpent(config, u, Received, at, next)
  {
    var t, row := LastAttemptIsLogged(config);
    FaultThenRequeue(config, ONE_AT_REST, t, 0, 1, row, Http(500));
    u := At(t.(db := SetStatus(t.db, 1, Received)), 0, Resting);
    assert AttemptsOf(u.db, 1) == AttemptsOf(t.db, 1);
    OnePlace(t.workers, Logged(1, row, Http(500)), Resting);
    ReachableTablesSound(config, ONE_AT_REST, FAULTY, u);
    var at := t.clock + config.recovery;
    GrantsAfterRecovery(config, HistoryOf(t.calls, 0), t.clock, at);
    assert IsSpent(config, u, Received, at, 2 * Delivery.Budget(config) + 1);
  }

  lemma ReachableTablesSound(config: Config, start: System, terms: Terms, s: System)
    requires IsStart(start) && Reaches(config, start, terms, s)
    ensures Integrity(s.db) && AttemptsKnown(s)
  {
    var moves :| ReachesBy(config, start, terms, moves, s);
    RunKeepsIntegrity(config, start, moves);
    RunKeepsAttemptsKnown(config, start, moves);
  }

  lemma {:induction false} NothingReplayed(config: Config, start: System, moves: seq<Move>, event: Id)
    requires IsRun(config, start, moves) && forall m :: m in moves ==> !IsReplay(m)
    ensures AccountOf(config, start, moves, event).replays == AccountOf(config, start, moves, event).cleared == 0
  {
    if moves != [] {
      NothingReplayed(config, start, moves[..|moves| - 1], event);
      assert moves[|moves| - 1] in moves;
    }
  }

  /** The waiting event is contacted once more than its budget. */
  lemma ContactedPastBudget(config: Config) returns (u: System)
    ensures Reaches(config, ONE_AT_REST, FAULTY, u) && 1 in u.db.events
    ensures |AttemptsOf(u.db, 1)| == Delivery.Budget(config) + 1
  {
    var t := FaultSparesTheBudget(config);
    var at, next :| IsSpent(config, t, Received, at, next);
    var s := FindsSpent(config, t, at, next);
    ReachesSolo(config, ONE_AT_REST, FAULTY, t, 0, true, s);
    var asked, row := CountsAndAsks(config, s, at, next);
    u := SettlesPastBudget(config, s, asked, row, next);
    ReachesSolo(config, ONE_AT_REST, FAULTY, s, 0, false, u);
  }

  /** One fault can cost a contact: for every configuration, some run without any replay
      contacts an event more than B times. */
  lemma FaultCostsAContact(config: Config) returns (moves: seq<Move>)
    ensures IsStart(ONE_AT_REST) && IsRun(config, ONE_AT_REST, moves) && forall m :: m in moves ==> Unsplit(m)
    ensures var account := AccountOf(config, ONE_AT_REST, moves, 1);
      account.replays == 0 && account.contacts > Delivery.Budget(config)
  {
    var u := ContactedPastBudget(config);
    moves :| ReachesBy(config, ONE_AT_REST, FAULTY, moves, u);
    NothingReplayed(config, ONE_AT_REST, moves, 1);
    ContactsAreAccountedFor(config, ONE_AT_REST, moves, 1);
  }
}
