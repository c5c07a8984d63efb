/** Runs in which a worker counts the attempts of a replayed event before the replay
    deletes them, so that the replay does not give the event its budget back. */
module StaleCount {
  import opened Foundation
  import opened Tables
  import opened CircuitBreakers
  import opened Dispatching
  import opened StatementMachine
  import opened FaultFree
  import opened SplitBudget
  import opened SoloPasses
  import opened Reachability
  import opened Exhaustion
  import opened Simulation
  import Delivery = DeliveryMachine

  /** The only event has this status and as many attempts as its budget allows; the
      breaker would grant another. */
  ghost predicate IsSpent(config: Config, s: System, status: Status, at: Instant, next: Id) {
    && Integrity(s.db) && AttemptsKnown(s) && s.clock <= at && s.stranded == {}
    && IsOnly(s.db, 1, status) && s.db.events[1].endpointId == 0
    && |AttemptsOf(s.db, 1)| == Delivery.Budget(config)
    && (forall id :: id in s.minted ==> id < next)
    && GrantsFrom(config.failureThreshold, config.recovery, HistoryOf(s.calls, 0), at)
  }

  lemma ExhaustedAndGranted(config: Config) returns (s: System, letter: Id, at: Instant, next: Id)
    ensures ReachesAway(config, ONE_AT_REST, s) && s.workers == map[0 := Resting] && s.replays == map[]
    ensures IsSpent(config, s, Failed, at, next) && IsLetterOf(s.db, letter, 1)
  {
    var steps;
    steps, letter := SomethingFails(config);
    Delivery.ReachableStatesAreSound(config, steps);
    var world := Delivery.Run(config, Delivery.START, steps);
    s := RunLifts(config, ONE_AT_REST, SMOOTH, 0, steps);
    AwayFromStart(config, ONE_AT_REST, s);
    ReachableAttemptsKnown(config, ONE_AT_REST, SMOOTH, s);
    at, next := world.clock + config.recovery, 2 * Delivery.Budget(config) + 2;
    GrantsAfterRecovery(config, HistoryOf(world.calls, 0), world.clock, at);
  }

  lemma SelectEffect(config: Config, s: System, r: Id, letter: Id)
    requires Enabled(s, ReplaySelect(r, letter))
    ensures Next(config, s, ReplaySelect(r, letter))
      == s.(replays := s.replays[r := Selected(letter, s.db.deadLetters[letter].eventId)])
  {
  }

  lemma RequeueEffect(config: Config, s: System, r: Id)
    requires Enabled(s, ReplayRequeue(r))
    ensures var pc := s.replays[r];
      Next(config, s, ReplayRequeue(r)) ==
      s.(db := SetStatus(s.db, pc.event, Received), replays := s.replays[r := Requeued(pc.letter, pc.event)])
  {
  }

  lemma StatusLeavesSpent(config: Config, s: System, t: System, from: Status, status: Status, at: Instant, next: Id)
    requires IsSpent(config, s, from, at, next) && t.db == SetStatus(s.db, 1, status)
    requires t.clock == s.clock && t.calls == s.calls && t.minted == s.minted && t.stranded == s.stranded
    ensures IsSpent(config, t, status, at, next)
  {
    SetStatusKeeps(s.db, 1, status);
    assert AttemptsOf(t.db, 1) == AttemptsOf(s.db, 1);
  }

  /** A replay selects the letter and puts the event back. */
  lemma PutsBack(config: Config) returns (s: System, at: Instant, next: Id)
    ensures ReachesAway(config, ONE_AT_REST, s) && s.workers == map[0 := Resting]
    ensures IsSpent(config, s, Received, at, next) && IsRequeued(s, 0, 1)
  {
    var t, letter;
    t, letter, at, next := ExhaustedAndGranted(config);
    AwayMore(config, ONE_AT_REST, t, ReplaySelect(0, letter));
    SelectEffect(config, t, 0, letter);
    var selected := t.(replays := t.replays[0 := Selected(letter, 1)]);
    AwayMore(config, ONE_AT_REST, selected, ReplayRequeue(0));
    RequeueEffect(config, selected, 0);
    s := selected.(db := SetStatus(t.db, 1, Received), replays := selected.replays[0 := Requeued(letter, 1)]);
    StatusLeavesSpent(config, t, s, Failed, Received, at, next);
  }

  predicate IsFinding(pc: Pc) {
    pc.HasUrl? && pc.event == 1 && pc.endpoint == 0
  }

  /** The worker claims the waiting event and counts next. */
  lemma FindsSpent(config: Config, t: System, at: Instant, next: Id) returns (s: System)
    requires t.workers == map[0 := Resting] && IsSpent(config, t, Received, at, next)
    ensures Leads(config, t, 0, true, s) && s.workers.Keys == {0} && IsFinding(s.workers[0])
    ensures IsSpent(config, s, Processing, at, next) && s.replays == t.replays
  {
    OnlyIsNext(t.db, 1);
    ClaimAndLocate(config, t, 0, 1);
    var claimed := SetStatus(t.db, 1, Processing);
    s := At(t.(db := claimed), 0, HasUrl(1, 0, claimed.endpoints[0].targetUrl, claimed.events[1].body));
    StatusLeavesSpent(config, t, s, Received, Processing, at, next);
  }

  /** A replay has put the event back, and a worker has claimed it. */
  lemma IsAboutToCount(config: Config) returns (s: System, at: Instant, next: Id)
    ensures ReachesAway(config, ONE_AT_REST, s) && s.workers.Keys == {0} && IsFinding(s.workers[0])
    ensures IsSpent(config, s, Processing, at, next) && IsRequeued(s, 0, 1)
    ensures CountsStale(Delivery.Budget(config), s, Worker(0, Read))
  {
    var t;
    t, at, next := PutsBack(config);
    s := FindsSpent(config, t, at, next);
    AwaySolo(config, ONE_AT_REST, t, 0, true, s);
    assert IsRequeued(s, 0, 1);
  }

  lemma CountsSpent(config: Config, s: System, at: Instant, next: Id) returns (t: System, row: Fetched)
    requires s.workers.Keys == {0} && IsFinding(s.workers[0]) && IsSpent(config, s, Processing, at, next)
    ensures Leads(config, s, 0, false, t) && row.tried == Delivery.Budget(config) && row.endpoint == 0
    ensures t == At(s, 0, Ready(1, row))
  {
    var place := s.workers[0];
    Here(config, s, 0, true);
    CountsAttempts(config, s, 0, s, 1, 0, place.url, place.body);
    row := Fetched(0, place.url, place.body, Delivery.Budget(config));
    t := At(s, 0, Ready(1, row));
    CalmOrNot(config, s, 0, t);
  }

  /** It counts the spent budget, and the breaker grants. */
  lemma CountsAndAsks(config: Config, s: System, at: Instant, next: Id) returns (t: System, row: Fetched)
    requires s.workers.Keys == {0} && IsFinding(s.workers[0]) && IsSpent(config, s, Processing, at, next)
    ensures Leads(config, s, 0, false, t) && row.tried == Delivery.Budget(config) && row.endpoint == 0
    ensures t.workers == map[0 := Contacting(1, row)] && t.db == s.db && t.replays == s.replays
    ensures t.minted == s.minted && t.clock == at
  {
    var ready;
    ready, row := CountsSpent(config, s, at, next);
    Asks(config, s, 0, ready, 1, row, at);
    t := At(ready.(calls := Extended(ready.calls, 0, Ask(at)), clock := at), 0, Contacting(1, row));
  }

  // ------------------------------------------------- the delete comes during the contact

  lemma LosesTheCounted(config: Config, start: System, s: System, row: Fetched) returns (t: System)
    requires Reaches(config, start, FAULTLESS, s) && s.workers == map[0 := Contacting(1, row)]
    requires IsRequeued(s, 0, 1) && AttemptsKnown(s) && 1 in s.db.events
    ensures Reaches(config, start, FAULTLESS, t) && t.workers == s.workers && t.minted == s.minted
    ensures t.clock == s.clock && AttemptsKnown(t) && 1 in t.db.events && AttemptsOf(t.db, 1) == {}
  {
    ReachesMore(config, start, FAULTLESS, s, ReplayClear(0));
    t := Next(config, s, ReplayClear(0));
  }

  lemma NumberPastTheCount(db: Database, event: Id, id: Id)
    requires AttemptsOf(db, event) == {id} && db.attempts[id].number > 1
    ensures !Delivery.Numbered(db, event)
  {
    assert id in AttemptsOf(db, event);
  }

  lemma OneRowLogged(db: Database, after: Database, event: Id, id: Id, row: Attempt)
    requires InsertAttempt(db, id, row) == Some(after) && row.eventId == event && AttemptsOf(db, event) == {}
    ensures event in after.events && AttemptsOf(after, event) == {id} && after.attempts[id] == row
  {
  }

  lemma OnePlace(workers: map<Id, Pc>, p: Pc, q: Pc)
    requires workers == map[0 := p]
    ensures workers[0 := q] == map[0 := q]
  {
  }

  /** The contact fails, and the attempt goes on file with the number counted before. */
  lemma LogsTheCount(config: Config, t: System, at: Instant, row: Fetched, id: Id) returns (u: System)
    requires t.workers == map[0 := Contacting(1, row)] && t.clock <= at && AttemptsKnown(t) && id !in t.minted
    requires 1 in t.db.events && AttemptsOf(t.db, 1) == {}
    ensures Leads(config, t, 0, false, u) && u.workers == map[0 := Logged(1, row, Http(500))]
    ensures 1 in u.db.events && AttemptsOf(u.db, 1) == {id} && u.db.attempts[id].number == row.tried + 1
  {
    Here(config, t, 0, false);
    var attempt := AttemptRow(1, row.tried + 1, Http(500), 0);
    u := ContactAndLog(config, t, 0, t, 1, row, Input(at, at, 0, Http(500), id, id));
    assert InsertAttempt(t.db, id, attempt) == Some(u.db);
    OneRowLogged(t.db, u.db, 1, id, attempt);
    OnePlace(t.workers, Contacting(1, row), Logged(1, row, Http(500)));
  }

  lemma FailsAgain(config: Config, t: System, u: System, row: Fetched, id: Id) returns (v: System)
    requires Leads(config, t, 0, false, u) && u.workers == map[0 := Logged(1, row, Http(500))]
    requires row.tried == Delivery.Budget(config) && 1 in u.db.events
    requires AttemptsOf(u.db, 1) == {id} && u.db.attempts[id].number == row.tried + 1
    ensures Leads(config, t, 0, false, v) && HasStatus(v.db, 1, Failed)
    ensures AttemptsOf(v.db, 1) == {id} && v.db.attempts[id].number == row.tried + 1
  {
    Settles(config, t, 0, u, 1, row, Http(500));
    v := At(u.(db := SetStatus(u.db, 1, Failed)), 0, Burying(1, row, Http(500)));
    assert AttemptsOf(v.db, 1) == AttemptsOf(u.db, 1);
  }

  lemma ContactsInVain(config: Config, start: System, t: System, at: Instant, row: Fetched, id: Id)
    returns (u: System)
    requires Reaches(config, start, FAULTLESS, t) && t.workers == map[0 := Contacting(1, row)] && t.clock <= at
    requires AttemptsKnown(t) && id !in t.minted
    requires row.tried == Delivery.Budget(config) && 1 in t.db.events && AttemptsOf(t.db, 1) == {}
    ensures Reaches(config, start, FAULTLESS, u) && HasStatus(u.db, 1, Failed)
    ensures AttemptsOf(u.db, 1) == {id} && u.db.attempts[id].number == row.tried + 1
  {
    var logged := LogsTheCount(config, t, at, row, id);
    u := FailsAgain(config, t, logged, row, id);
    ReachesSolo(config, start, FAULTLESS, t, 0, false, u);
  }

  /** An interleaved replay need not restore the budget: for every configuration, from
      the start and without any storage fault, a stale count makes the replayed event
      FAILED again after one attempt, which is on file alone and under a number past
      the budget. */
  lemma ReplayedButFailedAtOnce(config: Config) returns (s: System, u: System, id: Id)
    ensures IsStart(ONE_AT_REST) && Reaches(config, ONE_AT_REST, FAULTLESS, s)
    ensures CountsStale(Delivery.Budget(config), s, Worker(0, Read))
    ensures Reaches(config, s, FAULTLESS, u)
    ensures HasStatus(u.db, 1, Failed) && AttemptsOf(u.db, 1) == {id}
    ensures u.db.attempts[id].number == Delivery.Budget(config) + 1 && !Delivery.Numbered(u.db, 1)
  {
    var at, next;
    s, at, next := IsAboutToCount(config);
    AwayIsFaultless(config, ONE_AT_REST, s);
    var asked, row := CountsAndAsks(config, s, at, next);
    ReachesItself(config, s, FAULTLESS);
    ReachesSolo(config, s, FAULTLESS, s, 0, false, asked);
    var t := LosesTheCounted(config, s, asked, row);
    id := next;
    u := ContactsInVain(config, s, t, at, row, id);
    NumberPastTheCount(u.db, 1, id);
  }

  // -------------------------------------------------- the delete comes after the burial

  lemma SettleEffect(config: Config, db: Database, event: Id, endpoint: Id, number: nat, input: Input)
    requires event in db.events && input.attemptId !in db.attempts
    ensures var after := Settle(config, db, event, endpoint, number, input).0;
      && after.attempts == db.attempts[input.attemptId := AttemptRow(event, number, input.response, input.wall)]
      && HasStatus(after, event, FinalStatus(config, number, input.response))
  {
  }

  lemma OneMoreRow(before: Database, after: Database, id: Id, row: Attempt)
    requires id !in before.attempts && after.attempts == before.attempts[id := row]
    ensures |AttemptsOf(after, row.eventId)| == |AttemptsOf(before, row.eventId)| + 1
  {
    assert AttemptsOf(after, row.eventId) == AttemptsOf(before, row.eventId) + {id};
  }

  lemma SettlesContact(config: Config, s: System, asked: System, row: Fetched, input: Input) returns (t: System)
    requires Leads(config, s, 0, false, asked) && asked.workers == map[0 := Contacting(1, row)]
    requires AttemptsKnown(asked) && 1 in asked.db.events && asked.clock <= input.recordedAt
    requires input.attemptId !in asked.minted && input.letterId !in asked.minted && input.attemptId != input.letterId
    ensures Leads(config, s, 0, false, t) && t.workers == asked.workers[0 := Resting] && t.replays == asked.replays
    ensures Settle(config, asked.db, 1, row.endpoint, row.tried + 1, input) == (t.db, true)
  {
    t := ContactAndSettle(config, s, 0, asked, 1, row, input);
  }

  lemma SettlesPastBudget(config: Config, s: System, asked: System, row: Fetched, id: Id) returns (t: System)
    requires Leads(config, s, 0, false, asked) && asked.workers == map[0 := Contacting(1, row)]
    requires AttemptsKnown(asked) && id !in asked.minted && id + 1 !in asked.minted
    requires 1 in asked.db.events && row.tried == |AttemptsOf(asked.db, 1)| == Delivery.Budget(config)
    ensures Leads(config, s, 0, false, t) && t.workers == map[0 := Resting] && t.replays == asked.replays
    ensures HasStatus(t.db, 1, Failed) && |AttemptsOf(t.db, 1)| == Delivery.Budget(config) + 1
  {
    var input := Input(asked.clock, asked.clock, 0, Http(500), id, id + 1);
    t := SettlesContact(config, s, asked, row, input);
    OnePlace(asked.workers, Contacting(1, row), Resting);
    SettleEffect(config, asked.db, 1, row.endpoint, row.tried + 1, input);
    OneMoreRow(asked.db, t.db, id, AttemptRow(1, row.tried + 1, Http(500), 0));
  }

  /** For every configuration, from the start, without faults and with replays that keep
      away from what workers hold or have counted: after a stale count the worker's one
      contact leaves the replayed event FAILED, with more attempts on file than its
      budget; the replay's delete then leaves it FAILED with none. */
  lemma ReplayedAndPassedOver(config: Config) returns (s: System, t: System, u: System)
    ensures IsStart(ONE_AT_REST) && ReachesAway(config, ONE_AT_REST, s)
    ensures CountsStale(Delivery.Budget(config), s, Worker(0, Read))
    ensures Leads(config, s, 0, false, t) && t.workers == map[0 := Resting]
    ensures HasStatus(t.db, 1, Failed) && |AttemptsOf(t.db, 1)| == Delivery.Budget(config) + 1
    ensures Enabled(t, ReplayClear(0)) && u == Next(config, t, ReplayClear(0))
    ensures ReachesAway(config, ONE_AT_REST, u) && HasStatus(u.db, 1, Failed) && AttemptsOf(u.db, 1) == {}
  {
    var at, next;
    s, at, next := IsAboutToCount(config);
    var asked, row := CountsAndAsks(config, s, at, next);
    t := SettlesPastBudget(config, s, asked, row, next);
    AwaySolo(config, ONE_AT_REST, s, 0, false, t);
    AwayMore(config, ONE_AT_REST, t, ReplayClear(0));
    u := Next(config, t, ReplayClear(0));
  }
}
