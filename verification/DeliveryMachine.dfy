/** The relay with whole calls as steps: one worker, no storage faults. Its runs,
    and what every reachable state satisfies. */
module DeliveryMachine {
  import opened Foundation
  import opened Tables
  import opened Operations
  import opened CircuitBreakers
  import opened BreakerRates
  import opened Dispatching

  /** What a run leaves in its record. */
  datatype Entry =
    | Registered(endpoint: Id, row: Endpoint)
    | Took(event: Id, endpoint: Id, key: string, body: seq<Byte>)
    | Sent(contact: Contact)
    | Finished(event: Id, delivered: bool)
    | Replayed(event: Id)
    | Dropped(endpoint: Id)

  /** The tables, the breakers' histories, the clock, every identifier handed out
      so far, and the record of the run. */
  datatype World = World(
    db: Database, calls: Histories, clock: Instant, minted: set<Id>, log: seq<Entry>)

  const START := World(EMPTY, map[], 0, {}, [])

  datatype Step =
    | CreateEndpoint(id: Id, endpoint: Endpoint)
    | RemoveEndpoint(id: Id)
    | AcceptEvent(id: Id, event: Event)
    | ReplayDeadLetter(id: Id)
    | DispatchOnce(input: Input)

  /** New identifiers have never been handed out; the clock does not go back. */
  predicate Enabled(w: World, step: Step) {
    match step
    case CreateEndpoint(id, _) => id !in w.minted
    case RemoveEndpoint(_) => true
    case AcceptEvent(id, _) => id !in w.minted
    case ReplayDeadLetter(_) => true
    case DispatchOnce(input) =>
      && w.clock <= input.askedAt <= input.recordedAt
      && input.attemptId !in w.minted && input.letterId !in w.minted && input.attemptId != input.letterId
  }

  /** The record of one pass: the contact, and the end of the event if it came to one. */
  function PassEntries(db: Database, contact: Option<Contact>): seq<Entry> {
    if contact.None? then []
    else
      var c := contact.value;
      [Sent(c)] +
      (if HasStatus(db, c.event, Delivered) || HasStatus(db, c.event, Failed)
       then [Finished(c.event, HasStatus(db, c.event, Delivered))] else [])
  }

  ghost function Next(config: Config, w: World, step: Step): World {
    match step
    case CreateEndpoint(id, endpoint) =>
      (match InsertEndpoint(w.db, id, endpoint)
       case Some(db) => w.(db := db, minted := w.minted + {id}, log := w.log + [Registered(id, endpoint)])
       case None => w.(minted := w.minted + {id}))
    case RemoveEndpoint(id) =>
      var (db, result) := Retire(w.db, id);
      w.(db := db, log := if result.Retired? then w.log + [Dropped(id)] else w.log)
    case AcceptEvent(id, event) =>
      var (db, result) := Accept(w.db, id, event);
      w.(db := db, minted := w.minted + {id},
         log := if result.Accepted? then w.log + [Took(id, event.endpointId, event.key, event.body)] else w.log)
    case ReplayDeadLetter(id) =>
      var (db, result) := Replay(w.db, id);
      w.(db := db, log := if result.Some? then w.log + [Replayed(result.value)] else w.log)
    case DispatchOnce(input) =>
      var pass := RunOnce(config, w.db, w.calls, input);
      World(pass.db, pass.calls, input.recordedAt, w.minted + {input.attemptId, input.letterId},
            w.log + PassEntries(pass.db, pass.contact))
  }

  ghost predicate IsRun(config: Config, w: World, steps: seq<Step>) {
    steps == [] ||
    (IsRun(config, w, steps[..|steps| - 1]) && Enabled(Run(config, w, steps[..|steps| - 1]), steps[|steps| - 1]))
  }

  ghost function Run(config: Config, w: World, steps: seq<Step>): World {
    if steps == [] then w
    else Next(config, Run(config, w, steps[..|steps| - 1]), steps[|steps| - 1])
  }

  // ---------------------------------------------------------------- the invariants

  /** The number of contacts an event is worth. */
  function Budget(config: Config): (b: nat)
    ensures b >= 1
  {
    AtLeastOne(config.maxAttempts)
  }

  ghost predicate HasNumber(db: Database, event: Id, k: nat) {
    exists a :: a in AttemptsOf(db, event) && db.attempts[a].number == k
  }

  /** The attempts of an event carry the numbers 1 .. n, each once. */
  ghost predicate Numbered(db: Database, event: Id) {
    var tried := AttemptsOf(db, event);
    && (forall a :: a in tried ==> 1 <= db.attempts[a].number <= |tried|)
    && (forall a, b :: a in tried && b in tried && a != b ==> db.attempts[a].number != db.attempts[b].number)
    && (forall k :: 1 <= k <= |tried| ==> HasNumber(db, event, k))
  }

  ghost predicate AllFailed(db: Database, event: Id) {
    forall a :: a in AttemptsOf(db, event) ==> db.attempts[a].errorMessage.Some?
  }

  /** Only the last attempt succeeded. */
  ghost predicate LastSucceeded(db: Database, event: Id) {
    var tried := AttemptsOf(db, event);
    forall a :: a in tried ==> (db.attempts[a].errorMessage.None? <==> db.attempts[a].number == |tried|)
  }

  ghost predicate LedgerOf(budget: nat, db: Database, event: Id)
    requires event in db.events
  {
    var n := |AttemptsOf(db, event)|;
    && Numbered(db, event)
    && match db.events[event].status
       case Received => n < budget && AllFailed(db, event)
       case Processing => false
       case Failed => n == budget && AllFailed(db, event)
       case Delivered => 1 <= n <= budget && LastSucceeded(db, event)
  }

  ghost predicate Ledger(budget: nat, db: Database) {
    forall e :: e in db.events ==> LedgerOf(budget, db, e)
  }

  /** The dead letters are exactly the failed events. */
  ghost predicate DeadLettersAgree(db: Database) {
    && (forall d :: d in db.deadLetters ==> HasStatus(db, db.deadLetters[d].eventId, Failed))
    && (forall e :: HasStatus(db, e, Failed) ==> exists d :: d in db.deadLetters && db.deadLetters[d].eventId == e)
  }

  ghost predicate RowsAreMinted(db: Database, minted: set<Id>) {
    && db.endpoints.Keys <= minted && db.events.Keys <= minted
    && db.attempts.Keys <= minted && db.deadLetters.Keys <= minted
  }

  /** No contact is waiting for its result. */
  ghost predicate Answered(config: Config, calls: seq<Call>) {
    calls != [] ==> !GrantedAt(config.failureThreshold, config.recovery, calls, |calls| - 1)
  }

  ghost predicate SoundHistory(config: Config, calls: seq<Call>, clock: Instant) {
    && Timed(calls) && NotBefore(calls, clock)
    && OneWorker(config.failureThreshold, config.recovery, calls)
    && Answered(config, calls)
  }

  ghost predicate SoundHistories(config: Config, calls: Histories, clock: Instant) {
    forall n :: n in calls ==> SoundHistory(config, calls[n], clock)
  }

  ghost predicate Inv(config: Config, w: World) {
    && Integrity(w.db)
    && Ledger(Budget(config), w.db)
    && DeadLettersAgree(w.db)
    && RowsAreMinted(w.db, w.minted)
    && SoundHistories(config, w.calls, w.clock)
  }

  // ------------------------------------------------------------------ what a pass does

  /** The tables after one contact for a waiting event. */
  function Contacted(config: Config, db: Database, event: Id, input: Input): Database
    requires event in db.events
  {
    var number := |AttemptsOf(db, event)| + 1;
    var status := FinalStatus(config, number, input.response);
    Database(
      db.endpoints,
      db.events[event := db.events[event].(status := status)],
      db.attempts[input.attemptId := AttemptRow(event, number, input.response, input.wall)],
      if status.Failed?
      then db.deadLetters[
        input.letterId := DeadLetterRow(event, db.events[event].endpointId, input.response, input.wall)]
      else db.deadLetters)
  }

  lemma ClaimIsUndone(db: Database, event: Id)
    requires HasStatus(db, event, Received)
    ensures SetStatus(SetStatus(db, event, Processing), event, Received) == db
  {
    assert SetStatus(SetStatus(db, event, Processing), event, Received).events == db.events;
  }

  lemma SettleContacts(config: Config, db: Database, event: Id, input: Input)
    requires HasStatus(db, event, Received) && input.attemptId !in db.attempts && input.letterId !in db.deadLetters
    requires forall d :: d in db.deadLetters ==> db.deadLetters[d].eventId != event
    ensures Settle(config, SetStatus(db, event, Processing), event, db.events[event].endpointId,
                   |AttemptsOf(db, event)| + 1, input)
         == (Contacted(config, db, event, input), true)
  {
    var claimed := SetStatus(db, event, Processing);
    var number := |AttemptsOf(db, event)| + 1;
    var status := FinalStatus(config, number, input.response);
    var attempt := AttemptRow(event, number, input.response, input.wall);
    var recorded := InsertAttempt(claimed, input.attemptId, attempt).value;
    var settled := SetStatus(recorded, event, status);
    assert settled.events == Contacted(config, db, event, input).events;
    if status.Failed? {
      var letter := DeadLetterRow(event, db.events[event].endpointId, input.response, input.wall);
      assert PutDeadLetter(settled, input.letterId, letter).value.deadLetters
          == db.deadLetters[input.letterId := letter];
    }
  }

  /** A pass from a sound state is idle, defers without touching the tables, or
      makes exactly one contact for the oldest waiting event. It never errs. */
  lemma PassCases(config: Config, w: World, input: Input)
    requires Inv(config, w) && Enabled(w, DispatchOnce(input))
    ensures var pass := RunOnce(config, w.db, w.calls, input);
      match NextEvent(w.db)
      case None =>
        pass == Pass(w.db, w.calls, Idle, None)
      case Some(event) =>
        && Fetch(w.db, event).Some?
        && var row := Fetch(w.db, event).value;
           var asked := Extended(w.calls, row.endpoint, Ask(input.askedAt));
           if GrantsFrom(config.failureThreshold, config.recovery, HistoryOf(w.calls, row.endpoint), input.askedAt)
           then pass == Pass(Contacted(config, w.db, event, input),
                             Extended(asked, row.endpoint, Verdict(input.response, input.recordedAt)),
                             Settled, Some(Request(event, row, input)))
           else pass == Pass(w.db, asked, Deferred, None)
  {
    if NextEvent(w.db).Some? {
      var event := NextEvent(w.db).value;
      var claimed := SetStatus(w.db, event, Processing);
      assert AttemptsOf(claimed, event) == AttemptsOf(w.db, event);
      assert Fetch(claimed, event) == Fetch(w.db, event);
      ClaimIsUndone(w.db, event);
      SettleContacts(config, w.db, event, input);
    }
  }

  // ---------------------------------------------------------------------- the ledger

  lemma SameNumbers(before: Database, after: Database, event: Id)
    requires Numbered(before, event) && AttemptsOf(after, event) == AttemptsOf(before, event)
    requires forall a :: a in AttemptsOf(before, event) ==> after.attempts[a] == before.attempts[a]
    ensures Numbered(after, event)
  {
    forall k | 1 <= k <= |AttemptsOf(after, event)|
      ensures HasNumber(after, event, k)
    {
      assert HasNumber(before, event, k);
    }
  }

  lemma SameLedger(budget: nat, before: Database, after: Database, event: Id)
    requires event in before.events && LedgerOf(budget, before, event)
    requires event in after.events && after.events[event].status == before.events[event].status
    requires AttemptsOf(after, event) == AttemptsOf(before, event)
    requires forall a :: a in AttemptsOf(before, event) ==> after.attempts[a] == before.attempts[a]
    ensures LedgerOf(budget, after, event)
  {
    SameNumbers(before, after, event);
  }

  /** One more attempt, with the next number. */
  lemma OneMoreNumbered(before: Database, after: Database, event: Id, id: Id)
    requires Numbered(before, event) && id !in before.attempts && id in after.attempts
    requires AttemptsOf(after, event) == AttemptsOf(before, event) + {id}
    requires forall a :: a in AttemptsOf(before, event) ==> after.attempts[a] == before.attempts[a]
    requires after.attempts[id].number == |AttemptsOf(before, event)| + 1
    ensures Numbered(after, event) && |AttemptsOf(after, event)| == |AttemptsOf(before, event)| + 1
  {
    var tried := AttemptsOf(after, event);
    assert id !in AttemptsOf(before, event);
    forall k | 1 <= k <= |tried|
      ensures HasNumber(after, event, k)
    {
      if k == |tried| {
        assert id in tried && after.attempts[id].number == k;
      } else {
        assert HasNumber(before, event, k);
        var a :| a in AttemptsOf(before, event) && before.attempts[a].number == k;
        assert a in tried && after.attempts[a].number == k;
      }
    }
  }

  lemma AttemptsAfterContact(config: Config, db: Database, event: Id, input: Input)
    requires event in db.events && input.attemptId !in db.attempts
    ensures var after := Contacted(config, db, event, input);
      && AttemptsOf(after, event) == AttemptsOf(db, event) + {input.attemptId}
      && |AttemptsOf(after, event)| == |AttemptsOf(db, event)| + 1
      && forall e :: e != event ==> AttemptsOf(after, e) == AttemptsOf(db, e)
  {
    var after := Contacted(config, db, event, input);
    assert input.attemptId !in AttemptsOf(db, event);
    assert AttemptsOf(after, event) == AttemptsOf(db, event) + {input.attemptId};
  }

  lemma ContactLedger(config: Config, db: Database, event: Id, input: Input)
    requires HasStatus(db, event, Received) && input.attemptId !in db.attempts
    requires LedgerOf(Budget(config), db, event)
    ensures LedgerOf(Budget(config), Contacted(config, db, event, input), event)
  {
    AttemptsAfterContact(config, db, event, input);
    OneMoreNumbered(db, Contacted(config, db, event, input), event, input.attemptId);
  }

  lemma ContactKeepsLedger(config: Config, db: Database, event: Id, input: Input)
    requires HasStatus(db, event, Received) && input.attemptId !in db.attempts
    requires Ledger(Budget(config), db)
    ensures Ledger(Budget(config), Contacted(config, db, event, input))
  {
    var after := Contacted(config, db, event, input);
    AttemptsAfterContact(config, db, event, input);
    forall e | e in after.events
      ensures LedgerOf(Budget(config), after, e)
    {
      if e == event {
        ContactLedger(config, db, event, input);
      } else {
        SameLedger(Budget(config), db, after, e);
      }
    }
  }

  lemma ReplayKeepsLedger(config: Config, db: Database, letter: Id)
    requires Integrity(db) && Ledger(Budget(config), db)
    ensures Ledger(Budget(config), Replay(db, letter).0)
  {
    var (after, result) := Replay(db, letter);
    ReplayMeans(db, letter);
    forall e | e in after.events
      ensures LedgerOf(Budget(config), after, e)
    {
      if result.None? || e != result.value {
        assert AttemptsOf(after, e) == AttemptsOf(db, e);
        SameLedger(Budget(config), db, after, e);
      }
    }
  }

  lemma RetireKeepsLedger(config: Config, db: Database, endpoint: Id)
    requires Integrity(db) && Ledger(Budget(config), db)
    ensures Ledger(Budget(config), Retire(db, endpoint).0)
  {
    var after := Retire(db, endpoint).0;
    RetireMeans(db, endpoint);
    forall e | e in after.events
      ensures LedgerOf(Budget(config), after, e)
    {
      SameLedger(Budget(config), db, after, e);
    }
  }

  lemma AcceptKeepsLedger(config: Config, db: Database, id: Id, event: Event)
    requires Integrity(db) && id !in db.events && Ledger(Budget(config), db)
    ensures Ledger(Budget(config), Accept(db, id, event).0)
  {
    var after := Accept(db, id, event).0;
    AcceptMeans(db, id, event);
    forall e | e in after.events
      ensures LedgerOf(Budget(config), after, e)
    {
      if e in db.events {
        assert AttemptsOf(after, e) == AttemptsOf(db, e);
        SameLedger(Budget(config), db, after, e);
      } else {
        assert AttemptsOf(after, e) == {};
      }
    }
  }

  // ------------------------------------------------------------------- dead letters

  lemma ContactKeepsAgreement(config: Config, db: Database, event: Id, input: Input)
    requires HasStatus(db, event, Received) && input.letterId !in db.deadLetters
    requires DeadLettersAgree(db)
    ensures DeadLettersAgree(Contacted(config, db, event, input))
  {
    var after := Contacted(config, db, event, input);
    forall e | HasStatus(after, e, Failed)
      ensures exists d :: d in after.deadLetters && after.deadLetters[d].eventId == e
    {
      if e == event {
        assert after.deadLetters[input.letterId].eventId == e;
      } else {
        assert HasStatus(db, e, Failed);
        var d :| d in db.deadLetters && db.deadLetters[d].eventId == e;
        assert d in after.deadLetters && after.deadLetters[d].eventId == e;
      }
    }
  }

  lemma ReplayKeepsAgreement(db: Database, letter: Id)
    requires Integrity(db) && DeadLettersAgree(db)
    ensures DeadLettersAgree(Replay(db, letter).0)
  {
    var (after, result) := Replay(db, letter);
    ReplayMeans(db, letter);
    forall e | HasStatus(after, e, Failed)
      ensures exists d :: d in after.deadLetters && after.deadLetters[d].eventId == e
    {
      assert HasStatus(db, e, Failed);
      var d :| d in db.deadLetters && db.deadLetters[d].eventId == e;
      assert d in after.deadLetters;
    }
  }

  lemma RetireKeepsAgreement(db: Database, endpoint: Id)
    requires Integrity(db) && DeadLettersAgree(db)
    ensures DeadLettersAgree(Retire(db, endpoint).0)
  {
    var after := Retire(db, endpoint).0;
    RetireMeans(db, endpoint);
    forall e | HasStatus(after, e, Failed)
      ensures exists d :: d in after.deadLetters && after.deadLetters[d].eventId == e
    {
      assert HasStatus(db, e, Failed);
      var d :| d in db.deadLetters && db.deadLetters[d].eventId == e;
      assert d in after.deadLetters;
    }
  }

  lemma AcceptKeepsAgreement(db: Database, id: Id, event: Event)
    requires Integrity(db) && id !in db.events && DeadLettersAgree(db)
    ensures DeadLettersAgree(Accept(db, id, event).0)
  {
    var after := Accept(db, id, event).0;
    AcceptMeans(db, id, event);
    forall e | HasStatus(after, e, Failed)
      ensures exists d :: d in after.deadLetters && after.deadLetters[d].eventId == e
    {
      assert HasStatus(db, e, Failed);
    }
  }

  // One lemma for each constraint of the schema.

  lemma ContactKeepsEvents(config: Config, db: Database, event: Id, input: Input)
    requires EventsHaveEndpoints(db) && KeysAreUnique(db) && event in db.events
    ensures var after := Contacted(config, db, event, input); EventsHaveEndpoints(after) && KeysAreUnique(after)
  {
    var after := Contacted(config, db, event, input);
    assert forall e :: e in after.events ==>
      && e in db.events && after.events[e].endpointId == db.events[e].endpointId
      && after.events[e].key == db.events[e].key;
  }

  lemma ContactKeepsAttempts(config: Config, db: Database, event: Id, input: Input)
    requires AttemptsHaveEvents(db) && event in db.events
    ensures AttemptsHaveEvents(Contacted(config, db, event, input))
  {
  }

  lemma ContactKeepsLetters(config: Config, db: Database, event: Id, input: Input)
    requires DeadLettersHaveEvents(db) && OneDeadLetterEach(db) && event in db.events
    requires forall d :: d in db.deadLetters ==> db.deadLetters[d].eventId != event
    ensures var after := Contacted(config, db, event, input);
      DeadLettersHaveEvents(after) && OneDeadLetterEach(after)
  {
  }

  lemma ContactKeepsIntegrity(config: Config, db: Database, event: Id, input: Input)
    requires Integrity(db) && HasStatus(db, event, Received) && DeadLettersAgree(db)
    ensures Integrity(Contacted(config, db, event, input))
  {
    ContactKeepsEvents(config, db, event, input);
    ContactKeepsAttempts(config, db, event, input);
    assert forall d :: d in db.deadLetters ==> db.deadLetters[d].eventId != event;
    ContactKeepsLetters(config, db, event, input);
  }

  // ---------------------------------------------------------------------- histories

  /** A worker that has recorded its last grant may ask again. */
  lemma AskKeepsOneWorker(threshold: nat, recovery: Duration, calls: seq<Call>, at: Instant)
    requires OneWorker(threshold, recovery, calls)
    requires calls != [] ==> !GrantedAt(threshold, recovery, calls, |calls| - 1)
    ensures OneWorker(threshold, recovery, calls + [Ask(at)])
    ensures GrantedAt(threshold, recovery, calls + [Ask(at)], |calls|) == GrantsFrom(threshold, recovery, calls, at)
  {
    GrantsInPrefix(threshold, recovery, calls, Ask(at));
    assert (calls + [Ask(at)])[..|calls|] == calls;
  }

  lemma GrantsInPrefix(threshold: nat, recovery: Duration, calls: seq<Call>, call: Call)
    ensures forall i :: 0 <= i < |calls| ==>
      GrantedAt(threshold, recovery, calls + [call], i) == GrantedAt(threshold, recovery, calls, i)
  {
    forall i | 0 <= i < |calls|
      ensures GrantedAt(threshold, recovery, calls + [call], i) == GrantedAt(threshold, recovery, calls, i)
    {
      assert (calls + [call])[..i] == calls[..i];
    }
  }

  lemma RecordKeepsOneWorker(threshold: nat, recovery: Duration, calls: seq<Call>, record: Call)
    requires OneWorker(threshold, recovery, calls) && record.IsRecord()
    requires calls != [] && GrantedAt(threshold, recovery, calls, |calls| - 1)
    ensures OneWorker(threshold, recovery, calls + [record])
  {
    GrantsInPrefix(threshold, recovery, calls, record);
  }

  lemma TimedGrows(calls: seq<Call>, call: Call)
    requires Timed(calls) && NotBefore(calls, call.at)
    ensures Timed(calls + [call])
  {
    assert (calls + [call])[..|calls|] == calls;
  }

  lemma DeferKeepsHistory(config: Config, calls: seq<Call>, clock: Instant, input: Input)
    requires SoundHistory(config, calls, clock) && clock <= input.askedAt <= input.recordedAt
    requires !GrantsFrom(config.failureThreshold, config.recovery, calls, input.askedAt)
    ensures SoundHistory(config, calls + [Ask(input.askedAt)], input.recordedAt)
  {
    TimedGrows(calls, Ask(input.askedAt));
    AskKeepsOneWorker(config.failureThreshold, config.recovery, calls, input.askedAt);
  }

  lemma ContactKeepsHistory(config: Config, calls: seq<Call>, clock: Instant, input: Input)
    requires SoundHistory(config, calls, clock) && clock <= input.askedAt <= input.recordedAt
    requires GrantsFrom(config.failureThreshold, config.recovery, calls, input.askedAt)
    ensures SoundHistory(config,
              calls + [Ask(input.askedAt)] + [Verdict(input.response, input.recordedAt)], input.recordedAt)
  {
    var asked := calls + [Ask(input.askedAt)];
    var record := Verdict(input.response, input.recordedAt);
    TimedGrows(calls, Ask(input.askedAt));
    TimedGrows(asked, record);
    AskKeepsOneWorker(config.failureThreshold, config.recovery, calls, input.askedAt);
    RecordKeepsOneWorker(config.failureThreshold, config.recovery, asked, record);
  }

  /** With every grant answered, no probe is out. */
  lemma {:induction false} NoProbeOut(config: Config, calls: seq<Call>)
    requires OneWorker(config.failureThreshold, config.recovery, calls) && Answered(config, calls)
    ensures !GrantedSinceRecord(config.failureThreshold, config.recovery, calls)
  {
    if calls != [] && !calls[|calls| - 1].IsRecord() {
      var n := |calls| - 1;
      var before := calls[..n];
      OneWorkerPrefix(config.failureThreshold, config.recovery, calls, n);
      if n > 0 {
        assert before[..n - 1] == calls[..n - 1];
        assert !GrantedAt(config.failureThreshold, config.recovery, calls, n - 1);
      }
      NoProbeOut(config, before);
    }
  }

  lemma PassKeepsHistories(config: Config, w: World, input: Input)
    requires Inv(config, w) && Enabled(w, DispatchOnce(input))
    ensures SoundHistories(config, RunOnce(config, w.db, w.calls, input).calls, input.recordedAt)
  {
    PassCases(config, w, input);
    if NextEvent(w.db).Some? {
      var row := Fetch(w.db, NextEvent(w.db).value).value;
      var history := HistoryOf(w.calls, row.endpoint);
      if GrantsFrom(config.failureThreshold, config.recovery, history, input.askedAt) {
        ContactKeepsHistory(config, history, w.clock, input);
      } else {
        DeferKeepsHistory(config, history, w.clock, input);
      }
    }
  }

  // ------------------------------------------------------------------- every state

  lemma PassKeepsInv(config: Config, w: World, input: Input)
    requires Inv(config, w) && Enabled(w, DispatchOnce(input))
    ensures Inv(config, Next(config, w, DispatchOnce(input)))
  {
    PassCases(config, w, input);
    PassKeepsHistories(config, w, input);
    if NextEvent(w.db).Some? {
      var event := NextEvent(w.db).value;
      ContactKeepsIntegrity(config, w.db, event, input);
      ContactKeepsLedger(config, w.db, event, input);
      ContactKeepsAgreement(config, w.db, event, input);
    }
  }

  lemma ReplayKeepsInv(config: Config, w: World, letter: Id)
    requires Inv(config, w)
    ensures Inv(config, Next(config, w, ReplayDeadLetter(letter)))
  {
    ReplayKeeps(w.db, letter);
    ReplayKeepsLedger(config, w.db, letter);
    ReplayKeepsAgreement(w.db, letter);
  }

  lemma RetireKeepsInv(config: Config, w: World, endpoint: Id)
    requires Inv(config, w)
    ensures Inv(config, Next(config, w, RemoveEndpoint(endpoint)))
  {
    RetireKeeps(w.db, endpoint);
    RetireKeepsLedger(config, w.db, endpoint);
    RetireKeepsAgreement(w.db, endpoint);
  }

  lemma AcceptKeepsInv(config: Config, w: World, id: Id, event: Event)
    requires Inv(config, w) && Enabled(w, AcceptEvent(id, event))
    ensures Inv(config, Next(config, w, AcceptEvent(id, event)))
  {
    AcceptKeeps(w.db, id, event);
    AcceptKeepsLedger(config, w.db, id, event);
    AcceptKeepsAgreement(w.db, id, event);
    AcceptMeans(w.db, id, event);
  }

  lemma CreateKeepsInv(config: Config, w: World, id: Id, endpoint: Endpoint)
    requires Inv(config, w) && Enabled(w, CreateEndpoint(id, endpoint))
    ensures Inv(config, Next(config, w, CreateEndpoint(id, endpoint)))
  {
    var after := InsertEndpoint(w.db, id, endpoint).value;
    InsertEndpointKeeps(w.db, id, endpoint);
    forall e | e in after.events
      ensures LedgerOf(Budget(config), after, e)
    {
      SameLedger(Budget(config), w.db, after, e);
    }
    forall e | HasStatus(after, e, Failed)
      ensures exists d :: d in after.deadLetters && after.deadLetters[d].eventId == e
    {
      assert HasStatus(w.db, e, Failed);
    }
  }

  lemma StepKeepsInv(config: Config, w: World, step: Step)
    requires Inv(config, w) && Enabled(w, step)
    ensures Inv(config, Next(config, w, step))
  {
    match step
    case CreateEndpoint(id, endpoint) => CreateKeepsInv(config, w, id, endpoint);
    case RemoveEndpoint(id) => RetireKeepsInv(config, w, id);
    case AcceptEvent(id, event) => AcceptKeepsInv(config, w, id, event);
    case ReplayDeadLetter(id) => ReplayKeepsInv(config, w, id);
    case DispatchOnce(input) => PassKeepsInv(config, w, input);
  }

  lemma {:induction false} RunKeepsInv(config: Config, w: World, steps: seq<Step>)
    requires Inv(config, w) && IsRun(config, w, steps)
    ensures Inv(config, Run(config, w, steps))
  {
    if steps != [] {
      RunKeepsInv(config, w, steps[..|steps| - 1]);
      StepKeepsInv(config, Run(config, w, steps[..|steps| - 1]), steps[|steps| - 1]);
    }
  }

  /** Every state that the relay can reach satisfies the invariants. */
  lemma ReachableStatesAreSound(config: Config, steps: seq<Step>)
    requires IsRun(config, START, steps)
    ensures Inv(config, Run(config, START, steps))
  {
    RunKeepsInv(config, START, steps);
  }
}
