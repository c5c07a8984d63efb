/** What the attempt rows and the dead letters say about the contacts behind them. */
module Forensics {
  import opened Foundation
  import opened Tables
  import opened Operations
  import opened Decimals
  import opened Dispatching
  import opened DeliveryMachine

  /** An attempt carries no error exactly when the downstream answered with a 2xx
      status; the error of any other answer names its status. */
  predicate IsHonest(attempt: Attempt) {
    && (attempt.errorMessage.None? <==>
          attempt.responseStatus.Some? && 200 <= attempt.responseStatus.value < 300)
    && (attempt.errorMessage.Some? && attempt.responseStatus.Some? ==>
          attempt.errorMessage.value == "Downstream HTTP " + Decimal(attempt.responseStatus.value))
  }

  /** The dead letter repeats the last attempt of its event. */
  predicate Repeats(letter: DeadLetter, attempt: Attempt, last: nat) {
    && attempt.number == last
    && letter.lastStatus == attempt.responseStatus
    && attempt.errorMessage == Some(letter.reason)
    && letter.createdAt == attempt.createdAt
  }

  ghost predicate TellsTheLast(db: Database, d: Id)
    requires d in db.deadLetters
  {
    var letter := db.deadLetters[d];
    var tried := AttemptsOf(db, letter.eventId);
    && letter.eventId in db.events && letter.endpointId == db.events[letter.eventId].endpointId
    && exists a :: a in tried && Repeats(letter, db.attempts[a], |tried|)
  }

  ghost predicate Truthful(db: Database) {
    && (forall a :: a in db.attempts ==> IsHonest(db.attempts[a]))
    && (forall d :: d in db.deadLetters ==> TellsTheLast(db, d))
  }

  /** A letter stays true while its event, its attempts and the letter itself do. */
  lemma LetterStaysTrue(before: Database, after: Database, d: Id)
    requires d in before.deadLetters && TellsTheLast(before, d)
    requires d in after.deadLetters && after.deadLetters[d] == before.deadLetters[d]
    requires var e := before.deadLetters[d].eventId;
      && e in after.events && after.events[e].endpointId == before.events[e].endpointId
      && AttemptsOf(after, e) == AttemptsOf(before, e)
      && forall a :: a in AttemptsOf(before, e) ==> after.attempts[a] == before.attempts[a]
    ensures TellsTheLast(after, d)
  {
    var letter := before.deadLetters[d];
    var tried := AttemptsOf(before, letter.eventId);
    var a :| a in tried && Repeats(letter, before.attempts[a], |tried|);
    assert a in AttemptsOf(after, letter.eventId) && Repeats(letter, after.attempts[a], |tried|);
  }

  lemma RowsAreHonest(event: Id, number: nat, response: Response, wall: int)
    ensures IsHonest(AttemptRow(event, number, response, wall))
    ensures !response.IsSuccess() ==> forall endpoint ::
      Repeats(DeadLetterRow(event, endpoint, response, wall), AttemptRow(event, number, response, wall), number)
  {
  }

  lemma ContactIsTruthful(config: Config, db: Database, event: Id, input: Input)
    requires Truthful(db) && HasStatus(db, event, Received) && input.attemptId !in db.attempts
    requires forall d :: d in db.deadLetters ==> db.deadLetters[d].eventId != event
    requires input.letterId !in db.deadLetters
    ensures Truthful(Contacted(config, db, event, input))
  {
    var after := Contacted(config, db, event, input);
    AttemptsAfterContact(config, db, event, input);
    var number := |AttemptsOf(db, event)| + 1;
    RowsAreHonest(event, number, input.response, input.wall);
    forall d | d in after.deadLetters
      ensures TellsTheLast(after, d)
    {
      if d in db.deadLetters {
        LetterStaysTrue(db, after, d);
      } else {
        var letter := after.deadLetters[d];
        assert input.attemptId in AttemptsOf(after, event);
        assert Repeats(letter, after.attempts[input.attemptId], |AttemptsOf(after, event)|);
      }
    }
  }

  lemma PassIsTruthful(config: Config, w: World, input: Input)
    requires Inv(config, w) && Enabled(w, DispatchOnce(input)) && Truthful(w.db)
    ensures Truthful(Next(config, w, DispatchOnce(input)).db)
  {
    PassCases(config, w, input);
    if NextEvent(w.db).Some? {
      ContactIsTruthful(config, w.db, NextEvent(w.db).value, input);
    }
  }

  lemma ReplayIsTruthful(db: Database, letter: Id)
    requires Integrity(db) && Truthful(db)
    ensures Truthful(Replay(db, letter).0)
  {
    var after := Replay(db, letter).0;
    ReplayMeans(db, letter);
    forall d | d in after.deadLetters
      ensures TellsTheLast(after, d)
    {
      LetterStaysTrue(db, after, d);
    }
  }

  lemma RetireIsTruthful(db: Database, endpoint: Id)
    requires Integrity(db) && Truthful(db)
    ensures Truthful(Retire(db, endpoint).0)
  {
    var after := Retire(db, endpoint).0;
    RetireMeans(db, endpoint);
    forall d | d in after.deadLetters
      ensures TellsTheLast(after, d)
    {
      LetterStaysTrue(db, after, d);
    }
  }

  lemma AcceptIsTruthful(db: Database, id: Id, event: Event)
    requires Integrity(db) && id !in db.events && Truthful(db)
    ensures Truthful(Accept(db, id, event).0)
  {
    var after := Accept(db, id, event).0;
    AcceptMeans(db, id, event);
    forall d | d in after.deadLetters
      ensures TellsTheLast(after, d)
    {
      assert AttemptsOf(after, db.deadLetters[d].eventId) == AttemptsOf(db, db.deadLetters[d].eventId);
      LetterStaysTrue(db, after, d);
    }
  }

  lemma CreateIsTruthful(db: Database, id: Id, endpoint: Endpoint)
    requires Truthful(db) && InsertEndpoint(db, id, endpoint).Some?
    ensures Truthful(InsertEndpoint(db, id, endpoint).value)
  {
    var after := InsertEndpoint(db, id, endpoint).value;
    forall d | d in after.deadLetters
      ensures TellsTheLast(after, d)
    {
      LetterStaysTrue(db, after, d);
    }
  }

  lemma {:induction false} RunIsTruthful(config: Config, steps: seq<Step>)
    requires IsRun(config, START, steps)
    ensures Truthful(Run(config, START, steps).db)
  {
    if steps != [] {
      var before, step := steps[..|steps| - 1], steps[|steps| - 1];
      var w := Run(config, START, before);
      RunIsTruthful(config, before);
      ReachableStatesAreSound(config, before);
      match step
      case CreateEndpoint(id, row) => CreateIsTruthful(w.db, id, row);
      case AcceptEvent(id, row) => AcceptIsTruthful(w.db, id, row);
      case DispatchOnce(input) => PassIsTruthful(config, w, input);
      case ReplayDeadLetter(letter) => ReplayIsTruthful(w.db, letter);
      case RemoveEndpoint(id) => RetireIsTruthful(w.db, id);
    }
  }

  /** In every reachable state, a dead letter names its event's endpoint and repeats
      the status, the error and the time of the event's B-th attempt; the fallback
      reason is never used. */
  lemma DeadLettersTellTheLastAttempt(config: Config, steps: seq<Step>, d: Id)
    requires IsRun(config, START, steps) && d in Run(config, START, steps).db.deadLetters
    ensures var db := Run(config, START, steps).db;
      var letter := db.deadLetters[d];
      && letter.eventId in db.events && letter.endpointId == db.events[letter.eventId].endpointId
      && exists a :: a in AttemptsOf(db, letter.eventId) && IsHonest(db.attempts[a]) &&
           Repeats(letter, db.attempts[a], Budget(config))
  {
    RunIsTruthful(config, steps);
    ReachableStatesAreSound(config, steps);
    var db := Run(config, START, steps).db;
    assert LedgerOf(Budget(config), db, db.deadLetters[d].eventId);
    LetterOfFailedEvent(config, db, d);
  }

  lemma LetterOfFailedEvent(config: Config, db: Database, d: Id)
    requires d in db.deadLetters && TellsTheLast(db, d)
    requires |AttemptsOf(db, db.deadLetters[d].eventId)| == Budget(config)
    requires forall a :: a in db.attempts ==> IsHonest(db.attempts[a])
    ensures exists a ::
      && a in AttemptsOf(db, db.deadLetters[d].eventId)
      && IsHonest(db.attempts[a]) && Repeats(db.deadLetters[d], db.attempts[a], Budget(config))
  {
    var tried := AttemptsOf(db, db.deadLetters[d].eventId);
    var a :| a in tried && Repeats(db.deadLetters[d], db.attempts[a], |tried|);
    assert IsHonest(db.attempts[a]) && Repeats(db.deadLetters[d], db.attempts[a], Budget(config));
  }
}
