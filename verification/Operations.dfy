/** The operations beside the worker, as functions of the tables: accepting an
    event, the compare-and-swap on its status, replaying a dead letter, and
    creating and deleting endpoints. */
module Operations {
  import opened Foundation
  import opened Tables

  datatype AcceptResult = Accepted(id: Id) | Duplicate(status: Status) | AcceptRefused

  datatype RetireResult = Retired | StillPending(count: nat) | UnknownEndpoint

  /** Insert a new RECEIVED event, unless its endpoint already has the key. */
  ghost function Accept(db: Database, id: Id, event: Event): (Database, AcceptResult) {
    if existing :| existing in Matching(db, event.endpointId, event.key) then
      (db, Duplicate(db.events[existing].status))
    else
      match InsertEvent(db, id, event.(status := Received))
      case Some(after) => (after, Accepted(id))
      case None => (db, AcceptRefused)
  }

  /** UPDATE .. WHERE id = .. AND status = ..; true when a row changed. */
  function Transition(db: Database, event: Id, from: Status, to: Status): (Database, bool) {
    if HasStatus(db, event, from) then (SetStatus(db, event, to), true) else (db, false)
  }

  /** The whole replay: the event goes back to the queue, its attempts and its
      dead letter go away. None when there is no such dead letter. */
  function Replay(db: Database, letter: Id): (Database, Option<Id>) {
    if letter !in db.deadLetters then (db, None)
    else
      var event := db.deadLetters[letter].eventId;
      (DeleteDeadLetter(DeleteAttemptsOf(SetStatus(db, event, Received), event), letter), Some(event))
  }

  /** The events that keep an endpoint from being deleted. */
  function PendingAt(db: Database, endpoint: Id): set<Id> {
    set e | e in db.events && db.events[e].endpointId == endpoint &&
            (db.events[e].status == Received || db.events[e].status == Processing)
  }

  function Retire(db: Database, endpoint: Id): (Database, RetireResult) {
    if PendingAt(db, endpoint) != {} then (db, StillPending(|PendingAt(db, endpoint)|))
    else (DeleteEndpoint(db, endpoint), if endpoint in db.endpoints then Retired else UnknownEndpoint)
  }

  // ---------------------------------------------------------------- what they promise

  /** Accepting adds a row exactly when the endpoint exists and has not seen the
      key; a duplicate is told the status the event has now; without the endpoint the
      event is refused. */
  lemma AcceptMeans(db: Database, id: Id, event: Event)
    requires Integrity(db) && id !in db.events
    ensures var (after, result) := Accept(db, id, event);
      && (result.Accepted? <==> event.endpointId in db.endpoints && Matching(db, event.endpointId, event.key) == {})
      && (result.Accepted? ==> result.id == id && after == db.(events := db.events[id := event.(status := Received)]))
      && (!result.Accepted? ==> after == db)
      && (result.AcceptRefused? <==> event.endpointId !in db.endpoints)
      && (forall e :: e in Matching(db, event.endpointId, event.key) ==> result == Duplicate(db.events[e].status))
  {
  }

  /** Nothing is accepted under an identifier that is taken. */
  lemma TakenIdsAreRefused(db: Database, id: Id, event: Event)
    requires id in db.events
    ensures Accept(db, id, event).0 == db && !Accept(db, id, event).1.Accepted?
  {
  }

  /** The compare-and-swap changes one column of one row, if the event is there and in
      the expected status, and says whether it was. */
  lemma TransitionMeans(db: Database, event: Id, from: Status, to: Status)
    ensures var (after, won) := Transition(db, event, from, to);
      && (won <==> event in db.events && db.events[event].status == from)
      && after == if won then db.(events := db.events[event := db.events[event].(status := to)]) else db
  {
  }

  /** Replaying gives the event an empty attempt history and a place in the queue,
      removes its dead letter, and leaves every other row alone. */
  lemma ReplayMeans(db: Database, letter: Id)
    requires Integrity(db)
    ensures var (after, result) := Replay(db, letter);
      && (result.Some? <==> letter in db.deadLetters)
      && (result.None? ==> after == db)
      && (result.Some? ==>
            && db.deadLetters[letter].eventId == result.value
            && HasStatus(after, result.value, Received)
            && AttemptsOf(after, result.value) == {}
            && after.endpoints == db.endpoints
            && after.events == db.events[result.value := db.events[result.value].(status := Received)]
            && (forall e :: e != result.value ==> AttemptsOf(after, e) == AttemptsOf(db, e))
            && (forall a :: a in after.attempts ==> a in db.attempts && after.attempts[a] == db.attempts[a])
            && after.deadLetters == db.deadLetters - {letter}
            && (forall d :: d in after.deadLetters ==> after.deadLetters[d].eventId != result.value))
  {
  }

  /** The rows that a replay changes, without the rest of its effect. */
  lemma ReplayedRows(db: Database, letter: Id)
    requires letter in db.deadLetters && db.deadLetters[letter].eventId in db.events
    ensures var after := Replay(db, letter).0;
      && after.deadLetters == db.deadLetters - {letter}
      && after.events ==
           db.events[db.deadLetters[letter].eventId := db.events[db.deadLetters[letter].eventId].(status := Received)]
  {
  }

  lemma ReplayedAttempts(db: Database, letter: Id)
    requires letter in db.deadLetters
    ensures var (after, e) := (Replay(db, letter).0, db.deadLetters[letter].eventId);
      AttemptsOf(after, e) == {} && forall f :: f != e ==> AttemptsOf(after, f) == AttemptsOf(db, f)
  {
  }

  lemma AcceptLeavesAttempts(db: Database, id: Id, event: Event)
    ensures forall e :: AttemptsOf(Accept(db, id, event).0, e) == AttemptsOf(db, e)
  {
    assert Accept(db, id, event).0.attempts == db.attempts;
  }

  /** Deleting an endpoint removes its settled events and their rows, exactly when
      there is such an endpoint and none of its events is still to be delivered; the
      refusal tells how many are. */
  lemma RetireMeans(db: Database, endpoint: Id)
    requires Integrity(db)
    ensures var (after, result) := Retire(db, endpoint);
      && (result.StillPending? <==>
            exists e :: e in db.events && db.events[e].endpointId == endpoint &&
                        db.events[e].status in {Received, Processing})
      && (result.Retired? <==> endpoint in db.endpoints && !result.StillPending?)
      && (result.StillPending? ==>
            result.count == |set e | e in db.events && db.events[e].endpointId == endpoint &&
                                     db.events[e].status in {Received, Processing}|)
      && (result.Retired? ==> endpoint !in after.endpoints)
      && (!result.Retired? ==> after == db)
      && (forall n :: n in after.endpoints <==> n in db.endpoints && (result.Retired? ==> n != endpoint))
      && (forall e :: e in after.events <==>
            e in db.events && (result.Retired? ==> db.events[e].endpointId != endpoint))
      && (forall e :: e in after.events ==>
            after.events[e] == db.events[e] && AttemptsOf(after, e) == AttemptsOf(db, e))
      && (forall e :: e in db.events && e !in after.events ==> db.events[e].status in {Delivered, Failed})
      && (forall a :: a in after.attempts ==> a in db.attempts && after.attempts[a] == db.attempts[a])
      && (forall d :: d in after.deadLetters <==> d in db.deadLetters && db.deadLetters[d].eventId in after.events)
      && (forall d :: d in after.deadLetters ==> after.deadLetters[d] == db.deadLetters[d])
  {
    PendingAre(db, endpoint);
    if endpoint !in db.endpoints {
      UnknownEndpointIsNoOp(db, endpoint);
    }
  }

  lemma PendingAre(db: Database, endpoint: Id)
    ensures PendingAt(db, endpoint) ==
      set e | e in db.events && db.events[e].endpointId == endpoint && db.events[e].status in {Received, Processing}
    ensures PendingAt(db, endpoint) == {} ==>
      forall e :: e in db.events && db.events[e].endpointId == endpoint ==> db.events[e].status in {Delivered, Failed}
  {
    if PendingAt(db, endpoint) == {} {
      assert forall e :: e in db.events && db.events[e].endpointId == endpoint ==> e !in PendingAt(db, endpoint);
    }
  }

  lemma UnknownEndpointIsNoOp(db: Database, endpoint: Id)
    requires Integrity(db) && endpoint !in db.endpoints
    ensures DeleteEndpoint(db, endpoint) == db
  {
    var after := DeleteEndpoint(db, endpoint);
    assert after.events == db.events;
    assert after.attempts == db.attempts;
    assert after.deadLetters == db.deadLetters;
    assert after.endpoints == db.endpoints;
  }

  lemma AcceptKeeps(db: Database, id: Id, event: Event)
    requires Integrity(db)
    ensures Integrity(Accept(db, id, event).0)
  {
    if InsertEvent(db, id, event.(status := Received)).Some? {
      InsertEventKeeps(db, id, event.(status := Received));
    }
  }

  lemma ReplayKeeps(db: Database, letter: Id)
    requires Integrity(db)
    ensures Integrity(Replay(db, letter).0)
  {
    if letter in db.deadLetters {
      var e := db.deadLetters[letter].eventId;
      var queued := SetStatus(db, e, Received);
      SetStatusKeeps(db, e, Received);
      DeleteAttemptsKeeps(queued, e);
      DeleteDeadLetterKeeps(DeleteAttemptsOf(queued, e), letter);
    }
  }

  lemma RetireKeeps(db: Database, endpoint: Id)
    requires Integrity(db)
    ensures Integrity(Retire(db, endpoint).0)
  {
    DeleteEndpointKeeps(db, endpoint);
  }
}
