/** The four tables, the SQL statements the relay runs on them, and the
    constraints the schema declares. */
module Tables {
  import opened Foundation

  datatype Status = Received | Processing | Delivered | Failed

  datatype Endpoint = Endpoint(
    name: string, provider: string, secret: string, targetUrl: string, createdAt: int)

  datatype Event = Event(
    endpointId: Id, key: string, body: seq<Byte>, headers: string, status: Status, createdAt: int)

  datatype Attempt = Attempt(
    eventId: Id, number: nat, responseStatus: Option<nat>, errorMessage: Option<string>, createdAt: int)

  datatype DeadLetter = DeadLetter(
    eventId: Id, endpointId: Id, reason: string, lastStatus: Option<nat>, createdAt: int)

  /** One database: each table maps its primary key to the rest of the row. */
  datatype Database = Database(
    endpoints: map<Id, Endpoint>,
    events: map<Id, Event>,
    attempts: map<Id, Attempt>,
    deadLetters: map<Id, DeadLetter>)

  const EMPTY := Database(map[], map[], map[], map[])

  // ------------------------------------------------------------------- constraints

  ghost predicate EventsHaveEndpoints(db: Database) {
    forall e :: e in db.events ==> db.events[e].endpointId in db.endpoints
  }

  ghost predicate AttemptsHaveEvents(db: Database) {
    forall a :: a in db.attempts ==> db.attempts[a].eventId in db.events
  }

  ghost predicate DeadLettersHaveEvents(db: Database) {
    forall d :: d in db.deadLetters ==> db.deadLetters[d].eventId in db.events
  }

  /** UNIQUE(endpoint_id, idempotency_key) on the events. */
  ghost predicate KeysAreUnique(db: Database) {
    forall e, f :: e in db.events && f in db.events && e != f ==>
      db.events[e].endpointId != db.events[f].endpointId || db.events[e].key != db.events[f].key
  }

  /** UNIQUE(event_id) on the dead letters. */
  ghost predicate OneDeadLetterEach(db: Database) {
    forall c, d :: c in db.deadLetters && d in db.deadLetters && c != d ==>
      db.deadLetters[c].eventId != db.deadLetters[d].eventId
  }

  ghost predicate Integrity(db: Database) {
    && EventsHaveEndpoints(db)
    && AttemptsHaveEvents(db)
    && DeadLettersHaveEvents(db)
    && KeysAreUnique(db)
    && OneDeadLetterEach(db)
  }

  // ----------------------------------------------------------------------- queries

  predicate HasStatus(db: Database, event: Id, status: Status) {
    event in db.events && db.events[event].status == status
  }

  predicate IsLetterOf(db: Database, letter: Id, event: Id) {
    letter in db.deadLetters && db.deadLetters[letter].eventId == event
  }

  /** The attempt rows of one event. */
  function AttemptsOf(db: Database, event: Id): set<Id> {
    set a | a in db.attempts && db.attempts[a].eventId == event
  }

  /** The event rows that an endpoint and an idempotency key select. */
  function Matching(db: Database, endpoint: Id, key: string): set<Id> {
    set e | e in db.events && db.events[e].endpointId == endpoint && db.events[e].key == key
  }

  /** ORDER BY created_at ASC, id ASC. */
  predicate Precedes(db: Database, e: Id, f: Id)
    requires e in db.events && f in db.events
  {
    || db.events[e].createdAt < db.events[f].createdAt
    || (db.events[e].createdAt == db.events[f].createdAt && e < f)
  }

  /** The first row of the claim query. */
  predicate IsNext(db: Database, event: Id) {
    && HasStatus(db, event, Received)
    && forall e :: e in db.events && db.events[e].status == Received && e != event ==> Precedes(db, event, e)
  }

  function Waiting(db: Database): set<Id> {
    set e | e in db.events && db.events[e].status == Received
  }

  lemma {:induction false} OldestOf(db: Database, ids: set<Id>) returns (oldest: Id)
    requires ids != {} && forall e :: e in ids ==> e in db.events
    ensures oldest in ids
    ensures forall e :: e in ids && e != oldest ==> Precedes(db, oldest, e)
    decreases |ids|
  {
    var some :| some in ids;
    var others := ids - {some};
    if others == {} {
      oldest := some;
      assert forall e :: e in ids && e != some ==> e in others;
    } else {
      var best := OldestOf(db, others);
      oldest := if Precedes(db, some, best) then some else best;
      assert forall e :: e in ids && e != some ==> e in others;
    }
  }

  /** A waiting event exists exactly when the claim query has a first row. */
  lemma NextExists(db: Database)
    ensures (exists e :: IsNext(db, e)) <==> (exists e :: HasStatus(db, e, Received))
    ensures (exists e :: IsNext(db, e)) <==> Waiting(db) != {}
  {
    if e :| HasStatus(db, e, Received) {
      assert e in Waiting(db);
      var oldest := OldestOf(db, Waiting(db));
      assert IsNext(db, oldest);
    }
    if e :| e in Waiting(db) {
      assert HasStatus(db, e, Received);
    }
  }

  lemma NextIsUnique(db: Database, e: Id, f: Id)
    requires IsNext(db, e) && IsNext(db, f)
    ensures e == f
  {
  }

  /** What the claim query returns. */
  ghost function NextEvent(db: Database): (next: Option<Id>)
    ensures next.Some? ==> IsNext(db, next.value)
    ensures next.None? <==> Waiting(db) == {}
  {
    NextExists(db);
    if Waiting(db) == {} then None
    else
      var e :| IsNext(db, e); Some(e)
  }

  // -------------------------------------------------------------------- statements

  /** UPDATE incoming_events SET status = .. WHERE id = ..; no row, no effect. */
  function SetStatus(db: Database, event: Id, status: Status): Database {
    if event in db.events
    then db.(events := db.events[event := db.events[event].(status := status)])
    else db
  }

  // An INSERT yields None when a constraint refuses the row.

  function InsertEndpoint(db: Database, id: Id, endpoint: Endpoint): Option<Database> {
    if id in db.endpoints then None
    else Some(db.(endpoints := db.endpoints[id := endpoint]))
  }

  function InsertEvent(db: Database, id: Id, event: Event): Option<Database> {
    if id in db.events || event.endpointId !in db.endpoints || Matching(db, event.endpointId, event.key) != {} then None
    else Some(db.(events := db.events[id := event]))
  }

  function InsertAttempt(db: Database, id: Id, attempt: Attempt): Option<Database> {
    if id in db.attempts || attempt.eventId !in db.events then None
    else Some(db.(attempts := db.attempts[id := attempt]))
  }

  /** INSERT OR REPLACE: rows that collide on the primary key or on the event give way. */
  function PutDeadLetter(db: Database, id: Id, letter: DeadLetter): Option<Database> {
    if letter.eventId !in db.events then None
    else
      var others := map d | d in db.deadLetters && d != id && db.deadLetters[d].eventId != letter.eventId
                    :: db.deadLetters[d];
      Some(db.(deadLetters := others[id := letter]))
  }

  function DeleteAttemptsOf(db: Database, event: Id): Database {
    db.(attempts := map a | a in db.attempts && db.attempts[a].eventId != event :: db.attempts[a])
  }

  function DeleteDeadLetter(db: Database, id: Id): Database {
    db.(deadLetters := map d | d in db.deadLetters && d != id :: db.deadLetters[d])
  }

  /** DELETE FROM endpoints with its two levels of ON DELETE CASCADE. */
  function DeleteEndpoint(db: Database, id: Id): Database {
    var doomed := set e | e in db.events && db.events[e].endpointId == id;
    Database(
      map n | n in db.endpoints && n != id :: db.endpoints[n],
      map e | e in db.events && e !in doomed :: db.events[e],
      map a | a in db.attempts && db.attempts[a].eventId !in doomed :: db.attempts[a],
      map d | d in db.deadLetters && db.deadLetters[d].eventId !in doomed :: db.deadLetters[d])
  }

  // Every statement keeps every constraint.

  lemma SetStatusKeeps(db: Database, event: Id, status: Status)
    requires Integrity(db)
    ensures Integrity(SetStatus(db, event, status))
  {
    var after := SetStatus(db, event, status);
    assert forall e :: e in after.events ==>
      after.events[e].endpointId == db.events[e].endpointId && after.events[e].key == db.events[e].key;
  }

  lemma InsertEndpointKeeps(db: Database, id: Id, endpoint: Endpoint)
    requires Integrity(db) && InsertEndpoint(db, id, endpoint).Some?
    ensures Integrity(InsertEndpoint(db, id, endpoint).value)
  {
  }

  lemma InsertEventKeeps(db: Database, id: Id, event: Event)
    requires Integrity(db) && InsertEvent(db, id, event).Some?
    ensures Integrity(InsertEvent(db, id, event).value)
  {
    var after := InsertEvent(db, id, event).value;
    forall e | e in db.events
      ensures after.events[e] == db.events[e]
      ensures db.events[e].endpointId != event.endpointId || db.events[e].key != event.key
    {
      assert e !in Matching(db, event.endpointId, event.key);
    }
  }

  lemma InsertAttemptKeeps(db: Database, id: Id, attempt: Attempt)
    requires Integrity(db) && InsertAttempt(db, id, attempt).Some?
    ensures Integrity(InsertAttempt(db, id, attempt).value)
  {
  }

  lemma PutDeadLetterKeeps(db: Database, id: Id, letter: DeadLetter)
    requires Integrity(db) && PutDeadLetter(db, id, letter).Some?
    ensures Integrity(PutDeadLetter(db, id, letter).value)
  {
  }

  lemma DeleteAttemptsKeeps(db: Database, event: Id)
    requires Integrity(db)
    ensures Integrity(DeleteAttemptsOf(db, event))
  {
  }

  lemma DeleteDeadLetterKeeps(db: Database, id: Id)
    requires Integrity(db)
    ensures Integrity(DeleteDeadLetter(db, id))
  {
  }

  lemma DeleteEndpointKeeps(db: Database, id: Id)
    requires Integrity(db)
    ensures Integrity(DeleteEndpoint(db, id))
  {
  }
}
