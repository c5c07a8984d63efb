/** The relay over the tables refines a queue with a ledger. Accepting, replaying,
    deleting and contacting are its steps; idle and deferred passes change nothing. */
module QueueRefinement {
  import opened Foundation
  import opened Tables
  import opened Operations
  import opened Dispatching
  import opened DeliveryMachine

  /** The events to deliver, in order; how often each event was tried; its sort key;
      and the events that are done. */
  datatype Queue = Queue(
    waiting: seq<Id>, tried: map<Id, nat>, keys: map<Id, int>, delivered: set<Id>, dead: set<Id>)

  const NOTHING := Queue([], map[], map[], {}, {})

  datatype QueueStep =
    | Enqueue(id: Id, key: int)
    | Serve(ok: bool)
    | Requeue(id: Id)
    | Forget(gone: set<Id>)

  /** The place of an event among the waiting ones, by key and then by identifier. */
  function Insert(keys: map<Id, int>, ids: seq<Id>, e: Id): seq<Id>
    requires e in keys && forall f :: f in ids ==> f in keys
  {
    if ids == [] then [e]
    else if keys[e] < keys[ids[0]] || (keys[e] == keys[ids[0]] && e < ids[0]) then [e] + ids
    else [ids[0]] + Insert(keys, ids[1..], e)
  }

  /** One contact for the head of the queue. A failed head stays where it is until
      its budget is spent. */
  function Contacting(config: Config, q: Queue, ok: bool): Queue
    requires q.waiting != [] && q.waiting[0] in q.tried
  {
    var head := q.waiting[0];
    var n := q.tried[head] + 1;
    if ok then q.(waiting := q.waiting[1..], tried := q.tried[head := n], delivered := q.delivered + {head})
    else if n == Budget(config)
    then q.(waiting := q.waiting[1..], tried := q.tried[head := n], dead := q.dead + {head})
    else q.(tried := q.tried[head := n])
  }

  predicate Fits(q: Queue, step: QueueStep) {
    && (forall e :: e in q.waiting ==> e in q.keys)
    && match step
       case Enqueue(id, _) => id !in q.tried
       case Serve(_) => q.waiting != [] && q.waiting[0] in q.tried
       case Requeue(id) => id in q.dead && id in q.keys
       case Forget(gone) => gone <= q.delivered + q.dead
  }

  function QueueNext(config: Config, q: Queue, step: QueueStep): Queue
    requires Fits(q, step)
  {
    match step
    case Enqueue(id, key) =>
      var keys := q.keys[id := key];
      q.(waiting := Insert(keys, q.waiting, id), tried := q.tried[id := 0], keys := keys)
    case Serve(ok) => Contacting(config, q, ok)
    case Requeue(id) =>
      q.(waiting := Insert(q.keys, q.waiting, id), tried := q.tried[id := 0], dead := q.dead - {id})
    case Forget(gone) =>
      q.(tried := q.tried - gone, keys := q.keys - gone, delivered := q.delivered - gone, dead := q.dead - gone)
  }

  /** The queue after several steps; None when one of them does not fit. */
  function QueueAfter(config: Config, q: Queue, steps: seq<QueueStep>): Option<Queue> {
    if steps == [] then Some(q)
    else
      match QueueAfter(config, q, steps[..|steps| - 1])
      case None => None
      case Some(r) => if Fits(r, steps[|steps| - 1]) then Some(QueueNext(config, r, steps[|steps| - 1])) else None
  }

  ghost predicate InOrder(db: Database, ids: seq<Id>) {
    && (forall i :: 0 <= i < |ids| ==> ids[i] in db.events)
    && (forall i, j :: 0 <= i < j < |ids| ==> Precedes(db, ids[i], ids[j]))
  }

  /** The ids are the waiting events, oldest first. */
  ghost predicate Lists(db: Database, ids: seq<Id>) {
    && InOrder(db, ids)
    && (forall e :: e in ids <==> HasStatus(db, e, Received))
  }

  ghost predicate Counts(db: Database, q: Queue) {
    q.tried.Keys == db.events.Keys && forall e :: e in q.tried ==> q.tried[e] == |AttemptsOf(db, e)|
  }

  ghost predicate Keys(db: Database, q: Queue) {
    q.keys.Keys == db.events.Keys && forall e :: e in q.keys ==> q.keys[e] == db.events[e].createdAt
  }

  ghost predicate Settled(db: Database, q: Queue) {
    && (forall e :: e in q.delivered <==> HasStatus(db, e, Delivered))
    && (forall e :: e in q.dead <==> HasStatus(db, e, Failed))
  }

  ghost predicate Represents(db: Database, q: Queue) {
    Lists(db, q.waiting) && Counts(db, q) && Keys(db, q) && Settled(db, q)
  }

  // ------------------------------------------------------- every state has its queue

  lemma {:induction false} Sorted(db: Database, ids: set<Id>) returns (sorted: seq<Id>)
    requires forall e :: e in ids ==> e in db.events
    ensures InOrder(db, sorted) && forall e :: e in sorted <==> e in ids
    decreases |ids|
  {
    if ids == {} {
      sorted := [];
    } else {
      var oldest := OldestOf(db, ids);
      var rest := Sorted(db, ids - {oldest});
      sorted := [oldest] + rest;
      forall i, j | 0 <= i < j < |sorted|
        ensures Precedes(db, sorted[i], sorted[j])
      {
        assert sorted[j] == rest[j - 1] && rest[j - 1] in rest;
      }
    }
  }

  lemma QueueExists(db: Database) returns (q: Queue)
    ensures Represents(db, q)
  {
    var waiting := Sorted(db, Waiting(db));
    q := Queue(waiting,
               map e | e in db.events :: |AttemptsOf(db, e)|,
               map e | e in db.events :: db.events[e].createdAt,
               set e | e in db.events && db.events[e].status == Delivered,
               set e | e in db.events && db.events[e].status == Failed);
  }

  lemma HeadIsNext(db: Database, ids: seq<Id>)
    requires Lists(db, ids)
    ensures ids == [] <==> NextEvent(db) == None
    ensures ids != [] ==> NextEvent(db) == Some(ids[0])
  {
    if ids == [] {
      forall e
        ensures e !in Waiting(db)
      {
        assert !HasStatus(db, e, Received);
      }
    } else {
      assert ids[0] in ids;
      assert ids[0] in Waiting(db);
      forall e | HasStatus(db, e, Received) && e != ids[0]
        ensures Precedes(db, ids[0], e)
      {
        assert e in ids;
      }
      assert IsNext(db, ids[0]);
      NextIsUnique(db, ids[0], NextEvent(db).value);
    }
  }

  lemma RestOf(db: Database, ids: seq<Id>, e: Id)
    requires InOrder(db, ids) && ids != []
    ensures e in ids[1..] <==> e in ids && e != ids[0]
  {
    assert ids == [ids[0]] + ids[1..];
    if e in ids[1..] {
      var i :| 0 <= i < |ids[1..]| && ids[1..][i] == e;
      assert Precedes(db, ids[0], ids[i + 1]);
    }
  }

  // -------------------------------------------------------------------- refinement

  /** After the head's status is settled, the rest of the list is what waits. */
  lemma ListAfterHead(before: Database, after: Database, ids: seq<Id>, status: Status)
    requires Lists(before, ids) && ids != []
    requires after.events == before.events[ids[0] := before.events[ids[0]].(status := status)]
    ensures Lists(after, if status == Received then ids else ids[1..])
  {
    var head, rest := ids[0], ids[1..];
    forall e
      ensures e in rest <==> e in ids && e != head
    {
      RestOf(before, ids, e);
    }
    assert head in ids;
    var left := if status == Received then ids else rest;
    forall i, j | 0 <= i < j < |left|
      ensures left[i] in after.events && left[j] in after.events && Precedes(after, left[i], left[j])
    {
      var k := if status == Received then 0 else 1;
      assert left[i] == ids[i + k] && left[j] == ids[j + k];
      assert Precedes(before, ids[i + k], ids[j + k]);
    }
  }

  /** Each pass is a stutter that leaves all tables as they were, or exactly one
      step of the queue: its head is contacted, with the next attempt number. */
  lemma PassRefines(config: Config, w: World, input: Input, q: Queue)
    requires Inv(config, w) && Enabled(w, DispatchOnce(input)) && Represents(w.db, q)
    ensures var pass := RunOnce(config, w.db, w.calls, input);
      && (pass.outcome.Idle? <==> q.waiting == [])
      && (pass.contact.None? ==> pass.db == w.db)
      && (pass.contact.Some? ==>
            && Fits(q, Serve(pass.contact.value.response.IsSuccess()))
            && pass.contact.value.event == q.waiting[0]
            && pass.contact.value.number == q.tried[q.waiting[0]] + 1
            && Represents(pass.db, QueueNext(config, q, Serve(pass.contact.value.response.IsSuccess()))))
  {
    PassCases(config, w, input);
    HeadIsNext(w.db, q.waiting);
    if q.waiting != [] {
      var head := q.waiting[0];
      assert HasStatus(w.db, head, Received);
      assert LedgerOf(Budget(config), w.db, head);
      ContactRefines(config, w.db, input, q);
    }
  }

  lemma ContactLists(config: Config, db: Database, input: Input, q: Queue)
    requires Represents(db, q) && q.waiting != [] && q.waiting[0] in db.events && q.waiting[0] in q.tried
    requires q.tried[q.waiting[0]] < Budget(config)
    ensures Lists(Contacted(config, db, q.waiting[0], input), Contacting(config, q, input.response.IsSuccess()).waiting)
  {
    var after := Contacted(config, db, q.waiting[0], input);
    ListAfterHead(db, after, q.waiting, after.events[q.waiting[0]].status);
  }

  lemma ContactCounts(config: Config, db: Database, input: Input, q: Queue)
    requires Counts(db, q) && q.waiting != [] && q.waiting[0] in db.events && input.attemptId !in db.attempts
    ensures Counts(Contacted(config, db, q.waiting[0], input), Contacting(config, q, input.response.IsSuccess()))
  {
    AttemptsAfterContact(config, db, q.waiting[0], input);
    CountsAfter(db, Contacted(config, db, q.waiting[0], input), q,
                Contacting(config, q, input.response.IsSuccess()), q.waiting[0]);
  }

  lemma ContactSettles(config: Config, db: Database, input: Input, q: Queue)
    requires Settled(db, q) && q.waiting != [] && HasStatus(db, q.waiting[0], Received) && Counts(db, q)
    requires q.tried[q.waiting[0]] < Budget(config)
    ensures Settled(Contacted(config, db, q.waiting[0], input), Contacting(config, q, input.response.IsSuccess()))
  {
    SettledAfter(db, Contacted(config, db, q.waiting[0], input), q,
                 Contacting(config, q, input.response.IsSuccess()), q.waiting[0]);
  }

  lemma ContactRefines(config: Config, db: Database, input: Input, q: Queue)
    requires Represents(db, q) && q.waiting != [] && input.attemptId !in db.attempts
    requires q.waiting[0] in q.tried && q.tried[q.waiting[0]] < Budget(config)
    ensures Represents(Contacted(config, db, q.waiting[0], input), Contacting(config, q, input.response.IsSuccess()))
  {
    assert q.waiting[0] in q.waiting;
    ContactLists(config, db, input, q);
    ContactCounts(config, db, input, q);
    ContactSettles(config, db, input, q);
  }

  // One event's row changes, or is new.

  lemma CountsAfter(before: Database, after: Database, q: Queue, r: Queue, e: Id)
    requires Counts(before, q) && after.events.Keys == before.events.Keys + {e}
    requires forall f :: f != e ==> AttemptsOf(after, f) == AttemptsOf(before, f)
    requires r.tried == q.tried[e := |AttemptsOf(after, e)|]
    ensures Counts(after, r)
  {
  }

  lemma SettledAfter(before: Database, after: Database, q: Queue, r: Queue, e: Id)
    requires Settled(before, q) && e in after.events && after.events == before.events[e := after.events[e]]
    requires forall f :: f != e ==> (f in r.delivered <==> f in q.delivered) && (f in r.dead <==> f in q.dead)
    requires e in r.delivered <==> HasStatus(after, e, Delivered)
    requires e in r.dead <==> HasStatus(after, e, Failed)
    ensures Settled(after, r)
  {
    forall f
      ensures f in r.delivered <==> HasStatus(after, f, Delivered)
      ensures f in r.dead <==> HasStatus(after, f, Failed)
    {
      assert f in q.delivered <==> HasStatus(before, f, Delivered);
      assert f in q.dead <==> HasStatus(before, f, Failed);
    }
  }

  // -------------------------------------------------------------------- the handlers

  lemma {:induction false} InsertKeepsOrder(db: Database, keys: map<Id, int>, ids: seq<Id>, e: Id)
    requires InOrder(db, ids) && e in db.events && e !in ids
    requires keys.Keys == db.events.Keys && forall f :: f in keys ==> keys[f] == db.events[f].createdAt
    ensures var more := Insert(keys, ids, e);
      InOrder(db, more) && forall f :: f in more <==> f in ids || f == e
  {
    var more := Insert(keys, ids, e);
    if ids == [] {
    } else if more[0] == e {
      assert more == [e] + ids;
      forall j | 0 <= j < |ids|
        ensures Precedes(db, e, ids[j])
      {
        assert j > 0 ==> Precedes(db, ids[0], ids[j]);
      }
    } else {
      var rest := Insert(keys, ids[1..], e);
      assert more == [ids[0]] + rest && ids == [ids[0]] + ids[1..];
      InsertKeepsOrder(db, keys, ids[1..], e);
      forall j | 0 <= j < |rest|
        ensures Precedes(db, ids[0], rest[j])
      {
        assert rest[j] in rest;
        if rest[j] != e {
          var k :| 0 <= k < |ids[1..]| && ids[1..][k] == rest[j];
          assert Precedes(db, ids[0], ids[k + 1]);
        }
      }
    }
  }

  lemma ListAfterInsert(before: Database, after: Database, keys: map<Id, int>, ids: seq<Id>, e: Id)
    requires Lists(before, ids) && !HasStatus(before, e, Received) && HasStatus(after, e, Received)
    requires forall f :: f != e && f in before.events ==> f in after.events && after.events[f] == before.events[f]
    requires forall f :: f != e && f in after.events ==> f in before.events
    requires keys.Keys == after.events.Keys && forall f :: f in keys ==> keys[f] == after.events[f].createdAt
    ensures e !in ids && forall f :: f in ids ==> f in keys
    ensures Lists(after, Insert(keys, ids, e))
  {
    forall f | f in ids
      ensures f != e && HasStatus(before, f, Received) && f in keys
    {
    }
    forall i, j | 0 <= i < j < |ids|
      ensures Precedes(after, ids[i], ids[j])
    {
      assert ids[i] in ids && ids[j] in ids && Precedes(before, ids[i], ids[j]);
    }
    forall i | 0 <= i < |ids|
      ensures ids[i] in after.events
    {
      assert ids[i] in ids;
    }
    InsertKeepsOrder(after, keys, ids, e);
  }

  lemma AcceptRefines(config: Config, w: World, id: Id, row: Event, q: Queue)
    requires Inv(config, w) && Enabled(w, AcceptEvent(id, row)) && Represents(w.db, q)
    requires Accept(w.db, id, row).1.Accepted?
    ensures Fits(q, Enqueue(id, row.createdAt))
    ensures Represents(Accept(w.db, id, row).0, QueueNext(config, q, Enqueue(id, row.createdAt)))
  {
    AcceptMeans(w.db, id, row);
    EnqueueRefines(config, w.db, Accept(w.db, id, row).0, id, row, q);
  }

  lemma EnqueueRefines(config: Config, db: Database, after: Database, id: Id, row: Event, q: Queue)
    requires Represents(db, q) && id !in db.events && AttemptsHaveEvents(db)
    requires after == db.(events := db.events[id := row.(status := Received)])
    ensures Fits(q, Enqueue(id, row.createdAt))
    ensures Represents(after, QueueNext(config, q, Enqueue(id, row.createdAt)))
  {
    ListAfterInsert(db, after, q.keys[id := row.createdAt], q.waiting, id);
    var r := QueueNext(config, q, Enqueue(id, row.createdAt));
    assert Counts(after, r) by {
      AttemptsAlike(db, after);
      assert AttemptsOf(db, id) == {};
      CountsAfter(db, after, q, r, id);
    }
    assert Settled(after, r) by {
      SettledAfter(db, after, q, r, id);
    }
  }

  lemma AttemptsAlike(before: Database, after: Database)
    requires after.attempts == before.attempts
    ensures forall e :: AttemptsOf(after, e) == AttemptsOf(before, e)
  {
  }

  lemma ReplayRefines(config: Config, w: World, letter: Id, q: Queue)
    requires Inv(config, w) && Represents(w.db, q) && letter in w.db.deadLetters
    ensures Fits(q, Requeue(w.db.deadLetters[letter].eventId))
    ensures Represents(Replay(w.db, letter).0, QueueNext(config, q, Requeue(w.db.deadLetters[letter].eventId)))
  {
    ReplayMeans(w.db, letter);
    RequeueRefines(config, w.db, Replay(w.db, letter).0, w.db.deadLetters[letter].eventId, q);
  }

  lemma RequeueBooks(config: Config, db: Database, after: Database, e: Id, q: Queue)
    requires Counts(db, q) && Settled(db, q) && HasStatus(db, e, Failed) && Fits(q, Requeue(e))
    requires after.events == db.events[e := db.events[e].(status := Received)]
    requires AttemptsOf(after, e) == {} && forall f :: f != e ==> AttemptsOf(after, f) == AttemptsOf(db, f)
    ensures Counts(after, QueueNext(config, q, Requeue(e))) && Settled(after, QueueNext(config, q, Requeue(e)))
  {
    CountsAfter(db, after, q, QueueNext(config, q, Requeue(e)), e);
    SettledAfter(db, after, q, QueueNext(config, q, Requeue(e)), e);
  }

  lemma RequeueRefines(config: Config, db: Database, after: Database, e: Id, q: Queue)
    requires Represents(db, q) && HasStatus(db, e, Failed)
    requires after.events == db.events[e := db.events[e].(status := Received)]
    requires AttemptsOf(after, e) == {} && forall f :: f != e ==> AttemptsOf(after, f) == AttemptsOf(db, f)
    ensures Fits(q, Requeue(e)) && Represents(after, QueueNext(config, q, Requeue(e)))
  {
    assert e in q.dead && e in q.keys;
    ListAfterInsert(db, after, q.keys, q.waiting, e);
    RequeueBooks(config, db, after, e, q);
  }

  function EventsOf(db: Database, endpoint: Id): set<Id> {
    set e | e in db.events && db.events[e].endpointId == endpoint
  }

  lemma RetiredRows(db: Database, endpoint: Id)
    requires Retire(db, endpoint).1.Retired?
    ensures var after := Retire(db, endpoint).0;
      && after.events.Keys == db.events.Keys - EventsOf(db, endpoint)
      && (forall e :: e in EventsOf(db, endpoint) ==> HasStatus(db, e, Delivered) || HasStatus(db, e, Failed))
      && forall e :: e in after.events ==>
           after.events[e] == db.events[e] && AttemptsOf(after, e) == AttemptsOf(db, e)
  {
    forall e | e in EventsOf(db, endpoint)
      ensures HasStatus(db, e, Delivered) || HasStatus(db, e, Failed)
    {
      assert e !in PendingAt(db, endpoint);
    }
  }

  lemma RetireRefines(config: Config, w: World, id: Id, q: Queue)
    requires Inv(config, w) && Represents(w.db, q) && Retire(w.db, id).1.Retired?
    ensures Fits(q, Forget(EventsOf(w.db, id)))
    ensures Represents(Retire(w.db, id).0, QueueNext(config, q, Forget(EventsOf(w.db, id))))
  {
    RetiredRows(w.db, id);
    ForgetRefines(config, w.db, Retire(w.db, id).0, EventsOf(w.db, id), q);
  }

  lemma ForgetRefines(config: Config, db: Database, after: Database, gone: set<Id>, q: Queue)
    requires Represents(db, q) && forall e :: e in gone ==> HasStatus(db, e, Delivered) || HasStatus(db, e, Failed)
    requires after.events.Keys == db.events.Keys - gone
    requires forall e :: e in after.events ==>
      after.events[e] == db.events[e] && AttemptsOf(after, e) == AttemptsOf(db, e)
    ensures Fits(q, Forget(gone)) && Represents(after, QueueNext(config, q, Forget(gone)))
  {
    forall e
      ensures HasStatus(after, e, Received) <==> HasStatus(db, e, Received)
    {
    }
    ListStays(db, after, q.waiting);
    assert Fits(q, Forget(gone)) by {
      assert forall e :: e in q.waiting ==> HasStatus(db, e, Received);
    }
  }

  /** The waiting events are the same, with the same rows. */
  lemma ListStays(before: Database, after: Database, ids: seq<Id>)
    requires Lists(before, ids)
    requires forall e: Id :: HasStatus(before, e, Received) <==> HasStatus(after, e, Received)
    requires forall e: Id :: HasStatus(before, e, Received) ==> e in after.events && after.events[e] == before.events[e]
    ensures Lists(after, ids)
  {
    forall i | 0 <= i < |ids|
      ensures ids[i] in after.events && after.events[ids[i]] == before.events[ids[i]]
    {
      assert ids[i] in ids;
    }
    forall i, j | 0 <= i < j < |ids|
      ensures Precedes(after, ids[i], ids[j])
    {
      assert Precedes(before, ids[i], ids[j]);
    }
  }

  // ------------------------------------------------------------------------ whole runs

  /** The queue's step, if any, for a step of the relay. */
  ghost function StepsOf(config: Config, w: World, step: Step): seq<QueueStep> {
    match step
    case CreateEndpoint(_, _) => []
    case RemoveEndpoint(id) =>
      if Retire(w.db, id).1.Retired? then [Forget(EventsOf(w.db, id))] else []
    case AcceptEvent(id, row) =>
      if Accept(w.db, id, row).1.Accepted? then [Enqueue(id, row.createdAt)] else []
    case ReplayDeadLetter(letter) =>
      if letter in w.db.deadLetters then [Requeue(w.db.deadLetters[letter].eventId)] else []
    case DispatchOnce(input) =>
      var contact := RunOnce(config, w.db, w.calls, input).contact;
      if contact.Some? then [Serve(contact.value.response.IsSuccess())] else []
  }

  lemma SameTablesSameQueue(before: Database, after: Database, q: Queue)
    requires Represents(before, q) && after.events == before.events && after.attempts == before.attempts
    ensures Represents(after, q)
  {
    AttemptsAlike(before, after);
    ListStays(before, after, q.waiting);
  }

  lemma QueueAfterOne(config: Config, q: Queue, step: QueueStep)
    ensures QueueAfter(config, q, [step]) == if Fits(q, step) then Some(QueueNext(config, q, step)) else None
  {
    assert [step][..0] == [];
  }

  lemma StepRefines(config: Config, w: World, step: Step, q: Queue)
    requires Inv(config, w) && Enabled(w, step) && Represents(w.db, q)
    ensures var end := QueueAfter(config, q, StepsOf(config, w, step));
      end.Some? && Represents(Next(config, w, step).db, end.value)
  {
    if StepsOf(config, w, step) != [] {
      QueueAfterOne(config, q, StepsOf(config, w, step)[0]);
    }
    match step
    case CreateEndpoint(id, row) => SameTablesSameQueue(w.db, Next(config, w, step).db, q);
    case RemoveEndpoint(id) =>
      RetireMeans(w.db, id);
      if Retire(w.db, id).1.Retired? {
        RetireRefines(config, w, id, q);
      }
    case AcceptEvent(id, row) =>
      AcceptMeans(w.db, id, row);
      if Accept(w.db, id, row).1.Accepted? {
        AcceptRefines(config, w, id, row, q);
      }
    case ReplayDeadLetter(letter) =>
      if letter in w.db.deadLetters {
        ReplayRefines(config, w, letter, q);
      }
    case DispatchOnce(input) => PassRefines(config, w, input, q);
  }

  ghost function RunStepsOf(config: Config, w: World, steps: seq<Step>): seq<QueueStep> {
    if steps == [] then []
    else
      var before := steps[..|steps| - 1];
      RunStepsOf(config, w, before) + StepsOf(config, Run(config, w, before), steps[|steps| - 1])
  }

  lemma QueueAfterOneMore(config: Config, q: Queue, steps: seq<QueueStep>, last: QueueStep)
    ensures QueueAfter(config, q, steps + [last]) ==
      match QueueAfter(config, q, steps)
      case None => None
      case Some(r) => if Fits(r, last) then Some(QueueNext(config, r, last)) else None
  {
    assert (steps + [last])[..|steps|] == steps;
  }

  lemma {:induction false} QueueAfterBoth(config: Config, q: Queue, a: seq<QueueStep>, b: seq<QueueStep>)
    requires QueueAfter(config, q, a).Some?
    ensures QueueAfter(config, q, a + b) == QueueAfter(config, QueueAfter(config, q, a).value, b)
  {
    if b == [] {
      assert a + b == a;
    } else {
      var before, last := b[..|b| - 1], b[|b| - 1];
      QueueAfterBoth(config, q, a, before);
      QueueAfterOneMore(config, q, a + before, last);
      QueueAfterOneMore(config, QueueAfter(config, q, a).value, before, last);
      assert before + [last] == b && (a + before) + [last] == a + b;
    }
  }

  /** Every run, from any sound state: the tables end up where the queue does when it
      takes just the accepted, replayed, deleted and contacted, in that order. */
  lemma {:induction false} RunsRefine(config: Config, w: World, steps: seq<Step>, q: Queue)
    requires Inv(config, w) && IsRun(config, w, steps) && Represents(w.db, q)
    ensures var end := QueueAfter(config, q, RunStepsOf(config, w, steps));
      end.Some? && Represents(Run(config, w, steps).db, end.value)
  {
    if steps != [] {
      var before, step := steps[..|steps| - 1], steps[|steps| - 1];
      var previous := Run(config, w, before);
      RunsRefine(config, w, before, q);
      RunKeepsInv(config, w, before);
      var reached := QueueAfter(config, q, RunStepsOf(config, w, before)).value;
      StepRefines(config, previous, step, reached);
      QueueAfterBoth(config, q, RunStepsOf(config, w, before), StepsOf(config, previous, step));
    }
  }

  /** In particular every run from the empty database, with the empty queue. */
  lemma RunsRefineFromStart(config: Config, steps: seq<Step>)
    requires IsRun(config, START, steps)
    ensures var end := QueueAfter(config, NOTHING, RunStepsOf(config, START, steps));
      end.Some? && Represents(Run(config, START, steps).db, end.value)
  {
    assert Represents(START.db, NOTHING);
    ReachableStatesAreSound(config, []);
    RunsRefine(config, START, steps, NOTHING);
  }
}
