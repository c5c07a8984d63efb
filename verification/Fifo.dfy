/** First in, first out: with one worker and no replays, events are finished in
    the order they were accepted, and the contacts of one event are consecutive. */
module Fifo {
  import opened Foundation
  import opened Tables
  import opened Operations
  import opened Dispatching
  import opened DeliveryMachine
  import opened RunRecords
  import opened QueueRefinement

  datatype Kind = TakenEvents | SentEvents | FinishedEvents

  predicate OfKind(kind: Kind, entry: Entry) {
    match kind
    case TakenEvents => entry.Took?
    case SentEvents => entry.Sent?
    case FinishedEvents => entry.Finished?
  }

  /** The event that such an entry is about. */
  function Subject(entry: Entry): Id
    requires entry.Took? || entry.Sent? || entry.Finished?
  {
    if entry.Sent? then entry.contact.event else entry.event
  }

  /** The events of the entries of one kind, in the order of the record. */
  function Events(log: seq<Entry>, kind: Kind): seq<Id> {
    if log == [] then []
    else
      var last := log[|log| - 1];
      Events(log[..|log| - 1], kind) + (if OfKind(kind, last) then [Subject(last)] else [])
  }

  lemma EventsOneMore(log: seq<Entry>, entry: Entry, kind: Kind)
    ensures Events(log + [entry], kind) == Events(log, kind) + (if OfKind(kind, entry) then [Subject(entry)] else [])
  {
    assert (log + [entry])[..|log|] == log;
  }

  lemma EventsPass(log: seq<Entry>, db: Database, contact: Contact, kind: Kind)
    ensures Events(log + PassEntries(db, Some(contact)), kind)
         == Events(log, kind) +
            (match kind
             case TakenEvents => []
             case SentEvents => [contact.event]
             case FinishedEvents => if |PassEntries(db, Some(contact))| == 2 then [contact.event] else [])
  {
    var entries := PassEntries(db, Some(contact));
    EventsOneMore(log, entries[0], kind);
    if |entries| == 1 {
      assert log + entries == log + [entries[0]];
    } else {
      EventsOneMore(log + [entries[0]], entries[1], kind);
      assert log + entries == log + [entries[0]] + [entries[1]];
    }
  }

  /** Nothing is replayed; and an accepted event sorts behind all that wait. */
  ghost predicate InArrivalOrder(w: World, step: Step) {
    match step
    case ReplayDeadLetter(letter) => letter !in w.db.deadLetters
    case AcceptEvent(id, row) =>
      Accept(w.db, id, row).1.Accepted? ==>
        forall e: Id :: HasStatus(w.db, e, Received) ==> SortsBefore(w.db, e, id, row)
    case _ => true
  }

  predicate SortsBefore(db: Database, e: Id, id: Id, row: Event)
    requires e in db.events
  {
    db.events[e].createdAt < row.createdAt || (db.events[e].createdAt == row.createdAt && e < id)
  }

  ghost predicate IsArrivalRun(config: Config, steps: seq<Step>) {
    steps == [] ||
    (IsArrivalRun(config, steps[..|steps| - 1]) &&
     Enabled(Run(config, START, steps[..|steps| - 1]), steps[|steps| - 1]) &&
     InArrivalOrder(Run(config, START, steps[..|steps| - 1]), steps[|steps| - 1]))
  }

  lemma {:induction false} ArrivalRunIsRun(config: Config, steps: seq<Step>)
    requires IsArrivalRun(config, steps)
    ensures IsRun(config, START, steps)
  {
    if steps != [] {
      ArrivalRunIsRun(config, steps[..|steps| - 1]);
    }
  }

  /** Equal elements stand together. */
  ghost predicate Consecutive(ids: seq<Id>) {
    forall i, j, k :: 0 <= i < j < k < |ids| && ids[i] == ids[k] ==> ids[j] == ids[i]
  }

  lemma ConsecutiveGrows(ids: seq<Id>, id: Id)
    requires Consecutive(ids) && (id in ids ==> ids[|ids| - 1] == id)
    ensures Consecutive(ids + [id])
  {
    var more := ids + [id];
    forall i, j, k | 0 <= i < j < k < |more| && more[i] == more[k]
      ensures more[j] == more[i]
    {
      if k == |ids| {
        assert ids[i] in ids;
        assert ids[i] == ids[|ids| - 1];
        assert j < |ids| - 1 ==> ids[j] == ids[i];
      }
    }
  }

  /** What was accepted is what is finished, followed by what waits. */
  ghost predicate FinishedThenWaiting(w: World, waiting: seq<Id>) {
    var finished := Events(w.log, FinishedEvents);
    && Lists(w.db, waiting)
    && Events(w.log, TakenEvents) == finished + waiting
    && (forall e :: e in finished ==> e in w.minted && !HasStatus(w.db, e, Received))
  }

  /** Every event contacted is finished, or it is the head of the queue and the
      last contacted. */
  ghost predicate ContactsTogether(w: World, waiting: seq<Id>) {
    var sent, finished := Events(w.log, SentEvents), Events(w.log, FinishedEvents);
    && Consecutive(sent)
    && (forall e :: e in sent ==>
          e in w.minted && (e in finished || (waiting != [] && waiting[0] == e && sent[|sent| - 1] == e)))
  }

  ghost predicate FirstInFirstOut(w: World, waiting: seq<Id>) {
    FinishedThenWaiting(w, waiting) && ContactsTogether(w, waiting)
  }

  lemma ListGrows(before: Database, after: Database, waiting: seq<Id>, id: Id, row: Event)
    requires Lists(before, waiting) && id !in before.events
    requires after.events == before.events[id := row.(status := Received)]
    requires forall e: Id :: HasStatus(before, e, Received) ==> SortsBefore(before, e, id, row)
    ensures Lists(after, waiting + [id])
  {
    var more := waiting + [id];
    forall i, j | 0 <= i < j < |more|
      ensures more[i] in after.events && more[j] in after.events && Precedes(after, more[i], more[j])
    {
      assert more[i] in waiting;
      if j < |waiting| {
        assert more[j] in waiting;
        assert Precedes(before, waiting[i], waiting[j]);
      }
    }
    forall e
      ensures e in more <==> HasStatus(after, e, Received)
    {
      assert e in waiting <==> HasStatus(before, e, Received);
    }
  }

  lemma AcceptIsFifo(w: World, after: World, id: Id, row: Event, waiting: seq<Id>)
    requires FirstInFirstOut(w, waiting) && id !in w.minted && id !in w.db.events
    requires forall e: Id :: HasStatus(w.db, e, Received) ==> SortsBefore(w.db, e, id, row)
    requires after.db == w.db.(events := w.db.events[id := row.(status := Received)])
    requires after.log == w.log + [Took(id, row.endpointId, row.key, row.body)] && after.minted == w.minted + {id}
    ensures FirstInFirstOut(after, waiting + [id])
  {
    var took := Took(id, row.endpointId, row.key, row.body);
    EventsOneMore(w.log, took, TakenEvents);
    EventsOneMore(w.log, took, SentEvents);
    EventsOneMore(w.log, took, FinishedEvents);
    ListGrows(w.db, after.db, waiting, id, row);
    assert Events(w.log, FinishedEvents) + waiting + [id] == Events(w.log, FinishedEvents) + (waiting + [id]);
  }

  /** One contact of the head, which is finished by it or stays the head. */
  ghost predicate HeadContacted(w: World, after: World, contact: Contact, waiting: seq<Id>) {
    && waiting != [] && contact.event == waiting[0] && contact.event in w.minted
    && after.log == w.log + PassEntries(after.db, Some(contact)) && w.minted <= after.minted
    && contact.event in w.db.events && contact.event in after.db.events
    && !HasStatus(after.db, contact.event, Processing)
    && after.db.events ==
         w.db.events[contact.event := w.db.events[contact.event].(status := after.db.events[contact.event].status)]
  }

  ghost function Left(after: World, waiting: seq<Id>): seq<Id>
    requires waiting != []
  {
    if HasStatus(after.db, waiting[0], Received) then waiting else waiting[1..]
  }

  /** What the contact's entries say: nothing more is taken, and the head is finished
      unless it still waits. */
  lemma LogAfterHead(w: World, after: World, contact: Contact, waiting: seq<Id>)
    requires HeadContacted(w, after, contact, waiting)
    ensures Events(after.log, TakenEvents) == Events(w.log, TakenEvents)
    ensures Events(after.log, FinishedEvents) ==
      Events(w.log, FinishedEvents) + (if HasStatus(after.db, waiting[0], Received) then [] else [waiting[0]])
  {
    EventsPass(w.log, after.db, contact, TakenEvents);
    EventsPass(w.log, after.db, contact, FinishedEvents);
  }

  lemma HeadMoves(finished: seq<Id>, waiting: seq<Id>)
    requires waiting != []
    ensures finished + [waiting[0]] + waiting[1..] == finished + waiting
    ensures finished + [] == finished
  {
  }

  lemma PassKeepsOrder(w: World, after: World, contact: Contact, waiting: seq<Id>)
    requires FinishedThenWaiting(w, waiting) && HeadContacted(w, after, contact, waiting)
    ensures FinishedThenWaiting(after, Left(after, waiting))
  {
    LogAfterHead(w, after, contact, waiting);
    HeadMoves(Events(w.log, FinishedEvents), waiting);
    assert Lists(after.db, Left(after, waiting)) by {
      ListAfterHead(w.db, after.db, waiting, after.db.events[contact.event].status);
    }
  }

  lemma PassKeepsContactsTogether(w: World, after: World, contact: Contact, waiting: seq<Id>)
    requires FinishedThenWaiting(w, waiting) && ContactsTogether(w, waiting)
    requires HeadContacted(w, after, contact, waiting)
    ensures ContactsTogether(after, Left(after, waiting))
  {
    EventsPass(w.log, after.db, contact, SentEvents);
    EventsPass(w.log, after.db, contact, FinishedEvents);
    assert contact.event in waiting;
    HeadIsSent(Events(w.log, SentEvents), Events(w.log, FinishedEvents), waiting);
  }

  lemma HeadIsSent(sent: seq<Id>, finished: seq<Id>, waiting: seq<Id>)
    requires Consecutive(sent) && waiting != [] && waiting[0] !in finished
    requires forall e :: e in sent ==> e in finished || (waiting[0] == e && sent[|sent| - 1] == e)
    ensures Consecutive(sent + [waiting[0]])
    ensures forall e :: e in sent + [waiting[0]] ==> e in finished || e == waiting[0]
  {
    ConsecutiveGrows(sent, waiting[0]);
  }

  predicate Quiet(more: seq<Entry>) {
    more == [] || (|more| == 1 && !more[0].Took? && !more[0].Sent? && !more[0].Finished?)
  }

  lemma QuietEvents(log: seq<Entry>, more: seq<Entry>, kind: Kind)
    requires Quiet(more)
    ensures Events(log + more, kind) == Events(log, kind)
  {
    if more == [] {
      assert log + more == log;
    } else {
      assert more == [more[0]];
      EventsOneMore(log, more[0], kind);
    }
  }

  lemma QuietStepIsFifo(w: World, after: World, more: seq<Entry>, waiting: seq<Id>)
    requires FirstInFirstOut(w, waiting) && w.minted <= after.minted
    requires after.log == w.log + more && Quiet(more)
    requires forall e: Id :: HasStatus(w.db, e, Received) <==> HasStatus(after.db, e, Received)
    requires forall e: Id :: HasStatus(w.db, e, Received) ==>
      e in after.db.events && after.db.events[e] == w.db.events[e]
    ensures FirstInFirstOut(after, waiting)
  {
    QuietEvents(w.log, more, TakenEvents);
    QuietEvents(w.log, more, SentEvents);
    QuietEvents(w.log, more, FinishedEvents);
    ListStays(w.db, after.db, waiting);
  }

  lemma PassStepIsFifo(config: Config, w: World, input: Input, waiting: seq<Id>) returns (left: seq<Id>)
    requires Inv(config, w) && Enabled(w, DispatchOnce(input)) && FirstInFirstOut(w, waiting)
    ensures FirstInFirstOut(Next(config, w, DispatchOnce(input)), left)
  {
    var after := Next(config, w, DispatchOnce(input));
    var contact := RunOnce(config, w.db, w.calls, input).contact;
    PassFacts(config, w, input);
    if contact.Some? {
      HeadIsNext(w.db, waiting);
      PassKeepsOrder(w, after, contact.value, waiting);
      PassKeepsContactsTogether(w, after, contact.value, waiting);
      left := Left(after, waiting);
    } else {
      QuietStepIsFifo(w, after, [], waiting);
      left := waiting;
    }
  }

  lemma AcceptStepIsFifo(config: Config, w: World, id: Id, row: Event, waiting: seq<Id>) returns (left: seq<Id>)
    requires Inv(config, w) && Enabled(w, AcceptEvent(id, row)) && InArrivalOrder(w, AcceptEvent(id, row))
    requires FirstInFirstOut(w, waiting)
    ensures FirstInFirstOut(Next(config, w, AcceptEvent(id, row)), left)
  {
    var after := Next(config, w, AcceptEvent(id, row));
    AcceptMeans(w.db, id, row);
    if Accept(w.db, id, row).1.Accepted? {
      AcceptIsFifo(w, after, id, row, waiting);
      left := waiting + [id];
    } else {
      QuietStepIsFifo(w, after, [], waiting);
      left := waiting;
    }
  }

  lemma RetireStepIsFifo(config: Config, w: World, id: Id, waiting: seq<Id>)
    requires Integrity(w.db) && FirstInFirstOut(w, waiting)
    ensures FirstInFirstOut(Next(config, w, RemoveEndpoint(id)), waiting)
  {
    var after := Next(config, w, RemoveEndpoint(id));
    RetireMeans(w.db, id);
    if Retire(w.db, id).1.Retired? {
      QuietStepIsFifo(w, after, [Dropped(id)], waiting);
    } else {
      QuietStepIsFifo(w, after, [], waiting);
    }
  }

  lemma {:induction false} ArrivalRunIsFifo(config: Config, steps: seq<Step>) returns (waiting: seq<Id>)
    requires IsArrivalRun(config, steps)
    ensures FirstInFirstOut(Run(config, START, steps), waiting)
  {
    if steps == [] {
      waiting := [];
    } else {
      var before, step := steps[..|steps| - 1], steps[|steps| - 1];
      var w := Run(config, START, before);
      waiting := ArrivalRunIsFifo(config, before);
      ArrivalRunIsRun(config, before);
      ReachableStatesAreSound(config, before);
      match step
      case CreateEndpoint(id, row) =>
        QuietStepIsFifo(w, Next(config, w, step), [Registered(id, row)], waiting);
      case AcceptEvent(id, row) =>
        waiting := AcceptStepIsFifo(config, w, id, row, waiting);
      case DispatchOnce(input) =>
        waiting := PassStepIsFifo(config, w, input, waiting);
      case RemoveEndpoint(id) =>
        RetireStepIsFifo(config, w, id, waiting);
      case ReplayDeadLetter(letter) =>
        QuietStepIsFifo(w, Next(config, w, step), [], waiting);
    }
  }

  /** Over all endpoints together: the events that reached DELIVERED or FAILED are a
      prefix of those accepted, in the same order; the waiting events are the rest,
      in order. */
  ghost predicate InOrderOfArrival(w: World) {
    var taken, finished := Events(w.log, TakenEvents), Events(w.log, FinishedEvents);
    finished <= taken && Lists(w.db, taken[|finished|..])
  }

  /** In every such run the events finish in the order of their arrival, and all
      contacts for one event come one after another. */
  lemma FinishedInOrderOfArrival(config: Config, steps: seq<Step>)
    requires IsArrivalRun(config, steps)
    ensures InOrderOfArrival(Run(config, START, steps))
    ensures Consecutive(Events(Run(config, START, steps).log, SentEvents))
  {
    var waiting := ArrivalRunIsFifo(config, steps);
    var finished := Events(Run(config, START, steps).log, FinishedEvents);
    assert (finished + waiting)[|finished|..] == waiting;
  }

  // ----------------------------------------------------------- and in no other run

  /** An event accepted ahead of one that waits spoils the order at once. */
  lemma EarlyKeySpoilsOrder(w: World, after: World, id: Id, row: Event, e: Id)
    requires InOrderOfArrival(w) && HasStatus(w.db, e, Received) && !SortsBefore(w.db, e, id, row) && id !in w.db.events
    requires after.db.events == w.db.events[id := row.(status := Received)]
    requires after.log == w.log + [Took(id, row.endpointId, row.key, row.body)]
    ensures !InOrderOfArrival(after)
  {
    var took := Took(id, row.endpointId, row.key, row.body);
    EventsOneMore(w.log, took, TakenEvents);
    EventsOneMore(w.log, took, FinishedEvents);
    var taken, finished := Events(w.log, TakenEvents), Events(w.log, FinishedEvents);
    var waiting := taken[|finished|..];
    assert (taken + [id])[|finished|..] == waiting + [id];
    assert e in waiting;
    var i :| 0 <= i < |waiting| && waiting[i] == e;
    assert (waiting + [id])[i] == e && (waiting + [id])[|waiting|] == id;
    assert !Precedes(after.db, e, id);
  }

  /** A replayed event waits again, out of the order it was accepted in. */
  lemma ReplaySpoilsOrder(w: World, after: World, e: Id)
    requires InOrderOfArrival(w) && HasStatus(w.db, e, Failed) && HasStatus(after.db, e, Received)
    requires after.log == w.log + [Replayed(e)]
    ensures !InOrderOfArrival(after)
  {
    EventsOneMore(w.log, Replayed(e), TakenEvents);
    EventsOneMore(w.log, Replayed(e), FinishedEvents);
    var taken, finished := Events(w.log, TakenEvents), Events(w.log, FinishedEvents);
    assert e in taken[|finished|..] <==> HasStatus(w.db, e, Received);
  }

  lemma StepSpoilsOrder(config: Config, w: World, step: Step)
    requires Inv(config, w) && Enabled(w, step) && InOrderOfArrival(w) && !InArrivalOrder(w, step)
    ensures !InOrderOfArrival(Next(config, w, step))
  {
    var after := Next(config, w, step);
    match step {
      case AcceptEvent(id, row) =>
        AcceptMeans(w.db, id, row);
        var e: Id :| HasStatus(w.db, e, Received) && !SortsBefore(w.db, e, id, row);
        EarlyKeySpoilsOrder(w, after, id, row, e);
      case ReplayDeadLetter(letter) =>
        ReplayMeans(w.db, letter);
        ReplaySpoilsOrder(w, after, w.db.deadLetters[letter].eventId);
    }
  }

  ghost predicate InOrderThroughout(config: Config, steps: seq<Step>) {
    && InOrderOfArrival(Run(config, START, steps))
    && (steps != [] ==> InOrderThroughout(config, steps[..|steps| - 1]))
  }

  /** A run keeps the order of arrival throughout exactly when nothing is replayed and
      every accepted event sorts behind all that wait. */
  lemma {:induction false} OrderOfArrivalIff(config: Config, steps: seq<Step>)
    requires IsRun(config, START, steps)
    ensures InOrderThroughout(config, steps) <==> IsArrivalRun(config, steps)
  {
    if steps == [] {
      FinishedInOrderOfArrival(config, steps);
    } else {
      var before, step := steps[..|steps| - 1], steps[|steps| - 1];
      var w := Run(config, START, before);
      OrderOfArrivalIff(config, before);
      ReachableStatesAreSound(config, before);
      if IsArrivalRun(config, steps) {
        FinishedInOrderOfArrival(config, steps);
      } else if InOrderOfArrival(w) && IsArrivalRun(config, before) {
        StepSpoilsOrder(config, w, step);
      }
    }
  }
}
