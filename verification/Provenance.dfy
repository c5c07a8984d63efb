/** Where every contact came from and where every accepted event went. */
module Provenance {
  import opened Foundation
  import opened Tables
  import opened Operations
  import opened Dispatching
  import opened DeliveryMachine
  import opened RunRecords

  function TookRow(event: Id, row: Event): Entry {
    Took(event, row.endpointId, row.key, row.body)
  }

  predicate IsFinished(log: seq<Entry>, event: Id) {
    Finished(event, true) in log || Finished(event, false) in log
  }

  /** The accepted event still has its row; or it was finished and its endpoint,
      whose identifier is never used again, has been deleted. */
  ghost predicate Kept(w: World, took: Entry)
    requires took.Took?
  {
    && took.event in w.minted && took.endpoint in w.minted
    && (if took.event in w.db.events
        then took == TookRow(took.event, w.db.events[took.event])
        else IsFinished(w.log, took.event) && took.endpoint !in w.db.endpoints)
  }

  ghost predicate NothingLost(w: World) {
    && (forall x :: x in w.log && x.Took? ==> Kept(w, x))
    && (forall e :: e in w.db.events ==> TookRow(e, w.db.events[e]) in w.log)
  }

  ghost predicate TakenUnderOneId(log: seq<Entry>) {
    forall x, y :: x in log && y in log && x.Took? && y.Took? && x.event == y.event ==> x == y
  }

  ghost predicate EndpointsOnRecord(w: World) {
    && (forall n :: n in w.db.endpoints ==> Registered(n, w.db.endpoints[n]) in w.log)
    && (forall x :: x in w.log && x.Registered? ==> x.endpoint in w.minted)
    && (forall x, y :: x in w.log && y in w.log && x.Registered? && y.Registered? && x.endpoint == y.endpoint ==>
          x == y)
  }

  /** The body is the one accepted under the event's identifier, the URL the one
      registered for the event's endpoint. */
  ghost predicate Faithful(log: seq<Entry>, contact: Contact) {
    exists key, row ::
      && Took(contact.event, contact.endpoint, key, contact.body) in log
      && Registered(contact.endpoint, row) in log && row.targetUrl == contact.url
  }

  ghost predicate ContactsFaithful(log: seq<Entry>) {
    forall x :: x in log && x.Sent? ==> Faithful(log, x.contact)
  }

  ghost predicate SettledOnRecord(w: World) {
    forall e :: e in w.db.events ==>
      && (w.db.events[e].status == Delivered ==> Finished(e, true) in w.log)
      && (w.db.events[e].status == Failed ==> Finished(e, false) in w.log)
  }

  ghost predicate Traced(w: World) {
    && NothingLost(w)
    && TakenUnderOneId(w.log)
    && EndpointsOnRecord(w)
    && ContactsFaithful(w.log)
    && SettledOnRecord(w)
  }

  lemma FaithfulLater(log: seq<Entry>, more: seq<Entry>, contact: Contact)
    requires Faithful(log, contact)
    ensures Faithful(log + more, contact)
  {
    var key, row :|
      && Took(contact.event, contact.endpoint, key, contact.body) in log
      && Registered(contact.endpoint, row) in log && row.targetUrl == contact.url;
    assert Took(contact.event, contact.endpoint, key, contact.body) in log + more;
    assert Registered(contact.endpoint, row) in log + more;
  }

  lemma ContactsStayFaithful(log: seq<Entry>, more: seq<Entry>)
    requires ContactsFaithful(log)
    requires forall x :: x in more && x.Sent? ==> Faithful(log, x.contact)
    ensures ContactsFaithful(log + more)
  {
    forall x | x in log + more && x.Sent?
      ensures Faithful(log + more, x.contact)
    {
      FaithfulLater(log, more, x.contact);
    }
  }

  lemma CreateTraces(w: World, after: World, id: Id, endpoint: Endpoint)
    requires Traced(w) && RowsAreMinted(w.db, w.minted) && id !in w.minted
    requires after.db == w.db.(endpoints := w.db.endpoints[id := endpoint])
    requires after.log == w.log + [Registered(id, endpoint)] && after.minted == w.minted + {id}
    ensures Traced(after)
  {
    ContactsStayFaithful(w.log, [Registered(id, endpoint)]);
    forall x | x in after.log && x.Took?
      ensures Kept(after, x)
    {
      assert x in w.log;
      assert Kept(w, x);
    }
  }

  lemma NewEventIsNew(w: World, id: Id)
    requires NothingLost(w) && id !in w.minted
    ensures forall x :: x in w.log && x.Took? ==> x.event != id
    ensures forall row :: TakenUnderOneId(w.log) ==> TakenUnderOneId(w.log + [TookRow(id, row)])
  {
    forall x | x in w.log && x.Took?
      ensures x.event != id
    {
      assert Kept(w, x);
    }
  }

  lemma AcceptLosesNothing(w: World, after: World, id: Id, row: Event)
    requires NothingLost(w) && id !in w.minted && id !in w.db.events
    requires row.endpointId in w.db.endpoints && row.endpointId in w.minted
    requires after.db == w.db.(events := w.db.events[id := row.(status := Received)])
    requires after.log == w.log + [TookRow(id, row)] && after.minted == w.minted + {id}
    ensures NothingLost(after)
  {
    forall x | x in after.log && x.Took?
      ensures Kept(after, x)
    {
      if x in w.log {
        assert Kept(w, x);
      }
    }
  }

  // The other conjuncts of Traced, one lemma for each.

  lemma AcceptKeepsEndpoints(w: World, after: World, entry: Entry)
    requires EndpointsOnRecord(w) && after.db.endpoints == w.db.endpoints && w.minted <= after.minted
    requires after.log == w.log + [entry] && entry.Took?
    ensures EndpointsOnRecord(after)
  {
    forall n | n in after.db.endpoints
      ensures Registered(n, after.db.endpoints[n]) in after.log
    {
      assert Registered(n, w.db.endpoints[n]) in w.log;
    }
    assert forall x :: x in after.log && x.Registered? ==> x in w.log;
  }

  lemma AcceptKeepsSettled(w: World, after: World, id: Id, row: Event)
    requires SettledOnRecord(w) && after.db.events == w.db.events[id := row.(status := Received)]
    requires after.log == w.log + [TookRow(id, row)]
    ensures SettledOnRecord(after)
  {
    forall e | e in after.db.events && e != id
      ensures after.db.events[e].status == Delivered ==> Finished(e, true) in after.log
      ensures after.db.events[e].status == Failed ==> Finished(e, false) in after.log
    {
      assert e in w.db.events;
    }
  }

  lemma AcceptTraces(w: World, after: World, id: Id, row: Event)
    requires Traced(w) && id !in w.minted && id !in w.db.events
    requires row.endpointId in w.db.endpoints && row.endpointId in w.minted
    requires after.db == w.db.(events := w.db.events[id := row.(status := Received)])
    requires after.log == w.log + [TookRow(id, row)] && after.minted == w.minted + {id}
    ensures Traced(after)
  {
    AcceptLosesNothing(w, after, id, row);
    NewEventIsNew(w, id);
    AcceptKeepsEndpoints(w, after, TookRow(id, row));
    ContactsStayFaithful(w.log, [TookRow(id, row)]);
    AcceptKeepsSettled(w, after, id, row);
  }

  /** A step that only changes the status of events, and records what it settles. */
  lemma StatusStepTraces(w: World, after: World, more: seq<Entry>)
    requires Traced(w) && w.minted <= after.minted && after.log == w.log + more
    requires after.db.endpoints == w.db.endpoints && after.db.events.Keys == w.db.events.Keys
    requires forall e :: e in w.db.events ==> after.db.events[e] == w.db.events[e].(status := after.db.events[e].status)
    requires forall x :: x in more ==> !x.Took? && !x.Registered?
    requires forall x :: x in more && x.Sent? ==> Faithful(w.log, x.contact)
    requires SettledOnRecord(after)
    ensures Traced(after)
  {
    ContactsStayFaithful(w.log, more);
    forall x | x in after.log && x.Took?
      ensures Kept(after, x)
    {
      assert x in w.log;
      assert Kept(w, x);
    }
    forall e | e in after.db.events
      ensures TookRow(e, after.db.events[e]) in after.log
    {
      assert TookRow(e, w.db.events[e]) in w.log;
    }
  }

  lemma PassKeepsSettled(w: World, after: World, contact: Contact)
    requires SettledOnRecord(w) && after.log == w.log + PassEntries(after.db, Some(contact))
    requires contact.event in w.db.events && contact.event in after.db.events
    requires after.db.events ==
      w.db.events[contact.event := w.db.events[contact.event].(status := after.db.events[contact.event].status)]
    ensures SettledOnRecord(after)
  {
  }

  lemma PassTraces(w: World, after: World, contact: Contact)
    requires Traced(w) && w.minted <= after.minted && after.log == w.log + PassEntries(after.db, Some(contact))
    requires Fetch(w.db, contact.event) ==
      Some(Fetched(contact.endpoint, contact.url, contact.body, |AttemptsOf(w.db, contact.event)|))
    requires after.db.endpoints == w.db.endpoints && contact.event in after.db.events
    requires after.db.events ==
      w.db.events[contact.event := w.db.events[contact.event].(status := after.db.events[contact.event].status)]
    ensures Traced(after)
  {
    var row := w.db.events[contact.event];
    assert Took(contact.event, row.endpointId, row.key, row.body) in w.log;
    assert Registered(row.endpointId, w.db.endpoints[row.endpointId]) in w.log;
    assert Faithful(w.log, contact);
    PassKeepsSettled(w, after, contact);
    StatusStepTraces(w, after, PassEntries(after.db, Some(contact)));
  }

  lemma ReplayTraces(w: World, after: World, event: Id)
    requires Traced(w) && after.minted == w.minted && after.log == w.log + [Replayed(event)] && event in w.db.events
    requires after.db.endpoints == w.db.endpoints
    requires after.db.events == w.db.events[event := w.db.events[event].(status := Received)]
    ensures Traced(after)
  {
    StatusStepTraces(w, after, [Replayed(event)]);
  }

  lemma RetireTraces(w: World, after: World, id: Id)
    requires Traced(w) && after.minted == w.minted && after.log == w.log + [Dropped(id)]
    requires forall n :: n in after.db.endpoints <==> n in w.db.endpoints && n != id
    requires forall n :: n in after.db.endpoints ==> after.db.endpoints[n] == w.db.endpoints[n]
    requires forall e :: e in after.db.events <==> e in w.db.events && w.db.events[e].endpointId != id
    requires forall e :: e in after.db.events ==> after.db.events[e] == w.db.events[e]
    requires forall e :: e in w.db.events && e !in after.db.events ==> w.db.events[e].status in {Delivered, Failed}
    ensures Traced(after)
  {
    ContactsStayFaithful(w.log, [Dropped(id)]);
    forall x | x in after.log && x.Took?
      ensures Kept(after, x)
    {
      assert x in w.log;
      assert Kept(w, x);
    }
    forall n | n in after.db.endpoints
      ensures Registered(n, after.db.endpoints[n]) in after.log
    {
      assert Registered(n, w.db.endpoints[n]) in w.log;
    }
  }

  lemma AcceptStepTraces(config: Config, w: World, id: Id, row: Event)
    requires Inv(config, w) && Traced(w) && Enabled(w, AcceptEvent(id, row))
    ensures Traced(Next(config, w, AcceptEvent(id, row)))
  {
    AcceptMeans(w.db, id, row);
    if Accept(w.db, id, row).1.Accepted? {
      AcceptTraces(w, Next(config, w, AcceptEvent(id, row)), id, row);
    } else {
      StatusStepTraces(w, Next(config, w, AcceptEvent(id, row)), []);
    }
  }

  lemma PassStepTraces(config: Config, w: World, input: Input)
    requires Inv(config, w) && Traced(w) && Enabled(w, DispatchOnce(input))
    ensures Traced(Next(config, w, DispatchOnce(input)))
  {
    PassFacts(config, w, input);
    var contact := RunOnce(config, w.db, w.calls, input).contact;
    if contact.Some? {
      PassTraces(w, Next(config, w, DispatchOnce(input)), contact.value);
    } else {
      StatusStepTraces(w, Next(config, w, DispatchOnce(input)), []);
    }
  }

  lemma ReplayStepTraces(config: Config, w: World, letter: Id)
    requires DeadLettersHaveEvents(w.db) && Traced(w)
    ensures Traced(Next(config, w, ReplayDeadLetter(letter)))
  {
    if letter in w.db.deadLetters {
      ReplayTraces(w, Next(config, w, ReplayDeadLetter(letter)), w.db.deadLetters[letter].eventId);
    }
  }

  lemma RetireStepTraces(config: Config, w: World, id: Id)
    requires Integrity(w.db) && Traced(w)
    ensures Traced(Next(config, w, RemoveEndpoint(id)))
  {
    RetireMeans(w.db, id);
    if Retire(w.db, id).1.Retired? {
      RetireTraces(w, Next(config, w, RemoveEndpoint(id)), id);
    }
  }

  lemma {:induction false} RunIsTraced(config: Config, steps: seq<Step>)
    requires IsRun(config, START, steps)
    ensures Traced(Run(config, START, steps))
  {
    if steps != [] {
      var before, step := steps[..|steps| - 1], steps[|steps| - 1];
      var w := Run(config, START, before);
      RunIsTraced(config, before);
      ReachableStatesAreSound(config, before);
      match step
      case CreateEndpoint(id, row) => CreateTraces(w, Next(config, w, step), id, row);
      case AcceptEvent(id, row) => AcceptStepTraces(config, w, id, row);
      case DispatchOnce(input) => PassStepTraces(config, w, input);
      case ReplayDeadLetter(letter) => ReplayStepTraces(config, w, letter);
      case RemoveEndpoint(id) => RetireStepTraces(config, w, id);
    }
  }

  /** Every contact of every run carried exactly the body accepted under that event's
      identifier, to the URL registered for the endpoint it was accepted for; and both
      are the only such entries of the run. */
  lemma ContactsCarryWhatWasAccepted(config: Config, steps: seq<Step>, contact: Contact)
    requires IsRun(config, START, steps) && Sent(contact) in Run(config, START, steps).log
    ensures var log := Run(config, START, steps).log;
      exists key, row ::
        && Took(contact.event, contact.endpoint, key, contact.body) in log
        && Registered(contact.endpoint, row) in log && row.targetUrl == contact.url
        && (forall x :: x in log && x.Took? && x.event == contact.event ==>
              x == Took(contact.event, contact.endpoint, key, contact.body))
        && (forall x :: x in log && x.Registered? && x.endpoint == contact.endpoint ==>
              x == Registered(contact.endpoint, row))
  {
    RunIsTraced(config, steps);
    var log := Run(config, START, steps).log;
    assert Faithful(log, contact);
    var key, row :|
      && Took(contact.event, contact.endpoint, key, contact.body) in log
      && Registered(contact.endpoint, row) in log && row.targetUrl == contact.url;
  }

  /** In every run an endpoint's row is the one it was created with, until it goes. */
  lemma EndpointsStayAsCreated(config: Config, steps: seq<Step>, id: Id, row: Endpoint)
    requires IsRun(config, START, steps) && id in Run(config, START, steps).db.endpoints
    ensures Registered(id, row) in Run(config, START, steps).log <==> Run(config, START, steps).db.endpoints[id] == row
  {
    RunIsTraced(config, steps);
  }

  /** An accepted event is never silently gone: either its row is there, with the
      accepted endpoint, key and body and one of the four statuses; or it had
      reached DELIVERED or FAILED and its endpoint was deleted. */
  lemma NoSilentLoss(config: Config, steps: seq<Step>, event: Id, endpoint: Id, key: string, body: seq<Byte>)
    requires IsRun(config, START, steps)
    requires Took(event, endpoint, key, body) in Run(config, START, steps).log
    ensures var w := Run(config, START, steps);
      if event in w.db.events
      then TookRow(event, w.db.events[event]) == Took(event, endpoint, key, body)
      else IsFinished(w.log, event) && endpoint !in w.db.endpoints
  {
    RunIsTraced(config, steps);
    assert Kept(Run(config, START, steps), Took(event, endpoint, key, body));
  }

  // -------------------------------------------------------------- delivered is final

  lemma PassKeepsDelivered(config: Config, w: World, input: Input, event: Id)
    requires Inv(config, w) && Enabled(w, DispatchOnce(input)) && HasStatus(w.db, event, Delivered)
    ensures var after := Next(config, w, DispatchOnce(input)).db;
      HasStatus(after, event, Delivered) && AttemptsOf(after, event) == AttemptsOf(w.db, event)
  {
    PassFacts(config, w, input);
    var contact := RunOnce(config, w.db, w.calls, input).contact;
    if contact.Some? {
      assert IsNext(w.db, contact.value.event);
    }
  }

  lemma ReplayKeepsDelivered(config: Config, w: World, letter: Id, event: Id)
    requires Inv(config, w) && HasStatus(w.db, event, Delivered)
    ensures var after := Replay(w.db, letter).0;
      HasStatus(after, event, Delivered) && AttemptsOf(after, event) == AttemptsOf(w.db, event)
  {
    if letter in w.db.deadLetters {
      ReplayRestoresBudget(config, w, letter);
      ReplayMeans(w.db, letter);
    }
  }

  lemma StepKeepsDelivered(config: Config, w: World, step: Step, event: Id)
    requires Inv(config, w) && Enabled(w, step) && HasStatus(w.db, event, Delivered)
    ensures var after := Next(config, w, step).db;
      event in after.events ==>
        HasStatus(after, event, Delivered) && AttemptsOf(after, event) == AttemptsOf(w.db, event)
  {
    match step
    case CreateEndpoint(id, row) =>
      assert AttemptsOf(InsertEndpoint(w.db, id, row).value, event) == AttemptsOf(w.db, event);
    case AcceptEvent(id, row) =>
      AcceptMeans(w.db, id, row);
      assert AttemptsOf(Accept(w.db, id, row).0, event) == AttemptsOf(w.db, event);
    case DispatchOnce(input) =>
      PassKeepsDelivered(config, w, input, event);
    case ReplayDeadLetter(letter) =>
      ReplayKeepsDelivered(config, w, letter, event);
    case RemoveEndpoint(id) =>
      RetireMeans(w.db, id);
  }

  lemma NoStepRemovesPending(config: Config, w: World, step: Step, event: Id)
    requires Inv(config, w) && Enabled(w, step)
    requires HasStatus(w.db, event, Received) || HasStatus(w.db, event, Processing)
    ensures event in Next(config, w, step).db.events
  {
    match step
    case AcceptEvent(id, row) => AcceptMeans(w.db, id, row);
    case DispatchOnce(input) => PassFacts(config, w, input);
    case ReplayDeadLetter(letter) => ReplayMeans(w.db, letter);
    case RemoveEndpoint(id) => RetireMeans(w.db, id);
    case CreateEndpoint(_, _) =>
  }

  lemma StepMintsNewEventsOnly(config: Config, w: World, step: Step)
    requires Inv(config, w) && Enabled(w, step)
    ensures w.minted <= Next(config, w, step).minted
    ensures forall e :: e in Next(config, w, step).db.events && e in w.minted ==> e in w.db.events
  {
    match step
    case AcceptEvent(id, row) => AcceptMeans(w.db, id, row);
    case DispatchOnce(input) => PassFacts(config, w, input);
    case ReplayDeadLetter(letter) => ReplayMeans(w.db, letter);
    case RemoveEndpoint(id) => RetireMeans(w.db, id);
    case CreateEndpoint(_, _) =>
  }

  /** From any sound state on, a DELIVERED event stays DELIVERED with the same
      attempts for as long as its row exists. */
  lemma {:induction false} DeliveredIsFinal(config: Config, w: World, steps: seq<Step>, event: Id)
    requires Inv(config, w) && IsRun(config, w, steps) && HasStatus(w.db, event, Delivered)
    ensures var after := Run(config, w, steps);
      && w.minted <= after.minted
      && (event in after.db.events ==>
            HasStatus(after.db, event, Delivered) && AttemptsOf(after.db, event) == AttemptsOf(w.db, event))
  {
    if steps != [] {
      var before, step := steps[..|steps| - 1], steps[|steps| - 1];
      var previous := Run(config, w, before);
      DeliveredIsFinal(config, w, before, event);
      RunKeepsInv(config, w, before);
      StepMintsNewEventsOnly(config, previous, step);
      if event in previous.db.events {
        StepKeepsDelivered(config, previous, step, event);
      }
    }
  }
}
