/** What the record of a run shows: how often an event is contacted, that a key is
    accepted once, that nothing is lost, and what every contact carried. */
module RunRecords {
  import opened Foundation
  import opened Tables
  import opened Operations
  import opened BreakerRates
  import opened CircuitBreakers
  import opened Dispatching
  import opened DeliveryMachine

  datatype Query = SendsOf(event: Id) | ReplaysOf(event: Id) | TakesOf(endpoint: Id, key: string)

  predicate Matches(query: Query, entry: Entry) {
    match query
    case SendsOf(event) => entry.Sent? && entry.contact.event == event
    case ReplaysOf(event) => entry.Replayed? && entry.event == event
    case TakesOf(endpoint, key) => entry.Took? && entry.endpoint == endpoint && entry.key == key
  }

  /** The number of matching entries. */
  function Count(log: seq<Entry>, query: Query): nat {
    if log == [] then 0
    else Count(log[..|log| - 1], query) + (if Matches(query, log[|log| - 1]) then 1 else 0)
  }

  lemma CountOneMore(log: seq<Entry>, entry: Entry, query: Query)
    ensures Count(log + [entry], query) == Count(log, query) + (if Matches(query, entry) then 1 else 0)
  {
    assert (log + [entry])[..|log|] == log;
  }

  lemma CountPass(log: seq<Entry>, db: Database, contact: Contact, query: Query)
    ensures Count(log + PassEntries(db, Some(contact)), query)
         == Count(log, query) + (if query == SendsOf(contact.event) then 1 else 0)
  {
    var entries := PassEntries(db, Some(contact));
    CountOneMore(log, entries[0], query);
    if |entries| == 1 {
      assert log + entries == log + [entries[0]];
    } else {
      CountOneMore(log + [entries[0]], entries[1], query);
      assert log + entries == log + [entries[0]] + [entries[1]];
    }
  }

  // ------------------------------------------------------------ what is in the tables

  /** In every reachable state the attempts of an event are numbered 1 .. n without
      gaps, and its status says how many there are and how they went. */
  lemma AttemptLedger(config: Config, steps: seq<Step>, event: Id)
    requires IsRun(config, START, steps) && event in Run(config, START, steps).db.events
    ensures var db := Run(config, START, steps).db;
      var n := |AttemptsOf(db, event)|;
      && Numbered(db, event)
      && (HasStatus(db, event, Received) ==> n < Budget(config) && AllFailed(db, event))
      && (HasStatus(db, event, Failed) ==> n == Budget(config) && AllFailed(db, event))
      && (HasStatus(db, event, Delivered) ==> 1 <= n <= Budget(config) && LastSucceeded(db, event))
      && !HasStatus(db, event, Processing)
  {
    ReachableStatesAreSound(config, steps);
    assert LedgerOf(Budget(config), Run(config, START, steps).db, event);
  }

  /** In every reachable state an event is FAILED exactly when it has a dead letter,
      and it never has two. */
  lemma DeadLettersAreFailedEvents(config: Config, steps: seq<Step>, event: Id)
    requires IsRun(config, START, steps)
    ensures var db := Run(config, START, steps).db;
      && (HasStatus(db, event, Failed) <==> exists d :: IsLetterOf(db, d, event))
      && (forall c, d :: IsLetterOf(db, c, event) && IsLetterOf(db, d, event) ==> c == d)
  {
    ReachableStatesAreSound(config, steps);
    SoundDeadLetters(config, Run(config, START, steps), event);
  }

  lemma SoundDeadLetters(config: Config, w: World, event: Id)
    requires Inv(config, w)
    ensures HasStatus(w.db, event, Failed) <==> exists d :: IsLetterOf(w.db, d, event)
    ensures forall c, d :: IsLetterOf(w.db, c, event) && IsLetterOf(w.db, d, event) ==> c == d
  {
    if HasStatus(w.db, event, Failed) {
      var d :| d in w.db.deadLetters && w.db.deadLetters[d].eventId == event;
      assert IsLetterOf(w.db, d, event);
    }
  }

  // ------------------------------------------------------------------ total contacts

  /** Past budgets, one for each replay, were used up; the attempts on file are
      what the present budget has spent. */
  ghost predicate Accounts(config: Config, w: World, event: Id) {
    var sends, replays := Count(w.log, SendsOf(event)), Count(w.log, ReplaysOf(event));
    && (event in w.db.events ==> sends == Times(replays, Budget(config)) + |AttemptsOf(w.db, event)|)
    && sends <= Times(replays + 1, Budget(config))
    && (event !in w.minted ==> sends == 0 && replays == 0)
  }

  lemma PassAccounting(config: Config, w: World, after: World, contact: Contact, event: Id)
    requires Accounts(config, w, event)
    requires after.log == w.log + PassEntries(after.db, Some(contact)) && w.minted <= after.minted
    requires after.db.events.Keys == w.db.events.Keys && contact.event in w.db.events && contact.event in w.minted
    requires |AttemptsOf(after.db, contact.event)| == |AttemptsOf(w.db, contact.event)| + 1 <= Budget(config)
    requires event != contact.event ==> AttemptsOf(after.db, event) == AttemptsOf(w.db, event)
    ensures Accounts(config, after, event)
  {
    CountPass(w.log, after.db, contact, SendsOf(event));
    CountPass(w.log, after.db, contact, ReplaysOf(event));
  }

  lemma ContactFacts(config: Config, db: Database, event: Id, input: Input)
    requires HasStatus(db, event, Received) && input.attemptId !in db.attempts && LedgerOf(Budget(config), db, event)
    ensures var after := Contacted(config, db, event, input);
      && after.endpoints == db.endpoints && after.events.Keys == db.events.Keys
      && after.events == db.events[event := db.events[event].(status := after.events[event].status)]
      && after.events[event].status != Processing
      && |AttemptsOf(after, event)| == |AttemptsOf(db, event)| + 1 <= Budget(config)
      && forall e :: e != event ==> AttemptsOf(after, e) == AttemptsOf(db, e)
  {
    AttemptsAfterContact(config, db, event, input);
  }

  lemma PassFacts(config: Config, w: World, input: Input)
    requires Inv(config, w) && Enabled(w, DispatchOnce(input))
    ensures var after := Next(config, w, DispatchOnce(input));
      var contact := RunOnce(config, w.db, w.calls, input).contact;
      && after.log == w.log + PassEntries(after.db, contact)
      && w.minted <= after.minted
      && after.db.endpoints == w.db.endpoints
      && after.db.events.Keys == w.db.events.Keys
      && (forall e :: e in w.db.events ==> after.db.events[e] == w.db.events[e].(status := after.db.events[e].status))
      && (contact.None? ==> after.db == w.db && after.log == w.log)
      && (contact.Some? ==>
            var event := contact.value.event;
            && NextEvent(w.db) == Some(event) && event in w.minted && !HasStatus(after.db, event, Processing)
            && Fetch(w.db, event) == Some(Fetched(contact.value.endpoint, contact.value.url, contact.value.body,
                                                  |AttemptsOf(w.db, event)|))
            && after.db.events == w.db.events[event := after.db.events[event]]
            && |AttemptsOf(after.db, event)| == |AttemptsOf(w.db, event)| + 1 <= Budget(config)
            && (forall e :: e != event ==> AttemptsOf(after.db, e) == AttemptsOf(w.db, e)))
  {
    PassCases(config, w, input);
    var contact := RunOnce(config, w.db, w.calls, input).contact;
    if contact.Some? {
      assert LedgerOf(Budget(config), w.db, contact.value.event);
      ContactFacts(config, w.db, contact.value.event, input);
    }
  }

  /** A replay finds a spent budget and gives back a whole one. */
  lemma ReplayRestoresBudget(config: Config, w: World, letter: Id)
    requires Inv(config, w) && letter in w.db.deadLetters
    ensures var event := w.db.deadLetters[letter].eventId;
      var after := Replay(w.db, letter).0;
      && HasStatus(w.db, event, Failed) && |AttemptsOf(w.db, event)| == Budget(config)
      && HasStatus(after, event, Received) && AttemptsOf(after, event) == {}
      && after.events.Keys == w.db.events.Keys
      && forall e :: e != event ==> AttemptsOf(after, e) == AttemptsOf(w.db, e)
  {
    ReplayMeans(w.db, letter);
    assert LedgerOf(Budget(config), w.db, w.db.deadLetters[letter].eventId);
  }

  lemma ReplayAccounting(config: Config, w: World, after: World, replayed: Id, event: Id)
    requires Accounts(config, w, event)
    requires after.log == w.log + [Replayed(replayed)] && after.minted == w.minted
    requires after.db.events.Keys == w.db.events.Keys && replayed in w.db.events && replayed in w.minted
    requires |AttemptsOf(w.db, replayed)| == Budget(config) && AttemptsOf(after.db, replayed) == {}
    requires event != replayed ==> AttemptsOf(after.db, event) == AttemptsOf(w.db, event)
    ensures Accounts(config, after, event)
  {
    CountOneMore(w.log, Replayed(replayed), SendsOf(event));
    CountOneMore(w.log, Replayed(replayed), ReplaysOf(event));
    TimesGrows(Count(w.log, ReplaysOf(event)) + 1, Count(w.log, ReplaysOf(event)) + 2, Budget(config));
  }

  lemma EntryKeepsCounts(log: seq<Entry>, entry: Entry, event: Id)
    requires !entry.Sent? && !entry.Replayed?
    ensures Count(log + [entry], SendsOf(event)) == Count(log, SendsOf(event))
    ensures Count(log + [entry], ReplaysOf(event)) == Count(log, ReplaysOf(event))
  {
    CountOneMore(log, entry, SendsOf(event));
    CountOneMore(log, entry, ReplaysOf(event));
  }

  lemma CreateKeepsAccounts(config: Config, w: World, id: Id, row: Endpoint, event: Id)
    requires Accounts(config, w, event)
    ensures Accounts(config, Next(config, w, CreateEndpoint(id, row)), event)
  {
    EntryKeepsCounts(w.log, Registered(id, row), event);
    assert AttemptsOf(Next(config, w, CreateEndpoint(id, row)).db, event) == AttemptsOf(w.db, event);
  }

  lemma RetireKeepsAccounts(config: Config, w: World, id: Id, event: Id)
    requires Accounts(config, w, event)
    ensures Accounts(config, Next(config, w, RemoveEndpoint(id)), event)
  {
    EntryKeepsCounts(w.log, Dropped(id), event);
    var after := Retire(w.db, id).0;
    if event in after.events {
      assert AttemptsOf(after, event) == AttemptsOf(w.db, event);
    }
  }

  lemma AcceptKeepsAccounts(config: Config, w: World, id: Id, row: Event, event: Id)
    requires Enabled(w, AcceptEvent(id, row)) && Accounts(config, w, event)
    requires AttemptsHaveEvents(w.db) && RowsAreMinted(w.db, w.minted)
    ensures Accounts(config, Next(config, w, AcceptEvent(id, row)), event)
  {
    EntryKeepsCounts(w.log, Took(id, row.endpointId, row.key, row.body), event);
    AcceptLeavesAttempts(w.db, id, row);
    if event == id {
      assert AttemptsOf(w.db, event) == {};
    }
  }

  lemma {:induction false} RunKeepsAccounts(config: Config, steps: seq<Step>, event: Id)
    requires IsRun(config, START, steps)
    ensures Accounts(config, Run(config, START, steps), event)
  {
    if steps == [] {
      assert AttemptsOf(EMPTY, event) == {};
    } else {
      var before, step := steps[..|steps| - 1], steps[|steps| - 1];
      var w := Run(config, START, before);
      RunKeepsAccounts(config, before, event);
      ReachableStatesAreSound(config, before);
      match step
      case DispatchOnce(input) =>
        PassFacts(config, w, input);
        var contact := RunOnce(config, w.db, w.calls, input).contact;
        if contact.Some? {
          PassAccounting(config, w, Next(config, w, step), contact.value, event);
        }
      case ReplayDeadLetter(letter) =>
        if letter in w.db.deadLetters {
          ReplayRestoresBudget(config, w, letter);
          ReplayAccounting(config, w, Next(config, w, step), w.db.deadLetters[letter].eventId, event);
        }
      case CreateEndpoint(id, row) => CreateKeepsAccounts(config, w, id, row, event);
      case RemoveEndpoint(id) => RetireKeepsAccounts(config, w, id, event);
      case AcceptEvent(id, row) => AcceptKeepsAccounts(config, w, id, row, event);
    }
  }

  /** In a run with k replays of an event, the downstream is contacted for it at
      most (k + 1) * B times; while the event exists, exactly k * B times plus the
      attempts on file. */
  lemma TotalContacts(config: Config, steps: seq<Step>, event: Id)
    requires IsRun(config, START, steps)
    ensures var w := Run(config, START, steps);
      var sends, replays := Count(w.log, SendsOf(event)), Count(w.log, ReplaysOf(event));
      && sends <= (replays + 1) * Budget(config)
      && (event in w.db.events ==> sends == replays * Budget(config) + |AttemptsOf(w.db, event)|)
  {
    RunKeepsAccounts(config, steps, event);
    var w := Run(config, START, steps);
    TimesIsProduct(Count(w.log, ReplaysOf(event)), Budget(config));
    TimesIsProduct(Count(w.log, ReplaysOf(event)) + 1, Budget(config));
  }

  // ------------------------------------------------------------- at most one accept

  /** A key was accepted at most once; while its endpoint exists, so does its event. */
  ghost predicate TakenOnce(w: World, endpoint: Id, key: string) {
    var taken := Count(w.log, TakesOf(endpoint, key));
    && taken <= 1
    && (taken == 1 ==> endpoint in w.minted && (endpoint in w.db.endpoints ==> Matching(w.db, endpoint, key) != {}))
    && (Matching(w.db, endpoint, key) != {} ==> taken == 1)
  }

  lemma SameRowsSameMatching(before: Database, after: Database, endpoint: Id, key: string)
    requires before.events.Keys == after.events.Keys
    requires forall e :: e in before.events ==>
      before.events[e].endpointId == after.events[e].endpointId && before.events[e].key == after.events[e].key
    ensures Matching(before, endpoint, key) == Matching(after, endpoint, key)
  {
  }

  lemma AcceptKeepsTakenOnce(w: World, after: World, id: Id, row: Event, endpoint: Id, key: string)
    requires TakenOnce(w, endpoint, key) && id !in w.db.events
    requires Matching(w.db, row.endpointId, row.key) == {}
    requires row.endpointId in w.db.endpoints && row.endpointId in w.minted
    requires after.db == w.db.(events := w.db.events[id := row.(status := Received)])
    requires after.log == w.log + [Took(id, row.endpointId, row.key, row.body)] && w.minted <= after.minted
    ensures TakenOnce(after, endpoint, key)
  {
    CountOneMore(w.log, Took(id, row.endpointId, row.key, row.body), TakesOf(endpoint, key));
    if row.endpointId == endpoint && row.key == key {
      assert id in Matching(after.db, endpoint, key);
    } else {
      assert Matching(after.db, endpoint, key) == Matching(w.db, endpoint, key);
    }
  }

  lemma RetireKeepsTakenOnce(config: Config, w: World, id: Id, endpoint: Id, key: string)
    requires EventsHaveEndpoints(w.db) && TakenOnce(w, endpoint, key)
    ensures TakenOnce(Next(config, w, RemoveEndpoint(id)), endpoint, key)
  {
    var (after, result) := Retire(w.db, id);
    CountOneMore(w.log, Dropped(id), TakesOf(endpoint, key));
    if result.StillPending? {
      assert after == w.db;
    } else if id == endpoint {
      assert Matching(after, endpoint, key) == {};
      assert id !in w.db.endpoints ==> Matching(w.db, endpoint, key) == {};
    } else {
      assert Matching(after, endpoint, key) == Matching(w.db, endpoint, key);
    }
  }

  lemma CreateKeepsTakenOnce(config: Config, w: World, id: Id, row: Endpoint, endpoint: Id, key: string)
    requires Enabled(w, CreateEndpoint(id, row)) && TakenOnce(w, endpoint, key) && EventsHaveEndpoints(w.db)
    ensures TakenOnce(Next(config, w, CreateEndpoint(id, row)), endpoint, key)
  {
    CountOneMore(w.log, Registered(id, row), TakesOf(endpoint, key));
    SameRowsSameMatching(w.db, Next(config, w, CreateEndpoint(id, row)).db, endpoint, key);
  }

  lemma ReplayKeepsTakenOnce(w: World, after: World, replayed: Id, endpoint: Id, key: string)
    requires TakenOnce(w, endpoint, key)
    requires after.log == w.log + [Replayed(replayed)] && after.minted == w.minted
    requires after.db.endpoints == w.db.endpoints && replayed in w.db.events
    requires after.db.events == w.db.events[replayed := w.db.events[replayed].(status := Received)]
    ensures TakenOnce(after, endpoint, key)
  {
    CountOneMore(w.log, Replayed(replayed), TakesOf(endpoint, key));
    SameRowsSameMatching(w.db, after.db, endpoint, key);
  }

  lemma PassKeepsTakenOnce(w: World, after: World, contact: Contact, endpoint: Id, key: string)
    requires TakenOnce(w, endpoint, key)
    requires after.log == w.log + PassEntries(after.db, Some(contact)) && w.minted <= after.minted
    requires after.db.endpoints == w.db.endpoints && after.db.events.Keys == w.db.events.Keys
    requires forall e :: e in w.db.events ==> after.db.events[e] == w.db.events[e].(status := after.db.events[e].status)
    ensures TakenOnce(after, endpoint, key)
  {
    CountPass(w.log, after.db, contact, TakesOf(endpoint, key));
    SameRowsSameMatching(w.db, after.db, endpoint, key);
  }

  lemma {:induction false} RunKeepsTakenOnce(config: Config, steps: seq<Step>, endpoint: Id, key: string)
    requires IsRun(config, START, steps)
    ensures TakenOnce(Run(config, START, steps), endpoint, key)
  {
    if steps == [] {
      assert Matching(EMPTY, endpoint, key) == {};
    } else {
      var before, step := steps[..|steps| - 1], steps[|steps| - 1];
      var w := Run(config, START, before);
      RunKeepsTakenOnce(config, before, endpoint, key);
      ReachableStatesAreSound(config, before);
      match step
      case AcceptEvent(id, row) =>
        AcceptMeans(w.db, id, row);
        if Accept(w.db, id, row).1.Accepted? {
          AcceptKeepsTakenOnce(w, Next(config, w, step), id, row, endpoint, key);
        }
      case RemoveEndpoint(id) => RetireKeepsTakenOnce(config, w, id, endpoint, key);
      case CreateEndpoint(id, row) => CreateKeepsTakenOnce(config, w, id, row, endpoint, key);
      case DispatchOnce(input) =>
        PassFacts(config, w, input);
        var contact := RunOnce(config, w.db, w.calls, input).contact;
        if contact.Some? {
          PassKeepsTakenOnce(w, Next(config, w, step), contact.value, endpoint, key);
        }
      case ReplayDeadLetter(letter) =>
        if letter in w.db.deadLetters {
          ReplayMeans(w.db, letter);
          ReplayKeepsTakenOnce(w, Next(config, w, step), w.db.deadLetters[letter].eventId, endpoint, key);
        }
    }
  }

  /** Over a whole run, one endpoint accepts one key at most once, whatever
      replays, failures and deletions lie between two tries. */
  lemma AcceptedAtMostOnce(config: Config, steps: seq<Step>, endpoint: Id, key: string)
    requires IsRun(config, START, steps)
    ensures Count(Run(config, START, steps).log, TakesOf(endpoint, key)) <= 1
  {
    RunKeepsTakenOnce(config, steps, endpoint, key);
  }

  // -------------------------------------------------------------------- contact rate

  /** At most T + L / R contacts in the L milliseconds that start with the first one. */
  predicate WithinRate(config: Config, calls: seq<Call>, length: Duration)
    requires config.recovery > 0
  {
    var first := FirstContact(config.failureThreshold, config.recovery, calls);
    first.Some? ==>
      ContactsUntil(config.failureThreshold, config.recovery, calls, first.value + length)
        <= AtLeastOne(config.failureThreshold) + length / config.recovery
  }

  lemma SoundHistoryWithinRate(config: Config, calls: seq<Call>, clock: Instant, length: Duration)
    requires config.recovery > 0 && SoundHistory(config, calls, clock) && AlwaysFails(calls)
    ensures WithinRate(config, calls, length)
  {
    if FirstContact(config.failureThreshold, config.recovery, calls).Some? {
      ContactRate(config.failureThreshold, config.recovery, calls, length);
    }
  }

  /** In every run, an endpoint that has never answered with a success has been
      contacted at that rate. */
  lemma RunsKeepTheContactRate(config: Config, steps: seq<Step>, endpoint: Id, length: Duration)
    requires IsRun(config, START, steps) && config.recovery > 0
    requires AlwaysFails(HistoryOf(Run(config, START, steps).calls, endpoint))
    ensures WithinRate(config, HistoryOf(Run(config, START, steps).calls, endpoint), length)
  {
    ReachableStatesAreSound(config, steps);
    var w := Run(config, START, steps);
    SoundHistoryWithinRate(config, HistoryOf(w.calls, endpoint), w.clock, length);
  }
}
