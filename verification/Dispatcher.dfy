/** One pass of the dispatch worker: claim, ask the breaker, contact the
    downstream, record, settle. */
module Dispatching {
  import opened Foundation
  import opened Tables
  import opened CircuitBreakers
  import opened Storage
  import opened Decimals

  datatype Config = Config(
    maxAttempts: nat,
    failureThreshold: nat,
    recovery: Duration,
    backoffBase: Duration,
    backoffCap: Duration)

  /** What the downstream made of one contact. */
  datatype Response = Http(code: nat) | TransportError(message: string) {
    predicate IsSuccess() {
      Http? && 200 <= code < 300
    }

    function StatusCode(): Option<nat> {
      if Http? then Some(code) else None
    }

    function ErrorMessage(): Option<string> {
      match this
      case Http(code) => if IsSuccess() then None else Some("Downstream HTTP " + Decimal(code))
      case TransportError(message) => Some(message)
    }
  }

  /** Everything one pass takes from outside: two readings of the monotone clock,
      the wall clock, the downstream's answer, and two new identifiers. */
  datatype Input = Input(
    askedAt: Instant, recordedAt: Instant, wall: int, response: Response, attemptId: Id, letterId: Id)

  datatype Outcome = Idle | Settled | Deferred | Errored

  /** One request sent downstream, under the identifier of its attempt, and what came
      of it when. */
  datatype Contact = Contact(
    id: Id, event: Id, endpoint: Id, url: string, body: seq<Byte>, number: nat,
    response: Response, at: Instant, wall: int)

  /** The calls made so far on each endpoint's breaker. */
  type Histories = map<Id, seq<Call>>

  function HistoryOf(calls: Histories, endpoint: Id): seq<Call> {
    if endpoint in calls then calls[endpoint] else []
  }

  function Extended(calls: Histories, endpoint: Id, call: Call): Histories {
    calls[endpoint := HistoryOf(calls, endpoint) + [call]]
  }

  /** What the breaker is told about an answer. */
  function Verdict(response: Response, at: Instant): Call {
    if response.IsSuccess() then Success(at) else Failure(at)
  }

  ghost predicate Past(calls: Histories, now: Instant) {
    forall n :: n in calls ==> NotBefore(calls[n], now)
  }

  datatype Pass = Pass(db: Database, calls: Histories, outcome: Outcome, contact: Option<Contact>)

  // ------------------------------------------------------------------ specification

  function AttemptRow(event: Id, number: nat, response: Response, wall: int): Attempt {
    Attempt(event, number, response.StatusCode(), response.ErrorMessage(), wall)
  }

  /** What an attempt's columns must say of the answer to it. */
  predicate Tells(attempt: Attempt, response: Response) {
    match response
    case Http(code) =>
      && attempt.responseStatus == Some(code)
      && attempt.errorMessage == if 200 <= code <= 299 then None else Some("Downstream HTTP " + Decimal(code))
    case TransportError(message) =>
      attempt.responseStatus == None && attempt.errorMessage == Some(message)
  }

  function DeadLetterRow(event: Id, endpoint: Id, response: Response, wall: int): DeadLetter {
    var error := response.ErrorMessage();
    DeadLetter(event, endpoint, if error.Some? then error.value else "Max attempts exceeded",
               response.StatusCode(), wall)
  }

  /** The status that an attempt with this number leads to. */
  function FinalStatus(config: Config, number: nat, response: Response): Status {
    if response.IsSuccess() then Delivered else if number >= config.maxAttempts then Failed else Received
  }

  /** Record the attempt and settle the event. The flag is false when a statement
      was refused; the statements before it stay committed. */
  function Settle(config: Config, db: Database, event: Id, endpoint: Id, number: nat, input: Input): (Database, bool) {
    match InsertAttempt(db, input.attemptId, AttemptRow(event, number, input.response, input.wall))
    case None => (db, false)
    case Some(recorded) =>
      var status := FinalStatus(config, number, input.response);
      var settled := SetStatus(recorded, event, status);
      if !status.Failed? then (settled, true)
      else
        match PutDeadLetter(settled, input.letterId, DeadLetterRow(event, endpoint, input.response, input.wall))
        case None => (settled, false)
        case Some(buried) => (buried, true)
  }

  /** What the dispatch reads before it asks the breaker. */
  datatype Fetched = Fetched(endpoint: Id, url: string, body: seq<Byte>, tried: nat)

  /** None when the event or its endpoint is gone. */
  function Fetch(db: Database, event: Id): Option<Fetched> {
    if event !in db.events || db.events[event].endpointId !in db.endpoints then None
    else
      var row := db.events[event];
      Some(Fetched(row.endpointId, db.endpoints[row.endpointId].targetUrl, row.body, |AttemptsOf(db, event)|))
  }

  /** Dispatch of a claimed event, with the requeue that follows an error. */
  function Dispatch(config: Config, db: Database, calls: Histories, event: Id, input: Input): Pass {
    match Fetch(db, event)
    case None => Pass(SetStatus(db, event, Received), calls, Errored, None)
    case Some(row) => Admit(config, db, calls, event, row, input)
  }

  /** Ask the breaker; requeue, or go ahead. */
  function Admit(config: Config, db: Database, calls: Histories, event: Id, row: Fetched, input: Input): Pass {
    var asked := Extended(calls, row.endpoint, Ask(input.askedAt));
    if !GrantsFrom(config.failureThreshold, config.recovery, HistoryOf(calls, row.endpoint), input.askedAt) then
      Pass(SetStatus(db, event, Received), asked, Deferred, None)
    else
      Deliver(config, db, asked, Request(event, row, input), input)
  }

  function Request(event: Id, row: Fetched, input: Input): Contact {
    Contact(input.attemptId, event, row.endpoint, row.url, row.body, row.tried + 1,
            input.response, input.recordedAt, input.wall)
  }

  /** The contact itself: tell the breaker, then settle. */
  function Deliver(config: Config, db: Database, asked: Histories, contact: Contact, input: Input): Pass {
    var told := Extended(asked, contact.endpoint, Verdict(contact.response, input.recordedAt));
    var (settled, done) := Settle(config, db, contact.event, contact.endpoint, contact.number, input);
    if done then Pass(settled, told, Settled, Some(contact))
    else Pass(SetStatus(settled, contact.event, Received), told, Errored, Some(contact))
  }

  /** One whole pass. */
  ghost function RunOnce(config: Config, db: Database, calls: Histories, input: Input): Pass {
    match NextEvent(db)
    case None => Pass(db, calls, Idle, None)
    case Some(event) => Dispatch(config, SetStatus(db, event, Processing), calls, event, input)
  }

  // ------------------------------------------------------------------ shared breakers

  /** The map of breakers, one per endpoint, that every dispatch goes through. */
  class SharedBreakers {
    const failureThreshold: nat
    const recovery: Duration
    var breakers: map<Id, CircuitBreaker>
    ghost var calls: Histories
    ghost var Repr: set<object>

    /** Every breaker is sound and configured alike, no two endpoints share one,
        and the ghost histories are the breakers' own. */
    ghost predicate Valid()
      reads this, Repr
      ensures Valid() ==> this in Repr
    {
      && this in Repr && breakers.Values <= Repr
      && calls.Keys == breakers.Keys
      && (forall n :: n in breakers ==> breakers[n].Valid() && calls[n] == breakers[n].calls)
      && (forall n :: n in breakers ==>
            breakers[n].failureThreshold == failureThreshold && breakers[n].recoveryTimeout == recovery)
      && (forall m, n :: m in breakers && n in breakers && m != n ==> breakers[m] != breakers[n])
    }

    constructor (failureThreshold: nat, recovery: Duration)
      ensures Valid() && fresh(Repr) && calls == map[]
      ensures this.failureThreshold == failureThreshold && this.recovery == recovery
    {
      this.failureThreshold := failureThreshold;
      this.recovery := recovery;
      breakers := map[];
      calls := map[];
      Repr := {this};
    }

    /** The first use of an endpoint creates its breaker. */
    method Ensure(endpoint: Id)
      requires Valid()
      modifies Repr
      ensures Valid() && fresh(Repr - old(Repr))
      ensures endpoint in breakers
      ensures calls == old(calls)[endpoint := HistoryOf(old(calls), endpoint)]
    {
      if endpoint !in breakers {
        var breaker := new CircuitBreaker(failureThreshold, recovery);
        breakers := breakers[endpoint := breaker];
        calls := calls[endpoint := []];
        Repr := Repr + {breaker};
      }
    }

    method MayAttempt(endpoint: Id, now: Instant) returns (granted: bool)
      requires Valid() && NotBefore(HistoryOf(calls, endpoint), now)
      modifies Repr
      ensures Valid() && fresh(Repr - old(Repr))
      ensures granted == GrantsFrom(failureThreshold, recovery, HistoryOf(old(calls), endpoint), now)
      ensures calls == Extended(old(calls), endpoint, Ask(now))
    {
      Ensure(endpoint);
      granted := Query(endpoint, now);
    }

    method Query(endpoint: Id, now: Instant) returns (granted: bool)
      requires Valid() && endpoint in breakers && NotBefore(calls[endpoint], now)
      modifies Repr
      ensures Valid() && Repr == old(Repr)
      ensures granted == GrantsFrom(failureThreshold, recovery, old(calls)[endpoint], now)
      ensures calls == Extended(old(calls), endpoint, Ask(now))
    {
      var breaker := breakers[endpoint];
      granted := breaker.CanAttempt(now);
      calls := calls[endpoint := breaker.calls];
    }

    /** Tell the breaker of the endpoint how the attempt went, if there is one. */
    method Record(endpoint: Id, response: Response, now: Instant)
      requires Valid() && NotBefore(HistoryOf(calls, endpoint), now)
      modifies Repr
      ensures Valid() && Repr == old(Repr)
      ensures calls == if endpoint in old(calls) then Extended(old(calls), endpoint, Verdict(response, now))
                       else old(calls)
      ensures endpoint in old(calls) ==>
        FailureRun(HistoryOf(calls, endpoint)) ==
        if response.Http? && 200 <= response.code <= 299 then 0 else FailureRun(HistoryOf(old(calls), endpoint)) + 1
    {
      if endpoint in breakers {
        if response.IsSuccess() {
          TellSuccess(endpoint, now);
        } else {
          TellFailure(endpoint, now);
        }
      }
    }

    method TellSuccess(endpoint: Id, now: Instant)
      requires Valid() && endpoint in breakers && NotBefore(calls[endpoint], now)
      modifies Repr
      ensures Valid() && Repr == old(Repr)
      ensures calls == Extended(old(calls), endpoint, Success(now))
    {
      var breaker := breakers[endpoint];
      breaker.RecordSuccess(now);
      calls := calls[endpoint := breaker.calls];
    }

    method TellFailure(endpoint: Id, now: Instant)
      requires Valid() && endpoint in breakers && NotBefore(calls[endpoint], now)
      modifies Repr
      ensures Valid() && Repr == old(Repr)
      ensures calls == Extended(old(calls), endpoint, Failure(now))
    {
      var breaker := breakers[endpoint];
      breaker.RecordFailure(now);
      calls := calls[endpoint := breaker.calls];
    }
  }

  // -------------------------------------------------------------------- the worker

  /** Put a claimed event back. */
  method RequeueEvent(store: Store, event: Id)
    modifies store
    ensures store.Contents() == SetStatus(old(store.Contents()), event, Received)
  {
    store.UpdateStatus(event, Received);
  }

  /** Record the attempt and settle the event, one committed statement at a time. */
  method SettleEvent(store: Store, config: Config, event: Id, endpoint: Id, number: nat, input: Input)
    returns (done: bool)
    modifies store
    ensures (store.Contents(), done) == Settle(config, old(store.Contents()), event, endpoint, number, input)
    ensures done ==>
      && input.attemptId in store.attempts && Tells(store.attempts[input.attemptId], input.response)
      && store.attempts[input.attemptId].number == number && store.attempts[input.attemptId].createdAt == input.wall
  {
    done := store.AddAttempt(input.attemptId, AttemptRow(event, number, input.response, input.wall));
    if !done {
      return;
    }
    if input.response.IsSuccess() {
      store.UpdateStatus(event, Delivered);
    } else if number >= config.maxAttempts {
      store.UpdateStatus(event, Failed);
      done := store.ReplaceDeadLetter(input.letterId, DeadLetterRow(event, endpoint, input.response, input.wall));
    } else {
      store.UpdateStatus(event, Received);
    }
  }

  ghost predicate Wired(store: Store, shared: SharedBreakers, config: Config)
    reads shared, shared.Repr
  {
    && shared.Valid() && store !in shared.Repr
    && shared.failureThreshold == config.failureThreshold && shared.recovery == config.recovery
  }

  /** Contact the downstream, tell the breaker, settle. */
  method DeliverEvent(store: Store, shared: SharedBreakers, config: Config, contact: Contact, input: Input)
    returns (outcome: Outcome)
    requires Wired(store, shared, config)
    requires contact.endpoint in shared.calls && NotBefore(shared.calls[contact.endpoint], input.recordedAt)
    modifies store, shared.Repr
    ensures Wired(store, shared, config) && shared.Repr == old(shared.Repr)
    ensures Pass(store.Contents(), shared.calls, outcome, Some(contact))
         == Deliver(config, old(store.Contents()), old(shared.calls), contact, input)
  {
    shared.Record(contact.endpoint, contact.response, input.recordedAt);
    var done := SettleEvent(store, config, contact.event, contact.endpoint, contact.number, input);
    if done {
      outcome := Settled;
    } else {
      RequeueEvent(store, contact.event);
      outcome := Errored;
    }
  }

  /** Three reads: the event, its endpoint's URL, and the number of its attempts. */
  method FetchEvent(store: Store, event: Id) returns (fetched: Option<Fetched>)
    ensures fetched == Fetch(store.Contents(), event)
  {
    if event !in store.events || store.events[event].endpointId !in store.endpoints {
      return None;
    }
    var row := store.events[event];
    var url := store.endpoints[row.endpointId].targetUrl;
    var tried := set a | a in store.attempts && store.attempts[a].eventId == event;
    assert tried == AttemptsOf(store.Contents(), event);
    fetched := Some(Fetched(row.endpointId, url, row.body, |tried|));
  }

  method AdmitEvent(store: Store, shared: SharedBreakers, config: Config, event: Id, row: Fetched, input: Input)
    returns (outcome: Outcome, contact: Option<Contact>)
    requires Wired(store, shared, config)
    requires NotBefore(HistoryOf(shared.calls, row.endpoint), input.askedAt) && input.askedAt <= input.recordedAt
    modifies store, shared.Repr
    ensures Wired(store, shared, config) && fresh(shared.Repr - old(shared.Repr))
    ensures Pass(store.Contents(), shared.calls, outcome, contact)
         == Admit(config, old(store.Contents()), old(shared.calls), event, row, input)
  {
    var granted := shared.MayAttempt(row.endpoint, input.askedAt);
    if !granted {
      RequeueEvent(store, event);
      return Deferred, None;
    }
    var request := Request(event, row, input);
    outcome := DeliverEvent(store, shared, config, request, input);
    contact := Some(request);
  }

  /** Dispatch a claimed event; an error leads straight to the requeue. */
  method DispatchSingleEvent(store: Store, shared: SharedBreakers, config: Config, event: Id, input: Input)
    returns (outcome: Outcome, contact: Option<Contact>)
    requires Wired(store, shared, config)
    requires Past(shared.calls, input.askedAt) && input.askedAt <= input.recordedAt
    modifies store, shared.Repr
    ensures Wired(store, shared, config) && fresh(shared.Repr - old(shared.Repr))
    ensures Pass(store.Contents(), shared.calls, outcome, contact)
         == Dispatch(config, old(store.Contents()), old(shared.calls), event, input)
  {
    var fetched := FetchEvent(store, event);
    if fetched.None? {
      RequeueEvent(store, event);
      return Errored, None;
    }
    outcome, contact := AdmitEvent(store, shared, config, event, fetched.value, input);
  }

  /** Claim and dispatch at most one event. */
  method RunDispatchOnce(store: Store, shared: SharedBreakers, config: Config, input: Input)
    returns (outcome: Outcome, contact: Option<Contact>)
    requires Wired(store, shared, config)
    requires Past(shared.calls, input.askedAt) && input.askedAt <= input.recordedAt
    modifies store, shared.Repr
    ensures Wired(store, shared, config) && fresh(shared.Repr - old(shared.Repr))
    ensures Pass(store.Contents(), shared.calls, outcome, contact)
         == RunOnce(config, old(store.Contents()), old(shared.calls), input)
  {
    var claimed := store.ClaimNextEvent();
    if claimed.None? {
      return Idle, None;
    }
    outcome, contact := DispatchSingleEvent(store, shared, config, claimed.value.0, input);
  }
}
