/** What the breakers are told and what the tables keep of the downstream's answers. */
module Answers {
  import opened Foundation
  import opened Tables
  import opened Operations
  import opened CircuitBreakers
  import opened Dispatching
  import opened DeliveryMachine
  import opened RunRecords

  /** A 2xx answer. */
  predicate IsOk(response: Response) {
    response.Http? && 200 <= response.code <= 299
  }

  // ------------------------------------------------------------------- one contact

  lemma DeliveryTells(config: Config, db: Database, asked: Histories, contact: Contact, input: Input, n: Id)
    ensures HistoryOf(Deliver(config, db, asked, contact, input).calls, n) ==
      if n != contact.endpoint then HistoryOf(asked, n)
      else HistoryOf(asked, n) +
           [if IsOk(contact.response) then Success(input.recordedAt) else Failure(input.recordedAt)]
  {
  }

  lemma ResultIsLast(calls: seq<Call>, at: Instant)
    ensures FailureRun(calls + [Success(at)]) == 0
    ensures FailureRun(calls + [Failure(at)]) == FailureRun(calls) + 1
    ensures LastFailure(calls + [Failure(at)]) == Some(at)
  {
    assert (calls + [Failure(at)])[..|calls|] == calls;
  }

  /** After a 2xx answer the endpoint's breaker is seen Closed, at any moment; any other
      answer is one more failure, at this moment. No other breaker hears of it. */
  lemma BreakerHearsTheAnswer(config: Config, db: Database, asked: Histories, contact: Contact, input: Input,
                              now: Instant)
    ensures var before, after := HistoryOf(asked, contact.endpoint),
                                 HistoryOf(Deliver(config, db, asked, contact, input).calls, contact.endpoint);
      if IsOk(contact.response)
      then StateFrom(config.failureThreshold, config.recovery, after, now).Closed? && FailureRun(after) == 0
      else FailureRun(after) == FailureRun(before) + 1 && LastFailure(after) == Some(input.recordedAt)
    ensures forall n :: n != contact.endpoint ==>
      HistoryOf(Deliver(config, db, asked, contact, input).calls, n) == HistoryOf(asked, n)
  {
    DeliveryTells(config, db, asked, contact, input, contact.endpoint);
    ResultIsLast(HistoryOf(asked, contact.endpoint), input.recordedAt);
    forall n | n != contact.endpoint
      ensures HistoryOf(Deliver(config, db, asked, contact, input).calls, n) == HistoryOf(asked, n)
    {
      DeliveryTells(config, db, asked, contact, input, n);
    }
  }

  /** The row of a settled attempt tells the answer, and the event's status follows
      from it: delivered by a 2xx; else parked when the attempts are used up. */
  lemma SettledByTheAnswer(config: Config, db: Database, event: Id, endpoint: Id, number: nat, input: Input)
    requires event in db.events && input.attemptId !in db.attempts
    ensures var (after, done) := Settle(config, db, event, endpoint, number, input);
      && done && input.attemptId in after.attempts
      && (var row := after.attempts[input.attemptId];
          Tells(row, input.response) && row.eventId == event && row.number == number && row.createdAt == input.wall)
      && HasStatus(after, event, if IsOk(input.response) then Delivered
                                 else if number < config.maxAttempts then Received else Failed)
  {
  }

  lemma DeliveriesLetGo(config: Config, db: Database, asked: Histories, contact: Contact, input: Input)
    requires contact.event in db.events
    ensures var pass := Deliver(config, db, asked, contact, input);
      && !HasStatus(pass.db, contact.event, Processing) && pass.contact == Some(contact)
      && (pass.outcome.Settled? || pass.outcome.Errored?)
      && (pass.outcome.Errored? ==> HasStatus(pass.db, contact.event, Received))
      && (pass.outcome.Settled? <==> input.attemptId !in db.attempts)
  {
  }

  /** No pass, from whatever tables, leaves its event claimed: settled, it has its final
      status or waits again; deferred or after an error, it waits again. */
  lemma PassesLetGo(config: Config, db: Database, calls: Histories, input: Input)
    requires NextEvent(db).Some?
    ensures var pass, event := RunOnce(config, db, calls, input), NextEvent(db).value;
      && !HasStatus(pass.db, event, Processing) && !pass.outcome.Idle?
      && (pass.outcome.Deferred? || pass.outcome.Errored? ==> HasStatus(pass.db, event, Received))
      && (pass.outcome.Settled? <==> pass.contact.Some? && input.attemptId !in db.attempts)
      && (pass.contact.None? ==> pass.db.attempts == db.attempts && pass.db.deadLetters == db.deadLetters)
  {
    var event := NextEvent(db).value;
    var claimed := SetStatus(db, event, Processing);
    var row := Fetch(claimed, event);
    if row.Some? {
      var asked := Extended(calls, row.value.endpoint, Ask(input.askedAt));
      DeliveriesLetGo(config, claimed, asked, Request(event, row.value, input), input);
    }
  }

  /** A pass asks the breaker of its event's endpoint, once, at the moment it asks, makes
      its contact exactly when that breaker grants, and then tells it the answer. The
      breakers of other endpoints are not touched. Without the endpoint's row none is. */
  lemma PassesAskTheBreaker(config: Config, db: Database, calls: Histories, input: Input, n: Id)
    requires NextEvent(db).Some?
    requires forall e :: Timed(HistoryOf(calls, e)) && NotBefore(HistoryOf(calls, e), input.askedAt)
    ensures var pass, endpoint := RunOnce(config, db, calls, input), db.events[NextEvent(db).value].endpointId;
      if endpoint !in db.endpoints then pass.outcome.Errored? && pass.contact.None? && pass.calls == calls
      else
        && (pass.contact.Some? <==>
              Grants(After(config.failureThreshold, config.recovery, HistoryOf(calls, endpoint)), input.askedAt))
        && (pass.contact.None? <==> pass.outcome.Deferred?)
        && HistoryOf(pass.calls, n) ==
             if n != endpoint then HistoryOf(calls, n)
             else HistoryOf(calls, n) + [Ask(input.askedAt)] +
                  if pass.contact.None? then []
                  else [if IsOk(input.response) then Success(input.recordedAt) else Failure(input.recordedAt)]
  {
    var endpoint := db.events[NextEvent(db).value].endpointId;
    HistoryDecides(config.failureThreshold, config.recovery, HistoryOf(calls, endpoint), input.askedAt);
  }

  // ----------------------------------------------------- the record behind the rows

  /** The row is about this contact and tells its answer. */
  predicate IsRowOf(attempt: Attempt, contact: Contact) {
    && attempt.eventId == contact.event && attempt.number == contact.number && attempt.createdAt == contact.wall
    && Tells(attempt, contact.response)
  }

  ghost predicate IsBehind(log: seq<Entry>, a: Id, attempt: Attempt, contact: Contact) {
    Sent(contact) in log && contact.id == a && IsRowOf(attempt, contact)
  }

  ghost predicate HasContact(log: seq<Entry>, a: Id, attempt: Attempt) {
    exists contact :: IsBehind(log, a, attempt, contact)
  }

  /** Every attempt on file has its contact in the record, and no two contacts share
      an identifier. */
  ghost predicate RowsHaveContacts(w: World) {
    && (forall a :: a in w.db.attempts ==> HasContact(w.log, a, w.db.attempts[a]))
    && (forall x :: x in w.log && x.Sent? ==> x.contact.id in w.minted)
    && (forall x, y :: x in w.log && y in w.log && x.Sent? && y.Sent? && x.contact.id == y.contact.id ==> x == y)
  }

  lemma HasContactLater(log: seq<Entry>, more: seq<Entry>, a: Id, attempt: Attempt)
    requires HasContact(log, a, attempt)
    ensures HasContact(log + more, a, attempt)
  {
    var contact :| IsBehind(log, a, attempt, contact);
    assert IsBehind(log + more, a, attempt, contact);
  }

  /** A step without a contact adds no attempt. */
  lemma QuietStepKeepsContacts(w: World, after: World, more: seq<Entry>)
    requires RowsHaveContacts(w) && w.minted <= after.minted && after.log == w.log + more
    requires forall x :: x in more ==> !x.Sent?
    requires forall a :: a in after.db.attempts ==> a in w.db.attempts && after.db.attempts[a] == w.db.attempts[a]
    ensures RowsHaveContacts(after)
  {
    forall a | a in after.db.attempts
      ensures HasContact(after.log, a, after.db.attempts[a])
    {
      HasContactLater(w.log, more, a, w.db.attempts[a]);
    }
  }

  lemma ContactStepKeepsContacts(w: World, after: World, contact: Contact)
    requires RowsHaveContacts(w) && w.minted <= after.minted && contact.id !in w.minted && contact.id in after.minted
    requires after.log == w.log + PassEntries(after.db, Some(contact))
    requires forall a :: a in after.db.attempts ==>
      if a == contact.id then IsRowOf(after.db.attempts[a], contact)
      else a in w.db.attempts && after.db.attempts[a] == w.db.attempts[a]
    ensures RowsHaveContacts(after)
  {
    var more := PassEntries(after.db, Some(contact));
    assert Sent(contact) in more && forall x :: x in more && x.Sent? ==> x == Sent(contact);
    forall a | a in after.db.attempts
      ensures HasContact(after.log, a, after.db.attempts[a])
    {
      if a == contact.id {
        assert IsBehind(after.log, a, after.db.attempts[a], contact);
      } else {
        HasContactLater(w.log, more, a, w.db.attempts[a]);
      }
    }
  }

  lemma ContactedRows(config: Config, db: Database, event: Id, input: Input, contact: Contact)
    requires event in db.events && Fetch(db, event).Some?
    requires contact == Request(event, Fetch(db, event).value, input)
    ensures var after := Contacted(config, db, event, input);
      forall a :: a in after.attempts ==>
        if a == contact.id then IsRowOf(after.attempts[a], contact)
        else a in db.attempts && after.attempts[a] == db.attempts[a]
  {
  }

  lemma PassKeepsContacts(config: Config, w: World, input: Input)
    requires Inv(config, w) && Enabled(w, DispatchOnce(input)) && RowsHaveContacts(w)
    ensures RowsHaveContacts(Next(config, w, DispatchOnce(input)))
  {
    var after := Next(config, w, DispatchOnce(input));
    var contact := RunOnce(config, w.db, w.calls, input).contact;
    PassCases(config, w, input);
    if contact.Some? {
      ContactedRows(config, w.db, contact.value.event, input, contact.value);
      ContactStepKeepsContacts(w, after, contact.value);
    } else {
      QuietStepKeepsContacts(w, after, []);
    }
  }

  /** In every run each attempt on file is the row of exactly one contact of the run: it
      tells that contact's answer, and was made at its time under its number. */
  lemma {:induction false} AttemptsTellTheAnswers(config: Config, steps: seq<Step>)
    requires IsRun(config, START, steps)
    ensures RowsHaveContacts(Run(config, START, steps))
  {
    if steps != [] {
      var before, step := steps[..|steps| - 1], steps[|steps| - 1];
      var w, after := Run(config, START, before), Run(config, START, steps);
      AttemptsTellTheAnswers(config, before);
      ReachableStatesAreSound(config, before);
      match step
      case DispatchOnce(input) => PassKeepsContacts(config, w, input);
      case CreateEndpoint(id, row) =>
        QuietStepKeepsContacts(w, after, if InsertEndpoint(w.db, id, row).Some? then [Registered(id, row)] else []);
      case AcceptEvent(id, row) =>
        AcceptMeans(w.db, id, row);
        QuietStepKeepsContacts(w, after, after.log[|w.log|..]);
      case ReplayDeadLetter(letter) =>
        ReplayMeans(w.db, letter);
        QuietStepKeepsContacts(w, after, after.log[|w.log|..]);
      case RemoveEndpoint(id) =>
        RetireMeans(w.db, id);
        QuietStepKeepsContacts(w, after, after.log[|w.log|..]);
    }
  }

  // ---------------------------------------------------------- what the breakers hear

  datatype Answer = Answer(response: Response, at: Instant)

  /** The answers to the contacts of one endpoint, in the order of the record. */
  function AnswersOf(log: seq<Entry>, endpoint: Id): seq<Answer> {
    if log == [] then []
    else
      var before, last := AnswersOf(log[..|log| - 1], endpoint), log[|log| - 1];
      if last.Sent? && last.contact.endpoint == endpoint
      then before + [Answer(last.contact.response, last.contact.at)] else before
  }

  /** The results among the calls on a breaker. */
  function ResultsIn(calls: seq<Call>): seq<Call> {
    if calls == [] then []
    else
      var before, last := ResultsIn(calls[..|calls| - 1]), calls[|calls| - 1];
      if last.IsRecord() then before + [last] else before
  }

  /** The call reports the answer: a success for a 2xx, a failure for any other. */
  predicate Reports(call: Call, answer: Answer) {
    call == if IsOk(answer.response) then Success(answer.at) else Failure(answer.at)
  }

  ghost predicate ReportsAll(results: seq<Call>, answers: seq<Answer>) {
    |results| == |answers| && forall i :: 0 <= i < |results| ==> Reports(results[i], answers[i])
  }

  lemma AnswersOneMore(log: seq<Entry>, entry: Entry, endpoint: Id)
    ensures AnswersOf(log + [entry], endpoint) ==
      AnswersOf(log, endpoint) +
      (if entry.Sent? && entry.contact.endpoint == endpoint
       then [Answer(entry.contact.response, entry.contact.at)] else [])
  {
    assert (log + [entry])[..|log|] == log;
  }

  lemma ResultsOneMore(calls: seq<Call>, call: Call)
    ensures ResultsIn(calls + [call]) == ResultsIn(calls) + (if call.IsRecord() then [call] else [])
  {
    assert (calls + [call])[..|calls|] == calls;
  }

  lemma AnswersAfterPass(log: seq<Entry>, db: Database, contact: Contact, endpoint: Id)
    ensures AnswersOf(log + PassEntries(db, Some(contact)), endpoint) ==
      AnswersOf(log, endpoint) +
      (if contact.endpoint == endpoint then [Answer(contact.response, contact.at)] else [])
  {
    var entries := PassEntries(db, Some(contact));
    AnswersOneMore(log, entries[0], endpoint);
    if |entries| == 1 {
      assert log + entries == log + [entries[0]];
    } else {
      AnswersOneMore(log + [entries[0]], entries[1], endpoint);
      assert log + entries == log + [entries[0]] + [entries[1]];
    }
  }

  lemma ReportsOneMore(results: seq<Call>, answers: seq<Answer>, call: Call, answer: Answer)
    requires ReportsAll(results, answers) && Reports(call, answer)
    ensures ReportsAll(results + [call], answers + [answer])
  {
  }

  lemma PassTells(config: Config, w: World, input: Input, endpoint: Id)
    requires Inv(config, w) && Enabled(w, DispatchOnce(input))
    ensures var pass := RunOnce(config, w.db, w.calls, input);
      ResultsIn(HistoryOf(pass.calls, endpoint)) ==
      ResultsIn(HistoryOf(w.calls, endpoint)) +
      (if pass.contact.Some? && pass.contact.value.endpoint == endpoint
       then [Verdict(input.response, input.recordedAt)] else [])
    ensures var contact := RunOnce(config, w.db, w.calls, input).contact;
      contact.Some? ==> contact.value.response == input.response && contact.value.at == input.recordedAt
  {
    var heard := HistoryOf(w.calls, endpoint);
    PassCases(config, w, input);
    ResultsOneMore(heard, Ask(input.askedAt));
    ResultsOneMore(heard + [Ask(input.askedAt)], Verdict(input.response, input.recordedAt));
  }

  lemma PassReports(config: Config, w: World, input: Input, endpoint: Id)
    requires Inv(config, w) && Enabled(w, DispatchOnce(input))
    requires ReportsAll(ResultsIn(HistoryOf(w.calls, endpoint)), AnswersOf(w.log, endpoint))
    ensures var after := Next(config, w, DispatchOnce(input));
      ReportsAll(ResultsIn(HistoryOf(after.calls, endpoint)), AnswersOf(after.log, endpoint))
  {
    var pass, heard := RunOnce(config, w.db, w.calls, input), HistoryOf(w.calls, endpoint);
    PassTells(config, w, input, endpoint);
    if pass.contact.Some? {
      AnswersAfterPass(w.log, pass.db, pass.contact.value, endpoint);
      ReportsOneMore(ResultsIn(heard), AnswersOf(w.log, endpoint),
                     Verdict(input.response, input.recordedAt), Answer(input.response, input.recordedAt));
    } else {
      assert w.log + [] == w.log;
    }
  }

  lemma {:induction false} QuietAnswers(log: seq<Entry>, more: seq<Entry>, endpoint: Id)
    requires forall x :: x in more ==> !x.Sent?
    ensures AnswersOf(log + more, endpoint) == AnswersOf(log, endpoint)
  {
    if more == [] {
      assert log + more == log;
    } else {
      var n := |more| - 1;
      QuietAnswers(log, more[..n], endpoint);
      AnswersOneMore(log + more[..n], more[n], endpoint);
      assert log + more == log + more[..n] + [more[n]];
    }
  }

  /** In every run, for every endpoint: the results its breaker was told are, one by one
      and in order, what its contacts were answered. */
  lemma {:induction false} BreakersHearTheAnswers(config: Config, steps: seq<Step>, endpoint: Id)
    requires IsRun(config, START, steps)
    ensures var w := Run(config, START, steps);
      ReportsAll(ResultsIn(HistoryOf(w.calls, endpoint)), AnswersOf(w.log, endpoint))
  {
    if steps != [] {
      var before, step := steps[..|steps| - 1], steps[|steps| - 1];
      var w, after := Run(config, START, before), Run(config, START, steps);
      BreakersHearTheAnswers(config, before, endpoint);
      ReachableStatesAreSound(config, before);
      if step.DispatchOnce? {
        PassReports(config, w, step.input, endpoint);
      } else {
        QuietAnswers(w.log, after.log[|w.log|..], endpoint);
        assert after.log == w.log + after.log[|w.log|..];
      }
    }
  }

  // -------------------------------------------------------------------- contact rate

  lemma {:induction false} SuccessIsAResult(calls: seq<Call>, i: nat)
    requires i < |calls| && calls[i].IsRecord()
    ensures calls[i] in ResultsIn(calls)
  {
    if i < |calls| - 1 {
      SuccessIsAResult(calls[..|calls| - 1], i);
    }
  }

  lemma {:induction false} AnswersAreSent(log: seq<Entry>, endpoint: Id, i: nat)
    requires i < |AnswersOf(log, endpoint)|
    ensures exists x :: x in log && x.Sent? && x.contact.endpoint == endpoint &&
                        x.contact.response == AnswersOf(log, endpoint)[i].response
  {
    var n := |log| - 1;
    if i < |AnswersOf(log[..n], endpoint)| {
      AnswersAreSent(log[..n], endpoint, i);
    } else {
      assert log[n] in log;
    }
  }

  /** In every run, an endpoint whose contacts were never answered with a 2xx has been
      contacted at the breaker's rate. */
  lemma FailingEndpointsKeepTheRate(config: Config, steps: seq<Step>, endpoint: Id, length: Duration)
    requires IsRun(config, START, steps) && config.recovery > 0
    requires forall contact :: Sent(contact) in Run(config, START, steps).log && contact.endpoint == endpoint ==>
      !IsOk(contact.response)
    ensures WithinRate(config, HistoryOf(Run(config, START, steps).calls, endpoint), length)
  {
    var w := Run(config, START, steps);
    var calls, answers := HistoryOf(w.calls, endpoint), AnswersOf(w.log, endpoint);
    BreakersHearTheAnswers(config, steps, endpoint);
    forall i | 0 <= i < |calls|
      ensures !calls[i].Success?
    {
      if calls[i].IsRecord() {
        SuccessIsAResult(calls, i);
        var k :| 0 <= k < |ResultsIn(calls)| && ResultsIn(calls)[k] == calls[i];
        AnswersAreSent(w.log, endpoint, k);
        var x :| x in w.log && x.Sent? && x.contact.endpoint == endpoint && x.contact.response == answers[k].response;
        assert Sent(x.contact) in w.log && Reports(ResultsIn(calls)[k], answers[k]);
      }
    }
    RunsKeepTheContactRate(config, steps, endpoint, length);
  }
}
