/** A run of the delivery machine, for every configuration, in which the only event
    is contacted in vain. */
module Exhaustion {
  import opened Foundation
  import opened Tables
  import opened CircuitBreakers
  import opened Dispatching
  import opened DeliveryMachine

  const SOME_ENDPOINT := Endpoint("", "", "", "", 0)
  const SOME_EVENT := Event(0, "", [], "", Received, 0)

  /** Only this event is in the tables, and it has this status. */
  predicate IsOnly(db: Database, e: Id, status: Status) {
    db.events.Keys == {e} && db.events[e].status == status
  }

  lemma OnlyIsNext(db: Database, e: Id)
    requires IsOnly(db, e, Received)
    ensures NextEvent(db) == Some(e)
  {
    assert e in Waiting(db);
    assert IsNext(db, NextEvent(db).value);
  }

  /** With every grant answered, a recovery time later the breaker grants. */
  lemma GrantsAfterRecovery(config: Config, calls: seq<Call>, clock: Instant, at: Instant)
    requires SoundHistory(config, calls, clock) && at >= clock + config.recovery
    ensures GrantsFrom(config.failureThreshold, config.recovery, calls, at)
  {
    NoProbeOut(config, calls);
    if LastFailure(calls).Some? {
      LastFailureIsPast(calls);
    }
  }

  /** After k contacts in vain. */
  ghost predicate FailedSoFar(config: Config, w: World, k: nat) {
    && IsOnly(w.db, 1, if k < Budget(config) then Received else Failed)
    && w.db.events[1].endpointId == 0
    && |AttemptsOf(w.db, 1)| == k
    && forall id :: id in w.minted ==> id < 2 * k + 2
  }

  lemma OneMoreStep(config: Config, steps: seq<Step>, step: Step) returns (more: seq<Step>)
    requires IsRun(config, START, steps) && Enabled(Run(config, START, steps), step)
    ensures more == steps + [step] && IsRun(config, START, more)
    ensures Run(config, START, more) == Next(config, Run(config, START, steps), step)
  {
    more := steps + [step];
    assert more[..|steps|] == steps;
  }

  lemma AcceptsOne(config: Config) returns (steps: seq<Step>)
    ensures IsRun(config, START, steps) && FailedSoFar(config, Run(config, START, steps), 0)
    ensures forall step :: step in steps ==> !step.ReplayDeadLetter?
    ensures Run(config, START, steps).calls == map[]
  {
    steps := OneMoreStep(config, [], CreateEndpoint(0, SOME_ENDPOINT));
    assert Matching(Run(config, START, steps).db, 0, "") == {};
    steps := OneMoreStep(config, steps, AcceptEvent(1, SOME_EVENT));
    assert AttemptsOf(Run(config, START, steps).db, 1) == {};
  }

  lemma OneMoreContactFails(config: Config, db: Database, k: nat, input: Input)
    requires IsOnly(db, 1, Received) && db.events[1].endpointId == 0 && |AttemptsOf(db, 1)| == k < Budget(config)
    requires input.response == Http(500) && input.attemptId !in db.attempts
    ensures var after := Contacted(config, db, 1, input);
      && IsOnly(after, 1, if k + 1 < Budget(config) then Received else Failed)
      && after.events[1].endpointId == 0 && |AttemptsOf(after, 1)| == k + 1
  {
    AttemptsAfterContact(config, db, 1, input);
  }

  /** A recovery time after the last call, a pass contacts the only waiting event. */
  lemma ContactsTheOnly(config: Config, w: World, input: Input)
    requires Inv(config, w) && Enabled(w, DispatchOnce(input)) && input.askedAt >= w.clock + config.recovery
    requires IsOnly(w.db, 1, Received) && w.db.events[1].endpointId == 0
    ensures var pass := RunOnce(config, w.db, w.calls, input);
      && pass.db == Contacted(config, w.db, 1, input)
      && pass.calls == Extended(Extended(w.calls, 0, Ask(input.askedAt)), 0,
                                Verdict(input.response, input.recordedAt))
  {
    OnlyIsNext(w.db, 1);
    PassCases(config, w, input);
    GrantsAfterRecovery(config, HistoryOf(w.calls, 0), w.clock, input.askedAt);
  }

  lemma NewIdsAreNew(config: Config, w: World, next: Id, input: Input)
    requires (forall id :: id in w.minted ==> id < next) && input.attemptId == next && input.letterId == next + 1
    requires w.clock <= input.askedAt <= input.recordedAt
    ensures Enabled(w, DispatchOnce(input))
    ensures forall id :: id in Next(config, w, DispatchOnce(input)).minted ==> id < next + 2
  {
  }

  lemma OneMoreFails(config: Config, w: World, k: nat, input: Input)
    requires Inv(config, w) && FailedSoFar(config, w, k) && k < Budget(config)
    requires input == Input(w.clock + config.recovery, w.clock + config.recovery, 0, Http(500), 2 * k + 2, 2 * k + 3)
    ensures Enabled(w, DispatchOnce(input))
    ensures FailedSoFar(config, Next(config, w, DispatchOnce(input)), k + 1)
  {
    NewIdsAreNew(config, w, 2 * k + 2, input);
    var pass := RunOnce(config, w.db, w.calls, input);
    assert IsOnly(pass.db, 1, if k + 1 < Budget(config) then Received else Failed)
        && pass.db.events[1].endpointId == 0 && |AttemptsOf(pass.db, 1)| == k + 1 by {
      ContactsTheOnly(config, w, input);
      OneMoreContactFails(config, w.db, k, input);
    }
  }

  /** Some run makes k contacts in vain, for every k up to the budget. */
  lemma {:induction false} FailsInVain(config: Config, k: nat) returns (steps: seq<Step>)
    requires k <= Budget(config)
    ensures IsRun(config, START, steps) && FailedSoFar(config, Run(config, START, steps), k)
    ensures forall step :: step in steps ==> !step.ReplayDeadLetter?
  {
    if k == 0 {
      steps := AcceptsOne(config);
    } else {
      var before := FailsInVain(config, k - 1);
      var w := Run(config, START, before);
      ReachableStatesAreSound(config, before);
      var at := w.clock + config.recovery;
      var input := Input(at, at, 0, Http(500), 2 * k, 2 * k + 1);
      OneMoreFails(config, w, k - 1, input);
      steps := OneMoreStep(config, before, DispatchOnce(input));
    }
  }

  /** The only event ends up FAILED, with a dead letter. */
  lemma SomethingFails(config: Config) returns (steps: seq<Step>, letter: Id)
    ensures IsRun(config, START, steps)
    ensures forall id :: id in Run(config, START, steps).minted ==> id < 2 * Budget(config) + 2
    ensures forall step :: step in steps ==> !step.ReplayDeadLetter?
    ensures var db := Run(config, START, steps).db;
      && IsOnly(db, 1, Failed) && db.events[1].endpointId == 0 && |AttemptsOf(db, 1)| == Budget(config)
      && letter in db.deadLetters && db.deadLetters[letter].eventId == 1
  {
    steps := FailsInVain(config, Budget(config));
    ReachableStatesAreSound(config, steps);
    var db := Run(config, START, steps).db;
    assert HasStatus(db, 1, Failed);
    letter :| letter in db.deadLetters && db.deadLetters[letter].eventId == 1;
  }
}
