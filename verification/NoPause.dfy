/** Without a pause between deferred passes, and with a recovery time to wait for, no
    number of passes is enough: the loop can ask an open breaker forever. */
module NoPause {
  import opened Foundation
  import opened Tables
  import opened Operations
  import opened CircuitBreakers
  import opened Dispatching
  import opened DeliveryMachine
  import opened Exhaustion
  import opened Drain

  /** The only event waits, after k failures in a row, the last of them just now. */
  ghost predicate StillFailing(config: Config, w: World, k: nat, next: Id) {
    && IsOnly(w.db, 1, Received) && w.db.events[1].endpointId == 0
    && FailureRun(HistoryOf(w.calls, 0)) == k
    && (k > 0 ==> LastFailure(HistoryOf(w.calls, 0)) == Some(w.clock))
    && forall id :: id in w.minted ==> id < next
  }

  lemma AskedInVain(heard: seq<Call>, at: Instant)
    ensures FailureRun(heard + [Ask(at)]) == FailureRun(heard)
  {
    assert (heard + [Ask(at)])[..|heard|] == heard;
  }

  lemma FailedOnce(heard: seq<Call>, at: Instant)
    ensures FailureRun(heard + [Failure(at)]) == FailureRun(heard) + 1
    ensures LastFailure(heard + [Failure(at)]) == Some(at)
  {
    assert (heard + [Failure(at)])[..|heard|] == heard;
  }

  lemma VainCalls(calls: Histories, asked: Instant, response: Response, at: Instant)
    requires !response.IsSuccess()
    ensures var told := HistoryOf(Extended(Extended(calls, 0, Ask(asked)), 0, Verdict(response, at)), 0);
      FailureRun(told) == FailureRun(HistoryOf(calls, 0)) + 1 && LastFailure(told) == Some(at)
  {
    var heard := HistoryOf(calls, 0);
    AskedInVain(heard, asked);
    FailedOnce(heard + [Ask(asked)], at);
  }

  /** The only event waits, or has used up its budget. */
  predicate IsLeft(db: Database) {
    (IsOnly(db, 1, Received) || IsOnly(db, 1, Failed)) && db.events[1].endpointId == 0
  }

  lemma VainContact(config: Config, db: Database, input: Input)
    requires IsOnly(db, 1, Received) && db.events[1].endpointId == 0 && input.response == Http(500)
    ensures IsLeft(Contacted(config, db, 1, input))
  {
  }

  lemma OneMoreInVainCalls(config: Config, w: World, next: Id, input: Input)
    requires Inv(config, w) && IsOnly(w.db, 1, Received) && w.db.events[1].endpointId == 0
    requires input == Input(w.clock + config.recovery, w.clock + config.recovery, 0, Http(500), next, next + 1)
    requires Enabled(w, DispatchOnce(input))
    ensures var heard := HistoryOf(RunOnce(config, w.db, w.calls, input).calls, 0);
      FailureRun(heard) == FailureRun(HistoryOf(w.calls, 0)) + 1 && LastFailure(heard) == Some(input.recordedAt)
  {
    assert RunOnce(config, w.db, w.calls, input).calls ==
           Extended(Extended(w.calls, 0, Ask(input.askedAt)), 0, Verdict(input.response, input.recordedAt)) by {
      ContactsTheOnly(config, w, input);
    }
    VainCalls(w.calls, input.askedAt, input.response, input.recordedAt);
  }

  /** One contact in vain. */
  lemma OneMoreInVain(config: Config, w: World, k: nat, next: Id, input: Input)
    requires Inv(config, w) && StillFailing(config, w, k, next)
    requires input == Input(w.clock + config.recovery, w.clock + config.recovery, 0, Http(500), next, next + 1)
    ensures Enabled(w, DispatchOnce(input))
    ensures var t := Next(config, w, DispatchOnce(input));
      && IsLeft(t.db)
      && FailureRun(HistoryOf(t.calls, 0)) == k + 1 && LastFailure(HistoryOf(t.calls, 0)) == Some(t.clock)
      && forall id :: id in t.minted ==> id < next + 2
  {
    NewIdsAreNew(config, w, next, input);
    OneMoreInVainCalls(config, w, next, input);
    assert IsLeft(RunOnce(config, w.db, w.calls, input).db) by {
      ContactsTheOnly(config, w, input);
      VainContact(config, w.db, input);
    }
  }

  /** A parked event is put back by a replay. */
  lemma ReplayGoesOn(config: Config, w: World, k: nat, next: Id) returns (letter: Id)
    requires Inv(config, w) && IsOnly(w.db, 1, Failed) && w.db.events[1].endpointId == 0
    requires FailureRun(HistoryOf(w.calls, 0)) == k && LastFailure(HistoryOf(w.calls, 0)) == Some(w.clock)
    requires forall id :: id in w.minted ==> id < next
    ensures StillFailing(config, Next(config, w, ReplayDeadLetter(letter)), k, next)
  {
    assert HasStatus(w.db, 1, Failed);
    letter :| letter in w.db.deadLetters && w.db.deadLetters[letter].eventId == 1;
    ReplayedRows(w.db, letter);
  }

  lemma {:induction false} FailsOn(config: Config, k: nat) returns (steps: seq<Step>, next: Id)
    ensures IsRun(config, START, steps) && StillFailing(config, Run(config, START, steps), k, next)
  {
    if k == 0 {
      steps := AcceptsOne(config);
      next := 2;
    } else {
      steps, next := FailsOn(config, k - 1);
      ReachableStatesAreSound(config, steps);
      var w := Run(config, START, steps);
      var at := w.clock + config.recovery;
      var input := Input(at, at, 0, Http(500), next, next + 1);
      OneMoreInVain(config, w, k - 1, next, input);
      steps := OneMoreStep(config, steps, DispatchOnce(input));
      next := next + 2;
      w := Run(config, START, steps);
      if !StillFailing(config, w, k, next) {
        ReachableStatesAreSound(config, steps);
        var letter := ReplayGoesOn(config, w, k, next);
        steps := OneMoreStep(config, steps, ReplayDeadLetter(letter));
      }
    }
  }

  // ------------------------------------------------------------------- the idle loop

  /** The breaker is open, and will be at this moment. */
  ghost predicate Shut(config: Config, w: World, next: Id) {
    && IsOnly(w.db, 1, Received) && w.db.events[1].endpointId == 0
    && StateFrom(config.failureThreshold, config.recovery, HistoryOf(w.calls, 0), w.clock).Open?
    && forall id :: id in w.minted ==> id < next
  }

  function TurnAt(config: Config, w: World, next: Id): Turn {
    Turn(Input(w.clock, w.clock, 0, Http(500), next, next + 1), config.backoffBase)
  }

  lemma AskStaysOpen(config: Config, calls: seq<Call>, now: Instant)
    requires StateFrom(config.failureThreshold, config.recovery, calls, now).Open?
    ensures StateFrom(config.failureThreshold, config.recovery, calls + [Ask(now)], now).Open?
  {
    assert (calls + [Ask(now)])[..|calls|] == calls;
  }

  /** The pass is deferred, the sleep is over at once, and nothing has changed. */
  lemma NothingGained(config: Config, poll: Duration, loop: Loop, next: Id)
    requires Pause(config) == 0 && Inv(config, loop.world) && Shut(config, loop.world, next)
    requires config.backoffBase > 0 || loop.previousSleep == 0
    ensures var turn := TurnAt(config, loop.world, next);
            var after := LoopNext(config, poll, loop, turn);
      && Turned(config, poll, loop, turn, after) && PassOf(config, loop, turn).outcome.Deferred?
      && Inv(config, after.world) && Shut(config, after.world, next + 2)
      && (config.backoffBase > 0 || after.previousSleep == 0)
  {
    var w := loop.world;
    OnlyIsNext(w.db, 1);
    PassCases(config, w, TurnAt(config, w, next).input);
    TurnKeepsInv(config, poll, loop, TurnAt(config, w, next));
    AskStaysOpen(config, HistoryOf(w.calls, 0), w.clock);
  }

  /** The loop's state while it gains nothing. */
  ghost predicate GainsNothing(config: Config, loop: Loop, next: Id) {
    && Inv(config, loop.world) && Shut(config, loop.world, next)
    && (config.backoffBase > 0 || loop.previousSleep == 0)
  }

  lemma ExecutionGrows(config: Config, poll: Duration, trace: seq<Loop>, turns: seq<Turn>, turn: Turn, after: Loop)
    requires Execution(config, poll, trace, turns) && Turned(config, poll, trace[|turns|], turn, after)
    ensures Execution(config, poll, trace + [after], turns + [turn])
  {
    var more, more' := trace + [after], turns + [turn];
    forall i {:trigger more'[i]} | 0 <= i < |more'|
      ensures Turned(config, poll, more[i], more'[i], more[i + 1])
    {
      if i < |turns| {
        assert Turned(config, poll, trace[i], turns[i], trace[i + 1]);
      }
    }
  }

  lemma {:induction false} SamePrefix(config: Config, trace: seq<Loop>, turns: seq<Turn>,
                                      more: seq<Loop>, more': seq<Turn>, n: nat)
    requires n <= |turns| < |trace| && |turns| <= |more'| < |more|
    requires trace <= more && turns <= more' && Claiming(config, trace, turns, n)
    ensures Claiming(config, more, more', n)
  {
    if n > 0 {
      SamePrefix(config, trace, turns, more, more', n - 1);
      assert more[n - 1] == trace[n - 1] && more'[n - 1] == turns[n - 1];
    }
  }

  lemma ClaimingGrows(config: Config, trace: seq<Loop>, turns: seq<Turn>, turn: Turn, after: Loop)
    requires |trace| == |turns| + 1 && Claiming(config, trace, turns, |turns|)
    requires !PassOf(config, trace[|turns|], turn).outcome.Idle?
    ensures Claiming(config, trace + [after], turns + [turn], |turns| + 1)
  {
    var more, more' := trace + [after], turns + [turn];
    SamePrefix(config, trace, turns, more, more', |turns|);
    assert more[|turns|] == trace[|turns|] && more'[|turns|] == turn;
    assert !IdleAt(config, more, more', |turns|);
  }

  lemma {:induction false} Spins(config: Config, poll: Duration, loop: Loop, next: Id, n: nat)
    returns (trace: seq<Loop>, turns: seq<Turn>, later: Id)
    requires Pause(config) == 0 && GainsNothing(config, loop, next)
    ensures |turns| == n && Execution(config, poll, trace, turns) && trace[0] == loop
    ensures Claiming(config, trace, turns, n) && GainsNothing(config, trace[n], later)
  {
    if n == 0 {
      trace, turns, later := [loop], [], next;
    } else {
      trace, turns, later := Spins(config, poll, loop, next, n - 1);
      var last := trace[n - 1];
      NothingGained(config, poll, last, later);
      var turn := TurnAt(config, last.world, later);
      var after := LoopNext(config, poll, last, turn);
      ExecutionGrows(config, poll, trace, turns, turn, after);
      ClaimingGrows(config, trace, turns, turn, after);
      trace, turns, later := trace + [after], turns + [turn], later + 2;
    }
  }

  // --------------------------------------------------------------- the exact condition

  /** The loop can make n claiming passes in a row from here. */
  ghost predicate CanClaim(config: Config, poll: Duration, loop: Loop, n: nat) {
    exists trace, turns ::
      && Execution(config, poll, trace, turns) && trace[0] == loop
      && |turns| == n && Claiming(config, trace, turns, n)
  }

  ghost predicate AtMost(config: Config, poll: Duration, loop: Loop, bound: nat) {
    forall n: nat :: CanClaim(config, poll, loop, n) ==> n <= bound
  }

  ghost predicate IsBounded(config: Config, poll: Duration, loop: Loop) {
    exists bound: nat :: AtMost(config, poll, loop, bound)
  }

  /** The loop as it starts after these steps. */
  ghost function LoopAfter(config: Config, steps: seq<Step>): Loop {
    Loop(Run(config, START, steps), config.backoffBase)
  }

  /** A bound that Drain.DrainBound gives. */
  lemma PaceBounds(config: Config, poll: Duration, loop: Loop)
    requires Paces(config) && Inv(config, loop.world)
    ensures AtMost(config, poll, loop, DrainLimit(config, loop.world.db))
  {
    forall n: nat | CanClaim(config, poll, loop, n)
      ensures n <= DrainLimit(config, loop.world.db)
    {
      var trace, turns :|
        && Execution(config, poll, trace, turns) && trace[0] == loop
        && |turns| == n && Claiming(config, trace, turns, n);
      DrainBound(config, poll, trace, turns, n);
    }
  }

  /** When the least sleep is zero and the recovery time is not, one reachable state
      lets the loop make any number of claiming passes in a row. */
  lemma NoPauseNoBound(config: Config, poll: Duration) returns (steps: seq<Step>)
    requires !Paces(config)
    ensures IsRun(config, START, steps)
    ensures forall n: nat :: CanClaim(config, poll, LoopAfter(config, steps), n)
  {
    var next;
    steps, next := FailsOn(config, AtLeastOne(config.failureThreshold));
    ReachableStatesAreSound(config, steps);
    var loop := LoopAfter(config, steps);
    forall n: nat
      ensures CanClaim(config, poll, loop, n)
    {
      var trace, turns, _ := Spins(config, poll, loop, next, n);
      assert CanClaim(config, poll, loop, n);
    }
  }

  /** From every reachable state there is a bound on the claiming passes in a row
      exactly when deferrals let time pass or there is no recovery to wait for. */
  lemma BoundedIff(config: Config, poll: Duration)
    ensures Paces(config) <==>
            forall steps :: IsRun(config, START, steps) ==> IsBounded(config, poll, LoopAfter(config, steps))
  {
    if Paces(config) {
      forall steps | IsRun(config, START, steps)
        ensures IsBounded(config, poll, LoopAfter(config, steps))
      {
        ReachableStatesAreSound(config, steps);
        PaceBounds(config, poll, LoopAfter(config, steps));
      }
    } else {
      var steps := NoPauseNoBound(config, poll);
      forall bound: nat
        ensures !AtMost(config, poll, LoopAfter(config, steps), bound)
      {
        assert CanClaim(config, poll, LoopAfter(config, steps), bound + 1);
      }
    }
  }
}
