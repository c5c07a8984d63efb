/** How long the dispatch loop sleeps, whatever the handlers do between its passes. */
module Sleeps {
  import opened Foundation
  import opened Backoff
  import opened Dispatching
  import opened DeliveryMachine
  import opened Drain

  /** What happens from one pass of the loop to the end of the next: calls of the
      handlers, then a turn. */
  datatype Round = Round(handlers: seq<Step>, turn: Turn)

  /** The loop when the round's pass begins. */
  ghost function Met(config: Config, loop: Loop, round: Round): Loop {
    Loop(Run(config, loop.world, round.handlers), loop.previousSleep)
  }

  ghost predicate Rounded(config: Config, poll: Duration, before: Loop, round: Round, after: Loop) {
    && (forall step :: step in round.handlers ==> !step.DispatchOnce?)
    && IsRun(config, before.world, round.handlers)
    && Turned(config, poll, Met(config, before, round), round.turn, after)
  }

  /** A run of the loop from its start. */
  ghost predicate IsLoopRun(config: Config, poll: Duration, trace: seq<Loop>, rounds: seq<Round>) {
    && |trace| == |rounds| + 1 && trace[0].previousSleep == config.backoffBase
    && forall i {:trigger rounds[i]} :: 0 <= i < |rounds| ==> Rounded(config, poll, trace[i], rounds[i], trace[i + 1])
  }

  ghost function OutcomeOf(config: Config, loop: Loop, round: Round): Outcome {
    PassOf(config, Met(config, loop, round), round.turn).outcome
  }

  // What the sleeps are follows from the outcomes of the passes.

  predicate Follows(outcome: Outcome, base: Duration, before: Duration, after: Duration) {
    && (outcome.Settled? ==> after == base)
    && (outcome.Idle? ==> after == before)
  }

  predicate BacksOff(outcome: Outcome) {
    outcome.Deferred? || outcome.Errored?
  }

  /** The backoff sleeps since the last pass that settled, or since the start; idle
      passes come in between and do not count. The i-th entry of `sleeps` is the last
      sleep before the i-th pass. */
  function BackoffsSince(outcomes: seq<Outcome>, sleeps: seq<Duration>): seq<Duration>
    requires |sleeps| == |outcomes| + 1
  {
    if outcomes == [] then []
    else
      var n := |outcomes| - 1;
      var before := BackoffsSince(outcomes[..n], sleeps[..n + 1]);
      match outcomes[n]
      case Settled => []
      case Idle => before
      case _ => before + [sleeps[n + 1]]
  }

  ghost predicate KeepsRules(base: Duration, cap: Duration, outcomes: seq<Outcome>, sleeps: seq<Duration>) {
    && |sleeps| == |outcomes| + 1 && sleeps[0] == base
    && (forall i :: 0 <= i < |outcomes| ==> Follows(outcomes[i], base, sleeps[i], sleeps[i + 1]))
    && (forall i :: 0 <= i < |outcomes| && BacksOff(outcomes[i]) ==> IsDelay(base, cap, sleeps[i], sleeps[i + 1]))
  }

  lemma {:induction false} BackoffsAreAChain(base: Duration, cap: Duration, outcomes: seq<Outcome>,
                                             sleeps: seq<Duration>)
    requires KeepsRules(base, cap, outcomes, sleeps)
    ensures var backoffs := BackoffsSince(outcomes, sleeps);
      && Chain(base, cap, backoffs)
      && sleeps[|outcomes|] == if backoffs == [] then base else backoffs[|backoffs| - 1]
  {
    if outcomes != [] {
      var n := |outcomes| - 1;
      var before := BackoffsSince(outcomes[..n], sleeps[..n + 1]);
      BackoffsAreAChain(base, cap, outcomes[..n], sleeps[..n + 1]);
      assert Follows(outcomes[n], base, sleeps[n], sleeps[n + 1]);
      if BacksOff(outcomes[n]) {
        ChainGrows(base, cap, before, sleeps[n + 1]);
      }
    }
  }

  ghost function OutcomesOf(config: Config, trace: seq<Loop>, rounds: seq<Round>): (outcomes: seq<Outcome>)
    requires |trace| == |rounds| + 1
    ensures |outcomes| == |rounds|
    ensures forall i :: 0 <= i < |rounds| ==> outcomes[i] == OutcomeOf(config, trace[i], rounds[i])
  {
    seq(|rounds|, i requires 0 <= i < |rounds| => OutcomeOf(config, trace[i], rounds[i]))
  }

  function SleepsOf(trace: seq<Loop>): (sleeps: seq<Duration>)
    ensures |sleeps| == |trace| && forall i :: 0 <= i < |trace| ==> sleeps[i] == trace[i].previousSleep
  {
    seq<Duration>(|trace|, i requires 0 <= i < |trace| => trace[i].previousSleep)
  }

  lemma RoundKeepsRules(config: Config, poll: Duration, before: Loop, round: Round, after: Loop)
    requires Rounded(config, poll, before, round, after)
    ensures var outcome := OutcomeOf(config, before, round);
      && Follows(outcome, config.backoffBase, before.previousSleep, after.previousSleep)
      && (BacksOff(outcome) ==>
            IsDelay(config.backoffBase, config.backoffCap, before.previousSleep, after.previousSleep))
  {
    var draw := round.turn.draw;
    assert InRange(config.backoffBase, before.previousSleep, draw);
    assert IsDelay(config.backoffBase, config.backoffCap, before.previousSleep, Min(draw, config.backoffCap));
  }

  lemma LoopKeepsRules(config: Config, poll: Duration, trace: seq<Loop>, rounds: seq<Round>)
    requires IsLoopRun(config, poll, trace, rounds)
    ensures KeepsRules(config.backoffBase, config.backoffCap, OutcomesOf(config, trace, rounds), SleepsOf(trace))
  {
    forall i | 0 <= i < |rounds|
      ensures Follows(OutcomeOf(config, trace[i], rounds[i]), config.backoffBase,
                      trace[i].previousSleep, trace[i + 1].previousSleep)
      ensures BacksOff(OutcomeOf(config, trace[i], rounds[i])) ==>
        IsDelay(config.backoffBase, config.backoffCap, trace[i].previousSleep, trace[i + 1].previousSleep)
    {
      assert Rounded(config, poll, trace[i], rounds[i], trace[i + 1]);
      RoundKeepsRules(config, poll, trace[i], rounds[i], trace[i + 1]);
    }
  }

  /** In every run of the loop, with any calls of the handlers between its passes: the
      n-th backoff since a pass settled, or since the start, sleeps for at least
      min(base, cap) and at most min(cap, 3^n * base), and the n together for at most
      n * cap and base * (3^(n+1) - 3) / 2. */
  lemma SleepsStayBounded(config: Config, poll: Duration, trace: seq<Loop>, rounds: seq<Round>)
    requires IsLoopRun(config, poll, trace, rounds)
    ensures Bounded(config.backoffBase, config.backoffCap,
                    BackoffsSince(OutcomesOf(config, trace, rounds), SleepsOf(trace)))
  {
    LoopKeepsRules(config, poll, trace, rounds);
    BackoffsAreAChain(config.backoffBase, config.backoffCap, OutcomesOf(config, trace, rounds), SleepsOf(trace));
    ChainsAreBounded(config.backoffBase, config.backoffCap,
                     BackoffsSince(OutcomesOf(config, trace, rounds), SleepsOf(trace)));
  }

  // ------------------------------------------------------------------------- pacing

  lemma {:induction false} HandlersTakeNoTime(config: Config, w: World, handlers: seq<Step>)
    requires IsRun(config, w, handlers) && forall step :: step in handlers ==> !step.DispatchOnce?
    ensures Run(config, w, handlers).clock == w.clock
  {
    if handlers != [] {
      HandlersTakeNoTime(config, w, handlers[..|handlers| - 1]);
      assert handlers[|handlers| - 1] in handlers;
    }
  }

  lemma RoundTakesTime(config: Config, poll: Duration, before: Loop, round: Round, after: Loop)
    requires Rounded(config, poll, before, round, after)
    ensures before.world.clock <= round.turn.input.askedAt <= round.turn.input.recordedAt
    ensures var outcome := OutcomeOf(config, before, round);
      after.world.clock == round.turn.input.recordedAt +
        (if outcome.Settled? then 0 else if outcome.Idle? then poll else after.previousSleep)
  {
    HandlersTakeNoTime(config, before.world, round.handlers);
  }

  /** In every run of the loop: after an idle pass the next one comes no sooner than the
      poll interval later, and after a deferred or failed one no sooner than the sleep
      drawn for it, which is at least min(base, cap) and at most max(3 * previous, base). */
  lemma PassesArePaced(config: Config, poll: Duration, trace: seq<Loop>, rounds: seq<Round>, i: nat)
    requires IsLoopRun(config, poll, trace, rounds) && i + 1 < |rounds|
    ensures var (outcome, gap) := (OutcomeOf(config, trace[i], rounds[i]),
                                   rounds[i + 1].turn.input.askedAt - rounds[i].turn.input.recordedAt);
      && gap >= 0 && (outcome.Idle? ==> gap >= poll)
      && (BacksOff(outcome) ==>
            && gap >= trace[i + 1].previousSleep >= Min(config.backoffBase, config.backoffCap)
            && trace[i + 1].previousSleep <= Max(3 * trace[i].previousSleep, config.backoffBase))
  {
    assert Rounded(config, poll, trace[i], rounds[i], trace[i + 1]);
    assert Rounded(config, poll, trace[i + 1], rounds[i + 1], trace[i + 2]);
    RoundTakesTime(config, poll, trace[i], rounds[i], trace[i + 1]);
    RoundTakesTime(config, poll, trace[i + 1], rounds[i + 1], trace[i + 2]);
    RoundKeepsRules(config, poll, trace[i], rounds[i], trace[i + 1]);
    if BacksOff(OutcomeOf(config, trace[i], rounds[i])) {
      DelayIsBounded(config.backoffBase, config.backoffCap, trace[i].previousSleep, trace[i + 1].previousSleep);
    }
  }
}
