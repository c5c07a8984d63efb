/** The cycle of a breaker, told by its own transitions and the clock alone: how many
    failures open it, for how long, what it lets through then, and what ends that. */
module BreakerCycle {
  import opened Foundation
  import opened CircuitBreakers

  predicate AreFailures(calls: seq<Call>) {
    forall call :: call in calls ==> call.Failure?
  }

  lemma {:induction false} FailuresCount(before: seq<Call>, failures: seq<Call>)
    requires AreFailures(failures)
    ensures FailureRun(before + failures) == FailureRun(before) + |failures|
    ensures failures != [] ==> LastFailure(before + failures) == Some(failures[|failures| - 1].at)
  {
    if failures == [] {
      assert before + failures == before;
    } else {
      var n := |failures| - 1;
      assert failures[n] in failures;
      assert (before + failures)[..|before| + n] == before + failures[..n];
      FailuresCount(before, failures[..n]);
    }
  }

  /** As many failures in a row as the threshold asks for, and one at least, open the
      breaker: it lets nothing through until the recovery time has passed since the
      last of them, and something from that very moment on. */
  lemma FailuresOpen(threshold: nat, recovery: Duration, before: seq<Call>, failures: seq<Call>, now: Instant)
    requires AreFailures(failures) && failures != [] && |failures| >= threshold
    requires Timed(before + failures) && failures[|failures| - 1].at <= now
    ensures Grants(After(threshold, recovery, before + failures), now)
       <==> now >= failures[|failures| - 1].at + recovery
  {
    var calls := before + failures;
    FailuresCount(before, failures);
    assert calls[|calls| - 1] == failures[|failures| - 1] && calls[|calls| - 1] in failures;
    HistoryDecides(threshold, recovery, calls, now);
  }

  /** Fewer, since the start or a success, leave it closed: it lets everything through. */
  lemma FewerFailuresDoNot(threshold: nat, recovery: Duration, before: seq<Call>, failures: seq<Call>, now: Instant)
    requires AreFailures(failures) && (|failures| < threshold || failures == [])
    requires before == [] || before[|before| - 1].Success?
    requires Timed(before + failures) && NotBefore(before + failures, now)
    ensures Grants(After(threshold, recovery, before + failures), now)
  {
    FailuresCount(before, failures);
    HistoryDecides(threshold, recovery, before + failures, now);
  }

  predicate AreQuestions(calls: seq<Call>) {
    forall call :: call in calls ==> call.Ask? || call.Poll?
  }

  lemma {:induction false} QuestionsChangeNothing(threshold: nat, recovery: Duration, before: seq<Call>,
                                                  questions: seq<Call>)
    requires AreQuestions(questions)
    ensures FailureRun(before + questions) == FailureRun(before)
    ensures LastFailure(before + questions) == LastFailure(before)
    ensures GrantedSinceRecord(threshold, recovery, before) ==>
      GrantedSinceRecord(threshold, recovery, before + questions)
  {
    if questions == [] {
      assert before + questions == before;
    } else {
      var n := |questions| - 1;
      assert questions[n] in questions;
      assert (before + questions)[..|before| + n] == before + questions[..n];
      QuestionsChangeNothing(threshold, recovery, before, questions[..n]);
    }
  }

  /** Once it has let a probe through, it lets nothing else through, however often it is
      asked, until a result is recorded. */
  lemma OneProbe(threshold: nat, recovery: Duration, before: seq<Call>, failures: seq<Call>, probe: Instant,
                 questions: seq<Call>, now: Instant)
    requires AreFailures(failures) && failures != [] && |failures| >= threshold && AreQuestions(questions)
    requires probe >= failures[|failures| - 1].at + recovery
    requires var calls := before + failures + [Ask(probe)] + questions; Timed(calls) && NotBefore(calls, now)
    ensures !Grants(After(threshold, recovery, before + failures + [Ask(probe)] + questions), now)
  {
    var tripped := before + failures;
    var asked := tripped + [Ask(probe)];
    var calls := asked + questions;
    assert tripped == calls[..|tripped|] && asked[..|tripped|] == tripped;
    TimedPrefix(calls, |tripped|);
    TimedPrefix(calls, |asked|);
    assert calls[..|asked|] == asked;
    TimedInOrder(calls, |tripped| - 1, |tripped|);
    FailuresOpen(threshold, recovery, before, failures, probe);
    HistoryDecides(threshold, recovery, tripped, probe);
    FailuresCount(before, failures);
    TimedInOrder(calls, |tripped|, |calls| - 1);
    QuestionsChangeNothing(threshold, recovery, tripped, [Ask(probe)]);
    QuestionsChangeNothing(threshold, recovery, asked, questions);
    HistoryDecides(threshold, recovery, calls, now);
  }

  /** A success closes it, whatever came before. */
  lemma SuccessCloses(threshold: nat, recovery: Duration, before: seq<Call>, at: Instant, now: Instant)
    requires Timed(before + [Success(at)]) && at <= now
    ensures Grants(After(threshold, recovery, before + [Success(at)]), now)
  {
    HistoryDecides(threshold, recovery, before + [Success(at)], now);
  }

  /** A failed probe starts the recovery time anew. */
  lemma FailedProbeReopens(threshold: nat, recovery: Duration, before: seq<Call>, failures: seq<Call>,
                           questions: seq<Call>, at: Instant, now: Instant)
    requires AreFailures(failures) && failures != [] && |failures| >= threshold && AreQuestions(questions)
    requires Timed(before + failures + questions + [Failure(at)]) && at <= now
    ensures Grants(After(threshold, recovery, before + failures + questions + [Failure(at)]), now)
       <==> now >= at + recovery
  {
    var calls := before + failures + questions;
    FailuresCount(before, failures);
    QuestionsChangeNothing(threshold, recovery, before + failures, questions);
    FailuresCount(calls, [Failure(at)]);
    HistoryDecides(threshold, recovery, calls + [Failure(at)], now);
  }
}
