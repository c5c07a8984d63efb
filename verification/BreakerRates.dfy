/** How often a breaker lets the downstream be contacted. */
module BreakerRates {
  import opened Foundation
  import opened CircuitBreakers

  /** The call at `i` is an attempt that the breaker granted. */
  predicate GrantedAt(threshold: nat, recovery: Duration, calls: seq<Call>, i: nat)
    requires i < |calls|
  {
    calls[i].Ask? && GrantsFrom(threshold, recovery, calls[..i], calls[i].at)
  }

  /** The grant at `i` was made in the HalfOpen state: a probe. */
  predicate ProbeAt(threshold: nat, recovery: Duration, calls: seq<Call>, i: nat)
    requires i < |calls|
  {
    && GrantedAt(threshold, recovery, calls, i)
    && StateFrom(threshold, recovery, calls[..i], calls[i].at).HalfOpen?
  }

  // --------------------------------------------------------- separation of probes

  lemma {:induction false} GrantStaysOut(threshold: nat, recovery: Duration, calls: seq<Call>, i: nat, j: nat)
    requires i < j <= |calls| && GrantedAt(threshold, recovery, calls, i)
    requires forall k :: i < k < j ==> !calls[k].IsRecord()
    ensures GrantedSinceRecord(threshold, recovery, calls[..j])
  {
    var prefix := calls[..j];
    assert prefix[..j - 1] == calls[..j - 1];
    if j > i + 1 {
      GrantStaysOut(threshold, recovery, calls, i, j - 1);
    }
  }

  lemma {:induction false} LastFailureAtLeast(calls: seq<Call>, j: nat, k: nat)
    requires Timed(calls) && k < j <= |calls| && calls[k].Failure?
    ensures LastFailure(calls[..j]).Some? && LastFailure(calls[..j]).value >= calls[k].at
  {
    var prefix := calls[..j];
    assert prefix[..j - 1] == calls[..j - 1];
    TimedInOrder(calls, k, j - 1);
    if k < j - 1 {
      LastFailureAtLeast(calls, j - 1, k);
    }
  }

  /** Two probes with no success between them are a full recovery time apart,
      however many workers produced the calls and however they interleave. */
  lemma ProbesAreApart(threshold: nat, recovery: Duration, calls: seq<Call>, i: nat, j: nat)
    requires Timed(calls) && i < j < |calls|
    requires ProbeAt(threshold, recovery, calls, i) && ProbeAt(threshold, recovery, calls, j)
    requires forall k :: i < k < j ==> !calls[k].Success?
    ensures calls[j].at >= calls[i].at + recovery
  {
    if k :| i < k < j && calls[k].Failure? {
      TimedInOrder(calls, i, k);
      LastFailureAtLeast(calls, j, k);
    } else {
      GrantStaysOut(threshold, recovery, calls, i, j);
    }
  }

  // --------------------------------------------------- one worker, one bad endpoint

  /** The calls of a single worker: it records a result right after each grant
      and at no other time. */
  ghost predicate OneWorker(threshold: nat, recovery: Duration, calls: seq<Call>) {
    forall i {:trigger calls[i]} :: 0 <= i < |calls| ==>
      && !calls[i].Poll?
      && (calls[i].IsRecord() <==> i > 0 && GrantedAt(threshold, recovery, calls, i - 1))
  }

  ghost predicate AlwaysFails(calls: seq<Call>) {
    forall i :: 0 <= i < |calls| ==> !calls[i].Success?
  }

  /** Contacts made no later than `deadline`. */
  function ContactsUntil(threshold: nat, recovery: Duration, calls: seq<Call>, deadline: Instant): nat {
    if calls == [] then 0
    else
      var n := |calls| - 1;
      ContactsUntil(threshold, recovery, calls[..n], deadline) +
      (if GrantedAt(threshold, recovery, calls, n) && calls[n].at <= deadline then 1 else 0)
  }

  function FirstContact(threshold: nat, recovery: Duration, calls: seq<Call>): Option<Instant> {
    if calls == [] then None
    else
      var n := |calls| - 1;
      var before := FirstContact(threshold, recovery, calls[..n]);
      if before.None? && GrantedAt(threshold, recovery, calls, n) then Some(calls[n].at) else before
  }

  function LastContact(threshold: nat, recovery: Duration, calls: seq<Call>): Option<Instant> {
    if calls == [] then None
    else
      var n := |calls| - 1;
      if GrantedAt(threshold, recovery, calls, n) then Some(calls[n].at)
      else LastContact(threshold, recovery, calls[..n])
  }

  lemma OneWorkerPrefix(threshold: nat, recovery: Duration, calls: seq<Call>, n: nat)
    requires OneWorker(threshold, recovery, calls) && n <= |calls|
    ensures OneWorker(threshold, recovery, calls[..n])
  {
    var prefix := calls[..n];
    forall i | 0 <= i < |prefix|
      ensures !prefix[i].Poll?
      ensures prefix[i].IsRecord() <==> i > 0 && GrantedAt(threshold, recovery, prefix, i - 1)
    {
      assert prefix[i] == calls[i];
      if i > 0 {
        assert prefix[..i - 1] == calls[..i - 1];
      }
    }
  }

  /** `last` is `extra` recovery times after `first`. */
  predicate Spread(first: Instant, last: Instant, extra: int, recovery: Duration) {
    first <= last && (extra > 0 ==> last >= first + Times(extra, recovery))
  }

  lemma SpreadGrows(first: Instant, last: Instant, next: Instant, extra: int, recovery: Duration)
    requires Spread(first, last, extra, recovery) && next >= last
    requires extra >= 0 ==> next >= last + recovery
    ensures Spread(first, next, extra + 1, recovery)
  {
  }

  /** Every contact but a last one still unanswered has been recorded as a failure. */
  lemma {:induction false} EveryContactFails(threshold: nat, recovery: Duration, calls: seq<Call>, deadline: Instant)
    requires Timed(calls) && OneWorker(threshold, recovery, calls) && AlwaysFails(calls)
    requires NotBefore(calls, deadline)
    ensures var n := ContactsUntil(threshold, recovery, calls, deadline);
      && FailureRun(calls) == (if calls != [] && GrantedAt(threshold, recovery, calls, |calls| - 1) then n - 1 else n)
      && (n == 0 <==> FirstContact(threshold, recovery, calls).None?)
      && (n == 0 <==> LastContact(threshold, recovery, calls).None?)
      && (n > 0 ==> LastContact(threshold, recovery, calls).value <= calls[|calls| - 1].at)
  {
    if calls != [] {
      var n := |calls| - 1;
      var before, last := calls[..n], calls[n];
      OneWorkerPrefix(threshold, recovery, calls, n);
      EveryContactFails(threshold, recovery, before, deadline);
      if n > 0 {
        assert before[..n - 1] == calls[..n - 1];
        assert GrantedAt(threshold, recovery, calls, n - 1) == GrantedAt(threshold, recovery, before, n - 1);
      }
    }
  }

  /** With no contact left unanswered, the last failure is no older than the last contact. */
  lemma {:induction false} AnsweredByFailure(threshold: nat, recovery: Duration, calls: seq<Call>)
    requires Timed(calls) && OneWorker(threshold, recovery, calls) && AlwaysFails(calls)
    requires LastContact(threshold, recovery, calls).Some?
    requires !GrantedAt(threshold, recovery, calls, |calls| - 1)
    ensures LastFailure(calls).Some?
    ensures LastFailure(calls).value >= LastContact(threshold, recovery, calls).value
  {
    var n := |calls| - 1;
    var before := calls[..n];
    OneWorkerPrefix(threshold, recovery, calls, n);
    if calls[n].Failure? {
      EveryContactFails(threshold, recovery, before, before[n - 1].at);
    } else {
      assert n > 0;
      assert before[..n - 1] == calls[..n - 1];
      assert !GrantedAt(threshold, recovery, calls, n - 1);
      AnsweredByFailure(threshold, recovery, before);
    }
  }

  /** A contact after T failures comes a recovery time after the one before it. */
  lemma NextContactWaits(threshold: nat, recovery: Duration, calls: seq<Call>, deadline: Instant)
    requires Timed(calls) && OneWorker(threshold, recovery, calls) && AlwaysFails(calls) && NotBefore(calls, deadline)
    requires calls != [] && GrantedAt(threshold, recovery, calls, |calls| - 1)
    requires FirstContact(threshold, recovery, calls[..|calls| - 1]).Some?
    ensures var before, last := calls[..|calls| - 1], calls[|calls| - 1];
      && LastContact(threshold, recovery, before).Some?
      && last.at >= LastContact(threshold, recovery, before).value
      && (ContactsUntil(threshold, recovery, before, deadline) >= AtLeastOne(threshold) ==>
            last.at >= LastContact(threshold, recovery, before).value + recovery)
  {
    var n := |calls| - 1;
    var before := calls[..n];
    OneWorkerPrefix(threshold, recovery, calls, n);
    EveryContactFails(threshold, recovery, before, deadline);
    assert !GrantedAt(threshold, recovery, before, n - 1) by {
      assert before[..n - 1] == calls[..n - 1] && !calls[n].IsRecord();
    }
    AnsweredByFailure(threshold, recovery, before);
  }

  /** After n contacts of a failing endpoint, the last of them came at least
      (n - T) recovery times after the first. */
  lemma {:induction false} ContactsAreSpread(threshold: nat, recovery: Duration, calls: seq<Call>, deadline: Instant)
    requires Timed(calls) && OneWorker(threshold, recovery, calls) && AlwaysFails(calls)
    requires NotBefore(calls, deadline) && FirstContact(threshold, recovery, calls).Some?
    ensures LastContact(threshold, recovery, calls).Some?
    ensures Spread(
      FirstContact(threshold, recovery, calls).value, LastContact(threshold, recovery, calls).value,
      ContactsUntil(threshold, recovery, calls, deadline) - AtLeastOne(threshold), recovery)
  {
    var n := |calls| - 1;
    var before, last := calls[..n], calls[n];
    var first, extra := FirstContact(threshold, recovery, before),
      ContactsUntil(threshold, recovery, before, deadline) - AtLeastOne(threshold);
    OneWorkerPrefix(threshold, recovery, calls, n);
    if first.None? {
      EveryContactFails(threshold, recovery, before, deadline);
    } else {
      ContactsAreSpread(threshold, recovery, before, deadline);
      if GrantedAt(threshold, recovery, calls, n) {
        NextContactWaits(threshold, recovery, calls, deadline);
        SpreadGrows(first.value, LastContact(threshold, recovery, before).value, last.at, extra, recovery);
      }
    }
  }

  /** Beyond the threshold, each contact in the window took a recovery time. */
  predicate HoldsFew(threshold: nat, recovery: Duration, calls: seq<Call>, deadline: Instant, length: Duration) {
    var extra := ContactsUntil(threshold, recovery, calls, deadline) - AtLeastOne(threshold);
    extra > 0 ==> Times(extra, recovery) <= length
  }

  lemma WholeHistoryInWindow(threshold: nat, recovery: Duration, calls: seq<Call>, deadline: Instant, length: Duration)
    requires Timed(calls) && OneWorker(threshold, recovery, calls) && AlwaysFails(calls)
    requires FirstContact(threshold, recovery, calls).Some?
    requires deadline == FirstContact(threshold, recovery, calls).value + length && NotBefore(calls, deadline)
    ensures HoldsFew(threshold, recovery, calls, deadline, length)
  {
    ContactsAreSpread(threshold, recovery, calls, deadline);
    EveryContactFails(threshold, recovery, calls, deadline);
  }

  lemma {:induction false} WindowsHoldFew(threshold: nat, recovery: Duration, calls: seq<Call>, length: Duration)
    requires Timed(calls) && OneWorker(threshold, recovery, calls) && AlwaysFails(calls)
    requires FirstContact(threshold, recovery, calls).Some?
    ensures HoldsFew(threshold, recovery, calls, FirstContact(threshold, recovery, calls).value + length, length)
  {
    var deadline := FirstContact(threshold, recovery, calls).value + length;
    var n := |calls| - 1;
    if calls[n].at <= deadline {
      WholeHistoryInWindow(threshold, recovery, calls, deadline, length);
    } else {
      var before := calls[..n];
      assert ContactsUntil(threshold, recovery, calls, deadline)
          == ContactsUntil(threshold, recovery, before, deadline);
      OneWorkerPrefix(threshold, recovery, calls, n);
      if FirstContact(threshold, recovery, before).Some? {
        WindowsHoldFew(threshold, recovery, before, length);
      }
    }
  }

  /** With one worker and an endpoint that always fails, a fresh breaker lets at
      most T + L / R contacts through in a window of length L that starts with the
      first contact. */
  lemma ContactRate(threshold: nat, recovery: Duration, calls: seq<Call>, length: Duration)
    requires Timed(calls) && OneWorker(threshold, recovery, calls) && AlwaysFails(calls)
    requires FirstContact(threshold, recovery, calls).Some? && recovery > 0
    ensures ContactsUntil(threshold, recovery, calls, FirstContact(threshold, recovery, calls).value + length)
         <= AtLeastOne(threshold) + length / recovery
  {
    WindowsHoldFew(threshold, recovery, calls, length);
    var deadline := FirstContact(threshold, recovery, calls).value + length;
    var extra := ContactsUntil(threshold, recovery, calls, deadline) - AtLeastOne(threshold);
    FewEnough(extra, recovery, length);
  }

  lemma FewEnough(extra: int, recovery: Duration, length: Duration)
    requires recovery > 0 && (extra > 0 ==> Times(extra, recovery) <= length)
    ensures extra <= length / recovery
  {
    if extra > 0 {
      TimesFits(extra, recovery, length);
    }
  }
}
