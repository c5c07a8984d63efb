/** The per-endpoint circuit breaker: its lazily timed state machine, and an
    account of it that looks only at the history of calls. */
module CircuitBreakers {
  import opened Foundation

  datatype CircuitState = Closed | Open | HalfOpen

  /** The fields of one breaker, as a value. */
  datatype Breaker = Breaker(
    state: CircuitState,
    failureCount: nat,
    failureThreshold: nat,
    recoveryTimeout: Duration,
    openUntil: Option<Instant>,
    probeInFlight: bool)

  /** One call on a breaker and the clock reading it saw. */
  datatype Call =
    | Poll(at: Instant)
    | Ask(at: Instant)
    | Success(at: Instant)
    | Failure(at: Instant)
  {
    predicate IsRecord() {
      Success? || Failure?
    }
  }

  // ---------------------------------------------------------------- transitions

  function NewBreaker(threshold: nat, recovery: Duration): Breaker {
    Breaker(Closed, 0, threshold, recovery, None, false)
  }

  /** Reading the state moves an expired Open to HalfOpen. */
  function Polled(b: Breaker, now: Instant): Breaker {
    if b.state.Open? && b.openUntil.Some? && now >= b.openUntil.value
    then b.(state := HalfOpen)
    else b
  }

  predicate Grants(b: Breaker, now: Instant) {
    match Polled(b, now).state
    case Closed => true
    case HalfOpen => !b.probeInFlight
    case Open => false
  }

  function Asked(b: Breaker, now: Instant): Breaker {
    var p := Polled(b, now);
    if p.state.HalfOpen? then p.(probeInFlight := true) else p
  }

  function RecordedSuccess(b: Breaker): Breaker {
    b.(failureCount := 0, state := Closed, openUntil := None, probeInFlight := false)
  }

  function RecordedFailure(b: Breaker, now: Instant): Breaker {
    var c := b.(failureCount := b.failureCount + 1, probeInFlight := false);
    if c.failureCount >= c.failureThreshold || c.state.HalfOpen?
    then c.(state := Open, openUntil := Some(now + c.recoveryTimeout))
    else c
  }

  function Apply(b: Breaker, call: Call): Breaker {
    match call
    case Poll(at) => Polled(b, at)
    case Ask(at) => Asked(b, at)
    case Success(_) => RecordedSuccess(b)
    case Failure(at) => RecordedFailure(b, at)
  }

  /** The breaker that a sequence of calls leaves behind. */
  function After(threshold: nat, recovery: Duration, calls: seq<Call>): Breaker {
    if calls == [] then NewBreaker(threshold, recovery)
    else Apply(After(threshold, recovery, calls[..|calls| - 1]), calls[|calls| - 1])
  }

  // ------------------------------------------------------- the history's account

  /** Clock readings never go backwards. */
  predicate Timed(calls: seq<Call>) {
    calls == [] ||
    (Timed(calls[..|calls| - 1]) && NotBefore(calls[..|calls| - 1], calls[|calls| - 1].at))
  }

  predicate NotBefore(calls: seq<Call>, now: Instant) {
    calls == [] || calls[|calls| - 1].at <= now
  }

  /** Failures recorded since the last success. */
  function FailureRun(calls: seq<Call>): nat {
    if calls == [] then 0
    else
      var before := calls[..|calls| - 1];
      match calls[|calls| - 1]
      case Success(_) => 0
      case Failure(_) => FailureRun(before) + 1
      case _ => FailureRun(before)
  }

  /** The moment of the last recorded failure. */
  function LastFailure(calls: seq<Call>): Option<Instant> {
    if calls == [] then None
    else if calls[|calls| - 1].Failure? then Some(calls[|calls| - 1].at)
    else LastFailure(calls[..|calls| - 1])
  }

  /** What an observer at `now` must see, from recorded results alone. */
  function StateFrom(threshold: nat, recovery: Duration, calls: seq<Call>, now: Instant): CircuitState {
    if FailureRun(calls) < AtLeastOne(threshold) then Closed
    else if LastFailure(calls).Some? && now < LastFailure(calls).value + recovery then Open
    else HalfOpen
  }

  predicate GrantsFrom(threshold: nat, recovery: Duration, calls: seq<Call>, now: Instant)
    decreases |calls|, 1
  {
    match StateFrom(threshold, recovery, calls, now)
    case Closed => true
    case HalfOpen => !GrantedSinceRecord(threshold, recovery, calls)
    case Open => false
  }

  /** Some attempt was granted after the last recorded result. */
  predicate GrantedSinceRecord(threshold: nat, recovery: Duration, calls: seq<Call>)
    decreases |calls|, 0
  {
    if calls == [] || calls[|calls| - 1].IsRecord() then false
    else
      var before := calls[..|calls| - 1];
      var last := calls[|calls| - 1];
      GrantedSinceRecord(threshold, recovery, before) ||
      (last.Ask? && GrantsFrom(threshold, recovery, before, last.at))
  }

  /** The fields of the breaker, read off the history. */
  ghost predicate Tracks(b: Breaker, threshold: nat, recovery: Duration, calls: seq<Call>) {
    && b.failureThreshold == threshold
    && b.recoveryTimeout == recovery
    && b.failureCount == FailureRun(calls)
    && (b.state.Closed? <==> FailureRun(calls) < AtLeastOne(threshold))
    && (!b.state.Closed? ==>
          LastFailure(calls).Some? && b.openUntil == Some(LastFailure(calls).value + recovery))
    && (b.state.HalfOpen? ==>
          calls != [] && calls[|calls| - 1].at >= LastFailure(calls).value + recovery)
    && (b.state.Closed? ==> !b.probeInFlight)
    && (b.probeInFlight ==> GrantedSinceRecord(threshold, recovery, calls))
    && (!b.state.Closed? && GrantedSinceRecord(threshold, recovery, calls) ==> b.probeInFlight)
  }

  lemma {:induction false} TimedInOrder(calls: seq<Call>, i: nat, j: nat)
    requires Timed(calls) && i <= j < |calls|
    ensures calls[i].at <= calls[j].at
  {
    if j < |calls| - 1 {
      TimedInOrder(calls[..|calls| - 1], i, j);
    } else if i < j {
      TimedInOrder(calls[..|calls| - 1], i, j - 1);
    }
  }

  lemma {:induction false} TimedPrefix(calls: seq<Call>, n: nat)
    requires Timed(calls) && n <= |calls|
    ensures Timed(calls[..n])
  {
    if n < |calls| {
      var before := calls[..|calls| - 1];
      TimedPrefix(before, n);
      assert before[..n] == calls[..n];
    } else {
      assert calls[..n] == calls;
    }
  }

  lemma OneMore(threshold: nat, recovery: Duration, calls: seq<Call>, call: Call)
    requires Timed(calls) && NotBefore(calls, call.at)
    ensures Timed(calls + [call])
    ensures After(threshold, recovery, calls + [call]) == Apply(After(threshold, recovery, calls), call)
  {
    assert (calls + [call])[..|calls|] == calls;
  }

  lemma {:induction false} LastFailureIsPast(calls: seq<Call>)
    requires Timed(calls) && LastFailure(calls).Some?
    ensures calls != [] && LastFailure(calls).value <= calls[|calls| - 1].at
  {
    if !calls[|calls| - 1].Failure? {
      LastFailureIsPast(calls[..|calls| - 1]);
    }
  }

  lemma {:induction false} AfterTracks(threshold: nat, recovery: Duration, calls: seq<Call>)
    requires Timed(calls)
    ensures Tracks(After(threshold, recovery, calls), threshold, recovery, calls)
  {
    if calls != [] {
      var before, last := calls[..|calls| - 1], calls[|calls| - 1];
      AfterTracks(threshold, recovery, before);
      if LastFailure(before).Some? {
        LastFailureIsPast(before);
      }
      assert last.Ask? ==>
          (Grants(After(threshold, recovery, before), last.at) <==> GrantsFrom(threshold, recovery, before, last.at));
    }
  }

  /** The observed state and the verdict of `can_attempt` are functions of the
      recorded results, for every timed sequence of calls. */
  lemma HistoryDecides(threshold: nat, recovery: Duration, calls: seq<Call>, now: Instant)
    requires Timed(calls) && NotBefore(calls, now)
    ensures Polled(After(threshold, recovery, calls), now).state == StateFrom(threshold, recovery, calls, now)
    ensures Grants(After(threshold, recovery, calls), now) <==> GrantsFrom(threshold, recovery, calls, now)
  {
    AfterTracks(threshold, recovery, calls);
  }

  function WithoutPolls(calls: seq<Call>): seq<Call> {
    if calls == [] then []
    else
      var before := WithoutPolls(calls[..|calls| - 1]);
      if calls[|calls| - 1].Poll? then before else before + [calls[|calls| - 1]]
  }

  lemma {:induction false} PollsLeaveNoTrace(threshold: nat, recovery: Duration, calls: seq<Call>)
    ensures var quiet := WithoutPolls(calls);
      && FailureRun(quiet) == FailureRun(calls)
      && LastFailure(quiet) == LastFailure(calls)
      && GrantedSinceRecord(threshold, recovery, quiet) == GrantedSinceRecord(threshold, recovery, calls)
  {
    if calls != [] {
      var before, last := calls[..|calls| - 1], calls[|calls| - 1];
      PollsLeaveNoTrace(threshold, recovery, before);
      var quiet := WithoutPolls(before);
      if !last.Poll? {
        assert (quiet + [last])[..|quiet|] == quiet;
      }
    }
  }

  lemma {:induction false} WithoutPollsTimed(calls: seq<Call>)
    requires Timed(calls)
    ensures Timed(WithoutPolls(calls))
    ensures calls != [] ==> NotBefore(WithoutPolls(calls), calls[|calls| - 1].at)
  {
    if calls != [] {
      WithoutPollsTimed(calls[..|calls| - 1]);
    }
  }

  /** When and how often `state()` was called makes no difference to anything a
      later caller can observe. */
  lemma PollsNeverMatter(threshold: nat, recovery: Duration, calls: seq<Call>, now: Instant)
    requires Timed(calls) && NotBefore(calls, now)
    ensures var noisy, quiet := After(threshold, recovery, calls), After(threshold, recovery, WithoutPolls(calls));
      && Polled(noisy, now).state == Polled(quiet, now).state
      && Grants(noisy, now) == Grants(quiet, now)
  {
    WithoutPollsTimed(calls);
    PollsLeaveNoTrace(threshold, recovery, calls);
    HistoryDecides(threshold, recovery, calls, now);
    HistoryDecides(threshold, recovery, WithoutPolls(calls), now);
  }

  /** On every breaker that calls can produce, the test for HalfOpen in
      `record_failure` is implied by the comparison with the threshold. */
  lemma HalfOpenDisjunctIsRedundant(threshold: nat, recovery: Duration, calls: seq<Call>, now: Instant)
    requires Timed(calls)
    ensures var b := After(threshold, recovery, calls);
      RecordedFailure(b, now).state.Open? <==> b.failureCount + 1 >= threshold
  {
    AfterTracks(threshold, recovery, calls);
  }

  // -------------------------------------------------------------------- the class

  /** The breaker as the dispatcher shares it. Each method reads the clock once;
      the reading is the argument. The ghost history is what the contracts are
      about: what a call answers depends on nothing else. */
  class CircuitBreaker {
    var state: CircuitState
    var failureCount: nat
    const failureThreshold: nat
    const recoveryTimeout: Duration
    var openUntil: Option<Instant>
    var probeInFlight: bool
    ghost var calls: seq<Call>

    ghost function Value(): Breaker
      reads this
    {
      Breaker(state, failureCount, failureThreshold, recoveryTimeout, openUntil, probeInFlight)
    }

    ghost predicate Valid()
      reads this
    {
      Timed(calls) && Value() == After(failureThreshold, recoveryTimeout, calls)
    }

    constructor (threshold: nat, recovery: Duration)
      ensures Valid() && calls == []
      ensures failureThreshold == threshold && recoveryTimeout == recovery
    {
      state := Closed;
      failureCount := 0;
      failureThreshold := threshold;
      recoveryTimeout := recovery;
      openUntil := None;
      probeInFlight := false;
      calls := [];
    }

    method State(now: Instant) returns (s: CircuitState)
      requires Valid() && NotBefore(calls, now)
      modifies this
      ensures Valid() && calls == old(calls) + [Poll(now)]
      ensures Value() == Polled(old(Value()), now)
      ensures s == StateFrom(failureThreshold, recoveryTimeout, old(calls), now) == state
    {
      HistoryDecides(failureThreshold, recoveryTimeout, calls, now);
      OneMore(failureThreshold, recoveryTimeout, calls, Poll(now));
      if state.Open? && openUntil.Some? && now >= openUntil.value {
        state := HalfOpen;
      }
      s := state;
      calls := calls + [Poll(now)];
    }

    method CanAttempt(now: Instant) returns (granted: bool)
      requires Valid() && NotBefore(calls, now)
      modifies this
      ensures Valid() && calls == old(calls) + [Ask(now)]
      ensures granted == GrantsFrom(failureThreshold, recoveryTimeout, old(calls), now)
    {
      HistoryDecides(failureThreshold, recoveryTimeout, calls, now);
      OneMore(failureThreshold, recoveryTimeout, calls, Ask(now));
      var s := State(now);
      match s {
        case Closed =>
          granted := true;
        case HalfOpen =>
          if probeInFlight {
            granted := false;
          } else {
            probeInFlight := true;
            granted := true;
          }
        case Open =>
          granted := false;
      }
      calls := old(calls) + [Ask(now)];
    }

    method RecordSuccess(now: Instant)
      requires Valid() && NotBefore(calls, now)
      modifies this
      ensures Valid() && calls == old(calls) + [Success(now)]
    {
      OneMore(failureThreshold, recoveryTimeout, calls, Success(now));
      failureCount := 0;
      state := Closed;
      openUntil := None;
      probeInFlight := false;
      calls := calls + [Success(now)];
    }

    method RecordFailure(now: Instant)
      requires Valid() && NotBefore(calls, now)
      modifies this
      ensures Valid() && calls == old(calls) + [Failure(now)]
    {
      OneMore(failureThreshold, recoveryTimeout, calls, Failure(now));
      failureCount := failureCount + 1;
      if failureCount >= failureThreshold || state.HalfOpen? {
        state := Open;
        openUntil := Some(now + recoveryTimeout);
      }
      probeInFlight := false;
      calls := calls + [Failure(now)];
    }
  }
}
