/** Probe slots do not leak: under any interleaving of any number of workers, with
    faults and interleaved replays, what a breaker has granted and not yet heard
    about is exactly what workers are busy contacting. */
module ProbeSlots {
  import opened Foundation
  import opened CircuitBreakers
  import opened BreakerRates
  import opened Dispatching
  import opened StatementMachine

  function GrantCount(threshold: nat, recovery: Duration, calls: seq<Call>): nat {
    if calls == [] then 0
    else
      var n := |calls| - 1;
      GrantCount(threshold, recovery, calls[..n]) + (if GrantedAt(threshold, recovery, calls, n) then 1 else 0)
  }

  function RecordCount(calls: seq<Call>): nat {
    if calls == [] then 0
    else RecordCount(calls[..|calls| - 1]) + (if calls[|calls| - 1].IsRecord() then 1 else 0)
  }

  lemma OneMoreCounted(threshold: nat, recovery: Duration, calls: seq<Call>, call: Call)
    ensures var more := calls + [call];
      var granted := call.Ask? && GrantsFrom(threshold, recovery, calls, call.at);
      && GrantCount(threshold, recovery, more) == GrantCount(threshold, recovery, calls) + (if granted then 1 else 0)
      && RecordCount(more) == RecordCount(calls) + (if call.IsRecord() then 1 else 0)
      && (GrantedSinceRecord(threshold, recovery, more) <==>
            !call.IsRecord() && (GrantedSinceRecord(threshold, recovery, calls) || granted))
      && (Timed(calls) && NotBefore(calls, call.at) ==> Timed(more))
  {
    assert (calls + [call])[..|calls|] == calls;
  }

  /** The workers between a grant of this endpoint's breaker and the record. */
  function Probing(s: System, endpoint: Id): set<Id> {
    set w | w in s.workers && s.workers[w].Contacting? && s.workers[w].row.endpoint == endpoint
  }

  ghost predicate SlotsAt(config: Config, s: System, endpoint: Id) {
    var calls := HistoryOf(s.calls, endpoint);
    && Timed(calls) && NotBefore(calls, s.clock)
    && GrantCount(config.failureThreshold, config.recovery, calls) == RecordCount(calls) + |Probing(s, endpoint)|
    && (GrantedSinceRecord(config.failureThreshold, config.recovery, calls) ==> Probing(s, endpoint) != {})
  }

  lemma AskKeepsSlots(config: Config, s: System, w: Id, at: Instant, endpoint: Id)
    requires Enabled(s, Worker(w, AskBreaker(at))) && SlotsAt(config, s, endpoint)
    ensures SlotsAt(config, ActNext(config, s, w, AskBreaker(at)), endpoint)
  {
    var t := ActNext(config, s, w, AskBreaker(at));
    var calls := HistoryOf(s.calls, endpoint);
    if s.workers[w].row.endpoint == endpoint && GrantsFrom(config.failureThreshold, config.recovery, calls, at) {
      assert Probing(t, endpoint) == Probing(s, endpoint) + {w};
    } else {
      assert Probing(t, endpoint) == Probing(s, endpoint);
    }
    if s.workers[w].row.endpoint == endpoint {
      OneMoreCounted(config.failureThreshold, config.recovery, calls, Ask(at));
    }
  }

  lemma RecordKeepsSlots(config: Config, s: System, w: Id, response: Response, at: Instant, endpoint: Id)
    requires Enabled(s, Worker(w, Record(response, at))) && SlotsAt(config, s, endpoint)
    ensures SlotsAt(config, ActNext(config, s, w, Record(response, at)), endpoint)
  {
    var t := ActNext(config, s, w, Record(response, at));
    var calls := HistoryOf(s.calls, endpoint);
    if s.workers[w].row.endpoint == endpoint {
      assert w in Probing(s, endpoint) && Probing(t, endpoint) == Probing(s, endpoint) - {w};
      OneMoreCounted(config.failureThreshold, config.recovery, calls, Verdict(response, at));
    } else {
      assert Probing(t, endpoint) == Probing(s, endpoint);
    }
  }

  lemma ActLeavesBreakersAlone(config: Config, s: System, w: Id, act: Act)
    requires Enabled(s, Worker(w, act)) && !act.AskBreaker? && !act.Record?
    ensures var t := ActNext(config, s, w, act);
      && t.calls == s.calls && t.clock == s.clock
      && !s.workers[w].Contacting?
      && t.workers.Keys == s.workers.Keys && !t.workers[w].Contacting?
      && forall v :: v in s.workers && v != w ==> t.workers[v] == s.workers[v]
  {
    match act
    case Claim | Read =>
    case Log(_, _) | Bury(_, _) =>
    case _ =>
  }

  lemma ActKeepsSlots(config: Config, s: System, w: Id, act: Act, endpoint: Id)
    requires Enabled(s, Worker(w, act)) && SlotsAt(config, s, endpoint) && !act.AskBreaker? && !act.Record?
    ensures SlotsAt(config, ActNext(config, s, w, act), endpoint)
  {
    var t := ActNext(config, s, w, act);
    ActLeavesBreakersAlone(config, s, w, act);
    assert Probing(t, endpoint) == Probing(s, endpoint);
  }

  /** No other statement, fault or handler comes between a grant and its record. */
  lemma OthersKeepSlots(config: Config, s: System, move: Move, endpoint: Id)
    requires Enabled(s, move) && SlotsAt(config, s, endpoint)
    requires move.Worker? ==> !move.act.AskBreaker? && !move.act.Record?
    ensures SlotsAt(config, Next(config, s, move), endpoint)
  {
    if move.Worker? {
      ActKeepsSlots(config, s, move.worker, move.act, endpoint);
    } else {
      var t := Next(config, s, move);
      assert t.calls == s.calls && t.clock == s.clock;
      assert Probing(t, endpoint) == Probing(s, endpoint);
    }
  }

  lemma {:induction false} RunKeepsSlots(config: Config, start: System, moves: seq<Move>, endpoint: Id)
    requires IsStart(start) && IsRun(config, start, moves)
    ensures SlotsAt(config, End(config, start, moves), endpoint)
  {
    if moves == [] {
      assert Probing(start, endpoint) == {};
    } else {
      var before, last := moves[..|moves| - 1], moves[|moves| - 1];
      RunKeepsSlots(config, start, before, endpoint);
      var s := End(config, start, before);
      match last
      case Worker(w, AskBreaker(at)) => AskKeepsSlots(config, s, w, at, endpoint);
      case Worker(w, Record(response, at)) => RecordKeepsSlots(config, s, w, response, at, endpoint);
      case _ => OthersKeepSlots(config, s, last, endpoint);
    }
  }

  /** In every reachable state, grants less records is the number of workers between
      the two; a breaker whose probe flag is set has such a worker; and with none, a
      breaker seen HalfOpen grants the next attempt. */
  lemma NoSlotLeaks(config: Config, start: System, moves: seq<Move>, endpoint: Id, now: Instant)
    requires IsStart(start) && IsRun(config, start, moves) && now >= End(config, start, moves).clock
    ensures var s := End(config, start, moves);
      var calls := HistoryOf(s.calls, endpoint);
      var breaker := After(config.failureThreshold, config.recovery, calls);
      && GrantCount(config.failureThreshold, config.recovery, calls) - RecordCount(calls) == |Probing(s, endpoint)|
      && (breaker.probeInFlight ==> Probing(s, endpoint) != {})
      && (Probing(s, endpoint) == {} && Polled(breaker, now).state.HalfOpen? ==> Grants(breaker, now))
  {
    RunKeepsSlots(config, start, moves, endpoint);
    AfterTracks(config.failureThreshold, config.recovery, HistoryOf(End(config, start, moves).calls, endpoint));
  }

  /** In every run, two probes of one endpoint with no success between them are a
      full recovery time apart. */
  lemma ProbesStayApart(config: Config, start: System, moves: seq<Move>, endpoint: Id, i: nat, j: nat)
    requires IsStart(start) && IsRun(config, start, moves)
    requires var calls := HistoryOf(End(config, start, moves).calls, endpoint);
      && i < j < |calls|
      && ProbeAt(config.failureThreshold, config.recovery, calls, i)
      && ProbeAt(config.failureThreshold, config.recovery, calls, j)
      && forall k :: i < k < j ==> !calls[k].Success?
    ensures var calls := HistoryOf(End(config, start, moves).calls, endpoint);
      calls[j].at >= calls[i].at + config.recovery
  {
    RunKeepsSlots(config, start, moves, endpoint);
    var calls := HistoryOf(End(config, start, moves).calls, endpoint);
    ProbesAreApart(config.failureThreshold, config.recovery, calls, i, j);
  }
}
