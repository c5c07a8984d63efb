/** How many probes of one endpoint can be out at once, over the runs of the
    statement machine, and exactly when it is more than one. */
module ProbeWatch {
  import opened Foundation
  import opened CircuitBreakers
  import opened Dispatching
  import opened StatementMachine
  import opened ProbeSlots

  /** The workers whose latest grant was a probe and who have not recorded yet; and
      those of them since whose grant nobody has recorded. */
  datatype Watch = Watch(out: set<Id>, ahead: set<Id>)

  predicate IsHalfOpen(config: Config, s: System, endpoint: Id, at: Instant) {
    StateFrom(config.failureThreshold, config.recovery, HistoryOf(s.calls, endpoint), at).HalfOpen?
  }

  predicate GrantsNow(config: Config, s: System, endpoint: Id, at: Instant) {
    GrantsFrom(config.failureThreshold, config.recovery, HistoryOf(s.calls, endpoint), at)
  }

  /** The move is an attempt of a worker at this endpoint's breaker. */
  predicate AsksAt(s: System, move: Move, endpoint: Id)
    requires Enabled(s, move)
  {
    move.Worker? && move.act.AskBreaker? && s.workers[move.worker].row.endpoint == endpoint
  }

  predicate RecordsAt(s: System, move: Move, endpoint: Id)
    requires Enabled(s, move)
  {
    move.Worker? && move.act.Record? && s.workers[move.worker].row.endpoint == endpoint
  }

  function WatchNext(config: Config, s: System, endpoint: Id, watch: Watch, move: Move): Watch
    requires Enabled(s, move)
  {
    if RecordsAt(s, move, endpoint) then Watch(watch.out - {move.worker}, {})
    else if AsksAt(s, move, endpoint) && IsHalfOpen(config, s, endpoint, move.act.at) &&
            GrantsNow(config, s, endpoint, move.act.at)
    then Watch(watch.out + {move.worker}, watch.ahead + {move.worker})
    else watch
  }

  ghost function Watched(config: Config, start: System, moves: seq<Move>, endpoint: Id): Watch
    requires IsRun(config, start, moves)
  {
    if moves == [] then Watch({}, {})
    else
      var before := moves[..|moves| - 1];
      WatchNext(config, End(config, start, before), endpoint, Watched(config, start, before, endpoint),
                moves[|moves| - 1])
  }

  /** Some probe is ahead exactly when a breaker that is not Closed has granted
      since the last record; and never two. */
  ghost predicate WatchInv(config: Config, s: System, endpoint: Id, watch: Watch) {
    var calls := HistoryOf(s.calls, endpoint);
    && watch.ahead <= watch.out <= Probing(s, endpoint)
    && |watch.ahead| <= 1
    && (watch.ahead != {} <==>
          GrantedSinceRecord(config.failureThreshold, config.recovery, calls) &&
          FailureRun(calls) >= AtLeastOne(config.failureThreshold))
  }

  /** What an attempt changes: the history, and who is out. */
  lemma AskChanges(config: Config, s: System, w: Id, at: Instant, endpoint: Id)
    requires Enabled(s, Worker(w, AskBreaker(at)))
    ensures var t := ActNext(config, s, w, AskBreaker(at));
      && Probing(s, endpoint) <= Probing(t, endpoint)
      && (if s.workers[w].row.endpoint == endpoint
          then HistoryOf(t.calls, endpoint) == HistoryOf(s.calls, endpoint) + [Ask(at)] &&
               (GrantsNow(config, s, endpoint, at) ==> w in Probing(t, endpoint))
          else HistoryOf(t.calls, endpoint) == HistoryOf(s.calls, endpoint))
  {
  }

  lemma AskInHistory(config: Config, calls: seq<Call>, at: Instant)
    ensures var threshold, recovery, more := config.failureThreshold, config.recovery, calls + [Ask(at)];
      && FailureRun(more) == FailureRun(calls)
      && (GrantedSinceRecord(threshold, recovery, more) <==>
            GrantedSinceRecord(threshold, recovery, calls) || GrantsFrom(threshold, recovery, calls, at))
  {
    OneMoreCounted(config.failureThreshold, config.recovery, calls, Ask(at));
    assert (calls + [Ask(at)])[..|calls|] == calls;
  }

  lemma AskKeepsWatch(config: Config, s: System, w: Id, at: Instant, endpoint: Id, watch: Watch)
    requires WatchInv(config, s, endpoint, watch) && Enabled(s, Worker(w, AskBreaker(at)))
    ensures WatchInv(config, ActNext(config, s, w, AskBreaker(at)), endpoint,
                     WatchNext(config, s, endpoint, watch, Worker(w, AskBreaker(at))))
  {
    AskChanges(config, s, w, at, endpoint);
    if s.workers[w].row.endpoint == endpoint {
      AskInHistory(config, HistoryOf(s.calls, endpoint), at);
    }
  }

  lemma RecordKeepsWatch(config: Config, s: System, w: Id, response: Response, at: Instant, endpoint: Id, watch: Watch)
    requires WatchInv(config, s, endpoint, watch) && Enabled(s, Worker(w, Record(response, at)))
    ensures WatchInv(config, ActNext(config, s, w, Record(response, at)), endpoint,
                     WatchNext(config, s, endpoint, watch, Worker(w, Record(response, at))))
  {
    var t := ActNext(config, s, w, Record(response, at));
    var calls := HistoryOf(s.calls, endpoint);
    assert Probing(s, endpoint) - {w} <= Probing(t, endpoint);
    if s.workers[w].row.endpoint == endpoint {
      OneMoreCounted(config.failureThreshold, config.recovery, calls, Verdict(response, at));
    } else {
      assert w !in Probing(s, endpoint);
    }
  }

  lemma OthersKeepWatch(config: Config, s: System, move: Move, endpoint: Id, watch: Watch)
    requires WatchInv(config, s, endpoint, watch) && Enabled(s, move)
    requires move.Worker? ==> !move.act.AskBreaker? && !move.act.Record?
    ensures WatchInv(config, Next(config, s, move), endpoint, WatchNext(config, s, endpoint, watch, move))
  {
    var t := Next(config, s, move);
    if move.Worker? {
      ActLeavesBreakersAlone(config, s, move.worker, move.act);
    }
    assert t.calls == s.calls;
    assert Probing(t, endpoint) == Probing(s, endpoint);
  }

  lemma {:induction false} RunKeepsWatch(config: Config, start: System, moves: seq<Move>, endpoint: Id)
    requires IsStart(start) && IsRun(config, start, moves)
    ensures WatchInv(config, End(config, start, moves), endpoint, Watched(config, start, moves, endpoint))
  {
    if moves != [] {
      var before, last := moves[..|moves| - 1], moves[|moves| - 1];
      RunKeepsWatch(config, start, before, endpoint);
      var s, watch := End(config, start, before), Watched(config, start, before, endpoint);
      match last
      case Worker(w, AskBreaker(at)) => AskKeepsWatch(config, s, w, at, endpoint, watch);
      case Worker(w, Record(response, at)) => RecordKeepsWatch(config, s, w, response, at, endpoint, watch);
      case _ => OthersKeepWatch(config, s, last, endpoint, watch);
    }
  }

  /** In every reachable state, a breaker seen HalfOpen grants another attempt exactly
      when no probe is ahead: when each probe that is out, if any, has been overtaken
      by a record. */
  lemma GrantsAnotherIff(config: Config, start: System, moves: seq<Move>, endpoint: Id, now: Instant)
    requires IsStart(start) && IsRun(config, start, moves)
    requires IsHalfOpen(config, End(config, start, moves), endpoint, now)
    ensures GrantsNow(config, End(config, start, moves), endpoint, now)
       <==> Watched(config, start, moves, endpoint).ahead == {}
  {
    RunKeepsWatch(config, start, moves, endpoint);
  }

  /** A probe that is out and no longer ahead was overtaken by somebody else's record. */
  lemma {:induction false} OvertakenByAnother(config: Config, start: System, moves: seq<Move>, endpoint: Id, w: Id)
    returns (i: nat)
    requires IsStart(start) && IsRun(config, start, moves)
    requires w in Watched(config, start, moves, endpoint).out && w !in Watched(config, start, moves, endpoint).ahead
    ensures i < |moves| && IsRun(config, start, moves[..i]) && Enabled(End(config, start, moves[..i]), moves[i])
    ensures RecordsAt(End(config, start, moves[..i]), moves[i], endpoint) && moves[i].worker != w
    ensures w in Watched(config, start, moves[..i], endpoint).out
  {
    i := |moves| - 1;
    var before := moves[..i];
    if !RecordsAt(End(config, start, before), moves[i], endpoint) {
      i := OvertakenByAnother(config, start, before, endpoint, w);
      assert before[..i] == moves[..i];
    }
  }

  // ------------------------------------------------------- one probe at a time, or not

  ghost predicate OneProbeThroughout(config: Config, start: System, moves: seq<Move>, endpoint: Id)
    requires IsRun(config, start, moves)
  {
    && |Watched(config, start, moves, endpoint).out| <= 1
    && (moves != [] ==> OneProbeThroughout(config, start, moves[..|moves| - 1], endpoint))
  }

  /** Nobody asks a HalfOpen breaker while a probe is out that a record has overtaken. */
  ghost predicate NoneAskBehind(config: Config, start: System, moves: seq<Move>, endpoint: Id)
    requires IsRun(config, start, moves)
  {
    moves != [] ==>
      var before, last := moves[..|moves| - 1], moves[|moves| - 1];
      var s, watch := End(config, start, before), Watched(config, start, before, endpoint);
      && NoneAskBehind(config, start, before, endpoint)
      && (AsksAt(s, last, endpoint) && IsHalfOpen(config, s, endpoint, last.act.at) && watch.out != {} ==>
            watch.ahead != {})
  }

  /** In every run, at most one probe of an endpoint is out throughout exactly when
      its breaker, seen HalfOpen, is never asked while a probe is out that somebody
      else's record has overtaken. */
  lemma {:induction false} OneProbeIff(config: Config, start: System, moves: seq<Move>, endpoint: Id)
    requires IsStart(start) && IsRun(config, start, moves)
    ensures OneProbeThroughout(config, start, moves, endpoint) <==> NoneAskBehind(config, start, moves, endpoint)
  {
    if moves != [] {
      var before, last := moves[..|moves| - 1], moves[|moves| - 1];
      OneProbeIff(config, start, before, endpoint);
      RunKeepsWatch(config, start, before, endpoint);
      var s, watch := End(config, start, before), Watched(config, start, before, endpoint);
      if |watch.out| <= 1 {
        AnotherProbe(config, s, endpoint, watch, last);
      }
    }
  }

  /** From one probe or none, a move leaves more than one exactly when it asks a
      HalfOpen breaker behind an overtaken probe. */
  lemma AnotherProbe(config: Config, s: System, endpoint: Id, watch: Watch, move: Move)
    requires WatchInv(config, s, endpoint, watch) && Enabled(s, move) && |watch.out| <= 1
    ensures |WatchNext(config, s, endpoint, watch, move).out| > 1 <==>
      && AsksAt(s, move, endpoint) && IsHalfOpen(config, s, endpoint, move.act.at)
      && watch.out != {} && watch.ahead == {}
  {
    if AsksAt(s, move, endpoint) {
      assert move.worker !in Probing(s, endpoint);
      assert |watch.out + {move.worker}| == |watch.out| + 1;
    } else if RecordsAt(s, move, endpoint) {
      assert |watch.out - {move.worker}| <= |watch.out|;
    }
  }

  /** Each record made while a probe is out is the probe's own. */
  ghost predicate OwnRecordsOnly(config: Config, start: System, moves: seq<Move>, endpoint: Id)
    requires IsRun(config, start, moves)
  {
    moves != [] ==>
      var before, last := moves[..|moves| - 1], moves[|moves| - 1];
      var watch := Watched(config, start, before, endpoint);
      && OwnRecordsOnly(config, start, before, endpoint)
      && (RecordsAt(End(config, start, before), last, endpoint) && watch.out != {} ==> last.worker in watch.out)
  }

  lemma OwnRecordEndsTheProbe(config: Config, s: System, endpoint: Id, watch: Watch, move: Move)
    requires Enabled(s, move) && watch.out == watch.ahead && |watch.out| <= 1
    requires RecordsAt(s, move, endpoint) && watch.out != {} ==> move.worker in watch.out
    ensures var next := WatchNext(config, s, endpoint, watch, move); next.out == next.ahead
  {
    if RecordsAt(s, move, endpoint) && watch.out != {} {
      assert |watch.out - {move.worker}| == |watch.out| - 1;
    }
  }

  /** Then there is at most one probe, always ahead. */
  lemma {:induction false} OwnRecordsKeepOneProbe(config: Config, start: System, moves: seq<Move>, endpoint: Id)
    requires IsStart(start) && IsRun(config, start, moves) && OwnRecordsOnly(config, start, moves, endpoint)
    ensures var watch := Watched(config, start, moves, endpoint); watch.out == watch.ahead && |watch.out| <= 1
    ensures OneProbeThroughout(config, start, moves, endpoint)
  {
    RunKeepsWatch(config, start, moves, endpoint);
    if moves != [] {
      var before := moves[..|moves| - 1];
      OwnRecordsKeepOneProbe(config, start, before, endpoint);
      OwnRecordEndsTheProbe(config, End(config, start, before), endpoint, Watched(config, start, before, endpoint),
                            moves[|moves| - 1]);
    }
  }
}
