/** A run with two probes of one endpoint out at once, for every configuration: a
    worker whose contact was granted before the breaker opened reports its failure
    while a probe is out, and makes room for a second one. */
module ProbeOverlap {
  import opened Foundation
  import opened Decimals
  import opened Tables
  import opened CircuitBreakers
  import opened Dispatching
  import opened StatementMachine
  import opened FaultFree
  import opened SoloPasses
  import opened Reachability
  import opened ProbeWatch
  import Exhaustion

  /** Some run without faults gets here with these probes of endpoint 0 out. */
  ghost predicate Arrives(config: Config, start: System, s: System, watch: Watch) {
    exists moves :: ArrivesBy(config, start, moves, s, watch)
  }

  ghost predicate ArrivesBy(config: Config, start: System, moves: seq<Move>, s: System, watch: Watch) {
    && IsRun(config, start, moves) && AreFaultless(moves)
    && End(config, start, moves) == s && Watched(config, start, moves, 0) == watch
  }

  lemma ArrivesMore(config: Config, start: System, s: System, watch: Watch, move: Move)
    requires Arrives(config, start, s, watch) && Enabled(s, move) && Faultless(move)
    ensures Arrives(config, start, Next(config, s, move), WatchNext(config, s, 0, watch, move))
  {
    var moves :| ArrivesBy(config, start, moves, s, watch);
    var more := moves + [move];
    assert more[..|moves|] == moves;
    assert ArrivesBy(config, start, more, Next(config, s, move), WatchNext(config, s, 0, watch, move));
  }

  lemma {:induction false} CalmMovesKeepWatch(config: Config, start: System, a: seq<Move>, b: seq<Move>, w: Id)
    requires IsRun(config, start, a) && IsRun(config, End(config, start, a), b) && IsSolo(b, w, true)
    ensures IsRun(config, start, a + b) && Watched(config, start, a + b, 0) == Watched(config, start, a, 0)
  {
    RunsConcatenate(config, start, a, b);
    if b == [] {
      assert a + b == a;
    } else {
      var n := |b| - 1;
      assert b[n] in b;
      CalmMovesKeepWatch(config, start, a, b[..n], w);
      assert (a + b)[..|a + b| - 1] == a + b[..n];
    }
  }

  lemma ArrivesSolo(config: Config, start: System, s: System, watch: Watch, w: Id, t: System)
    requires Arrives(config, start, s, watch) && Leads(config, s, w, true, t)
    ensures Arrives(config, start, t, watch)
  {
    var a :| ArrivesBy(config, start, a, s, watch);
    var b :| LeadsBy(config, s, w, true, b, t);
    RunsConcatenate(config, start, a, b);
    CalmMovesKeepWatch(config, start, a, b, w);
    assert forall m :: m in a + b ==> m in a || m in b;
    assert ArrivesBy(config, start, a + b, t, watch);
  }

  // ---------------------------------------------------- as many events as workers, all read

  const NO_WATCH := Watch({}, {})
  const ROW := Fetched(0, "", [], 0)

  function RestingWorkers(n: nat): (workers: map<Id, Pc>)
    ensures forall w: Id :: w in workers <==> w < n
    ensures forall w: Id :: w in workers ==> workers[w] == Resting
  {
    if n == 0 then map[] else RestingWorkers(n - 1)[n - 1 := Resting]
  }

  function Starting(n: nat): System {
    System(EMPTY, map[], 0, {}, RestingWorkers(n), map[], {})
  }

  /** The keys keep the events apart. */
  function SomeEvent(e: Id): Event {
    Event(0, Decimal(e), [], "", Received, 0)
  }

  /** Events 1 .. n are stored; the first k of them are claimed. */
  ghost predicate Stored(s: System, n: nat, k: nat) {
    && s.db.endpoints == map[0 := Exhaustion.SOME_ENDPOINT]
    && s.db.attempts == map[] && s.db.deadLetters == map[]
    && (forall e: Id :: e in s.db.events <==> 1 <= e <= n)
    && (forall e: Id :: 1 <= e <= n ==>
          s.db.events[e] == SomeEvent(e).(status := if e <= k then Processing else Received))
    && s.clock == 0 && s.calls == map[]
    && forall id :: id in s.minted ==> id <= n
  }

  lemma KeyIsNew(s: System, n: nat, id: Id)
    requires Stored(s, n, 0) && id > n
    ensures Matching(s.db, 0, Decimal(id)) == {}
  {
    forall e | 1 <= e <= n
      ensures Decimal(e) != Decimal(id)
    {
      ValueOfDecimal(e);
      ValueOfDecimal(id);
    }
  }

  lemma OneMoreStored(config: Config, s: System, n: nat)
    requires Stored(s, n, 0)
    ensures Enabled(s, AcceptEvent(n + 1, SomeEvent(n + 1)))
    ensures var t := Next(config, s, AcceptEvent(n + 1, SomeEvent(n + 1)));
      Stored(t, n + 1, 0) && t.workers == s.workers
  {
    KeyIsNew(s, n, n + 1);
    assert n + 1 !in s.minted && n + 1 !in s.db.events;
  }

  lemma NothingStored(config: Config, workers: nat) returns (s: System)
    ensures Arrives(config, Starting(workers), s, NO_WATCH)
    ensures Stored(s, 0, 0) && s.workers == Starting(workers).workers
  {
    var start := Starting(workers);
    assert ArrivesBy(config, start, [], start, NO_WATCH);
    ArrivesMore(config, start, start, NO_WATCH, CreateEndpoint(0, Exhaustion.SOME_ENDPOINT));
    s := Next(config, start, CreateEndpoint(0, Exhaustion.SOME_ENDPOINT));
  }

  lemma {:induction false} StoresEvents(config: Config, workers: nat, n: nat) returns (s: System)
    ensures Arrives(config, Starting(workers), s, NO_WATCH)
    ensures Stored(s, n, 0) && s.workers == Starting(workers).workers
  {
    var start := Starting(workers);
    if n == 0 {
      s := NothingStored(config, workers);
    } else {
      var before := StoresEvents(config, workers, n - 1);
      OneMoreStored(config, before, n - 1);
      ArrivesMore(config, start, before, NO_WATCH, AcceptEvent(n, SomeEvent(n)));
      s := Next(config, before, AcceptEvent(n, SomeEvent(n)));
    }
  }

  /** The first k workers have read the first k events. */
  ghost predicate Lined(s: System, n: nat, k: nat) {
    && (forall w: Id :: w in s.workers <==> w < n)
    && forall w: Id :: w < n ==> s.workers[w] == if w < k then Ready(w + 1, ROW) else Resting
  }

  lemma NextInLine(s: System, n: nat, k: nat)
    requires Stored(s, n, k) && k < n
    ensures NextEvent(s.db) == Some(k + 1) && Integrity(s.db)
  {
    assert k + 1 in Waiting(s.db);
    assert IsNext(s.db, NextEvent(s.db).value);
    forall e, f | 1 <= e <= n && 1 <= f <= n && e != f
      ensures s.db.events[e].key != s.db.events[f].key
    {
      ValueOfDecimal(e);
      ValueOfDecimal(f);
    }
  }

  lemma ClaimedRowIs(s: System, n: nat, k: nat, row: Fetched)
    requires Stored(s, n, k) && k < n
    requires Fetch(SetStatus(s.db, k + 1, Processing), k + 1) == Some(row)
    ensures row == ROW
  {
    assert AttemptsOf(SetStatus(s.db, k + 1, Processing), k + 1) == {};
  }

  lemma ClaimedTables(s: System, t: System, n: nat, k: nat)
    requires Stored(s, n, k) && k < n && t.db == SetStatus(s.db, k + 1, Processing)
    requires t.clock == s.clock && t.calls == s.calls && t.minted == s.minted
    ensures Stored(t, n, k + 1)
  {
    forall e: Id | 1 <= e <= n
      ensures t.db.events[e] == SomeEvent(e).(status := if e <= k + 1 then Processing else Received)
    {
      assert s.db.events[e] == SomeEvent(e).(status := if e <= k then Processing else Received);
    }
  }

  lemma ClaimedRow(s: System, n: nat, k: nat, row: Fetched)
    requires Stored(s, n, k) && Lined(s, n, k) && k < n
    requires Fetch(SetStatus(s.db, k + 1, Processing), k + 1) == Some(row)
    ensures var t := At(s.(db := SetStatus(s.db, k + 1, Processing)), k, Ready(k + 1, row));
      Stored(t, n, k + 1) && Lined(t, n, k + 1)
  {
    var t := At(s.(db := SetStatus(s.db, k + 1, Processing)), k, Ready(k + 1, row));
    ClaimedTables(s, t, n, k);
    assert Lined(t, n, k + 1) by {
      ClaimedRowIs(s, n, k, row);
    }
  }

  lemma ThenReads(config: Config, start: System, s: System, w: Id, event: Id, watch: Watch) returns (row: Fetched)
    requires Arrives(config, start, s, watch) && Integrity(s.db)
    requires w in s.workers && s.workers[w].Resting? && NextEvent(s.db) == Some(event)
    ensures Fetch(SetStatus(s.db, event, Processing), event) == Some(row)
    ensures Arrives(config, start, At(s.(db := SetStatus(s.db, event, Processing)), w, Ready(event, row)), watch)
  {
    row := ClaimAndRead(config, s, w, event);
    ArrivesSolo(config, start, s, watch, w, At(s.(db := SetStatus(s.db, event, Processing)), w, Ready(event, row)));
  }

  lemma NextReads(config: Config, start: System, s: System, n: nat, k: nat) returns (row: Fetched)
    requires Arrives(config, start, s, NO_WATCH) && Stored(s, n, k) && Lined(s, n, k) && k < n
    ensures Fetch(SetStatus(s.db, k + 1, Processing), k + 1) == Some(row)
    ensures Arrives(config, start, At(s.(db := SetStatus(s.db, k + 1, Processing)), k, Ready(k + 1, row)), NO_WATCH)
  {
    NextInLine(s, n, k);
    row := ThenReads(config, start, s, k, k + 1, NO_WATCH);
  }

  lemma OneMoreReads(config: Config, start: System, s: System, n: nat, k: nat) returns (t: System)
    requires Arrives(config, start, s, NO_WATCH) && Stored(s, n, k) && Lined(s, n, k) && k < n
    ensures Arrives(config, start, t, NO_WATCH) && Stored(t, n, k + 1) && Lined(t, n, k + 1)
  {
    var row := NextReads(config, start, s, n, k);
    ClaimedRow(s, n, k, row);
    t := At(s.(db := SetStatus(s.db, k + 1, Processing)), k, Ready(k + 1, row));
  }

  lemma {:induction false} AllRead(config: Config, n: nat, k: nat) returns (s: System)
    requires k <= n
    ensures Arrives(config, Starting(n), s, NO_WATCH) && Stored(s, n, k) && Lined(s, n, k)
  {
    if k == 0 {
      s := StoresEvents(config, n, n);
    } else {
      s := AllRead(config, n, k - 1);
      s := OneMoreReads(config, Starting(n), s, n, k - 1);
    }
  }

  // --------------------------------------------------------------- what the breaker hears

  function AskCalls(n: nat): (calls: seq<Call>)
    ensures |calls| == n
  {
    seq(n, i => Ask(0))
  }

  function FailureCalls(n: nat): (calls: seq<Call>)
    ensures |calls| == n
  {
    seq(n, i => Failure(0))
  }

  lemma {:induction false} AsksAreClosed(n: nat)
    ensures FailureRun(AskCalls(n)) == 0
  {
    if n > 0 {
      AsksAreClosed(n - 1);
      assert AskCalls(n)[..n - 1] == AskCalls(n - 1);
    }
  }

  lemma {:induction false} FailuresAdd(a: nat, f: nat)
    ensures FailureRun(AskCalls(a) + FailureCalls(f)) == f
    ensures f > 0 ==> LastFailure(AskCalls(a) + FailureCalls(f)) == Some(0)
  {
    var calls := AskCalls(a) + FailureCalls(f);
    if f == 0 {
      AsksAreClosed(a);
      assert calls == AskCalls(a);
    } else {
      FailuresAdd(a, f - 1);
      assert calls[..|calls| - 1] == AskCalls(a) + FailureCalls(f - 1);
    }
  }

  /** The first a workers have asked, and the first f of them have reported a failure. */
  ghost predicate Reported(s: System, n: nat, a: nat, f: nat) {
    && (forall w: Id :: w in s.workers <==> w < n)
    && (forall w: Id :: f <= w < n ==> s.workers[w] == if w < a then Contacting(w + 1, ROW) else Ready(w + 1, ROW))
    && HistoryOf(s.calls, 0) == AskCalls(a) + FailureCalls(f)
    && s.clock == 0
  }

  lemma ClosedGrants(config: Config, a: nat)
    ensures StateFrom(config.failureThreshold, config.recovery, AskCalls(a) + FailureCalls(0), 0).Closed?
    ensures GrantsFrom(config.failureThreshold, config.recovery, AskCalls(a) + FailureCalls(0), 0)
  {
    FailuresAdd(a, 0);
  }

  lemma OneMoreAsks(config: Config, s: System, n: nat, a: nat)
    requires Reported(s, n, a, 0) && a < n
    ensures Enabled(s, Worker(a, AskBreaker(0)))
    ensures var t := Next(config, s, Worker(a, AskBreaker(0)));
      Reported(t, n, a + 1, 0) && WatchNext(config, s, 0, NO_WATCH, Worker(a, AskBreaker(0))) == NO_WATCH
  {
    ClosedGrants(config, a);
    assert AskCalls(a) + FailureCalls(0) + [Ask(0)] == AskCalls(a + 1) + FailureCalls(0);
  }

  lemma OneMoreReports(config: Config, s: System, n: nat, a: nat, f: nat)
    requires Reported(s, n, a, f) && f < a <= n
    ensures Enabled(s, Worker(f, Record(Http(500), 0)))
    ensures var t := Next(config, s, Worker(f, Record(Http(500), 0)));
      Reported(t, n, a, f + 1) && WatchNext(config, s, 0, NO_WATCH, Worker(f, Record(Http(500), 0))) == NO_WATCH
  {
    assert AskCalls(a) + FailureCalls(f) + [Failure(0)] == AskCalls(a) + FailureCalls(f + 1);
  }

  lemma {:induction false} SomeAsk(config: Config, n: nat, a: nat) returns (s: System)
    requires a <= n
    ensures Arrives(config, Starting(n), s, NO_WATCH) && Reported(s, n, a, 0)
  {
    if a == 0 {
      s := AllRead(config, n, n);
    } else {
      var before := SomeAsk(config, n, a - 1);
      OneMoreAsks(config, before, n, a - 1);
      ArrivesMore(config, Starting(n), before, NO_WATCH, Worker(a - 1, AskBreaker(0)));
      s := Next(config, before, Worker(a - 1, AskBreaker(0)));
    }
  }

  lemma {:induction false} SomeReport(config: Config, n: nat, a: nat, f: nat) returns (s: System)
    requires f <= a <= n
    ensures Arrives(config, Starting(n), s, NO_WATCH) && Reported(s, n, a, f)
  {
    if f == 0 {
      s := SomeAsk(config, n, a);
    } else {
      var before := SomeReport(config, n, a, f - 1);
      OneMoreReports(config, before, n, a, f - 1);
      ArrivesMore(config, Starting(n), before, NO_WATCH, Worker(f - 1, Record(Http(500), 0)));
      s := Next(config, before, Worker(f - 1, Record(Http(500), 0)));
    }
  }

  // ----------------------------------------------------------------------- the two probes

  /** The breaker has heard enough failures, the last of them just now. */
  ghost predicate Opened(config: Config, s: System) {
    var calls := HistoryOf(s.calls, 0);
    && calls != [] && calls[|calls| - 1] == Failure(s.clock)
    && FailureRun(calls) >= AtLeastOne(config.failureThreshold)
  }

  /** A recovery time later it sends out a probe, whoever else is out. */
  lemma ProbesAgain(config: Config, s: System, w: Id, event: Id, watch: Watch)
    requires Opened(config, s) && w in s.workers && s.workers[w] == Ready(event, ROW)
    ensures var at := s.clock + config.recovery;
            var move := Worker(w, AskBreaker(at));
            var t := Next(config, s, move);
      && Enabled(s, move) && WatchNext(config, s, 0, watch, move) == Watch(watch.out + {w}, watch.ahead + {w})
      && t.workers == s.workers[w := Contacting(event, ROW)] && t.clock == at
      && HistoryOf(t.calls, 0) == HistoryOf(s.calls, 0) + [Ask(at)]
  {
    var calls := HistoryOf(s.calls, 0);
    assert LastFailure(calls) == Some(s.clock);
    assert !GrantedSinceRecord(config.failureThreshold, config.recovery, calls);
    assert IsHalfOpen(config, s, 0, s.clock + config.recovery);
  }

  /** A late failure of another worker opens it again and overtakes the probe. */
  lemma ReportsLate(config: Config, s: System, w: Id, event: Id, watch: Watch)
    requires w in s.workers && s.workers[w] == Contacting(event, ROW) && w !in watch.out
    requires FailureRun(HistoryOf(s.calls, 0)) >= AtLeastOne(config.failureThreshold)
    ensures var move := Worker(w, Record(Http(500), s.clock));
            var t := Next(config, s, move);
      && Enabled(s, move) && WatchNext(config, s, 0, watch, move) == Watch(watch.out, {})
      && t.workers == s.workers[w := Heard(event, ROW, Http(500))] && Opened(config, t)
  {
    var calls := HistoryOf(s.calls, 0);
    assert (calls + [Failure(s.clock)])[..|calls|] == calls;
    assert watch.out - {w} == watch.out;
  }

  lemma AskKeepsFailures(calls: seq<Call>, at: Instant)
    ensures FailureRun(calls + [Ask(at)]) == FailureRun(calls)
  {
    assert (calls + [Ask(at)])[..|calls|] == calls;
  }

  lemma ThenProbes(config: Config, start: System, s: System, w: Id, event: Id, watch: Watch) returns (t: System)
    requires Arrives(config, start, s, watch)
    requires Opened(config, s) && w in s.workers && s.workers[w] == Ready(event, ROW)
    ensures Arrives(config, start, t, Watch(watch.out + {w}, watch.ahead + {w}))
    ensures t.workers == s.workers[w := Contacting(event, ROW)]
    ensures FailureRun(HistoryOf(t.calls, 0)) == FailureRun(HistoryOf(s.calls, 0))
  {
    var at := s.clock + config.recovery;
    ProbesAgain(config, s, w, event, watch);
    ArrivesMore(config, start, s, watch, Worker(w, AskBreaker(at)));
    AskKeepsFailures(HistoryOf(s.calls, 0), at);
    t := Next(config, s, Worker(w, AskBreaker(at)));
  }

  lemma ThenReportsLate(config: Config, start: System, s: System, w: Id, event: Id, watch: Watch) returns (t: System)
    requires Arrives(config, start, s, watch)
    requires w in s.workers && s.workers[w] == Contacting(event, ROW) && w !in watch.out
    requires FailureRun(HistoryOf(s.calls, 0)) >= AtLeastOne(config.failureThreshold)
    ensures Arrives(config, start, t, Watch(watch.out, {})) && Opened(config, t)
    ensures t.workers == s.workers[w := Heard(event, ROW, Http(500))]
  {
    ReportsLate(config, s, w, event, watch);
    ArrivesMore(config, start, s, watch, Worker(w, Record(Http(500), s.clock)));
    t := Next(config, s, Worker(w, Record(Http(500), s.clock)));
  }

  /** The breaker has opened, with one contact from before still out. */
  lemma OneContactStillOut(config: Config) returns (n: nat, s: System)
    ensures n >= 4 && Arrives(config, Starting(n), s, NO_WATCH) && Opened(config, s)
    ensures n - 3 in s.workers && s.workers[n - 3] == Contacting(n - 2, ROW)
    ensures n - 2 in s.workers && s.workers[n - 2] == Ready(n - 1, ROW)
    ensures n - 1 in s.workers && s.workers[n - 1] == Ready(n, ROW)
  {
    var limit := AtLeastOne(config.failureThreshold);
    n := limit + 3;
    s := SomeReport(config, n, limit + 1, limit);
    FailuresAdd(limit + 1, limit);
  }

  lemma OneProbeOut(config: Config) returns (n: nat, s: System)
    ensures n >= 4 && Arrives(config, Starting(n), s, Watch({n - 2}, {n - 2}))
    ensures FailureRun(HistoryOf(s.calls, 0)) >= AtLeastOne(config.failureThreshold)
    ensures n - 3 in s.workers && s.workers[n - 3] == Contacting(n - 2, ROW)
    ensures n - 1 in s.workers && s.workers[n - 1] == Ready(n, ROW)
  {
    n, s := OneContactStillOut(config);
    assert {} + {n - 2} == {n - 2};
    s := ThenProbes(config, Starting(n), s, n - 2, n - 1, NO_WATCH);
  }

  /** The probe has been overtaken. */
  lemma OneProbeOvertaken(config: Config) returns (n: nat, s: System)
    ensures n >= 4 && Arrives(config, Starting(n), s, Watch({n - 2}, {})) && Opened(config, s)
    ensures n - 1 in s.workers && s.workers[n - 1] == Ready(n, ROW)
  {
    n, s := OneProbeOut(config);
    s := ThenReportsLate(config, Starting(n), s, n - 3, n - 2, Watch({n - 2}, {n - 2}));
  }

  lemma TwoProbesLater(config: Config) returns (n: nat, s: System)
    ensures n >= 4 && Arrives(config, Starting(n), s, Watch({n - 2, n - 1}, {n - 1}))
  {
    n, s := OneProbeOvertaken(config);
    assert {n - 2} + {n - 1} == {n - 2, n - 1} && {} + {n - 1} == {n - 1};
    s := ThenProbes(config, Starting(n), s, n - 1, n, Watch({n - 2}, {}));
  }

  /** More than one probe of an endpoint can be out: for every configuration, from the
      start and without any storage fault. */
  lemma TwoProbesOut(config: Config) returns (n: nat, moves: seq<Move>)
    ensures IsStart(Starting(n)) && IsRun(config, Starting(n), moves) && AreFaultless(moves)
    ensures |Watched(config, Starting(n), moves, 0).out| == 2
  {
    var s;
    n, s := TwoProbesLater(config);
    moves :| ArrivesBy(config, Starting(n), moves, s, Watch({n - 2, n - 1}, {n - 1}));
  }
}
