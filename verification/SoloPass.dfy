/** A worker that nobody interrupts: its statements, one after another, add up to
    one whole pass. */
module SoloPasses {
  import opened Foundation
  import opened Tables
  import opened CircuitBreakers
  import opened Dispatching
  import opened StatementMachine

  /** Only this worker moves, no statement of it fails, and, if calm, it stays away
      from the breakers. */
  predicate IsSolo(moves: seq<Move>, w: Id, calm: bool) {
    forall m :: m in moves ==> m.Worker? && m.worker == w && IsSmooth(m.act, calm)
  }

  predicate IsSmooth(act: Act, calm: bool) {
    !act.Fault? && (calm ==> !act.AskBreaker? && !act.Record?)
  }

  /** The worker alone takes the system from one state to the other. */
  ghost predicate Leads(config: Config, s: System, w: Id, calm: bool, t: System) {
    exists moves :: LeadsBy(config, s, w, calm, moves, t)
  }

  ghost predicate LeadsBy(config: Config, s: System, w: Id, calm: bool, moves: seq<Move>, t: System) {
    IsRun(config, s, moves) && IsSolo(moves, w, calm) && End(config, s, moves) == t
  }

  lemma Here(config: Config, s: System, w: Id, calm: bool)
    ensures Leads(config, s, w, calm, s)
  {
    assert LeadsBy(config, s, w, calm, [], s);
  }

  lemma Then(config: Config, s: System, w: Id, calm: bool, t: System, act: Act)
    requires Leads(config, s, w, calm, t) && Enabled(t, Worker(w, act)) && IsSmooth(act, calm)
    ensures Leads(config, s, w, calm, ActNext(config, t, w, act))
  {
    var moves :| LeadsBy(config, s, w, calm, moves, t);
    var more := moves + [Worker(w, act)];
    assert more[..|moves|] == moves;
    assert LeadsBy(config, s, w, calm, more, ActNext(config, t, w, act));
  }

  lemma CalmOrNot(config: Config, s: System, w: Id, t: System)
    requires Leads(config, s, w, true, t)
    ensures Leads(config, s, w, false, t)
  {
    var moves :| LeadsBy(config, s, w, true, moves, t);
    assert LeadsBy(config, s, w, false, moves, t);
  }

  lemma OnlyTheLastPlaceCounts(s: System, w: Id, p: Pc, q: Pc)
    ensures At(At(s, w, p), w, q) == At(s, w, q)
  {
    assert s.workers[w := p][w := q] == s.workers[w := q];
  }

  // One lemma for each statement: where it takes the worker.

  lemma Claims(config: Config, s: System, w: Id, event: Id)
    requires w in s.workers && s.workers[w].Resting? && NextEvent(s.db) == Some(event)
    ensures Leads(config, s, w, true, At(s.(db := SetStatus(s.db, event, Processing)), w, Claimed(event)))
  {
    Here(config, s, w, true);
    Then(config, s, w, true, s, Claim);
  }

  lemma ReadsEvent(config: Config, s: System, w: Id, t: System, event: Id)
    requires Leads(config, s, w, true, t) && w in t.workers && t.workers[w] == Claimed(event) && event in t.db.events
    ensures Leads(config, s, w, true, At(t, w, HasEvent(event, t.db.events[event].endpointId, t.db.events[event].body)))
  {
    Then(config, s, w, true, t, Read);
  }

  lemma ReadsUrl(config: Config, s: System, w: Id, t: System, event: Id, endpoint: Id, body: seq<Byte>)
    requires Leads(config, s, w, true, t) && w in t.workers && t.workers[w] == HasEvent(event, endpoint, body)
    requires endpoint in t.db.endpoints
    ensures Leads(config, s, w, true, At(t, w, HasUrl(event, endpoint, t.db.endpoints[endpoint].targetUrl, body)))
  {
    Then(config, s, w, true, t, Read);
  }

  lemma CountsAttempts(config: Config, s: System, w: Id, t: System, event: Id, endpoint: Id, url: string,
                       body: seq<Byte>)
    requires Leads(config, s, w, true, t) && w in t.workers && t.workers[w] == HasUrl(event, endpoint, url, body)
    ensures Leads(config, s, w, true, At(t, w, Ready(event, Fetched(endpoint, url, body, |AttemptsOf(t.db, event)|))))
  {
    Then(config, s, w, true, t, Read);
  }

  lemma Asks(config: Config, s: System, w: Id, t: System, event: Id, row: Fetched, at: Instant)
    requires Leads(config, s, w, false, t) && w in t.workers && t.workers[w] == Ready(event, row) && t.clock <= at
    ensures Leads(config, s, w, false, At(t.(calls := Extended(t.calls, row.endpoint, Ask(at)), clock := at), w,
      if GrantsFrom(config.failureThreshold, config.recovery, HistoryOf(t.calls, row.endpoint), at)
      then Contacting(event, row) else Withheld(event)))
  {
    Then(config, s, w, false, t, AskBreaker(at));
  }

  lemma Withdraws(config: Config, s: System, w: Id, t: System, event: Id)
    requires Leads(config, s, w, false, t) && w in t.workers && t.workers[w] == Withheld(event)
    ensures Leads(config, s, w, false, At(t.(db := SetStatus(t.db, event, Received)), w, Resting))
  {
    Then(config, s, w, false, t, Requeue);
  }

  lemma Records(config: Config, s: System, w: Id, t: System, event: Id, row: Fetched, response: Response, at: Instant)
    requires Leads(config, s, w, false, t) && w in t.workers && t.workers[w] == Contacting(event, row) && t.clock <= at
    ensures Leads(config, s, w, false,
      At(t.(calls := Extended(t.calls, row.endpoint, Verdict(response, at)), clock := at), w,
         Heard(event, row, response)))
  {
    Then(config, s, w, false, t, Record(response, at));
  }

  lemma LogEffect(config: Config, w: Id, t: System, event: Id, row: Fetched, input: Input, after: Database)
    requires w in t.workers && t.workers[w] == Heard(event, row, input.response)
    requires input.attemptId !in t.minted
    requires InsertAttempt(t.db, input.attemptId, AttemptRow(event, row.tried + 1, input.response, input.wall))
          == Some(after)
    ensures ActNext(config, t, w, Log(input.attemptId, input.wall)) ==
      At(t.(db := after, minted := t.minted + {input.attemptId}), w, Logged(event, row, input.response))
  {
  }

  lemma Logs(config: Config, s: System, w: Id, t: System, event: Id, row: Fetched, input: Input, after: Database)
    requires Leads(config, s, w, false, t) && w in t.workers && t.workers[w] == Heard(event, row, input.response)
    requires input.attemptId !in t.minted
    requires InsertAttempt(t.db, input.attemptId, AttemptRow(event, row.tried + 1, input.response, input.wall))
          == Some(after)
    ensures Leads(config, s, w, false,
      At(t.(db := after, minted := t.minted + {input.attemptId}), w, Logged(event, row, input.response)))
  {
    LogEffect(config, w, t, event, row, input, after);
    Then(config, s, w, false, t, Log(input.attemptId, input.wall));
  }

  lemma Settles(config: Config, s: System, w: Id, t: System, event: Id, row: Fetched, response: Response)
    requires Leads(config, s, w, false, t) && w in t.workers && t.workers[w] == Logged(event, row, response)
    ensures var status := FinalStatus(config, row.tried + 1, response);
      Leads(config, s, w, false, At(t.(db := SetStatus(t.db, event, status)), w,
                             if status.Failed? then Burying(event, row, response) else Resting))
  {
    Then(config, s, w, false, t, SetFinal);
  }

  lemma Buries(config: Config, s: System, w: Id, t: System, event: Id, row: Fetched, input: Input, after: Database)
    requires Leads(config, s, w, false, t) && w in t.workers && t.workers[w] == Burying(event, row, input.response)
    requires input.letterId !in t.minted
    requires PutDeadLetter(t.db, input.letterId, DeadLetterRow(event, row.endpoint, input.response, input.wall))
          == Some(after)
    ensures Leads(config, s, w, false, At(t.(db := after, minted := t.minted + {input.letterId}), w, Resting))
  {
    Then(config, s, w, false, t, Bury(input.letterId, input.wall));
    assert ActNext(config, t, w, Bury(input.letterId, input.wall)) ==
      At(t.(db := after, minted := t.minted + {input.letterId}), w, Resting);
  }

  /** The claim and the first two reads. */
  lemma ClaimAndLocate(config: Config, s: System, w: Id, event: Id)
    requires Integrity(s.db) && w in s.workers && s.workers[w].Resting? && NextEvent(s.db) == Some(event)
    ensures var claimed := SetStatus(s.db, event, Processing);
      var e := claimed.events[event];
      Leads(config, s, w, true,
        At(s.(db := claimed), w, HasUrl(event, e.endpointId, claimed.endpoints[e.endpointId].targetUrl, e.body)))
  {
    Claims(config, s, w, event);
    var t := s.(db := SetStatus(s.db, event, Processing));
    var e := t.db.events[event];
    ReadsEvent(config, s, w, At(t, w, Claimed(event)), event);
    var fetched := HasEvent(event, e.endpointId, e.body);
    OnlyTheLastPlaceCounts(t, w, Claimed(event), fetched);
    ReadsUrl(config, s, w, At(t, w, fetched), event, e.endpointId, e.body);
    OnlyTheLastPlaceCounts(t, w, fetched,
                           HasUrl(event, e.endpointId, t.db.endpoints[e.endpointId].targetUrl, e.body));
  }

  /** The claim and the three reads. */
  lemma ClaimAndRead(config: Config, s: System, w: Id, event: Id) returns (row: Fetched)
    requires Integrity(s.db) && w in s.workers && s.workers[w].Resting? && NextEvent(s.db) == Some(event)
    ensures var claimed := SetStatus(s.db, event, Processing);
      && Fetch(claimed, event) == Some(row)
      && Leads(config, s, w, true, At(s.(db := claimed), w, Ready(event, row)))
  {
    ClaimAndLocate(config, s, w, event);
    var t := s.(db := SetStatus(s.db, event, Processing));
    var e := t.db.events[event];
    var url := t.db.endpoints[e.endpointId].targetUrl;
    var located := HasUrl(event, e.endpointId, url, e.body);
    CountsAttempts(config, s, w, At(t, w, located), event, e.endpointId, url, e.body);
    row := Fetched(e.endpointId, url, e.body, |AttemptsOf(t.db, event)|);
    OnlyTheLastPlaceCounts(t, w, located, Ready(event, row));
  }

  /** The claim, the three reads, and the question to the breaker. */
  lemma ClaimReadAsk(config: Config, s: System, w: Id, event: Id, at: Instant) returns (row: Fetched)
    requires Integrity(s.db) && w in s.workers && s.workers[w].Resting?
    requires NextEvent(s.db) == Some(event) && s.clock <= at
    ensures var claimed := SetStatus(s.db, event, Processing);
      && Fetch(claimed, event) == Some(row)
      && Leads(config, s, w, false,
           At(s.(db := claimed, calls := Extended(s.calls, row.endpoint, Ask(at)), clock := at), w,
              if GrantsFrom(config.failureThreshold, config.recovery, HistoryOf(s.calls, row.endpoint), at)
              then Contacting(event, row) else Withheld(event)))
  {
    row := ClaimAndRead(config, s, w, event);
    var t := s.(db := SetStatus(s.db, event, Processing));
    CalmOrNot(config, s, w, At(t, w, Ready(event, row)));
    Asks(config, s, w, At(t, w, Ready(event, row)), event, row, at);
    OnlyTheLastPlaceCounts(t.(calls := Extended(s.calls, row.endpoint, Ask(at)), clock := at), w, Ready(event, row),
      if GrantsFrom(config.failureThreshold, config.recovery, HistoryOf(s.calls, row.endpoint), at)
      then Contacting(event, row) else Withheld(event));
  }

  /** Settling as the statements do it: log, set the final status, bury. */
  lemma SettleByStatements(config: Config, db: Database, event: Id, endpoint: Id, tried: nat, input: Input)
    requires event in db.events && input.attemptId !in db.attempts
    ensures
      var recorded := InsertAttempt(db, input.attemptId, AttemptRow(event, tried + 1, input.response, input.wall));
      recorded.Some? &&
      var status := FinalStatus(config, tried + 1, input.response);
      var final := SetStatus(recorded.value, event, status);
      var buried := PutDeadLetter(final, input.letterId, DeadLetterRow(event, endpoint, input.response, input.wall));
      buried.Some? &&
      Settle(config, db, event, endpoint, tried + 1, input) == (if status.Failed? then buried.value else final, true)
  {
  }

  /** From a granted attempt to a logged one. */
  lemma ContactAndLog(config: Config, s: System, w: Id, u: System, event: Id, row: Fetched, input: Input)
    returns (t: System)
    requires Leads(config, s, w, false, u)
    requires w in u.workers && u.workers[w] == Contacting(event, row) && event in u.db.events
    requires u.clock <= input.recordedAt && u.db.attempts.Keys <= u.minted && input.attemptId !in u.minted
    ensures Leads(config, s, w, false, t)
    ensures
      var attempt := AttemptRow(event, row.tried + 1, input.response, input.wall);
      var recorded := InsertAttempt(u.db, input.attemptId, attempt);
      && recorded.Some?
      && t == At(
           u.(db := recorded.value, clock := input.recordedAt, minted := u.minted + {input.attemptId},
              calls := Extended(u.calls, row.endpoint, Verdict(input.response, input.recordedAt))),
           w, Logged(event, row, input.response))
  {
    var told := Extended(u.calls, row.endpoint, Verdict(input.response, input.recordedAt));
    Records(config, s, w, u, event, row, input.response, input.recordedAt);
    t := At(u.(calls := told, clock := input.recordedAt), w, Heard(event, row, input.response));
    var attempt := AttemptRow(event, row.tried + 1, input.response, input.wall);
    var recorded := InsertAttempt(u.db, input.attemptId, attempt).value;
    Logs(config, s, w, t, event, row, input, recorded);
    var v := u.(db := recorded, clock := input.recordedAt, minted := u.minted + {input.attemptId}, calls := told);
    OnlyTheLastPlaceCounts(v, w, Heard(event, row, input.response), Logged(event, row, input.response));
    t := At(v, w, Logged(event, row, input.response));
  }

  /** From a logged attempt back to rest. */
  lemma SettleAndBury(config: Config, s: System, w: Id, u: System, event: Id, row: Fetched, input: Input)
    returns (t: System)
    requires Leads(config, s, w, false, u) && w in u.workers && u.workers[w] == Logged(event, row, input.response)
    requires event in u.db.events && input.letterId !in u.minted
    ensures Leads(config, s, w, false, t)
    ensures var status := FinalStatus(config, row.tried + 1, input.response);
      var final := SetStatus(u.db, event, status);
      var letter := DeadLetterRow(event, row.endpoint, input.response, input.wall);
      var buried := PutDeadLetter(final, input.letterId, letter);
      buried.Some? && t.db == if status.Failed? then buried.value else final
    ensures t.workers == u.workers[w := Resting]
    ensures t.calls == u.calls && t.replays == u.replays && t.stranded == u.stranded && t.clock == u.clock
    ensures t.minted <= u.minted + {input.letterId}
  {
    var status := FinalStatus(config, row.tried + 1, input.response);
    Settles(config, s, w, u, event, row, input.response);
    t := At(u.(db := SetStatus(u.db, event, status)), w,
            if status.Failed? then Burying(event, row, input.response) else Resting);
    if status.Failed? {
      var letter := DeadLetterRow(event, row.endpoint, input.response, input.wall);
      var buried := PutDeadLetter(t.db, input.letterId, letter).value;
      Buries(config, s, w, t, event, row, input, buried);
      var v := u.(db := buried, minted := u.minted + {input.letterId});
      OnlyTheLastPlaceCounts(v, w, Burying(event, row, input.response), Resting);
      t := At(v, w, Resting);
    }
  }

  /** From a granted attempt back to rest. */
  lemma ContactAndSettle(config: Config, s: System, w: Id, u: System, event: Id, row: Fetched, input: Input)
    returns (t: System)
    requires Leads(config, s, w, false, u)
    requires w in u.workers && u.workers[w] == Contacting(event, row) && event in u.db.events
    requires u.clock <= input.recordedAt && u.db.attempts.Keys <= u.minted
    requires input.attemptId !in u.minted && input.letterId !in u.minted && input.attemptId != input.letterId
    ensures Leads(config, s, w, false, t)
    ensures Settle(config, u.db, event, row.endpoint, row.tried + 1, input) == (t.db, true)
    ensures t.calls == Extended(u.calls, row.endpoint, Verdict(input.response, input.recordedAt))
    ensures t.workers == u.workers[w := Resting] && t.replays == u.replays && t.stranded == u.stranded
    ensures t.minted <= u.minted + {input.attemptId, input.letterId} && t.clock == input.recordedAt
  {
    var logged := ContactAndLog(config, s, w, u, event, row, input);
    t := SettleAndBury(config, s, w, logged, event, row, input);
    assert Settle(config, u.db, event, row.endpoint, row.tried + 1, input) == (t.db, true) by {
      SettleByStatements(config, u.db, event, row.endpoint, row.tried, input);
    }
    assert t.workers == u.workers[w := Resting] by {
      OnlyTheLastPlaceCounts(u, w, Logged(event, row, input.response), Resting);
    }
  }

  /** A whole pass whose attempt the breaker refuses. */
  lemma DeferredPass(config: Config, db: Database, calls: Histories, input: Input, event: Id, row: Fetched)
    requires NextEvent(db) == Some(event)
    requires var claimed := SetStatus(db, event, Processing);
      && Fetch(claimed, event) == Some(row)
      && !GrantsFrom(config.failureThreshold, config.recovery, HistoryOf(calls, row.endpoint), input.askedAt)
    ensures RunOnce(config, db, calls, input) ==
      Pass(SetStatus(SetStatus(db, event, Processing), event, Received),
           Extended(calls, row.endpoint, Ask(input.askedAt)), Deferred, None)
  {
  }

  /** A whole pass that contacts the downstream. */
  lemma ContactingPass(config: Config, db: Database, calls: Histories, input: Input, event: Id, row: Fetched,
                       settled: Database)
    requires NextEvent(db) == Some(event)
    requires var claimed := SetStatus(db, event, Processing);
      && Fetch(claimed, event) == Some(row)
      && GrantsFrom(config.failureThreshold, config.recovery, HistoryOf(calls, row.endpoint), input.askedAt)
      && Settle(config, claimed, event, row.endpoint, row.tried + 1, input) == (settled, true)
    ensures RunOnce(config, db, calls, input) ==
      Pass(settled,
           Extended(Extended(calls, row.endpoint, Ask(input.askedAt)), row.endpoint,
                    Verdict(input.response, input.recordedAt)),
           Settled, Some(Request(event, row, input)))
  {
  }

  /** Whatever the other workers and the replays were doing, a worker that runs its
      statements without interruption does exactly what one whole pass does. */
  lemma SoloPass(config: Config, s: System, w: Id, input: Input) returns (t: System)
    requires Integrity(s.db) && s.db.attempts.Keys <= s.minted
    requires w in s.workers && s.workers[w].Resting?
    requires s.clock <= input.askedAt <= input.recordedAt
    requires input.attemptId !in s.minted && input.letterId !in s.minted && input.attemptId != input.letterId
    ensures Leads(config, s, w, false, t)
    ensures var pass := RunOnce(config, s.db, s.calls, input);
      && t.db == pass.db && t.calls == pass.calls && pass.outcome != Errored
      && t.workers == s.workers && t.replays == s.replays && t.stranded == s.stranded
      && t.minted <= s.minted + {input.attemptId, input.letterId} && t.clock <= input.recordedAt
  {
    if NextEvent(s.db).None? {
      Here(config, s, w, false);
      t := s;
    } else {
      var event := NextEvent(s.db).value;
      var row := ClaimReadAsk(config, s, w, event, input.askedAt);
      var claimed := SetStatus(s.db, event, Processing);
      var asked := Extended(s.calls, row.endpoint, Ask(input.askedAt));
      var granted :=
        GrantsFrom(config.failureThreshold, config.recovery, HistoryOf(s.calls, row.endpoint), input.askedAt);
      t := At(s.(db := claimed, calls := asked, clock := input.askedAt), w,
              if granted then Contacting(event, row) else Withheld(event));
      assert t.workers[w := Resting] == s.workers;
      if granted {
        t := ContactAndSettle(config, s, w, t, event, row, input);
        ContactingPass(config, s.db, s.calls, input, event, row, t.db);
      } else {
        Withdraws(config, s, w, t, event);
        t := At(t.(db := SetStatus(claimed, event, Received)), w, Resting);
        DeferredPass(config, s.db, s.calls, input, event, row);
      }
    }
  }
}
