/** What the breakers are told, and what the tables keep, of the answers that any number
    of workers get, with faults and replays between their statements. */
module StatementAnswers {
  import opened Foundation
  import opened Tables
  import opened Operations
  import opened CircuitBreakers
  import opened Dispatching
  import opened StatementMachine
  import opened StatementLedger
  import opened Answers

  // ---------------------------------------------------------- what the breakers hear

  function AnswerIn(s: System, move: Move, endpoint: Id): Option<Answer>
    requires Enabled(s, move)
  {
    match move
    case Worker(w, Record(response, at)) =>
      if s.workers[w].row.endpoint == endpoint then Some(Answer(response, at)) else None
    case _ => None
  }

  /** The answers that workers recorded for one endpoint, in order. */
  ghost function AnswersHeard(config: Config, start: System, moves: seq<Move>, endpoint: Id): seq<Answer>
    requires IsRun(config, start, moves)
  {
    if moves == [] then []
    else
      var before := moves[..|moves| - 1];
      var answer := AnswerIn(End(config, start, before), moves[|moves| - 1], endpoint);
      AnswersHeard(config, start, before, endpoint) + (if answer.Some? then [answer.value] else [])
  }

  lemma OtherMovesTellNothing(config: Config, s: System, move: Move)
    requires Enabled(s, move) && (move.Worker? ==> !move.act.AskBreaker? && !move.act.Record?)
    ensures Next(config, s, move).calls == s.calls
  {
  }

  lemma MoveTells(config: Config, s: System, move: Move, endpoint: Id)
    requires Enabled(s, move)
    ensures var before, after := HistoryOf(s.calls, endpoint), HistoryOf(Next(config, s, move).calls, endpoint);
      var answer := AnswerIn(s, move, endpoint);
      if answer.None? then ResultsIn(after) == ResultsIn(before)
      else exists call :: Reports(call, answer.value) && ResultsIn(after) == ResultsIn(before) + [call]
  {
    var before := HistoryOf(s.calls, endpoint);
    if move.Worker? && move.act.AskBreaker? {
      ResultsOneMore(before, Ask(move.act.at));
    } else if move.Worker? && move.act.Record? {
      var answer := Answer(move.act.response, move.act.at);
      var call := if IsOk(answer.response) then Success(answer.at) else Failure(answer.at);
      ResultsOneMore(before, call);
      assert Reports(call, answer);
    } else {
      OtherMovesTellNothing(config, s, move);
    }
  }

  /** In every run, with any number of workers, faults and replays whole or interleaved,
      and for every endpoint: the results its breaker was told are, one by one and in
      order, what the workers were answered. */
  lemma {:induction false} BreakersHearTheAnswers(config: Config, start: System, moves: seq<Move>, endpoint: Id)
    requires IsStart(start) && IsRun(config, start, moves)
    ensures ReportsAll(ResultsIn(HistoryOf(End(config, start, moves).calls, endpoint)),
                       AnswersHeard(config, start, moves, endpoint))
  {
    if moves != [] {
      var before, last := moves[..|moves| - 1], moves[|moves| - 1];
      var s := End(config, start, before);
      BreakersHearTheAnswers(config, start, before, endpoint);
      MoveTells(config, s, last, endpoint);
      var answer := AnswerIn(s, last, endpoint);
      if answer.Some? {
        var heard, after := HistoryOf(s.calls, endpoint), HistoryOf(Next(config, s, last).calls, endpoint);
        var call :| Reports(call, answer.value) && ResultsIn(after) == ResultsIn(heard) + [call];
        ReportsOneMore(ResultsIn(heard), AnswersHeard(config, start, before, endpoint), call, answer.value);
      }
    }
  }

  // ------------------------------------------------------------- what the tables keep

  /** At this move a worker got this answer for this event, on its try of this number. */
  ghost predicate GotAnswer(config: Config, start: System, moves: seq<Move>, i: nat, event: Id, number: nat,
                            response: Response)
  {
    && i < |moves| && moves[i].Worker? && moves[i].act.Record? && moves[i].act.response == response
    && var s := End(config, start, moves[..i]);
       && moves[i].worker in s.workers && s.workers[moves[i].worker].Contacting?
       && s.workers[moves[i].worker].event == event && s.workers[moves[i].worker].row.tried + 1 == number
  }

  ghost predicate WasAnswered(config: Config, start: System, moves: seq<Move>, event: Id, number: nat,
                              response: Response)
  {
    exists i: nat :: GotAnswer(config, start, moves, i, event, number, response)
  }

  ghost predicate RowIsAnswered(config: Config, start: System, moves: seq<Move>, attempt: Attempt) {
    exists response ::
      Tells(attempt, response) && WasAnswered(config, start, moves, attempt.eventId, attempt.number, response)
  }

  /** A worker with a verdict to log got it for this event and number. */
  ghost predicate HeardTruly(config: Config, start: System, moves: seq<Move>, pc: Pc) {
    pc.Heard? ==> WasAnswered(config, start, moves, pc.event, pc.row.tried + 1, pc.response)
  }

  lemma AnsweredLater(config: Config, start: System, moves: seq<Move>, move: Move, event: Id, number: nat,
                      response: Response)
    requires WasAnswered(config, start, moves, event, number, response)
    ensures WasAnswered(config, start, moves + [move], event, number, response)
  {
    var i: nat :| GotAnswer(config, start, moves, i, event, number, response);
    assert (moves + [move])[..i] == moves[..i];
    assert GotAnswer(config, start, moves + [move], i, event, number, response);
  }

  lemma RowAnsweredLater(config: Config, start: System, moves: seq<Move>, move: Move, attempt: Attempt)
    requires RowIsAnswered(config, start, moves, attempt)
    ensures RowIsAnswered(config, start, moves + [move], attempt)
  {
    var response :|
      Tells(attempt, response) && WasAnswered(config, start, moves, attempt.eventId, attempt.number, response);
    AnsweredLater(config, start, moves, move, attempt.eventId, attempt.number, response);
  }

  /** A move changes no attempt, and adds at most the one its worker has heard of. */
  lemma MoveOnAttempts(config: Config, s: System, move: Move, a: Id)
    requires Enabled(s, move) && Integrity(s.db) && a in Next(config, s, move).db.attempts
    ensures
      || (a in s.db.attempts && Next(config, s, move).db.attempts[a] == s.db.attempts[a])
      || (move.Worker? && move.act.Log? &&
          var pc := s.workers[move.worker];
          var row := Next(config, s, move).db.attempts[a];
          row.eventId == pc.event && row.number == pc.row.tried + 1 && Tells(row, pc.response))
  {
    match move
    case Worker(w, act) => if !act.Log? { ActLeavesAttempts(config, s, w, act); }
    case RemoveEndpoint(id) => RetireMeans(s.db, id);
    case ReplayWhole(letter) => ReplayMeans(s.db, letter);
    case _ =>
  }

  /** The only place where a worker hears a verdict is the record of its contact. */
  lemma ActOnVerdicts(config: Config, s: System, w: Id, act: Act)
    requires Enabled(s, Worker(w, act))
    ensures var q := ActNext(config, s, w, act).workers[w];
      q.Heard? ==> act.Record? && s.workers[w].Contacting? && q.event == s.workers[w].event &&
                   q.row == s.workers[w].row && q.response == act.response
  {
  }

  lemma MoveOnVerdicts(config: Config, start: System, moves: seq<Move>, s: System, move: Move, w: Id)
    requires s == End(config, start, moves) && Enabled(s, move) && w in Next(config, s, move).workers
    requires forall v :: v in s.workers ==> HeardTruly(config, start, moves, s.workers[v])
    ensures HeardTruly(config, start, moves + [move], Next(config, s, move).workers[w])
  {
    if move.Worker? {
      ActMovesOne(config, s, move.worker, move.act);
      ActOnVerdicts(config, s, move.worker, move.act);
    }
    var pc := Next(config, s, move).workers[w];
    if pc.Heard? {
      if move.Worker? && move.worker == w {
        assert (moves + [move])[..|moves|] == moves;
        assert GotAnswer(config, start, moves + [move], |moves|, pc.event, pc.row.tried + 1, pc.response);
      } else {
        assert pc == s.workers[w];
        AnsweredLater(config, start, moves, move, pc.event, pc.row.tried + 1, pc.response);
      }
    }
  }

  /** All rows and all workers have their answers in the run. */
  ghost predicate AllAnswered(config: Config, start: System, moves: seq<Move>, s: System) {
    && (forall a :: a in s.db.attempts ==> RowIsAnswered(config, start, moves, s.db.attempts[a]))
    && (forall w :: w in s.workers ==> HeardTruly(config, start, moves, s.workers[w]))
  }

  lemma MoveOnRow(config: Config, start: System, moves: seq<Move>, s: System, move: Move, a: Id)
    requires AllAnswered(config, start, moves, s) && Integrity(s.db) && Enabled(s, move)
    requires a in Next(config, s, move).db.attempts
    ensures RowIsAnswered(config, start, moves + [move], Next(config, s, move).db.attempts[a])
  {
    MoveOnAttempts(config, s, move, a);
    var row := Next(config, s, move).db.attempts[a];
    if a in s.db.attempts && row == s.db.attempts[a] {
      assert RowIsAnswered(config, start, moves, s.db.attempts[a]);
      RowAnsweredLater(config, start, moves, move, row);
    } else {
      var pc := s.workers[move.worker];
      assert HeardTruly(config, start, moves, pc);
      AnsweredLater(config, start, moves, move, pc.event, pc.row.tried + 1, pc.response);
    }
  }

  lemma {:induction false} RunIsAnswered(config: Config, start: System, moves: seq<Move>)
    requires IsStart(start) && IsRun(config, start, moves)
    ensures AllAnswered(config, start, moves, End(config, start, moves))
  {
    if moves != [] {
      var before, last := moves[..|moves| - 1], moves[|moves| - 1];
      var s, t := End(config, start, before), End(config, start, moves);
      assert before + [last] == moves;
      RunIsAnswered(config, start, before);
      RunKeepsIntegrity(config, start, before);
      forall a | a in t.db.attempts
        ensures RowIsAnswered(config, start, moves, t.db.attempts[a])
      {
        MoveOnRow(config, start, before, s, last, a);
      }
      forall w | w in t.workers
        ensures HeardTruly(config, start, moves, t.workers[w])
      {
        MoveOnVerdicts(config, start, before, s, last, w);
      }
    }
  }

  /** In every run, with any number of workers, faults and replays whole or interleaved:
      every attempt on file tells an answer that a worker got, at some move of the run,
      for that event and on the try of that number. */
  lemma AttemptsTellTheAnswers(config: Config, start: System, moves: seq<Move>, a: Id)
    requires IsStart(start) && IsRun(config, start, moves) && a in End(config, start, moves).db.attempts
    ensures var row := End(config, start, moves).db.attempts[a];
      exists response, i: nat ::
        Tells(row, response) && GotAnswer(config, start, moves, i, row.eventId, row.number, response)
  {
    RunIsAnswered(config, start, moves);
    var row := End(config, start, moves).db.attempts[a];
    var response :|
      Tells(row, response) && WasAnswered(config, start, moves, row.eventId, row.number, response);
    var i: nat :| GotAnswer(config, start, moves, i, row.eventId, row.number, response);
  }
}
