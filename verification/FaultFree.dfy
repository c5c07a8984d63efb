/** Runs in which no storage statement fails: the only errors a worker meets are
    rows that have gone with their endpoint. */
module FaultFree {
  import opened Foundation
  import opened Tables
  import opened Operations
  import opened Dispatching
  import opened StatementMachine
  import opened Leases

  predicate Faultless(move: Move) {
    move.Worker? ==> !move.act.Fault?
  }

  /** What a worker has read of its event is still so, and an error means that the
      event is gone. */
  predicate ReadsTrue(db: Database, pc: Pc) {
    match pc
    case HasEvent(event, endpoint, _) => event in db.events ==> db.events[event].endpointId == endpoint
    case Erring(event) => event !in db.events
    case _ => true
  }

  ghost predicate AttemptsKnown(s: System) {
    s.db.attempts.Keys <= s.minted
  }

  ghost predicate Untroubled(s: System) {
    s.stranded == {} && forall w :: w in s.workers ==> ReadsTrue(s.db, s.workers[w])
  }

  lemma ActKeepsAttemptsKnown(config: Config, s: System, w: Id, act: Act)
    requires AttemptsKnown(s) && Enabled(s, Worker(w, act))
    ensures AttemptsKnown(ActNext(config, s, w, act))
  {
  }

  lemma MoveKeepsAttemptsKnown(config: Config, s: System, move: Move)
    requires AttemptsKnown(s) && Integrity(s.db) && Enabled(s, move)
    ensures AttemptsKnown(Next(config, s, move))
  {
    match move
    case Worker(w, act) => ActKeepsAttemptsKnown(config, s, w, act);
    case RemoveEndpoint(id) => RetireMeans(s.db, id);
    case ReplayWhole(letter) => ReplayMeans(s.db, letter);
    case _ =>
  }

  lemma {:induction false} RunKeepsAttemptsKnown(config: Config, start: System, moves: seq<Move>)
    requires IsStart(start) && IsRun(config, start, moves)
    ensures AttemptsKnown(End(config, start, moves))
  {
    if moves != [] {
      var before := moves[..|moves| - 1];
      RunKeepsAttemptsKnown(config, start, before);
      RunKeepsIntegrity(config, start, before);
      MoveKeepsAttemptsKnown(config, End(config, start, before), moves[|moves| - 1]);
    }
  }

  lemma ActKeepsUntroubled(config: Config, s: System, w: Id, act: Act)
    requires Untroubled(s) && AttemptsKnown(s) && EventsHaveEndpoints(s.db)
    requires Enabled(s, Worker(w, act)) && !act.Fault?
    ensures Untroubled(ActNext(config, s, w, act))
  {
    var t := ActNext(config, s, w, act);
    assert ReadsTrue(s.db, s.workers[w]);
    forall v | v in t.workers
      ensures ReadsTrue(t.db, t.workers[v])
    {
      assert v in s.workers && ReadsTrue(s.db, s.workers[v]);
    }
  }

  /** A handler's move brings no event back and moves none to another endpoint. */
  lemma HandlerKeepsUntroubled(s: System, t: System)
    requires Untroubled(s) && KnownEvents(s) && t.workers == s.workers && t.stranded == s.stranded
    requires forall e :: e in t.db.events && e in s.minted ==>
      e in s.db.events && t.db.events[e].endpointId == s.db.events[e].endpointId
    ensures Untroubled(t)
  {
    forall w | w in t.workers
      ensures ReadsTrue(t.db, t.workers[w])
    {
      assert ReadsTrue(s.db, s.workers[w]);
      assert !s.workers[w].Resting? ==> HeldBy(s, w, s.workers[w].event);
    }
  }

  lemma RetireKeepsUntroubled(config: Config, s: System, id: Id)
    requires Untroubled(s) && KnownEvents(s) && Integrity(s.db)
    ensures Untroubled(Next(config, s, RemoveEndpoint(id)))
  {
    RetireMeans(s.db, id);
    HandlerKeepsUntroubled(s, Next(config, s, RemoveEndpoint(id)));
  }

  lemma ReplayKeepsUntroubled(config: Config, s: System, letter: Id)
    requires Untroubled(s) && KnownEvents(s) && Integrity(s.db)
    ensures Untroubled(Next(config, s, ReplayWhole(letter)))
  {
    ReplayMeans(s.db, letter);
    HandlerKeepsUntroubled(s, Next(config, s, ReplayWhole(letter)));
  }

  lemma MoveKeepsUntroubled(config: Config, s: System, move: Move)
    requires Untroubled(s) && KnownEvents(s) && AttemptsKnown(s) && Integrity(s.db)
    requires Enabled(s, move) && Faultless(move)
    ensures Untroubled(Next(config, s, move))
  {
    match move
    case Worker(w, act) => ActKeepsUntroubled(config, s, w, act);
    case RemoveEndpoint(id) => RetireKeepsUntroubled(config, s, id);
    case ReplayWhole(letter) => ReplayKeepsUntroubled(config, s, letter);
    case _ => HandlerKeepsUntroubled(s, Next(config, s, move));
  }

  lemma {:induction false} RunKeepsUntroubled(config: Config, start: System, moves: seq<Move>)
    requires IsStart(start) && IsRun(config, start, moves) && forall m :: m in moves ==> Faultless(m)
    ensures Untroubled(End(config, start, moves))
  {
    if moves != [] {
      var before, last := moves[..|moves| - 1], moves[|moves| - 1];
      RunKeepsUntroubled(config, start, before);
      RunKeepsIntegrity(config, start, before);
      RunKeepsKnown(config, start, before);
      RunKeepsAttemptsKnown(config, start, before);
      assert last in moves;
      MoveKeepsUntroubled(config, End(config, start, before), last);
    }
  }
}
