/** The attempt ledger at statement granularity: the numbering, under any faults, and
    exactly when interleaved replays keep it. */
module StatementLedger {
  import opened Foundation
  import opened Tables
  import opened Operations
  import opened Dispatching
  import opened StatementMachine
  import opened Leases
  import opened FaultFree
  import Delivery = DeliveryMachine

  function Tried(db: Database, event: Id): nat {
    |AttemptsOf(db, event)|
  }

  // -------------------------------------------------------------------- numbering

  /** The worker has counted the attempts, and not yet logged the next. */
  predicate HasCounted(pc: Pc) {
    pc.Ready? || pc.Contacting? || pc.Heard?
  }

  predicate CountsRight(db: Database, pc: Pc) {
    HasCounted(pc) ==> pc.row.tried == |AttemptsOf(db, pc.event)|
  }

  ghost predicate AllNumbered(db: Database) {
    forall e :: e in db.events ==> Delivery.Numbered(db, e)
  }

  ghost predicate NumberInv(s: System) {
    AllNumbered(s.db) && forall w :: w in s.workers ==> CountsRight(s.db, s.workers[w])
  }

  lemma SameAttempts(before: Database, after: Database)
    requires after.attempts == before.attempts
    ensures forall e :: AttemptsOf(after, e) == AttemptsOf(before, e)
  {
  }

  /** No attempt comes or goes. */
  lemma SameAttemptsSameNumbers(s: System, t: System)
    requires AllNumbered(s.db) && t.db.attempts == s.db.attempts && t.db.events.Keys <= s.db.events.Keys
    ensures AllNumbered(t.db)
    ensures forall e :: AttemptsOf(t.db, e) == AttemptsOf(s.db, e)
  {
    SameAttempts(s.db, t.db);
    forall e | e in t.db.events
      ensures Delivery.Numbered(t.db, e)
    {
      Delivery.SameNumbers(s.db, t.db, e);
    }
  }

  lemma ActLeavesAttempts(config: Config, s: System, w: Id, act: Act)
    requires Enabled(s, Worker(w, act)) && !act.Log?
    ensures var t := ActNext(config, s, w, act);
      t.db.attempts == s.db.attempts && t.db.events.Keys == s.db.events.Keys
  {
  }

  /** Only the worker's own place changes. */
  lemma ActMovesOne(config: Config, s: System, w: Id, act: Act)
    requires Enabled(s, Worker(w, act))
    ensures var t := ActNext(config, s, w, act);
      t.workers.Keys == s.workers.Keys && forall v :: v in s.workers && v != w ==> t.workers[v] == s.workers[v]
  {
  }

  lemma WorkerCountsRight(config: Config, s: System, w: Id, act: Act)
    requires Enabled(s, Worker(w, act)) && CountsRight(s.db, s.workers[w])
    ensures CountsRight(s.db, ActNext(config, s, w, act).workers[w])
  {
    if act.Read? {
      assert !s.workers[w].Ready?;
    }
  }

  lemma ActKeepsNumbers(config: Config, s: System, w: Id, act: Act)
    requires NumberInv(s) && Enabled(s, Worker(w, act)) && !act.Log?
    ensures NumberInv(ActNext(config, s, w, act))
  {
    var t := ActNext(config, s, w, act);
    ActLeavesAttempts(config, s, w, act);
    SameAttemptsSameNumbers(s, t);
    ActMovesOne(config, s, w, act);
    WorkerCountsRight(config, s, w, act);
    forall v | v in t.workers
      ensures CountsRight(t.db, t.workers[v])
    {
      assert CountsRight(s.db, t.workers[v]);
    }
  }

  lemma AttemptsAfterInsert(db: Database, after: Database, event: Id, id: Id, row: Attempt)
    requires InsertAttempt(db, id, row) == Some(after) && row.eventId == event
    ensures id !in db.attempts && AttemptsOf(after, event) == AttemptsOf(db, event) + {id}
    ensures forall e :: e != event ==> AttemptsOf(after, e) == AttemptsOf(db, e)
  {
  }

  lemma LoggedAttempt(s: System, after: Database, event: Id, id: Id, row: Attempt)
    requires AllNumbered(s.db) && AttemptsKnown(s) && id !in s.minted
    requires InsertAttempt(s.db, id, row) == Some(after) && row.eventId == event
    requires row.number == |AttemptsOf(s.db, event)| + 1
    ensures AllNumbered(after) && AttemptsOf(after, event) == AttemptsOf(s.db, event) + {id}
    ensures |AttemptsOf(after, event)| == |AttemptsOf(s.db, event)| + 1
    ensures forall e :: e != event ==> AttemptsOf(after, e) == AttemptsOf(s.db, e)
  {
    AttemptsAfterInsert(s.db, after, event, id, row);
    Delivery.OneMoreNumbered(s.db, after, event, id);
    forall e | e in after.events && e != event
      ensures Delivery.Numbered(after, e)
    {
      Delivery.SameNumbers(s.db, after, e);
    }
  }

  /** For an event that is there, logging adds one attempt to what the worker counted. */
  lemma LogAddsOne(config: Config, s: System, w: Id, id: Id, wall: int)
    requires NumberInv(s) && LeasesMatch(s) && AttemptsKnown(s) && Enabled(s, Worker(w, Log(id, wall)))
    ensures var t := ActNext(config, s, w, Log(id, wall));
      var Heard(event, row, response) := s.workers[w];
      && t.db.events == s.db.events && s.minted <= t.minted
      && t.workers == s.workers[w := Logged(event, row, response)]
      && row.tried == |AttemptsOf(s.db, event)| && |AttemptsOf(t.db, event)| == row.tried + 1
      && (forall e :: e != event ==> AttemptsOf(t.db, e) == AttemptsOf(s.db, e))
      && AllNumbered(t.db)
  {
    var t := ActNext(config, s, w, Log(id, wall));
    var pc := s.workers[w];
    assert CountsRight(s.db, pc) && LeaseMatches(s.db, pc);
    LoggedAttempt(s, t.db, pc.event, id, AttemptRow(pc.event, pc.row.tried + 1, pc.response, wall));
  }

  lemma LogKeepsNumbers(config: Config, s: System, w: Id, id: Id, wall: int)
    requires NumberInv(s) && LeasesHold(s) && AttemptsKnown(s) && Enabled(s, Worker(w, Log(id, wall)))
    ensures NumberInv(ActNext(config, s, w, Log(id, wall)))
  {
    var t := ActNext(config, s, w, Log(id, wall));
    LogAddsOne(config, s, w, id, wall);
    assert HeldBy(s, w, s.workers[w].event);
    forall v | v in t.workers
      ensures CountsRight(t.db, t.workers[v])
    {
      assert CountsRight(s.db, s.workers[v]);
      assert v != w && !s.workers[v].Resting? ==> HeldBy(s, v, s.workers[v].event);
    }
  }

  /** A handler's move: the events that stay keep their attempts, or lose them all
      while nobody has counted them. */
  lemma HandlerKeepsNumbers(s: System, t: System)
    requires NumberInv(s) && t.workers == s.workers
    requires forall w :: w in s.workers && HasCounted(s.workers[w]) ==>
      AttemptsOf(t.db, s.workers[w].event) == AttemptsOf(s.db, s.workers[w].event)
    requires forall a :: a in t.db.attempts ==> a in s.db.attempts && t.db.attempts[a] == s.db.attempts[a]
    requires forall e :: e in t.db.events ==>
      AttemptsOf(t.db, e) == {} || (e in s.db.events && AttemptsOf(t.db, e) == AttemptsOf(s.db, e))
    ensures NumberInv(t)
  {
    forall e | e in t.db.events
      ensures Delivery.Numbered(t.db, e)
    {
      if AttemptsOf(t.db, e) != {} {
        Delivery.SameNumbers(s.db, t.db, e);
      }
    }
    forall w | w in t.workers
      ensures CountsRight(t.db, t.workers[w])
    {
      assert CountsRight(s.db, s.workers[w]);
    }
  }

  lemma ReplayKeepsNumbers(config: Config, s: System, letter: Id)
    requires NumberInv(s) && Integrity(s.db) && HitsNobody(s, ReplayWhole(letter))
    ensures NumberInv(Next(config, s, ReplayWhole(letter)))
  {
    ReplayMeans(s.db, letter);
    forall w | w in s.workers && HasCounted(s.workers[w])
      ensures PutBack(s, ReplayWhole(letter)) != Some(s.workers[w].event)
    {
      assert HeldBy(s, w, s.workers[w].event);
    }
    HandlerKeepsNumbers(s, Next(config, s, ReplayWhole(letter)));
  }

  lemma RetireKeepsNumbers(config: Config, s: System, id: Id)
    requires NumberInv(s) && LeasesMatch(s) && Integrity(s.db)
    ensures NumberInv(Next(config, s, RemoveEndpoint(id)))
  {
    RetireMeans(s.db, id);
    forall w | w in s.workers && HasCounted(s.workers[w])
      ensures HasStatus(s.db, s.workers[w].event, Processing)
    {
      assert LeaseMatches(s.db, s.workers[w]);
    }
    HandlerKeepsNumbers(s, Next(config, s, RemoveEndpoint(id)));
  }

  lemma NoEventNoAttempts(db: Database)
    requires AttemptsHaveEvents(db)
    ensures forall e :: e !in db.events ==> AttemptsOf(db, e) == {}
  {
  }

  /** Neither the other handlers nor the other statements of a replay touch attempts. */
  lemma OthersKeepNumbers(config: Config, s: System, move: Move)
    requires NumberInv(s) && AttemptsHaveEvents(s.db) && Enabled(s, move)
    requires !move.Worker? && !move.RemoveEndpoint? && !move.ReplayWhole? && !move.ReplayClear?
    ensures NumberInv(Next(config, s, move))
  {
    var t := Next(config, s, move);
    SameAttempts(s.db, t.db);
    NoEventNoAttempts(s.db);
    HandlerKeepsNumbers(s, t);
  }

  /** A replay's delete, if this is one, finds no worker that has counted what it takes
      away. */
  ghost predicate ClearsUncounted(s: System, move: Move) {
    move.ReplayClear? && move.replay in s.replays ==>
      forall w :: w in s.workers && HasCounted(s.workers[w]) && s.workers[w].row.tried > 0 ==>
        s.workers[w].event != s.replays[move.replay].event
  }

  lemma DeletedAttempts(db: Database, event: Id)
    ensures var after := DeleteAttemptsOf(db, event);
      AttemptsOf(after, event) == {} && forall e :: e != event ==> AttemptsOf(after, e) == AttemptsOf(db, e)
  {
  }

  lemma ClearKeepsNumbersIff(config: Config, s: System, r: Id)
    requires NumberInv(s) && Enabled(s, ReplayClear(r))
    ensures NumberInv(Next(config, s, ReplayClear(r))) <==> ClearsUncounted(s, ReplayClear(r))
  {
    var t, event := Next(config, s, ReplayClear(r)), s.replays[r].event;
    DeletedAttempts(s.db, event);
    if ClearsUncounted(s, ReplayClear(r)) {
      forall w | w in s.workers && HasCounted(s.workers[w])
        ensures AttemptsOf(t.db, s.workers[w].event) == AttemptsOf(s.db, s.workers[w].event)
      {
        assert CountsRight(s.db, s.workers[w]);
      }
      HandlerKeepsNumbers(s, t);
    } else {
      var w :| w in s.workers && HasCounted(s.workers[w]) && s.workers[w].row.tried > 0
            && s.workers[w].event == event;
      assert !CountsRight(t.db, t.workers[w]);
    }
  }

  lemma MoveKeepsNumbers(config: Config, s: System, move: Move)
    requires NumberInv(s) && LeasesHold(s) && Integrity(s.db) && AttemptsKnown(s)
    requires Enabled(s, move) && HitsNobody(s, move) && ClearsUncounted(s, move)
    ensures NumberInv(Next(config, s, move))
  {
    match move
    case Worker(w, Log(id, wall)) => LogKeepsNumbers(config, s, w, id, wall);
    case Worker(w, act) => ActKeepsNumbers(config, s, w, act);
    case ReplayWhole(letter) => ReplayKeepsNumbers(config, s, letter);
    case RemoveEndpoint(id) => RetireKeepsNumbers(config, s, id);
    case ReplayClear(r) => ClearKeepsNumbersIff(config, s, r);
    case _ => OthersKeepNumbers(config, s, move);
  }

  // ---------------------------------------------------------------- over whole runs

  /** What the workers rely on. */
  ghost predicate BooksHold(s: System) {
    LeasesHold(s) && NumberInv(s)
  }

  lemma MoveKeepsBooksIff(config: Config, s: System, move: Move)
    requires BooksHold(s) && KnownEvents(s) && Integrity(s.db) && AttemptsKnown(s) && Enabled(s, move)
    ensures BooksHold(Next(config, s, move)) <==> HitsNobody(s, move) && ClearsUncounted(s, move)
  {
    MoveKeepsLeasesIff(config, s, move);
    if move.ReplayClear? {
      ClearKeepsNumbersIff(config, s, move.replay);
    } else if HitsNobody(s, move) {
      MoveKeepsNumbers(config, s, move);
    }
  }

  ghost predicate BooksHoldThroughout(config: Config, start: System, moves: seq<Move>) {
    && BooksHold(End(config, start, moves))
    && (moves != [] ==> BooksHoldThroughout(config, start, moves[..|moves| - 1]))
  }

  /** No replay puts back an event that somebody holds, or deletes attempts that
      somebody has counted. */
  ghost predicate ReplaysKeepAway(config: Config, start: System, moves: seq<Move>) {
    moves != [] ==>
      var before, last := moves[..|moves| - 1], moves[|moves| - 1];
      && ReplaysKeepAway(config, start, before)
      && HitsNobody(End(config, start, before), last)
      && ClearsUncounted(End(config, start, before), last)
  }

  /** In every run, with any number of workers, faults at any of their statements, and
      replays whole or interleaved: leases and numbering hold throughout exactly when
      the replays keep away from what workers hold or have counted. */
  lemma {:induction false} BooksHoldIff(config: Config, start: System, moves: seq<Move>)
    requires IsStart(start) && IsRun(config, start, moves)
    ensures BooksHoldThroughout(config, start, moves) <==> ReplaysKeepAway(config, start, moves)
  {
    if moves != [] {
      var before, last := moves[..|moves| - 1], moves[|moves| - 1];
      BooksHoldIff(config, start, before);
      RunKeepsIntegrity(config, start, before);
      RunKeepsKnown(config, start, before);
      RunKeepsAttemptsKnown(config, start, before);
      var s := End(config, start, before);
      if BooksHold(s) {
        MoveKeepsBooksIff(config, s, last);
      }
    }
  }

  lemma {:induction false} RunKeepsNumbers(config: Config, start: System, moves: seq<Move>)
    requires IsStart(start) && IsRun(config, start, moves) && forall m :: m in moves ==> Unsplit(m)
    ensures NumberInv(End(config, start, moves))
  {
    if moves != [] {
      var before, last := moves[..|moves| - 1], moves[|moves| - 1];
      RunKeepsNumbers(config, start, before);
      UnsplitRunKeepsLeases(config, start, before);
      RunKeepsIntegrity(config, start, before);
      RunKeepsAttemptsKnown(config, start, before);
      assert last in moves;
      var s := End(config, start, before);
      FreeLettersAreHitSafely(s, last);
      MoveKeepsNumbers(config, s, last);
    }
  }

  /** In particular with whole replays: the attempts of every event are numbered 1 .. n
      without gaps, and a worker on its way to the log has counted them right. */
  lemma AttemptsAreNumbered(config: Config, start: System, moves: seq<Move>)
    requires IsStart(start) && IsRun(config, start, moves) && forall m :: m in moves ==> Unsplit(m)
    ensures var s := End(config, start, moves);
      && (forall e :: e in s.db.events ==> Delivery.Numbered(s.db, e))
      && (forall w :: w in s.workers && (s.workers[w].Ready? || s.workers[w].Contacting? || s.workers[w].Heard?) ==>
            s.workers[w].row.tried == |AttemptsOf(s.db, s.workers[w].event)|)
  {
    RunKeepsNumbers(config, start, moves);
    var s := End(config, start, moves);
    assert forall w :: w in s.workers ==> CountsRight(s.db, s.workers[w]);
  }
}
