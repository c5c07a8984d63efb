/** Whether DELIVERED is final when workers, faults and replays interleave. */
module DeliveredEvents {
  import opened Foundation
  import opened Tables
  import opened Operations
  import opened Dispatching
  import opened StatementMachine
  import opened Leases
  import opened StatementLedger
  import opened Accounts

  /** Delivered events that stay stored stay delivered, with their attempts. */
  ghost predicate DeliveredStay(before: Database, after: Database) {
    forall e :: HasStatus(before, e, Delivered) && e in after.events ==>
      HasStatus(after, e, Delivered) && AttemptsOf(after, e) == AttemptsOf(before, e)
  }

  /** A replay puts no delivered event back and clears none that has attempts. */
  ghost predicate SparesDelivered(s: System, move: Move) {
    && (PutBack(s, move).Some? ==> !HasStatus(s.db, PutBack(s, move).value, Delivered))
    && (Clears(s, move).Some? && HasStatus(s.db, Clears(s, move).value, Delivered) ==>
          AttemptsOf(s.db, Clears(s, move).value) == {})
  }

  /** A worker's statement leaves the attempts of others alone. */
  lemma ActLeavesOtherAttempts(config: Config, s: System, w: Id, act: Act, e: Id)
    requires Enabled(s, Worker(w, act)) && !HeldBy(s, w, e)
    ensures AttemptsOf(ActNext(config, s, w, act).db, e) == AttemptsOf(s.db, e)
  {
    if act.Log? {
      var pc := s.workers[w];
      var row := AttemptRow(pc.event, pc.row.tried + 1, pc.response, act.wall);
      if InsertAttempt(s.db, act.id, row).Some? {
        AttemptsAfterInsert(s.db, ActNext(config, s, w, act).db, pc.event, act.id, row);
      }
    } else {
      ActLeavesAttempts(config, s, w, act);
      SameAttempts(s.db, ActNext(config, s, w, act).db);
    }
  }

  lemma ActKeepsDelivered(config: Config, s: System, w: Id, act: Act)
    requires LeasesMatch(s) && Enabled(s, Worker(w, act))
    ensures DeliveredStay(s.db, ActNext(config, s, w, act).db)
  {
    forall e | HasStatus(s.db, e, Delivered)
      ensures HasStatus(ActNext(config, s, w, act).db, e, Delivered)
      ensures AttemptsOf(ActNext(config, s, w, act).db, e) == AttemptsOf(s.db, e)
    {
      assert LeaseMatches(s.db, s.workers[w]);
      ActWritesItsOwn(config, s, w, act, e);
      ActLeavesOtherAttempts(config, s, w, act, e);
    }
  }

  lemma WholeReplayKeepsDeliveredIff(config: Config, s: System, letter: Id)
    requires Integrity(s.db)
    ensures DeliveredStay(s.db, Next(config, s, ReplayWhole(letter)).db) <==> SparesDelivered(s, ReplayWhole(letter))
  {
    ReplayMeans(s.db, letter);
  }

  lemma StatementKeepsDeliveredIff(config: Config, s: System, move: Move)
    requires Enabled(s, move) && KnownEvents(s)
    requires !move.Worker? && !move.RemoveEndpoint? && !move.ReplayWhole?
    ensures DeliveredStay(s.db, Next(config, s, move).db) <==> SparesDelivered(s, move)
  {
    if move.ReplayClear? {
      DeletedAttempts(s.db, s.replays[move.replay].event);
    } else {
      SameAttempts(s.db, Next(config, s, move).db);
    }
  }

  /** While the leases hold, a move keeps the delivered events exactly when, if it is a
      replay's, it spares them. */
  lemma MoveKeepsDeliveredIff(config: Config, s: System, move: Move)
    requires LeasesMatch(s) && KnownEvents(s) && Integrity(s.db) && Enabled(s, move)
    ensures DeliveredStay(s.db, Next(config, s, move).db) <==> SparesDelivered(s, move)
  {
    match move
    case Worker(w, act) => ActKeepsDelivered(config, s, w, act);
    case RemoveEndpoint(id) => RetireMeans(s.db, id);
    case ReplayWhole(letter) => WholeReplayKeepsDeliveredIff(config, s, letter);
    case _ => StatementKeepsDeliveredIff(config, s, move);
  }

  // -------------------------------------------------------------------- over whole runs

  ghost predicate DeliveredStayThroughout(config: Config, start: System, moves: seq<Move>) {
    moves != [] ==>
      var before := moves[..|moves| - 1];
      && DeliveredStayThroughout(config, start, before)
      && DeliveredStay(End(config, start, before).db, End(config, start, moves).db)
  }

  ghost predicate ReplaysSpareDelivered(config: Config, start: System, moves: seq<Move>) {
    moves != [] ==>
      var before, last := moves[..|moves| - 1], moves[|moves| - 1];
      && ReplaysSpareDelivered(config, start, before)
      && SparesDelivered(End(config, start, before), last)
  }

  /** In every run, with any number of workers, faults at any of their statements, and
      replays whole or interleaved: the leases hold and the delivered events stay so,
      throughout, exactly when no replay puts back a held or a delivered event, or
      clears a delivered one that has attempts. */
  lemma {:induction false} DeliveredStayIff(config: Config, start: System, moves: seq<Move>)
    requires IsStart(start) && IsRun(config, start, moves)
    ensures LeasesHoldThroughout(config, start, moves) && DeliveredStayThroughout(config, start, moves)
       <==> ReplaysHitNobody(config, start, moves) && ReplaysSpareDelivered(config, start, moves)
  {
    LeasesHoldIff(config, start, moves);
    if moves != [] {
      var before, last := moves[..|moves| - 1], moves[|moves| - 1];
      DeliveredStayIff(config, start, before);
      LeasesHoldIff(config, start, before);
      RunKeepsIntegrity(config, start, before);
      RunKeepsKnown(config, start, before);
      if LeasesHoldThroughout(config, start, before) {
        MoveKeepsDeliveredIff(config, End(config, start, before), last);
      }
    }
  }

  // --------------------------------------------------------------------- whole replays

  lemma {:induction false} UnsplitRunsSpare(config: Config, start: System, moves: seq<Move>)
    requires IsStart(start) && IsRun(config, start, moves) && forall m :: m in moves ==> Unsplit(m)
    ensures ReplaysHitNobody(config, start, moves) && ReplaysSpareDelivered(config, start, moves)
  {
    if moves != [] {
      var before, last := moves[..|moves| - 1], moves[|moves| - 1];
      UnsplitRunsSpare(config, start, before);
      UnsplitRunKeepsLeases(config, start, before);
      assert last in moves;
      FreeLettersAreHitSafely(End(config, start, before), last);
    }
  }

  /** No move brings a removed event back. */
  lemma MoveBringsNoneBack(config: Config, s: System, move: Move, e: Id)
    requires Integrity(s.db) && Enabled(s, move) && e in s.minted
    ensures e in Next(config, s, move).minted
    ensures e in Next(config, s, move).db.events ==> e in s.db.events
  {
    match move
    case Worker(w, act) => ActBringsNoEvent(config, s, w, act);
    case RemoveEndpoint(id) => RetireMeans(s.db, id);
    case ReplayWhole(letter) => ReplayMeans(s.db, letter);
    case _ =>
  }

  /** From any point of such a run on, a delivered event stays delivered, with the same
      attempts, for as long as it is stored. */
  lemma {:induction false} DeliveredStays(config: Config, start: System, moves: seq<Move>, n: nat, e: Id)
    requires IsStart(start) && IsRun(config, start, moves) && n <= |moves|
    requires DeliveredStayThroughout(config, start, moves) && HasStatus(End(config, start, moves[..n]).db, e, Delivered)
    ensures var s, t := End(config, start, moves[..n]), End(config, start, moves);
      && e in t.minted
      && (e in t.db.events ==> HasStatus(t.db, e, Delivered) && AttemptsOf(t.db, e) == AttemptsOf(s.db, e))
  {
    if n == |moves| {
      assert moves[..n] == moves;
      RunKeepsKnown(config, start, moves);
    } else {
      var before, last := moves[..|moves| - 1], moves[|moves| - 1];
      assert before[..n] == moves[..n];
      DeliveredStays(config, start, before, n, e);
      RunKeepsIntegrity(config, start, before);
      MoveBringsNoneBack(config, End(config, start, before), last, e);
    }
  }

  /** In particular with whole replays, whatever fails. */
  lemma DeliveredIsFinal(config: Config, start: System, moves: seq<Move>, n: nat, e: Id)
    requires IsStart(start) && IsRun(config, start, moves) && n <= |moves| && forall m :: m in moves ==> Unsplit(m)
    requires HasStatus(End(config, start, moves[..n]).db, e, Delivered)
    ensures var s, t := End(config, start, moves[..n]), End(config, start, moves);
      e in t.db.events ==> HasStatus(t.db, e, Delivered) && AttemptsOf(t.db, e) == AttemptsOf(s.db, e)
  {
    UnsplitRunsSpare(config, start, moves);
    DeliveredStayIff(config, start, moves);
    DeliveredStays(config, start, moves, n, e);
  }
}
