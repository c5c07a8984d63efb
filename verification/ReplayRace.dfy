/** Replays interleaved with the workers statement by statement, any number of
    each, and faults at any worker statement: when a FAILED event can lack a dead
    letter. */
module ReplayRace {
  import opened Foundation
  import opened Tables
  import opened Operations
  import opened Dispatching
  import opened StatementMachine
  import opened Leases
  import opened FaultFree

  /** The worker has written FAILED and inserts the dead letter next. */
  predicate IsBurying(s: System, w: Id, e: Id) {
    w in s.workers && s.workers[w].Burying? && s.workers[w].event == e
  }

  /** A replay that is past its status update will delete this letter. */
  ghost predicate Targeted(s: System, letter: Id) {
    exists r :: r in s.replays && s.replays[r].letter == letter && !s.replays[r].Selected?
  }

  ghost predicate IsSafe(s: System, letter: Id, e: Id) {
    IsLetterOf(s.db, letter, e) && !Targeted(s, letter)
  }

  /** Some worker is about to insert a dead letter of the event, or there is one
      that no replay is about to delete. */
  ghost predicate Accounted(s: System, e: Id) {
    (exists w :: IsBurying(s, w, e)) || (exists d :: IsSafe(s, d, e))
  }

  predicate IsErring(s: System, w: Id, e: Id) {
    w in s.workers && s.workers[w] == Erring(e)
  }

  /** Accounted for; or a fault came between FAILED and the dead letter, and the
      requeue after it is still to come or has failed too. */
  ghost predicate Explained(s: System, e: Id) {
    Accounted(s, e) || e in s.stranded || exists w :: IsErring(s, w, e)
  }

  ghost predicate FailedAreExplained(s: System) {
    forall e :: HasStatus(s.db, e, Failed) ==> Explained(s, e)
  }

  /** A replay knows which event its letter is about, for as long as it exists. */
  ghost predicate ReplaysAgree(s: System) {
    forall r :: r in s.replays && s.replays[r].letter in s.db.deadLetters ==>
      s.db.deadLetters[s.replays[r].letter].eventId == s.replays[r].event
  }

  ghost predicate KnownLetters(s: System) {
    && s.db.deadLetters.Keys <= s.minted
    && forall r :: r in s.replays ==> s.replays[r].letter in s.minted
  }

  ghost predicate RaceInv(s: System) {
    FailedAreExplained(s) && ReplaysAgree(s) && KnownLetters(s)
  }

  /** What a step must not do to one event's explanation. */
  lemma ExplanationCarries(s: System, t: System, e: Id)
    requires Explained(s, e) && s.stranded <= t.stranded
    requires forall w :: IsBurying(s, w, e) ==> IsBurying(t, w, e)
    requires forall w :: IsErring(s, w, e) ==> IsErring(t, w, e)
    requires forall d :: IsSafe(s, d, e) ==> IsSafe(t, d, e)
    ensures Explained(t, e)
  {
    if w :| IsBurying(s, w, e) {
      assert IsBurying(t, w, e);
    } else if w :| IsErring(s, w, e) {
      assert IsErring(t, w, e);
    } else if d :| IsSafe(s, d, e) {
      assert IsSafe(t, d, e);
    }
  }

  lemma SettleKeepsAccounts(config: Config, s: System, w: Id)
    requires RaceInv(s) && Enabled(s, Worker(w, SetFinal))
    ensures RaceInv(ActNext(config, s, w, SetFinal))
  {
    var t := ActNext(config, s, w, SetFinal);
    forall e | HasStatus(t.db, e, Failed)
      ensures Explained(t, e)
    {
      if e == s.workers[w].event {
        assert IsBurying(t, w, e);
      } else {
        ExplanationCarries(s, t, e);
      }
    }
  }

  lemma FaultKeepsAccounts(config: Config, s: System, w: Id)
    requires RaceInv(s) && Enabled(s, Worker(w, Fault))
    ensures RaceInv(ActNext(config, s, w, Fault))
  {
    var t := ActNext(config, s, w, Fault);
    forall e | HasStatus(t.db, e, Failed)
      ensures Explained(t, e)
    {
      if e == s.workers[w].event {
        assert e in t.stranded || IsErring(t, w, e);
      } else {
        ExplanationCarries(s, t, e);
      }
    }
  }

  lemma ActLeavesLetters(config: Config, s: System, w: Id, act: Act)
    requires Enabled(s, Worker(w, act)) && !act.SetFinal? && !act.Bury? && !act.Fault?
    ensures var t := ActNext(config, s, w, act);
      && t.db.deadLetters == s.db.deadLetters && t.replays == s.replays && t.stranded == s.stranded
      && s.minted <= t.minted
  {
  }

  lemma RequeueKeepsAccounts(config: Config, s: System, w: Id)
    requires RaceInv(s) && Enabled(s, Worker(w, Requeue))
    ensures RaceInv(ActNext(config, s, w, Requeue))
  {
    var t := ActNext(config, s, w, Requeue);
    forall e | HasStatus(t.db, e, Failed)
      ensures Explained(t, e)
    {
      ExplanationCarries(s, t, e);
    }
  }

  /** None of these statements is one of a worker that buries or errs, or writes FAILED. */
  lemma ActLeavesBuriers(config: Config, s: System, w: Id, act: Act)
    requires Enabled(s, Worker(w, act)) && (act.Claim? || act.Read? || act.AskBreaker? || act.Record? || act.Log?)
    ensures var t := ActNext(config, s, w, act);
      && !s.workers[w].Erring? && !s.workers[w].Burying?
      && t.workers.Keys == s.workers.Keys && (forall v :: v in s.workers && v != w ==> t.workers[v] == s.workers[v])
      && forall e :: HasStatus(t.db, e, Failed) ==> HasStatus(s.db, e, Failed)
  {
  }

  /** Every other worker statement but the burial. */
  lemma ActKeepsAccounts(config: Config, s: System, w: Id, act: Act)
    requires RaceInv(s) && Enabled(s, Worker(w, act))
    requires act.Claim? || act.Read? || act.AskBreaker? || act.Record? || act.Log?
    ensures RaceInv(ActNext(config, s, w, act))
  {
    var t := ActNext(config, s, w, act);
    ActLeavesLetters(config, s, w, act);
    ActLeavesBuriers(config, s, w, act);
    forall e | HasStatus(t.db, e, Failed)
      ensures Explained(t, e)
    {
      ExplanationCarries(s, t, e);
    }
  }

  lemma BuryKeepsAccounts(config: Config, s: System, w: Id, id: Id, wall: int)
    requires RaceInv(s) && Enabled(s, Worker(w, Bury(id, wall)))
    ensures RaceInv(ActNext(config, s, w, Bury(id, wall)))
  {
    var t := ActNext(config, s, w, Bury(id, wall));
    forall e | HasStatus(t.db, e, Failed)
      ensures Explained(t, e)
    {
      assert HasStatus(s.db, e, Failed);
      if e == s.workers[w].event {
        assert IsSafe(t, id, e);
      } else {
        ExplanationCarries(s, t, e);
      }
    }
  }

  /** A handler that leaves the workers alone and, of each event still FAILED, every
      letter that was not targeted. */
  lemma HandlerKeepsAccounts(s: System, t: System)
    requires RaceInv(s)
    requires t.workers == s.workers && t.stranded == s.stranded && s.minted <= t.minted
    requires forall e :: HasStatus(t.db, e, Failed) ==> HasStatus(s.db, e, Failed)
    requires forall d, e :: IsSafe(s, d, e) && HasStatus(t.db, e, Failed) ==> IsSafe(t, d, e)
    requires forall d :: d in t.db.deadLetters ==> d in s.db.deadLetters && t.db.deadLetters[d] == s.db.deadLetters[d]
    requires forall r :: r in t.replays ==>
      if r in s.replays then t.replays[r].letter == s.replays[r].letter && t.replays[r].event == s.replays[r].event
      else t.replays[r].letter in s.db.deadLetters &&
           s.db.deadLetters[t.replays[r].letter].eventId == t.replays[r].event
    ensures RaceInv(t)
  {
    forall e | HasStatus(t.db, e, Failed)
      ensures Explained(t, e)
    {
      assert HasStatus(s.db, e, Failed);
      assert forall d :: IsSafe(s, d, e) ==> IsSafe(t, d, e);
      ExplanationCarries(s, t, e);
    }
  }

  lemma ReplayStepKeepsAccounts(config: Config, s: System, move: Move)
    requires RaceInv(s) && Enabled(s, move)
    requires move.ReplaySelect? || move.ReplayRequeue? || move.ReplayClear? || move.ReplayDrop?
    ensures RaceInv(Next(config, s, move))
  {
    var t := Next(config, s, move);
    forall d, e | IsSafe(s, d, e) && HasStatus(t.db, e, Failed)
      ensures IsSafe(t, d, e)
    {
      if r :| r in t.replays && t.replays[r].letter == d && !t.replays[r].Selected? {
        assert false;
      }
    }
    HandlerKeepsAccounts(s, t);
  }

  lemma RetireKeepsAccounts(config: Config, s: System, id: Id)
    requires RaceInv(s) && Integrity(s.db)
    ensures RaceInv(Next(config, s, RemoveEndpoint(id)))
  {
    RetireMeans(s.db, id);
    HandlerKeepsAccounts(s, Next(config, s, RemoveEndpoint(id)));
  }

  lemma ReplayKeepsAccounts(config: Config, s: System, letter: Id)
    requires RaceInv(s) && Integrity(s.db)
    ensures RaceInv(Next(config, s, ReplayWhole(letter)))
  {
    ReplayMeans(s.db, letter);
    HandlerKeepsAccounts(s, Next(config, s, ReplayWhole(letter)));
  }

  lemma InsertKeepsAccounts(config: Config, s: System, move: Move)
    requires RaceInv(s) && Enabled(s, move) && (move.CreateEndpoint? || move.AcceptEvent?)
    ensures RaceInv(Next(config, s, move))
  {
    HandlerKeepsAccounts(s, Next(config, s, move));
  }

  lemma {:induction false} RunKeepsAccounts(config: Config, start: System, moves: seq<Move>)
    requires IsStart(start) && IsRun(config, start, moves)
    ensures RaceInv(End(config, start, moves))
  {
    if moves != [] {
      var before, last := moves[..|moves| - 1], moves[|moves| - 1];
      RunKeepsAccounts(config, start, before);
      RunKeepsIntegrity(config, start, before);
      var s := End(config, start, before);
      match last
      case Worker(w, Bury(id, wall)) => BuryKeepsAccounts(config, s, w, id, wall);
      case Worker(w, SetFinal) => SettleKeepsAccounts(config, s, w);
      case Worker(w, Fault) => FaultKeepsAccounts(config, s, w);
      case Worker(w, Requeue) => RequeueKeepsAccounts(config, s, w);
      case Worker(w, act) => ActKeepsAccounts(config, s, w, act);
      case ReplaySelect(_, _) | ReplayRequeue(_) | ReplayClear(_) | ReplayDrop(_) =>
        ReplayStepKeepsAccounts(config, s, last);
      case RemoveEndpoint(id) => RetireKeepsAccounts(config, s, id);
      case ReplayWhole(letter) => ReplayKeepsAccounts(config, s, letter);
      case _ => InsertKeepsAccounts(config, s, last);
    }
  }

  /** In every run, however workers, faults and replays interleave: an event in
      FAILED has a dead letter that no replay is about to delete, or a worker that is
      about to insert one; or a fault hit its worker, which is about to requeue it or
      has failed to. */
  lemma FailedEventsAreExplained(config: Config, start: System, moves: seq<Move>, e: Id)
    requires IsStart(start) && IsRun(config, start, moves)
    requires HasStatus(End(config, start, moves).db, e, Failed)
    ensures Explained(End(config, start, moves), e)
  {
    RunKeepsAccounts(config, start, moves);
  }

  /** Without faults, it has the letter or the worker that inserts one. */
  lemma FailedEventsAreNotLost(config: Config, start: System, moves: seq<Move>, e: Id)
    requires IsStart(start) && IsRun(config, start, moves) && forall m :: m in moves ==> Faultless(m)
    requires HasStatus(End(config, start, moves).db, e, Failed)
    ensures Accounted(End(config, start, moves), e)
  {
    RunKeepsUntroubled(config, start, moves);
    FailedEventsAreExplained(config, start, moves, e);
    UntroubledIsAccounted(End(config, start, moves), e);
  }

  lemma UntroubledIsAccounted(s: System, e: Id)
    requires Untroubled(s) && Explained(s, e) && e in s.db.events
    ensures Accounted(s, e)
  {
    forall w
      ensures !IsErring(s, w, e)
    {
      assert w in s.workers ==> ReadsTrue(s.db, s.workers[w]);
    }
  }

  /** With whole replays, and faults at any worker statement: a FAILED event has a
      dead letter exactly when no worker holds it and it is not stranded. */
  lemma HasLetterIff(config: Config, start: System, moves: seq<Move>, e: Id)
    requires IsStart(start) && IsRun(config, start, moves) && forall m :: m in moves ==> Unsplit(m)
    requires HasStatus(End(config, start, moves).db, e, Failed)
    ensures var s := End(config, start, moves);
      (exists d :: IsLetterOf(s.db, d, e)) <==> e !in s.stranded && forall w :: !HeldBy(s, w, e)
  {
    UnsplitRunKeepsLeases(config, start, moves);
    FailedEventsAreExplained(config, start, moves, e);
    LetterIff(End(config, start, moves), e);
  }

  lemma LetterIff(s: System, e: Id)
    requires LettersAreFree(s) && Explained(s, e)
    ensures (exists d :: IsLetterOf(s.db, d, e)) <==> e !in s.stranded && forall w :: !HeldBy(s, w, e)
  {
    if w :| IsBurying(s, w, e) {
      assert HeldBy(s, w, e);
    } else if w :| IsErring(s, w, e) {
      assert HeldBy(s, w, e);
    } else if d :| IsSafe(s, d, e) {
      assert IsLetterOf(s.db, d, e);
    }
  }
}
