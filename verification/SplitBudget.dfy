/** The retry budget when replays interleave with the workers, in every run: exactly
    when a replay gives an event its budget back, and what that bounds. */
module SplitBudget {
  import opened Foundation
  import opened Tables
  import opened Operations
  import opened Dispatching
  import opened StatementMachine
  import opened Leases
  import opened FaultFree
  import opened StatementLedger
  import opened Accounts
  import Delivery = DeliveryMachine

  /** The replay has put the event back, and clears its attempts next. */
  predicate IsRequeued(s: System, r: Id, event: Id) {
    r in s.replays && s.replays[r].Requeued? && s.replays[r].event == event
  }

  ghost predicate ToBeCleared(s: System, event: Id) {
    exists r :: IsRequeued(s, r, event)
  }

  /** The event has budget left, or a replay is about to give it back. */
  ghost predicate HasBudget(budget: nat, s: System, event: Id) {
    Tried(s.db, event) < budget || ToBeCleared(s, event)
  }

  /** No worker has counted a spent budget. */
  ghost predicate CountsWithin(budget: nat, s: System) {
    forall w :: w in s.workers && HasCounted(s.workers[w]) ==> s.workers[w].row.tried < budget
  }

  ghost predicate WaitingHaveBudget(budget: nat, s: System) {
    forall e :: HasStatus(s.db, e, Received) ==> HasBudget(budget, s, e)
  }

  /** What is meant by the budget of every event being kept. */
  ghost predicate BudgetHolds(budget: nat, s: System) {
    LeasesHold(s) && CountsWithin(budget, s) && WaitingHaveBudget(budget, s)
  }

  // ------------------------------------------------------- what a move has to respect

  /** A worker's count, if this is one, finds the budget spent, between a replay's
      requeue and its delete. */
  ghost predicate CountsStale(budget: nat, s: System, move: Move) {
    match move
    case Worker(w, Read) =>
      && w in s.workers && s.workers[w].HasUrl?
      && Tried(s.db, s.workers[w].event) == budget && ToBeCleared(s, s.workers[w].event)
    case _ => false
  }

  /** A requeue after an error, if this is one, finds budget, or no event. */
  ghost predicate RequeuesFit(budget: nat, s: System, move: Move) {
    match move
    case Worker(w, Requeue) =>
      w in s.workers && s.workers[w].Erring? && s.workers[w].event in s.db.events ==>
        HasBudget(budget, s, s.workers[w].event)
    case _ => true
  }

  ghost predicate KeepsBudget(budget: nat, s: System, move: Move) {
    HitsNobody(s, move) && !CountsStale(budget, s, move) && RequeuesFit(budget, s, move)
  }

  // --------------------------------------------------------------------- the invariant

  predicate PlaceCounts(budget: nat, db: Database, pc: Pc) {
    match pc
    case Ready(event, row) => Tried(db, event) <= row.tried < budget
    case Contacting(event, row) => Tried(db, event) <= row.tried < budget
    case Heard(event, row, _) => Tried(db, event) <= row.tried < budget
    case Logged(event, row, _) => row.tried < budget && Tried(db, event) <= row.tried + 1
    case _ => true
  }

  /** A worker that has not counted yet, or was refused. */
  predicate IsUncounted(pc: Pc) {
    pc.Claimed? || pc.HasEvent? || pc.HasUrl? || pc.Withheld?
  }

  ghost predicate PlacesFit(budget: nat, s: System) {
    forall w :: w in s.workers ==>
      && PlaceCounts(budget, s.db, s.workers[w])
      && (IsUncounted(s.workers[w]) ==> HasBudget(budget, s, s.workers[w].event))
  }

  ghost predicate AttemptsWithin(budget: nat, db: Database) {
    && (forall e :: e in db.events ==> Tried(db, e) <= budget)
    && (forall a :: a in db.attempts ==> db.attempts[a].number <= budget)
  }

  ghost predicate SplitInv(budget: nat, s: System) {
    AttemptsWithin(budget, s.db) && WaitingHaveBudget(budget, s) && PlacesFit(budget, s)
  }

  /** What every run offers each step as long as the leases hold. */
  ghost predicate Sound(s: System) {
    LeasesHold(s) && KnownEvents(s) && Integrity(s.db) && AttemptsKnown(s)
  }

  // ------------------------------------------------------------------------ the worker

  lemma SameReplaysSameClears(s: System, t: System)
    requires t.replays == s.replays
    ensures forall e :: ToBeCleared(t, e) <==> ToBeCleared(s, e)
  {
    forall e
      ensures ToBeCleared(t, e) <==> ToBeCleared(s, e)
    {
      assert forall r :: IsRequeued(t, r, e) <==> IsRequeued(s, r, e);
    }
  }

  /** The worker's own event and place fit; the rest is as it was. */
  lemma WorkerKeepsSplit(budget: nat, s: System, t: System, w: Id)
    requires SplitInv(budget, s) && OneHolder(s) && w in s.workers && !s.workers[w].Resting?
    requires t.workers.Keys == s.workers.Keys && forall v :: v in s.workers && v != w ==> t.workers[v] == s.workers[v]
    requires t.replays == s.replays && t.db.events.Keys == s.db.events.Keys
    requires forall f :: f in s.db.events && f != s.workers[w].event ==> t.db.events[f] == s.db.events[f]
    requires forall f :: f != s.workers[w].event ==> AttemptsOf(t.db, f) == AttemptsOf(s.db, f)
    requires AttemptsWithin(budget, t.db)
    requires HasStatus(t.db, s.workers[w].event, Received) ==> HasBudget(budget, t, s.workers[w].event)
    requires PlaceCounts(budget, t.db, t.workers[w])
    requires IsUncounted(t.workers[w]) ==> HasBudget(budget, t, t.workers[w].event)
    ensures SplitInv(budget, t)
  {
    SameReplaysSameClears(s, t);
    assert HeldBy(s, w, s.workers[w].event);
    forall e | HasStatus(t.db, e, Received)
      ensures HasBudget(budget, t, e)
    {
      assert e != s.workers[w].event ==> HasStatus(s.db, e, Received);
    }
    forall v | v in t.workers && v != w
      ensures PlaceCounts(budget, t.db, t.workers[v])
      ensures IsUncounted(t.workers[v]) ==> HasBudget(budget, t, t.workers[v].event)
    {
      assert PlaceCounts(budget, s.db, s.workers[v]);
      assert !s.workers[v].Resting? ==> HeldBy(s, v, s.workers[v].event);
    }
  }

  lemma ReadKeepsSplit(config: Config, budget: nat, s: System, w: Id)
    requires SplitInv(budget, s) && LeasesHold(s) && Enabled(s, Worker(w, Read))
    requires !CountsStale(budget, s, Worker(w, Read))
    ensures SplitInv(budget, ActNext(config, s, w, Read))
  {
    var t := ActNext(config, s, w, Read);
    SameReplaysSameClears(s, t);
    assert LeaseMatches(s.db, s.workers[w]) && HasBudget(budget, s, s.workers[w].event);
    assert t.db == s.db && t.replays == s.replays;
    WorkerKeepsSplit(budget, s, t, w);
  }

  lemma StaleCountBreaks(config: Config, budget: nat, s: System, move: Move)
    requires Enabled(s, move) && CountsStale(budget, s, move)
    ensures !CountsWithin(budget, Next(config, s, move))
  {
    var t := Next(config, s, move);
    assert HasCounted(t.workers[move.worker]) && t.workers[move.worker].row.tried == budget;
  }

  lemma AskOrRecordKeepsSplit(config: Config, budget: nat, s: System, w: Id, act: Act)
    requires SplitInv(budget, s) && LeasesHold(s) && Enabled(s, Worker(w, act))
    requires act.AskBreaker? || act.Record? || act.Fault?
    ensures SplitInv(budget, ActNext(config, s, w, act))
  {
    var t := ActNext(config, s, w, act);
    assert PlaceCounts(budget, s.db, s.workers[w]) && t.db == s.db && t.replays == s.replays;
    SameReplaysSameClears(s, t);
    WorkerKeepsSplit(budget, s, t, w);
  }

  lemma LoggedAttemptFits(db: Database, after: Database, budget: nat, id: Id, row: Attempt)
    requires AttemptsWithin(budget, db) && InsertAttempt(db, id, row) == Some(after)
    requires row.number <= budget && |AttemptsOf(db, row.eventId)| < budget
    ensures AttemptsWithin(budget, after) && |AttemptsOf(after, row.eventId)| == |AttemptsOf(db, row.eventId)| + 1
    ensures forall e :: e != row.eventId ==> AttemptsOf(after, e) == AttemptsOf(db, e)
  {
    AttemptsAfterInsert(db, after, row.eventId, id, row);
  }

  lemma LogKeepsSplit(config: Config, budget: nat, s: System, w: Id, id: Id, wall: int)
    requires SplitInv(budget, s) && LeasesHold(s) && AttemptsKnown(s) && Enabled(s, Worker(w, Log(id, wall)))
    ensures SplitInv(budget, ActNext(config, s, w, Log(id, wall)))
  {
    var t, pc := ActNext(config, s, w, Log(id, wall)), s.workers[w];
    assert PlaceCounts(budget, s.db, pc) && LeaseMatches(s.db, pc);
    LoggedAttemptFits(s.db, t.db, budget, id, AttemptRow(pc.event, pc.row.tried + 1, pc.response, wall));
    WorkerKeepsSplit(budget, s, t, w);
  }

  lemma SettleKeepsSplit(config: Config, s: System, w: Id)
    requires SplitInv(Delivery.Budget(config), s) && LeasesHold(s) && Enabled(s, Worker(w, SetFinal))
    ensures SplitInv(Delivery.Budget(config), ActNext(config, s, w, SetFinal))
  {
    var t := ActNext(config, s, w, SetFinal);
    SameAttempts(s.db, t.db);
    assert PlaceCounts(Delivery.Budget(config), s.db, s.workers[w]);
    WorkerKeepsSplit(Delivery.Budget(config), s, t, w);
  }

  lemma RequeueKeepsSplit(config: Config, budget: nat, s: System, w: Id)
    requires SplitInv(budget, s) && LeasesHold(s) && Enabled(s, Worker(w, Requeue))
    requires RequeuesFit(budget, s, Worker(w, Requeue))
    ensures SplitInv(budget, ActNext(config, s, w, Requeue))
  {
    var t := ActNext(config, s, w, Requeue);
    SameAttempts(s.db, t.db);
    SameReplaysSameClears(s, t);
    WorkerKeepsSplit(budget, s, t, w);
  }

  lemma SpentRequeueBreaks(config: Config, budget: nat, s: System, move: Move)
    requires Enabled(s, move) && !RequeuesFit(budget, s, move)
    ensures !WaitingHaveBudget(budget, Next(config, s, move))
  {
    var t, event := Next(config, s, move), s.workers[move.worker].event;
    SameAttempts(s.db, t.db);
    SameReplaysSameClears(s, t);
    assert HasStatus(t.db, event, Received) && !HasBudget(budget, t, event);
  }

  lemma BuryEffect(config: Config, s: System, w: Id, id: Id, wall: int)
    requires Enabled(s, Worker(w, Bury(id, wall)))
    ensures var t := ActNext(config, s, w, Bury(id, wall));
      && t.db.events == s.db.events && t.db.attempts == s.db.attempts && t.replays == s.replays
      && w in t.workers && t.workers == s.workers[w := t.workers[w]]
      && (t.workers[w].Resting? || t.workers[w].Erring?)
  {
  }

  lemma BuryKeepsSplit(config: Config, budget: nat, s: System, w: Id, id: Id, wall: int)
    requires SplitInv(budget, s) && LeasesHold(s) && Enabled(s, Worker(w, Bury(id, wall)))
    ensures SplitInv(budget, ActNext(config, s, w, Bury(id, wall)))
  {
    var t := ActNext(config, s, w, Bury(id, wall));
    BuryEffect(config, s, w, id, wall);
    SameAttempts(s.db, t.db);
    SameReplaysSameClears(s, t);
    WorkerKeepsSplit(budget, s, t, w);
  }

  lemma ClaimKeepsSplit(config: Config, budget: nat, s: System, w: Id)
    requires SplitInv(budget, s) && Enabled(s, Worker(w, Claim))
    ensures SplitInv(budget, ActNext(config, s, w, Claim))
  {
    var t := ActNext(config, s, w, Claim);
    SameAttempts(s.db, t.db);
    SameReplaysSameClears(s, t);
    forall e | HasStatus(t.db, e, Received)
      ensures HasBudget(budget, t, e)
    {
      assert HasStatus(s.db, e, Received);
    }
    if NextEvent(s.db).Some? {
      assert HasBudget(budget, s, NextEvent(s.db).value);
      forall v | v in t.workers
        ensures PlaceCounts(budget, t.db, t.workers[v])
        ensures IsUncounted(t.workers[v]) ==> HasBudget(budget, t, t.workers[v].event)
      {
        assert v != w ==> PlaceCounts(budget, s.db, s.workers[v]);
      }
    }
  }

  lemma ActKeepsSplit(config: Config, s: System, w: Id, act: Act)
    requires SplitInv(Delivery.Budget(config), s) && Sound(s) && Enabled(s, Worker(w, act))
    requires KeepsBudget(Delivery.Budget(config), s, Worker(w, act))
    ensures SplitInv(Delivery.Budget(config), ActNext(config, s, w, act))
  {
    var budget := Delivery.Budget(config);
    match act
    case Claim => ClaimKeepsSplit(config, budget, s, w);
    case Read => ReadKeepsSplit(config, budget, s, w);
    case Log(id, wall) => LogKeepsSplit(config, budget, s, w, id, wall);
    case SetFinal => SettleKeepsSplit(config, s, w);
    case Bury(id, wall) => BuryKeepsSplit(config, budget, s, w, id, wall);
    case Requeue => RequeueKeepsSplit(config, budget, s, w);
    case _ => AskOrRecordKeepsSplit(config, budget, s, w, act);
  }

  // ---------------------------------------------------------------------- the handlers

  /** A handler's move: events keep their attempts or lose them all; a replay that was
      to clear them still is, or has; and none starts to wait without budget. */
  lemma HandlerKeepsSplit(budget: nat, s: System, t: System)
    requires SplitInv(budget, s) && t.workers == s.workers && budget >= 1
    requires forall e :: AttemptsOf(t.db, e) == {} || AttemptsOf(t.db, e) == AttemptsOf(s.db, e)
    requires forall e :: ToBeCleared(s, e) ==> ToBeCleared(t, e) || AttemptsOf(t.db, e) == {}
    requires forall e :: e in t.db.events ==> e in s.db.events || AttemptsOf(t.db, e) == {}
    requires forall e :: HasStatus(t.db, e, Received) ==>
      HasStatus(s.db, e, Received) || AttemptsOf(t.db, e) == {} || ToBeCleared(t, e)
    requires forall a :: a in t.db.attempts ==> a in s.db.attempts && t.db.attempts[a] == s.db.attempts[a]
    ensures SplitInv(budget, t)
  {
    forall e | HasBudget(budget, s, e)
      ensures HasBudget(budget, t, e)
    {
    }
    forall w | w in t.workers
      ensures PlaceCounts(budget, t.db, t.workers[w])
    {
      assert PlaceCounts(budget, s.db, s.workers[w]);
    }
  }

  lemma ReplayKeepsSplit(config: Config, budget: nat, s: System, letter: Id)
    requires SplitInv(budget, s) && Integrity(s.db) && budget >= 1
    ensures SplitInv(budget, Next(config, s, ReplayWhole(letter)))
  {
    ReplayMeans(s.db, letter);
    SameReplaysSameClears(s, Next(config, s, ReplayWhole(letter)));
    HandlerKeepsSplit(budget, s, Next(config, s, ReplayWhole(letter)));
  }

  lemma RetireKeepsSplit(config: Config, budget: nat, s: System, id: Id)
    requires SplitInv(budget, s) && Integrity(s.db) && budget >= 1
    ensures SplitInv(budget, Next(config, s, RemoveEndpoint(id)))
  {
    var t := Next(config, s, RemoveEndpoint(id));
    RetireMeans(s.db, id);
    RetireKeeps(s.db, id);
    NoEventNoAttempts(t.db);
    SameReplaysSameClears(s, t);
    HandlerKeepsSplit(budget, s, t);
  }

  lemma InsertKeepsSplit(config: Config, budget: nat, s: System, move: Move)
    requires SplitInv(budget, s) && AttemptsHaveEvents(s.db) && budget >= 1
    requires Enabled(s, move) && (move.CreateEndpoint? || move.AcceptEvent?)
    ensures SplitInv(budget, Next(config, s, move))
  {
    var t := Next(config, s, move);
    SameAttempts(s.db, t.db);
    NoEventNoAttempts(s.db);
    SameReplaysSameClears(s, t);
    HandlerKeepsSplit(budget, s, t);
  }

  /** The statements of a replay: from the requeue to the delete the event is to be
      cleared, and the delete clears it. */
  lemma StatementClears(config: Config, s: System, move: Move)
    requires Enabled(s, move) && (move.ReplaySelect? || move.ReplayRequeue? || move.ReplayClear? || move.ReplayDrop?)
    ensures var t := Next(config, s, move);
      && (forall e :: AttemptsOf(t.db, e) == {} || AttemptsOf(t.db, e) == AttemptsOf(s.db, e))
      && (forall e :: ToBeCleared(s, e) ==> ToBeCleared(t, e) || AttemptsOf(t.db, e) == {})
      && (move.ReplayRequeue? ==> ToBeCleared(t, s.replays[move.replay].event))
  {
    var t := Next(config, s, move);
    if move.ReplayClear? {
      DeletedAttempts(s.db, s.replays[move.replay].event);
    } else {
      SameAttempts(s.db, t.db);
    }
    forall e | ToBeCleared(s, e)
      ensures ToBeCleared(t, e) || AttemptsOf(t.db, e) == {}
    {
      var r :| IsRequeued(s, r, e);
      assert IsRequeued(t, r, e) || (move.ReplayClear? && move.replay == r);
    }
    assert move.ReplayRequeue? ==> IsRequeued(t, move.replay, s.replays[move.replay].event);
  }

  lemma StatementKeepsSplit(config: Config, budget: nat, s: System, move: Move)
    requires SplitInv(budget, s) && Enabled(s, move) && budget >= 1
    requires move.ReplaySelect? || move.ReplayRequeue? || move.ReplayClear? || move.ReplayDrop?
    ensures SplitInv(budget, Next(config, s, move))
  {
    StatementClears(config, s, move);
    HandlerKeepsSplit(budget, s, Next(config, s, move));
  }

  lemma MoveKeepsSplit(config: Config, s: System, move: Move)
    requires SplitInv(Delivery.Budget(config), s) && Sound(s) && Enabled(s, move)
    requires KeepsBudget(Delivery.Budget(config), s, move)
    ensures SplitInv(Delivery.Budget(config), Next(config, s, move))
  {
    var budget := Delivery.Budget(config);
    match move
    case Worker(w, act) => ActKeepsSplit(config, s, w, act);
    case ReplayWhole(letter) => ReplayKeepsSplit(config, budget, s, letter);
    case RemoveEndpoint(id) => RetireKeepsSplit(config, budget, s, id);
    case CreateEndpoint(_, _) | AcceptEvent(_, _) => InsertKeepsSplit(config, budget, s, move);
    case _ => StatementKeepsSplit(config, budget, s, move);
  }

  // -------------------------------------------------------------------- over whole runs

  ghost predicate BudgetHoldsThroughout(config: Config, start: System, moves: seq<Move>) {
    && BudgetHolds(Delivery.Budget(config), End(config, start, moves))
    && (moves != [] ==> BudgetHoldsThroughout(config, start, moves[..|moves| - 1]))
  }

  ghost predicate MovesKeepBudget(config: Config, start: System, moves: seq<Move>) {
    moves != [] ==>
      var before, last := moves[..|moves| - 1], moves[|moves| - 1];
      && MovesKeepBudget(config, start, before)
      && KeepsBudget(Delivery.Budget(config), End(config, start, before), last)
  }

  lemma {:induction false} RunKeepsSplit(config: Config, start: System, moves: seq<Move>)
    requires IsStart(start) && IsRun(config, start, moves) && MovesKeepBudget(config, start, moves)
    ensures Sound(End(config, start, moves)) && SplitInv(Delivery.Budget(config), End(config, start, moves))
  {
    RunKeepsIntegrity(config, start, moves);
    RunKeepsKnown(config, start, moves);
    RunKeepsAttemptsKnown(config, start, moves);
    if moves != [] {
      var before, last := moves[..|moves| - 1], moves[|moves| - 1];
      RunKeepsSplit(config, start, before);
      MoveKeepsLeases(config, End(config, start, before), last);
      MoveKeepsSplit(config, End(config, start, before), last);
    }
  }

  lemma BreakingMove(config: Config, s: System, move: Move)
    requires Sound(s) && Enabled(s, move) && !KeepsBudget(Delivery.Budget(config), s, move)
    ensures !BudgetHolds(Delivery.Budget(config), Next(config, s, move))
  {
    if !HitsNobody(s, move) {
      MoveKeepsLeasesIff(config, s, move);
    } else if CountsStale(Delivery.Budget(config), s, move) {
      StaleCountBreaks(config, Delivery.Budget(config), s, move);
    } else {
      SpentRequeueBreaks(config, Delivery.Budget(config), s, move);
    }
  }

  /** In every run, with any number of workers, faults at any of their statements, and
      replays whole or interleaved: the leases hold, no worker counts a spent budget and
      every waiting event has budget or is about to get it back, all throughout, exactly
      when no replay puts back a held event, no worker counts a spent budget between a
      replay's requeue and its delete, and no requeue after an error finds the budget
      spent and no replay about to restore it. */
  lemma {:induction false} BudgetHoldsIff(config: Config, start: System, moves: seq<Move>)
    requires IsStart(start) && IsRun(config, start, moves)
    ensures BudgetHoldsThroughout(config, start, moves) <==> MovesKeepBudget(config, start, moves)
  {
    if moves != [] {
      var before, last := moves[..|moves| - 1], moves[|moves| - 1];
      BudgetHoldsIff(config, start, before);
      if MovesKeepBudget(config, start, before) {
        RunKeepsSplit(config, start, before);
        if KeepsBudget(Delivery.Budget(config), End(config, start, before), last) {
          RunKeepsSplit(config, start, moves);
        } else {
          BreakingMove(config, End(config, start, before), last);
        }
      }
    }
  }

  /** Then no attempt is numbered past the budget, and none is on file beyond it. */
  lemma NoAttemptPastBudget(config: Config, start: System, moves: seq<Move>)
    requires IsStart(start) && IsRun(config, start, moves) && MovesKeepBudget(config, start, moves)
    ensures AttemptsWithin(Delivery.Budget(config), End(config, start, moves).db)
  {
    RunKeepsSplit(config, start, moves);
  }

  // ----------------------------------------------------------------- without faults

  ghost predicate CountsWithinThroughout(config: Config, start: System, moves: seq<Move>) {
    && CountsWithin(Delivery.Budget(config), End(config, start, moves))
    && (moves != [] ==> CountsWithinThroughout(config, start, moves[..|moves| - 1]))
  }

  ghost predicate NoStaleCounts(config: Config, start: System, moves: seq<Move>) {
    moves != [] ==>
      var before, last := moves[..|moves| - 1], moves[|moves| - 1];
      && NoStaleCounts(config, start, before)
      && !CountsStale(Delivery.Budget(config), End(config, start, before), last)
  }

  lemma {:induction false} FaultlessMovesKeepBudget(config: Config, start: System, moves: seq<Move>)
    requires IsStart(start) && IsRun(config, start, moves) && forall m :: m in moves ==> Faultless(m)
    requires ReplaysHitNobody(config, start, moves) && NoStaleCounts(config, start, moves)
    ensures MovesKeepBudget(config, start, moves)
  {
    if moves != [] {
      var before, last := moves[..|moves| - 1], moves[|moves| - 1];
      FaultlessMovesKeepBudget(config, start, before);
      RunKeepsUntroubled(config, start, before);
      var s := End(config, start, before);
      if last.Worker? {
        assert ReadsTrue(s.db, s.workers[last.worker]);
      }
    }
  }

  /** In every run without faults in which no replay puts back a held event: no worker
      ever carries a spent budget to the breaker, the downstream or the log, exactly when
      none counts between a replay's requeue and its delete with the budget spent. */
  lemma {:induction false} CountsStayWithinIff(config: Config, start: System, moves: seq<Move>)
    requires IsStart(start) && IsRun(config, start, moves) && forall m :: m in moves ==> Faultless(m)
    requires ReplaysHitNobody(config, start, moves)
    ensures CountsWithinThroughout(config, start, moves) <==> NoStaleCounts(config, start, moves)
  {
    if moves != [] {
      var before, last := moves[..|moves| - 1], moves[|moves| - 1];
      CountsStayWithinIff(config, start, before);
      if NoStaleCounts(config, start, moves) {
        FaultlessMovesKeepBudget(config, start, moves);
        RunKeepsSplit(config, start, moves);
        CountsFit(Delivery.Budget(config), End(config, start, moves));
      } else if NoStaleCounts(config, start, before) {
        StaleCountBreaks(config, Delivery.Budget(config), End(config, start, before), last);
      }
    }
  }

  lemma CountsFit(budget: nat, s: System)
    requires SplitInv(budget, s)
    ensures CountsWithin(budget, s)
  {
    forall w | w in s.workers && HasCounted(s.workers[w])
      ensures s.workers[w].row.tried < budget
    {
      assert PlaceCounts(budget, s.db, s.workers[w]);
    }
  }

  // ------------------------------------------------------------------------- contacts

  /** Each replay that cleared attempts cleared a budget at most. */
  ghost predicate AccountFits(budget: nat, account: Account) {
    && account.cleared <= Times(account.replays, budget)
    && account.contacts <= Times(account.replays + 1, budget) + account.lost
  }

  lemma HearerHasRoom(budget: nat, s: System, event: Id)
    requires SplitInv(budget, s) && OneHolder(s)
    ensures |Hearers(s, event)| <= 1
    ensures Hearers(s, event) != {} ==> Tried(s.db, event) < budget
  {
    if w :| w in Hearers(s, event) {
      assert PlaceCounts(budget, s.db, s.workers[w]);
      assert forall v :: v in Hearers(s, event) ==> HeldBy(s, v, event);
      assert Hearers(s, event) == {w};
    }
  }

  /** The account of a stored event, from where its contacts have gone. */
  lemma StoredAccountFits(budget: nat, s: System, event: Id, account: Account)
    requires SplitInv(budget, s) && OneHolder(s) && event in s.db.events && IsAccountedFor(s, event, account)
    requires account.cleared <= Times(account.replays, budget)
    ensures AccountFits(budget, account)
  {
    HearerHasRoom(budget, s, event);
    TimesOneMore(account.replays, budget);
  }

  lemma TimesOneMore(n: nat, budget: nat)
    ensures Times(n + 1, budget) == Times(n, budget) + budget
  {
  }

  lemma MoveClearsWithin(budget: nat, s: System, event: Id, account: Account, move: Move)
    requires AttemptsWithin(budget, s.db) && Enabled(s, move)
    requires account.cleared <= Times(account.replays, budget)
    ensures var next := AccountNext(budget, s, event, account, move);
      next.cleared <= Times(next.replays, budget)
  {
    TimesOneMore(account.replays, budget);
  }

  /** A removed event is not contacted. */
  lemma GoneAccountFits(budget: nat, s: System, event: Id, account: Account, move: Move)
    requires AccountFits(budget, account) && LeasesMatch(s) && Enabled(s, move)
    requires event !in s.db.events || move.RemoveEndpoint?
    ensures AccountFits(budget, AccountNext(budget, s, event, account, move))
  {
    if move.Worker? && move.act.Record? {
      assert LeaseMatches(s.db, s.workers[move.worker]);
    }
  }

  lemma MoveKeepsRows(config: Config, s: System, move: Move, event: Id)
    requires Enabled(s, move) && Integrity(s.db) && event in s.db.events && !move.RemoveEndpoint?
    ensures event in Next(config, s, move).db.events
  {
    match move
    case Worker(w, act) => ActBringsNoEvent(config, s, w, act);
    case ReplayWhole(letter) => ReplayMeans(s.db, letter);
    case _ =>
  }

  lemma {:induction false} RunKeepsAccountFitting(config: Config, start: System, moves: seq<Move>, event: Id)
    requires IsStart(start) && IsRun(config, start, moves) && MovesKeepBudget(config, start, moves)
    ensures AccountFits(Delivery.Budget(config), AccountOf(config, start, moves, event))
  {
    if moves != [] {
      var budget := Delivery.Budget(config);
      var before, last := moves[..|moves| - 1], moves[|moves| - 1];
      var s, account := End(config, start, before), AccountOf(config, start, before, event);
      RunKeepsAccountFitting(config, start, before, event);
      RunKeepsSplit(config, start, before);
      MoveClearsWithin(budget, s, event, account, last);
      if event in s.db.events && !last.RemoveEndpoint? {
        RunKeepsSplit(config, start, moves);
        RunKeepsAccount(config, start, moves, event);
        MoveKeepsRows(config, s, last, event);
        StoredAccountFits(budget, End(config, start, moves), event, AccountOf(config, start, moves, event));
      } else {
        GoneAccountFits(budget, s, event, account, last);
      }
    }
  }

  /** In every run that keeps the budgets, an event whose attempts k replays have
      cleared is contacted at most (k + 1) * B times, and once more for each verdict
      that a fault kept from the log. */
  lemma ReplaysAreWorthABudgetEach(config: Config, start: System, moves: seq<Move>, event: Id)
    requires IsStart(start) && IsRun(config, start, moves) && MovesKeepBudget(config, start, moves)
    ensures var account := AccountOf(config, start, moves, event);
      account.contacts <= (account.replays + 1) * Delivery.Budget(config) + account.lost
  {
    RunKeepsAccountFitting(config, start, moves, event);
    TimesIsProduct(AccountOf(config, start, moves, event).replays + 1, Delivery.Budget(config));
  }
}
