/** The retry budget at statement granularity, with any number of workers and whole
    replays: what each status says about the attempts, exactly when faults let it say
    so, and how many contacts k replays are worth. */
module StatementBudget {
  import opened Foundation
  import opened Tables
  import opened Operations
  import opened Dispatching
  import opened StatementMachine
  import opened Leases
  import opened FaultFree
  import opened StatementLedger
  import opened Accounts
  import opened FaultBudget
  import Delivery = DeliveryMachine

  /** Every status has its number of attempts. */
  predicate StatusFits(budget: nat, db: Database, event: Id)
    requires event in db.events
  {
    match db.events[event].status
    case Received => Tried(db, event) < budget
    case Processing => Tried(db, event) <= budget
    case Failed => Tried(db, event) == budget
    case Delivered => 1 <= Tried(db, event) <= budget
  }

  /** Until its attempt is logged, a worker has one left. */
  predicate PlaceFits(budget: nat, db: Database, pc: Pc) {
    match pc
    case Resting | Erring(_) | Burying(_, _, _) => true
    case Logged(event, row, _) => row.tried + 1 == Tried(db, event) <= budget
    case _ => Tried(db, pc.event) < budget
  }

  ghost predicate StatusesFit(budget: nat, db: Database) {
    forall e :: e in db.events ==> StatusFits(budget, db, e)
  }

  ghost predicate BudgetInv(budget: nat, s: System) {
    && StatusesFit(budget, s.db)
    && (forall w :: w in s.workers ==> PlaceFits(budget, s.db, s.workers[w]))
  }

  /** A requeue after an error, if this is one, finds budget left, or no event. */
  predicate RequeuesWithin(budget: nat, s: System, move: Move) {
    match move
    case Worker(w, Requeue) =>
      w in s.workers && s.workers[w].Erring? && s.workers[w].event in s.db.events ==>
        Tried(s.db, s.workers[w].event) < budget
    case _ => true
  }

  /** What runs with whole replays offer each step. */
  ghost predicate Orderly(s: System) {
    LeasesHold(s) && NobodyElses(s) && KnownEvents(s) && Integrity(s.db) && AttemptsKnown(s) && NumberInv(s)
  }

  lemma RunIsOrderly(config: Config, start: System, moves: seq<Move>)
    requires IsStart(start) && IsRun(config, start, moves) && forall m :: m in moves ==> Unsplit(m)
    ensures Orderly(End(config, start, moves))
  {
    UnsplitRunKeepsLeases(config, start, moves);
    RunKeepsKnown(config, start, moves);
    RunKeepsIntegrity(config, start, moves);
    RunKeepsAttemptsKnown(config, start, moves);
    RunKeepsNumbers(config, start, moves);
  }

  /** The worker's own event and place fit; the rest is as it was. */
  lemma WorkerKeepsBudget(budget: nat, s: System, t: System, w: Id)
    requires BudgetInv(budget, s) && OneHolder(s) && w in s.workers && !s.workers[w].Resting?
    requires t.workers.Keys == s.workers.Keys && forall v :: v in s.workers && v != w ==> t.workers[v] == s.workers[v]
    requires t.db.events.Keys == s.db.events.Keys
    requires forall f :: f in s.db.events && f != s.workers[w].event ==> t.db.events[f] == s.db.events[f]
    requires forall f :: f != s.workers[w].event ==> AttemptsOf(t.db, f) == AttemptsOf(s.db, f)
    requires s.workers[w].event in t.db.events ==> StatusFits(budget, t.db, s.workers[w].event)
    requires PlaceFits(budget, t.db, t.workers[w])
    ensures BudgetInv(budget, t)
  {
    assert HeldBy(s, w, s.workers[w].event);
    forall v | v in t.workers
      ensures PlaceFits(budget, t.db, t.workers[v])
    {
      if v != w {
        assert PlaceFits(budget, s.db, s.workers[v]);
        assert !s.workers[v].Resting? ==> HeldBy(s, v, s.workers[v].event);
      }
    }
  }

  lemma ReadKeepsBudget(config: Config, budget: nat, s: System, w: Id, act: Act)
    requires BudgetInv(budget, s) && OneHolder(s) && Enabled(s, Worker(w, act))
    requires act.Read? || act.AskBreaker? || act.Record? || act.Fault?
    ensures BudgetInv(budget, ActNext(config, s, w, act))
  {
    var t := ActNext(config, s, w, act);
    assert t.db == s.db && PlaceFits(budget, s.db, s.workers[w]);
    WorkerKeepsBudget(budget, s, t, w);
  }

  lemma LogKeepsBudget(config: Config, budget: nat, s: System, w: Id, id: Id, wall: int)
    requires BudgetInv(budget, s) && OneHolder(s) && AttemptsKnown(s) && NumberInv(s) && LeasesMatch(s)
    requires Enabled(s, Worker(w, Log(id, wall)))
    ensures BudgetInv(budget, ActNext(config, s, w, Log(id, wall)))
  {
    var t := ActNext(config, s, w, Log(id, wall));
    LogAddsOne(config, s, w, id, wall);
    assert LeaseMatches(s.db, s.workers[w]) && PlaceFits(budget, s.db, s.workers[w]);
    WorkerKeepsBudget(budget, s, t, w);
  }

  lemma SettleKeepsBudget(config: Config, s: System, w: Id)
    requires BudgetInv(Delivery.Budget(config), s) && OneHolder(s) && Enabled(s, Worker(w, SetFinal))
    ensures BudgetInv(Delivery.Budget(config), ActNext(config, s, w, SetFinal))
  {
    var t := ActNext(config, s, w, SetFinal);
    SameAttempts(s.db, t.db);
    assert PlaceFits(Delivery.Budget(config), s.db, s.workers[w]);
    WorkerKeepsBudget(Delivery.Budget(config), s, t, w);
  }

  lemma RequeueKeepsBudget(config: Config, budget: nat, s: System, w: Id)
    requires BudgetInv(budget, s) && OneHolder(s) && Enabled(s, Worker(w, Requeue))
    requires RequeuesWithin(budget, s, Worker(w, Requeue))
    ensures BudgetInv(budget, ActNext(config, s, w, Requeue))
  {
    var t := ActNext(config, s, w, Requeue);
    SameAttempts(s.db, t.db);
    assert PlaceFits(budget, s.db, s.workers[w]);
    WorkerKeepsBudget(budget, s, t, w);
  }

  lemma BuryKeepsBudget(config: Config, budget: nat, s: System, w: Id, id: Id, wall: int)
    requires BudgetInv(budget, s) && OneHolder(s) && Enabled(s, Worker(w, Bury(id, wall)))
    ensures BudgetInv(budget, ActNext(config, s, w, Bury(id, wall)))
  {
    var t := ActNext(config, s, w, Bury(id, wall));
    SameAttempts(s.db, t.db);
    WorkerKeepsBudget(budget, s, t, w);
  }

  lemma ClaimKeepsBudget(config: Config, budget: nat, s: System, w: Id)
    requires BudgetInv(budget, s) && LeasesMatch(s) && Enabled(s, Worker(w, Claim))
    ensures BudgetInv(budget, ActNext(config, s, w, Claim))
  {
    var t := ActNext(config, s, w, Claim);
    SameAttempts(s.db, t.db);
    if NextEvent(s.db).Some? {
      assert StatusFits(budget, s.db, NextEvent(s.db).value);
      forall v | v in t.workers
        ensures PlaceFits(budget, t.db, t.workers[v])
      {
        assert v != w ==> PlaceFits(budget, s.db, s.workers[v]);
      }
    }
  }

  /** A handler's move: what stays keeps its attempts and status, or starts over. */
  lemma HandlerKeepsBudget(budget: nat, s: System, t: System)
    requires BudgetInv(budget, s) && LeasesMatch(s) && t.workers == s.workers && budget >= 1
    requires forall e :: HasStatus(s.db, e, Processing) ==> AttemptsOf(t.db, e) == AttemptsOf(s.db, e)
    requires forall e :: e in t.db.events ==>
      || (AttemptsOf(t.db, e) == {} && t.db.events[e].status == Received)
      || (e in s.db.events && t.db.events[e].status == s.db.events[e].status &&
          AttemptsOf(t.db, e) == AttemptsOf(s.db, e))
    ensures BudgetInv(budget, t)
  {
    forall w | w in t.workers
      ensures PlaceFits(budget, t.db, t.workers[w])
    {
      assert PlaceFits(budget, s.db, s.workers[w]) && LeaseMatches(s.db, s.workers[w]);
    }
  }

  lemma ReplayKeepsBudget(config: Config, s: System, letter: Id)
    requires BudgetInv(Delivery.Budget(config), s) && LeasesMatch(s) && LettersAreFree(s) && Integrity(s.db)
    ensures BudgetInv(Delivery.Budget(config), Next(config, s, ReplayWhole(letter)))
  {
    ReplayMeans(s.db, letter);
    HandlerKeepsBudget(Delivery.Budget(config), s, Next(config, s, ReplayWhole(letter)));
  }

  lemma RetireKeepsBudget(config: Config, s: System, id: Id)
    requires BudgetInv(Delivery.Budget(config), s) && LeasesMatch(s) && Integrity(s.db)
    ensures BudgetInv(Delivery.Budget(config), Next(config, s, RemoveEndpoint(id)))
  {
    RetireMeans(s.db, id);
    HandlerKeepsBudget(Delivery.Budget(config), s, Next(config, s, RemoveEndpoint(id)));
  }

  lemma InsertKeepsBudget(config: Config, s: System, move: Move)
    requires BudgetInv(Delivery.Budget(config), s) && LeasesMatch(s) && AttemptsHaveEvents(s.db)
    requires Enabled(s, move) && (move.CreateEndpoint? || move.AcceptEvent?)
    ensures BudgetInv(Delivery.Budget(config), Next(config, s, move))
  {
    var t := Next(config, s, move);
    SameAttempts(s.db, t.db);
    NoEventNoAttempts(s.db);
    HandlerKeepsBudget(Delivery.Budget(config), s, t);
  }

  lemma MoveKeepsBudget(config: Config, s: System, move: Move)
    requires BudgetInv(Delivery.Budget(config), s) && Orderly(s) && Enabled(s, move) && Unsplit(move)
    requires RequeuesWithin(Delivery.Budget(config), s, move)
    ensures BudgetInv(Delivery.Budget(config), Next(config, s, move))
  {
    var budget := Delivery.Budget(config);
    match move
    case Worker(w, Claim) => ClaimKeepsBudget(config, budget, s, w);
    case Worker(w, Log(id, wall)) => LogKeepsBudget(config, budget, s, w, id, wall);
    case Worker(w, SetFinal) => SettleKeepsBudget(config, s, w);
    case Worker(w, Requeue) => RequeueKeepsBudget(config, budget, s, w);
    case Worker(w, Bury(id, wall)) => BuryKeepsBudget(config, budget, s, w, id, wall);
    case Worker(w, act) => ReadKeepsBudget(config, budget, s, w, act);
    case ReplayWhole(letter) => ReplayKeepsBudget(config, s, letter);
    case RemoveEndpoint(id) => RetireKeepsBudget(config, s, id);
    case _ => InsertKeepsBudget(config, s, move);
  }

  /** A requeue of an event whose budget is spent makes it wait all the same. */
  lemma SpentRequeueSpoils(config: Config, budget: nat, s: System, move: Move)
    requires Enabled(s, move) && !RequeuesWithin(budget, s, move)
    ensures !StatusesFit(budget, Next(config, s, move).db)
  {
    var t, event := Next(config, s, move), s.workers[move.worker].event;
    SameAttempts(s.db, t.db);
    assert HasStatus(t.db, event, Received) && !StatusFits(budget, t.db, event);
  }

  // ------------------------------------------------------------------ over whole runs

  ghost predicate StatusesFitThroughout(config: Config, start: System, moves: seq<Move>) {
    && StatusesFit(Delivery.Budget(config), End(config, start, moves).db)
    && (moves != [] ==> StatusesFitThroughout(config, start, moves[..|moves| - 1]))
  }

  /** No worker puts an event back, after an error, whose budget is spent. */
  ghost predicate NoSpentRequeues(config: Config, start: System, moves: seq<Move>) {
    moves != [] ==>
      var before, last := moves[..|moves| - 1], moves[|moves| - 1];
      && NoSpentRequeues(config, start, before)
      && RequeuesWithin(Delivery.Budget(config), End(config, start, before), last)
  }

  lemma {:induction false} RunKeepsBudget(config: Config, start: System, moves: seq<Move>)
    requires IsStart(start) && IsRun(config, start, moves) && forall m :: m in moves ==> Unsplit(m)
    requires NoSpentRequeues(config, start, moves)
    ensures BudgetInv(Delivery.Budget(config), End(config, start, moves))
  {
    if moves != [] {
      var before, last := moves[..|moves| - 1], moves[|moves| - 1];
      RunKeepsBudget(config, start, before);
      RunIsOrderly(config, start, before);
      assert last in moves;
      MoveKeepsBudget(config, End(config, start, before), last);
    }
  }

  /** In every run with any number of workers, faults at any of their statements and
      whole replays: RECEIVED means fewer than B attempts, FAILED exactly B and
      DELIVERED between 1 and B, throughout, exactly when no requeue after an error
      hits an event whose budget is spent. */
  lemma {:induction false} StatusCountsAttemptsIff(config: Config, start: System, moves: seq<Move>)
    requires IsStart(start) && IsRun(config, start, moves) && forall m :: m in moves ==> Unsplit(m)
    ensures StatusesFitThroughout(config, start, moves) <==> NoSpentRequeues(config, start, moves)
  {
    if moves != [] {
      var before, last := moves[..|moves| - 1], moves[|moves| - 1];
      StatusCountsAttemptsIff(config, start, before);
      if NoSpentRequeues(config, start, moves) {
        RunKeepsBudget(config, start, moves);
      } else if NoSpentRequeues(config, start, before) {
        SpentRequeueSpoils(config, Delivery.Budget(config), End(config, start, before), last);
      }
    }
  }

  /** Without faults there is no such requeue: a worker errs only when its event is gone. */
  lemma {:induction false} FaultlessRunsFit(config: Config, start: System, moves: seq<Move>)
    requires IsStart(start) && IsRun(config, start, moves) && forall m :: m in moves ==> Faultless(m)
    ensures NoSpentRequeues(config, start, moves)
  {
    if moves != [] {
      var before, last := moves[..|moves| - 1], moves[|moves| - 1];
      FaultlessRunsFit(config, start, before);
      RunKeepsUntroubled(config, start, before);
      var s := End(config, start, before);
      if last.Worker? {
        assert ReadsTrue(s.db, s.workers[last.worker]);
      }
    }
  }

  /** So without faults the statuses always fit. */
  lemma StatusCountsAttempts(config: Config, start: System, moves: seq<Move>, event: Id)
    requires IsStart(start) && IsRun(config, start, moves)
    requires forall m :: m in moves ==> Unsplit(m) && Faultless(m)
    requires event in End(config, start, moves).db.events
    ensures StatusFits(Delivery.Budget(config), End(config, start, moves).db, event)
  {
    FaultlessRunsFit(config, start, moves);
    RunKeepsBudget(config, start, moves);
  }

  // ------------------------------------------------------------------------- contacts

  lemma ReplayClearsBudget(config: Config, s: System, move: Move, event: Id, account: Account)
    requires BudgetInv(Delivery.Budget(config), s) && LettersAreFree(s) && Enabled(s, move) && Unsplit(move)
    requires account.cleared == Times(account.replays, Delivery.Budget(config))
    ensures var next := AccountNext(Delivery.Budget(config), s, event, account, move);
      next.cleared == Times(next.replays, Delivery.Budget(config))
  {
    if Clears(s, move) == Some(event) && event in s.db.events {
      assert HasStatus(s.db, event, Failed) && StatusFits(Delivery.Budget(config), s.db, event);
    }
  }

  /** Where the statuses fit, each replay clears a whole budget. */
  lemma {:induction false} ReplaysClearBudgets(config: Config, start: System, moves: seq<Move>, event: Id)
    requires IsStart(start) && IsRun(config, start, moves) && forall m :: m in moves ==> Unsplit(m)
    requires NoSpentRequeues(config, start, moves)
    ensures var account := AccountOf(config, start, moves, event);
      account.cleared == Times(account.replays, Delivery.Budget(config))
  {
    if moves != [] {
      var before, last := moves[..|moves| - 1], moves[|moves| - 1];
      ReplaysClearBudgets(config, start, before, event);
      RunKeepsBudget(config, start, before);
      RunIsOrderly(config, start, before);
      assert last in moves;
      ReplayClearsBudget(config, End(config, start, before), last, event, AccountOf(config, start, before, event));
    }
  }

  /** In every run with whole replays where the statuses fit, a stored event that was
      replayed k times has been contacted k * B times, and once for each attempt on
      file, each verdict about to be logged, and each that a fault kept from the log. */
  lemma ContactsPerReplay(config: Config, start: System, moves: seq<Move>, event: Id)
    requires IsStart(start) && IsRun(config, start, moves) && forall m :: m in moves ==> Unsplit(m)
    requires NoSpentRequeues(config, start, moves) && event in End(config, start, moves).db.events
    ensures var s, account := End(config, start, moves), AccountOf(config, start, moves, event);
      account.contacts
        == account.replays * Delivery.Budget(config) + Tried(s.db, event) + |Hearers(s, event)| + account.lost
  {
    ContactsAreAccountedFor(config, start, moves, event);
    ReplaysClearBudgets(config, start, moves, event);
    TimesIsProduct(AccountOf(config, start, moves, event).replays, Delivery.Budget(config));
  }

  lemma {:induction false} FaultlessRunsLoseNothing(config: Config, start: System, moves: seq<Move>, event: Id)
    requires IsRun(config, start, moves) && forall m :: m in moves ==> Faultless(m)
    ensures AccountOf(config, start, moves, event).lost == AccountOf(config, start, moves, event).spared == 0
  {
    if moves != [] {
      FaultlessRunsLoseNothing(config, start, moves[..|moves| - 1], event);
      assert moves[|moves| - 1] in moves;
    }
  }

  /** All workers together keep every event within its budget when nothing fails: at
      most (k + 1) * B contacts for k replays; and, while the event exists, exactly
      k * B plus the attempts on file and the contact, if any, that is heard of and not
      yet logged. */
  lemma ContactsStayWithinBudget(config: Config, start: System, moves: seq<Move>, event: Id)
    requires IsStart(start) && IsRun(config, start, moves)
    requires forall m :: m in moves ==> Unsplit(m) && Faultless(m)
    ensures var s, account := End(config, start, moves), AccountOf(config, start, moves, event);
      && account.contacts <= (account.replays + 1) * Delivery.Budget(config)
      && (event in s.db.events ==>
            account.contacts == account.replays * Delivery.Budget(config) + Tried(s.db, event) + |Hearers(s, event)|)
  {
    FaultlessRunsLoseNothing(config, start, moves, event);
    FaultsCostOneContactEach(config, start, moves, event);
    if event in End(config, start, moves).db.events {
      FaultlessRunsFit(config, start, moves);
      ContactsPerReplay(config, start, moves, event);
    }
  }
}
