/** What storage faults cost: with any number of workers, faults at any of their
    statements and whole replays, each fault is worth at most one more contact. */
module FaultBudget {
  import opened Foundation
  import opened Tables
  import opened Operations
  import opened Dispatching
  import opened StatementMachine
  import opened Leases
  import opened FaultFree
  import opened StatementLedger
  import opened Accounts
  import Delivery = DeliveryMachine

  /** The contacts still to come, without more faults or replays: at least one for an
      event on its way to a contact, however many attempts it has had. */
  function LeftAt(budget: nat, tried: nat, pc: Pc): nat {
    match pc
    case Resting | Burying(_, _, _) => 0
    case Heard(_, _, _) => Max(0, budget - tried - 1)
    case Logged(_, _, _) => Max(0, budget - tried)
    case _ => Max(1, budget - tried)
  }

  function LeftIn(budget: nat, tried: nat, status: Status): nat {
    if status == Received then Max(1, budget - tried) else 0
  }

  function Allowance(budget: nat, account: Account): nat {
    Times(account.replays + 1, budget) + account.lost + account.spared
  }

  ghost predicate WithinAllowance(budget: nat, s: System, event: Id, account: Account) {
    && account.contacts <= Allowance(budget, account)
    && (forall w :: HeldBy(s, w, event) && event in s.db.events ==>
          account.contacts + LeftAt(budget, Tried(s.db, event), s.workers[w]) <= Allowance(budget, account))
    && ((forall w :: !HeldBy(s, w, event)) && event in s.db.events ==>
          account.contacts + LeftIn(budget, Tried(s.db, event), s.db.events[event].status)
            <= Allowance(budget, account))
    && (event !in s.minted ==> account == NONE)
  }

  /** A logged attempt is the last one; a buried event has used up its budget. */
  predicate PlaceKnows(budget: nat, db: Database, pc: Pc) {
    match pc
    case Logged(event, row, _) => row.tried + 1 == Tried(db, event)
    case Burying(event, _, _) => event in db.events ==> Tried(db, event) >= budget
    case _ => true
  }

  ghost predicate PlacesKnow(budget: nat, s: System) {
    forall w :: w in s.workers ==> PlaceKnows(budget, s.db, s.workers[w])
  }

  // ------------------------------------------------------------------------ the worker

  /** Another worker's event. */
  lemma OthersStayWithin(budget: nat, s: System, t: System, w: Id, event: Id, account: Account)
    requires WithinAllowance(budget, s, event, account) && w in s.workers && s.minted <= t.minted
    requires s.workers[w].Resting? || s.workers[w].event != event
    requires t.workers[w := s.workers[w]] == s.workers && w in t.workers
    requires t.workers[w].Resting? || t.workers[w].event != event
    requires event in t.db.events <==> event in s.db.events
    requires event in s.db.events ==> t.db.events[event] == s.db.events[event]
    requires AttemptsOf(t.db, event) == AttemptsOf(s.db, event)
    ensures WithinAllowance(budget, t, event, account)
  {
    forall v
      ensures HeldBy(t, v, event) <==> HeldBy(s, v, event)
      ensures HeldBy(s, v, event) ==> t.workers[v] == s.workers[v]
    {
      assert v != w ==> (v in t.workers <==> v in s.workers);
      assert v != w && v in s.workers ==> t.workers[v] == t.workers[w := s.workers[w]][v];
    }
  }

  /** The contacts still to come for the event of this worker. */
  function LeftFor(budget: nat, s: System, w: Id, event: Id): nat
    requires w in s.workers
  {
    if event !in s.db.events then 0
    else if s.workers[w].Resting? then LeftIn(budget, Tried(s.db, event), s.db.events[event].status)
    else LeftAt(budget, Tried(s.db, event), s.workers[w])
  }

  /** The worker's own event. */
  lemma OwnStaysWithin(budget: nat, s: System, t: System, w: Id, event: Id, account: Account)
    requires OneHolder(s) && HeldBy(s, w, event) && event in s.minted && s.minted <= t.minted
    requires t.workers[w := s.workers[w]] == s.workers && w in t.workers
    requires t.workers[w].Resting? || t.workers[w].event == event
    requires account.contacts + LeftFor(budget, t, w, event) <= Allowance(budget, account)
    ensures WithinAllowance(budget, t, event, account)
  {
    forall v | HeldBy(t, v, event)
      ensures v == w
    {
      if v != w {
        assert s.workers[v] == t.workers[v];
        assert HeldBy(s, v, event);
      }
    }
    if !t.workers[w].Resting? {
      assert HeldBy(t, w, event);
    }
  }

  lemma ActMovesOneOnly(config: Config, s: System, w: Id, act: Act)
    requires Enabled(s, Worker(w, act))
    ensures var t := ActNext(config, s, w, act);
      w in t.workers && t.workers[w := s.workers[w]] == s.workers && s.minted <= t.minted
  {
    ActMovesOne(config, s, w, act);
  }

  lemma ForeignActStaysWithin(config: Config, budget: nat, s: System, w: Id, act: Act, event: Id, account: Account)
    requires WithinAllowance(budget, s, event, account) && Enabled(s, Worker(w, act)) && event in s.minted
    requires NumberInv(s) && LeasesMatch(s) && AttemptsKnown(s)
    requires s.workers[w].Resting? || s.workers[w].event != event
    requires !(act.Claim? && NextEvent(s.db) == Some(event))
    ensures WithinAllowance(budget, ActNext(config, s, w, act), event, account)
  {
    var t := ActNext(config, s, w, act);
    ActMovesOneOnly(config, s, w, act);
    ActWritesItsOwn(config, s, w, act, event);
    if act.Log? {
      LogAddsOne(config, s, w, act.id, act.wall);
    } else {
      ActLeavesAttempts(config, s, w, act);
      SameAttempts(s.db, t.db);
    }
    OthersStayWithin(budget, s, t, w, event, account);
  }

  lemma ClaimStaysWithin(config: Config, budget: nat, s: System, w: Id, account: Account)
    requires NextEvent(s.db).Some? && WithinAllowance(budget, s, NextEvent(s.db).value, account)
    requires LeasesMatch(s) && Enabled(s, Worker(w, Claim)) && NextEvent(s.db).value in s.minted
    ensures WithinAllowance(budget, ActNext(config, s, w, Claim), NextEvent(s.db).value, account)
  {
    var event := NextEvent(s.db).value;
    var t := ActNext(config, s, w, Claim);
    SameAttempts(s.db, t.db);
    forall v
      ensures !HeldBy(s, v, event) && (HeldBy(t, v, event) ==> v == w)
    {
      assert v in s.workers ==> LeaseMatches(s.db, s.workers[v]);
    }
    assert HeldBy(t, w, event);
  }

  lemma RecordStaysWithin(config: Config, budget: nat, s: System, w: Id, response: Response, at: Instant,
                          account: Account)
    requires Enabled(s, Worker(w, Record(response, at))) && OneHolder(s) && LeasesMatch(s) && KnownEvents(s)
    requires WithinAllowance(budget, s, s.workers[w].event, account)
    ensures WithinAllowance(budget, ActNext(config, s, w, Record(response, at)), s.workers[w].event,
                            AccountNext(budget, s, s.workers[w].event, account, Worker(w, Record(response, at))))
  {
    var event := s.workers[w].event;
    assert HeldBy(s, w, event) && LeaseMatches(s.db, s.workers[w]);
    ActMovesOneOnly(config, s, w, Record(response, at));
    OwnStaysWithin(budget, s, ActNext(config, s, w, Record(response, at)), w, event,
                   account.(contacts := account.contacts + 1));
  }

  lemma LogLeaves(config: Config, budget: nat, s: System, w: Id, id: Id, wall: int)
    requires Enabled(s, Worker(w, Log(id, wall))) && LeasesMatch(s) && NumberInv(s) && AttemptsKnown(s)
    ensures var t, event := ActNext(config, s, w, Log(id, wall)), s.workers[w].event;
      w in t.workers && LeftFor(budget, t, w, event) == LeftFor(budget, s, w, event)
  {
    LogAddsOne(config, s, w, id, wall);
  }

  lemma LogStaysWithin(config: Config, budget: nat, s: System, w: Id, id: Id, wall: int, account: Account)
    requires Enabled(s, Worker(w, Log(id, wall))) && LeasesHold(s) && KnownEvents(s) && NumberInv(s) && AttemptsKnown(s)
    requires WithinAllowance(budget, s, s.workers[w].event, account)
    ensures WithinAllowance(budget, ActNext(config, s, w, Log(id, wall)), s.workers[w].event,
                            AccountNext(budget, s, s.workers[w].event, account, Worker(w, Log(id, wall))))
  {
    var event := s.workers[w].event;
    assert HeldBy(s, w, event) && LeaseMatches(s.db, s.workers[w]);
    ActMovesOneOnly(config, s, w, Log(id, wall));
    LogLeaves(config, budget, s, w, id, wall);
    OwnStaysWithin(budget, s, ActNext(config, s, w, Log(id, wall)), w, event, account);
  }

  lemma SettleStaysWithin(config: Config, s: System, w: Id, account: Account)
    requires Enabled(s, Worker(w, SetFinal)) && OneHolder(s) && KnownEvents(s)
    requires PlaceKnows(Delivery.Budget(config), s.db, s.workers[w])
    requires WithinAllowance(Delivery.Budget(config), s, s.workers[w].event, account)
    ensures WithinAllowance(Delivery.Budget(config), ActNext(config, s, w, SetFinal), s.workers[w].event,
                            AccountNext(Delivery.Budget(config), s, s.workers[w].event, account, Worker(w, SetFinal)))
  {
    var event := s.workers[w].event;
    assert HeldBy(s, w, event);
    ActMovesOneOnly(config, s, w, SetFinal);
    SameAttempts(s.db, ActNext(config, s, w, SetFinal).db);
    OwnStaysWithin(Delivery.Budget(config), s, ActNext(config, s, w, SetFinal), w, event, account);
  }

  lemma OwnActLeaves(config: Config, budget: nat, s: System, w: Id, act: Act)
    requires Enabled(s, Worker(w, act)) && LeasesMatch(s) && EventsHaveEndpoints(s.db)
    requires act.Read? || act.AskBreaker? || act.Requeue? || act.Bury?
    ensures var t, event := ActNext(config, s, w, act), s.workers[w].event;
      w in t.workers && LeftFor(budget, t, w, event) <= LeftFor(budget, s, w, event)
  {
    assert LeaseMatches(s.db, s.workers[w]);
    ActLeavesAttempts(config, s, w, act);
    SameAttempts(s.db, ActNext(config, s, w, act).db);
  }

  /** Reads, the question to the breaker, the requeue and the burial. */
  lemma OwnActStaysWithin(config: Config, budget: nat, s: System, w: Id, act: Act, account: Account)
    requires Enabled(s, Worker(w, act)) && OneHolder(s) && LeasesMatch(s) && KnownEvents(s) && EventsHaveEndpoints(s.db)
    requires act.Read? || act.AskBreaker? || act.Requeue? || act.Bury?
    requires WithinAllowance(budget, s, s.workers[w].event, account)
    ensures WithinAllowance(budget, ActNext(config, s, w, act), s.workers[w].event,
                            AccountNext(budget, s, s.workers[w].event, account, Worker(w, act)))
  {
    var event := s.workers[w].event;
    assert HeldBy(s, w, event);
    ActMovesOneOnly(config, s, w, act);
    OwnActLeaves(config, budget, s, w, act);
    OwnStaysWithin(budget, s, ActNext(config, s, w, act), w, event, account);
  }

  /** A fault sends the event back for at most one contact more. */
  lemma FaultStaysWithin(config: Config, budget: nat, s: System, w: Id, account: Account)
    requires Enabled(s, Worker(w, Fault)) && OneHolder(s) && LeasesMatch(s) && KnownEvents(s)
    requires PlaceKnows(budget, s.db, s.workers[w]) && WithinAllowance(budget, s, s.workers[w].event, account)
    ensures WithinAllowance(budget, ActNext(config, s, w, Fault), s.workers[w].event,
                            AccountNext(budget, s, s.workers[w].event, account, Worker(w, Fault)))
  {
    var event := s.workers[w].event;
    assert HeldBy(s, w, event) && LeaseMatches(s.db, s.workers[w]);
    ActMovesOneOnly(config, s, w, Fault);
    OwnStaysWithin(budget, s, ActNext(config, s, w, Fault), w, event,
                   AccountNext(budget, s, event, account, Worker(w, Fault)));
  }

  lemma HolderStaysWithin(config: Config, s: System, w: Id, act: Act, event: Id, account: Account)
    requires Enabled(s, Worker(w, act)) && LeasesHold(s) && KnownEvents(s) && EventsHaveEndpoints(s.db)
    requires NumberInv(s) && AttemptsKnown(s) && PlaceKnows(Delivery.Budget(config), s.db, s.workers[w])
    requires WithinAllowance(Delivery.Budget(config), s, event, account) && HeldBy(s, w, event)
    ensures WithinAllowance(Delivery.Budget(config), ActNext(config, s, w, act), event,
                            AccountNext(Delivery.Budget(config), s, event, account, Worker(w, act)))
  {
    var budget := Delivery.Budget(config);
    match act
    case Record(response, at) => RecordStaysWithin(config, budget, s, w, response, at, account);
    case Log(id, wall) => LogStaysWithin(config, budget, s, w, id, wall, account);
    case SetFinal => SettleStaysWithin(config, s, w, account);
    case Fault => FaultStaysWithin(config, budget, s, w, account);
    case _ => OwnActStaysWithin(config, budget, s, w, act, account);
  }

  lemma ActStaysWithin(config: Config, s: System, w: Id, act: Act, event: Id, account: Account)
    requires Enabled(s, Worker(w, act)) && LeasesHold(s) && KnownEvents(s) && EventsHaveEndpoints(s.db)
    requires NumberInv(s) && AttemptsKnown(s) && PlaceKnows(Delivery.Budget(config), s.db, s.workers[w])
    requires WithinAllowance(Delivery.Budget(config), s, event, account) && event in s.minted
    ensures WithinAllowance(Delivery.Budget(config), ActNext(config, s, w, act), event,
                            AccountNext(Delivery.Budget(config), s, event, account, Worker(w, act)))
  {
    if HeldBy(s, w, event) {
      HolderStaysWithin(config, s, w, act, event, account);
    } else if act.Claim? && NextEvent(s.db) == Some(event) {
      ClaimStaysWithin(config, Delivery.Budget(config), s, w, account);
    } else {
      ForeignActStaysWithin(config, Delivery.Budget(config), s, w, act, event, account);
    }
  }

  // ----------------------------------------------------------------------- the handlers

  /** The event's row and attempts stay as they are, or go. */
  lemma HandlerStaysWithin(budget: nat, s: System, t: System, event: Id, account: Account)
    requires WithinAllowance(budget, s, event, account) && event in s.minted
    requires t.workers == s.workers && s.minted <= t.minted
    requires event in t.db.events ==> event in s.db.events && t.db.events[event] == s.db.events[event]
    requires event in t.db.events ==> AttemptsOf(t.db, event) == AttemptsOf(s.db, event)
    ensures WithinAllowance(budget, t, event, account)
  {
    forall w
      ensures HeldBy(t, w, event) <==> HeldBy(s, w, event)
    {
    }
  }

  /** A replayed event has its whole budget again. */
  lemma ReplayStaysWithin(config: Config, budget: nat, s: System, letter: Id, event: Id, account: Account)
    requires WithinAllowance(budget, s, event, account) && LettersAreFree(s) && KnownEvents(s) && budget >= 1
    ensures WithinAllowance(budget, Next(config, s, ReplayWhole(letter)), event,
                            AccountNext(budget, s, event, account, ReplayWhole(letter)))
  {
    var t := Next(config, s, ReplayWhole(letter));
    if letter in s.db.deadLetters {
      ReplayedRows(s.db, letter);
      ReplayedAttempts(s.db, letter);
      if s.db.deadLetters[letter].eventId == event {
        assert forall w :: HeldBy(t, w, event) ==> HeldBy(s, w, event);
        assert Times(account.replays + 2, budget) == Times(account.replays + 1, budget) + budget;
      } else if event in s.minted {
        HandlerStaysWithin(budget, s, t, event, account);
      }
    }
  }

  lemma RetireStaysWithin(config: Config, budget: nat, s: System, id: Id, event: Id, account: Account)
    requires WithinAllowance(budget, s, event, account) && Integrity(s.db) && event in s.minted
    ensures WithinAllowance(budget, Next(config, s, RemoveEndpoint(id)), event, account)
  {
    RetireMeans(s.db, id);
    HandlerStaysWithin(budget, s, Next(config, s, RemoveEndpoint(id)), event, account);
  }

  lemma InsertStaysWithin(config: Config, budget: nat, s: System, move: Move, event: Id, account: Account)
    requires WithinAllowance(budget, s, event, account) && event in s.minted && KnownEvents(s)
    requires Enabled(s, move) && (move.CreateEndpoint? || move.AcceptEvent?)
    ensures WithinAllowance(budget, Next(config, s, move), event, account)
  {
    SameAttempts(s.db, Next(config, s, move).db);
    HandlerStaysWithin(budget, s, Next(config, s, move), event, account);
  }

  /** An event nobody has heard of has no contacts; when it is accepted it has its
      budget. */
  lemma UnheardStaysWithin(config: Config, s: System, move: Move, event: Id)
    requires Enabled(s, move) && Unsplit(move) && KnownEvents(s) && Integrity(s.db) && event !in s.minted
    ensures AccountNext(Delivery.Budget(config), s, event, NONE, move) == NONE
    ensures WithinAllowance(Delivery.Budget(config), Next(config, s, move), event, NONE)
  {
    var t := Next(config, s, move);
    if move.Worker? && !s.workers[move.worker].Resting? {
      assert HeldBy(s, move.worker, s.workers[move.worker].event);
    }
    assert PutBack(s, move).Some? ==> PutBack(s, move).value in s.db.events;
    MoveKeepsKnown(config, s, move);
    if event in t.db.events {
      NewEventIsAccepted(config, s, move, event);
      NoEventNoAttempts(s.db);
      SameAttempts(s.db, t.db);
      assert forall w :: HeldBy(t, w, event) ==> HeldBy(s, w, event);
    }
    assert forall w :: HeldBy(t, w, event) ==> event in t.minted;
    assert Times(1, Delivery.Budget(config)) == Delivery.Budget(config);
  }

  lemma NewEventIsAccepted(config: Config, s: System, move: Move, event: Id)
    requires Enabled(s, move) && KnownEvents(s) && Integrity(s.db)
    requires event !in s.minted && event in Next(config, s, move).db.events
    ensures move.AcceptEvent? && HasStatus(Next(config, s, move).db, event, Received)
  {
    match move
    case Worker(w, act) => ActBringsNoEvent(config, s, w, act);
    case RemoveEndpoint(id) => RetireMeans(s.db, id);
    case ReplayWhole(letter) => ReplayMeans(s.db, letter);
    case _ =>
  }

  // ------------------------------------------------------------------- what places know

  lemma ActKeepsOwnPlace(config: Config, s: System, w: Id, act: Act)
    requires Enabled(s, Worker(w, act)) && !act.Log? && PlaceKnows(Delivery.Budget(config), s.db, s.workers[w])
    ensures w in ActNext(config, s, w, act).workers
    ensures PlaceKnows(Delivery.Budget(config), ActNext(config, s, w, act).db, ActNext(config, s, w, act).workers[w])
  {
    ActLeavesAttempts(config, s, w, act);
    SameAttempts(s.db, ActNext(config, s, w, act).db);
  }

  lemma ActKeepsPlaces(config: Config, s: System, w: Id, act: Act)
    requires PlacesKnow(Delivery.Budget(config), s) && LeasesHold(s) && NumberInv(s) && AttemptsKnown(s)
    requires Enabled(s, Worker(w, act))
    ensures PlacesKnow(Delivery.Budget(config), ActNext(config, s, w, act))
  {
    var t := ActNext(config, s, w, act);
    ActMovesOne(config, s, w, act);
    ActBringsNoEvent(config, s, w, act);
    if act.Log? {
      LogAddsOne(config, s, w, act.id, act.wall);
      assert HeldBy(s, w, s.workers[w].event);
    } else {
      ActKeepsOwnPlace(config, s, w, act);
      ActLeavesAttempts(config, s, w, act);
      SameAttempts(s.db, t.db);
    }
    forall v | v in t.workers && v != w
      ensures PlaceKnows(Delivery.Budget(config), t.db, t.workers[v])
    {
      assert PlaceKnows(Delivery.Budget(config), s.db, s.workers[v]);
      assert !s.workers[v].Resting? ==> HeldBy(s, v, s.workers[v].event);
    }
  }

  lemma HandlerKeepsPlaces(budget: nat, s: System, t: System)
    requires PlacesKnow(budget, s) && t.workers == s.workers && KnownEvents(s)
    requires forall w, e :: HeldBy(s, w, e) && e in t.db.events ==>
      e in s.db.events && AttemptsOf(t.db, e) == AttemptsOf(s.db, e)
    requires forall w, e :: HeldBy(s, w, e) && HasStatus(s.db, e, Processing) ==> e in t.db.events
    requires LeasesMatch(s)
    ensures PlacesKnow(budget, t)
  {
    forall w | w in t.workers
      ensures PlaceKnows(budget, t.db, t.workers[w])
    {
      assert PlaceKnows(budget, s.db, s.workers[w]) && LeaseMatches(s.db, s.workers[w]);
      assert !s.workers[w].Resting? ==> HeldBy(s, w, s.workers[w].event);
    }
  }

  lemma ReplayKeepsPlaces(config: Config, budget: nat, s: System, letter: Id)
    requires PlacesKnow(budget, s) && LeasesMatch(s) && LettersAreFree(s) && KnownEvents(s)
    ensures PlacesKnow(budget, Next(config, s, ReplayWhole(letter)))
  {
    if letter in s.db.deadLetters {
      ReplayedRows(s.db, letter);
      ReplayedAttempts(s.db, letter);
    }
    HandlerKeepsPlaces(budget, s, Next(config, s, ReplayWhole(letter)));
  }

  lemma RetireKeepsPlaces(config: Config, budget: nat, s: System, id: Id)
    requires PlacesKnow(budget, s) && LeasesMatch(s) && KnownEvents(s) && Integrity(s.db)
    ensures PlacesKnow(budget, Next(config, s, RemoveEndpoint(id)))
  {
    RetireMeans(s.db, id);
    HandlerKeepsPlaces(budget, s, Next(config, s, RemoveEndpoint(id)));
  }

  lemma InsertKeepsPlaces(config: Config, budget: nat, s: System, move: Move)
    requires PlacesKnow(budget, s) && LeasesMatch(s) && KnownEvents(s)
    requires Enabled(s, move) && (move.CreateEndpoint? || move.AcceptEvent?)
    ensures PlacesKnow(budget, Next(config, s, move))
  {
    SameAttempts(s.db, Next(config, s, move).db);
    HandlerKeepsPlaces(budget, s, Next(config, s, move));
  }

  // ------------------------------------------------------------------------ whole runs

  lemma MoveKeepsPlaces(config: Config, s: System, move: Move)
    requires PlacesKnow(Delivery.Budget(config), s) && LeasesHold(s) && LettersAreFree(s) && KnownEvents(s)
    requires Integrity(s.db) && NumberInv(s) && AttemptsKnown(s) && Enabled(s, move) && Unsplit(move)
    ensures PlacesKnow(Delivery.Budget(config), Next(config, s, move))
  {
    match move
    case Worker(w, act) => ActKeepsPlaces(config, s, w, act);
    case ReplayWhole(letter) => ReplayKeepsPlaces(config, Delivery.Budget(config), s, letter);
    case RemoveEndpoint(id) => RetireKeepsPlaces(config, Delivery.Budget(config), s, id);
    case _ => InsertKeepsPlaces(config, Delivery.Budget(config), s, move);
  }

  lemma MoveStaysWithin(config: Config, s: System, move: Move, event: Id, account: Account)
    requires WithinAllowance(Delivery.Budget(config), s, event, account) && event in s.minted
    requires PlacesKnow(Delivery.Budget(config), s) && LeasesHold(s) && LettersAreFree(s) && KnownEvents(s)
    requires Integrity(s.db) && NumberInv(s) && AttemptsKnown(s) && Enabled(s, move) && Unsplit(move)
    ensures WithinAllowance(Delivery.Budget(config), Next(config, s, move), event,
                            AccountNext(Delivery.Budget(config), s, event, account, move))
  {
    match move
    case Worker(w, act) => ActStaysWithin(config, s, w, act, event, account);
    case ReplayWhole(letter) => ReplayStaysWithin(config, Delivery.Budget(config), s, letter, event, account);
    case RemoveEndpoint(id) => RetireStaysWithin(config, Delivery.Budget(config), s, id, event, account);
    case _ => InsertStaysWithin(config, Delivery.Budget(config), s, move, event, account);
  }

  lemma {:induction false} RunKeepsPlaces(config: Config, start: System, moves: seq<Move>)
    requires IsStart(start) && IsRun(config, start, moves) && forall m :: m in moves ==> Unsplit(m)
    ensures PlacesKnow(Delivery.Budget(config), End(config, start, moves))
  {
    if moves != [] {
      var before, last := moves[..|moves| - 1], moves[|moves| - 1];
      RunKeepsPlaces(config, start, before);
      UnsplitRunKeepsLeases(config, start, before);
      RunKeepsKnown(config, start, before);
      RunKeepsIntegrity(config, start, before);
      RunKeepsAttemptsKnown(config, start, before);
      RunKeepsNumbers(config, start, before);
      assert last in moves;
      MoveKeepsPlaces(config, End(config, start, before), last);
    }
  }

  lemma {:induction false} RunStaysWithin(config: Config, start: System, moves: seq<Move>, event: Id)
    requires IsStart(start) && IsRun(config, start, moves) && forall m :: m in moves ==> Unsplit(m)
    ensures WithinAllowance(Delivery.Budget(config), End(config, start, moves), event,
                            AccountOf(config, start, moves, event))
  {
    if moves != [] {
      var before, last := moves[..|moves| - 1], moves[|moves| - 1];
      RunStaysWithin(config, start, before, event);
      RunKeepsPlaces(config, start, before);
      UnsplitRunKeepsLeases(config, start, before);
      RunKeepsKnown(config, start, before);
      RunKeepsIntegrity(config, start, before);
      RunKeepsAttemptsKnown(config, start, before);
      RunKeepsNumbers(config, start, before);
      assert last in moves;
      var s := End(config, start, before);
      if event in s.minted {
        MoveStaysWithin(config, s, last, event, AccountOf(config, start, before, event));
      } else {
        UnheardStaysWithin(config, s, last, event);
      }
    }
  }

  /** In every run with any number of workers, faults at any of their statements and
      whole replays: an event replayed k times is contacted at most (k + 1) * B times,
      and once more for each fault that kept a verdict from the log or came after the
      log with the budget spent. */
  lemma FaultsCostOneContactEach(config: Config, start: System, moves: seq<Move>, event: Id)
    requires IsStart(start) && IsRun(config, start, moves) && forall m :: m in moves ==> Unsplit(m)
    ensures var account := AccountOf(config, start, moves, event);
      account.contacts <= (account.replays + 1) * Delivery.Budget(config) + account.lost + account.spared
  {
    var account, budget := AccountOf(config, start, moves, event), Delivery.Budget(config);
    assert account.contacts <= Allowance(budget, account) by {
      RunStaysWithin(config, start, moves, event);
    }
    TimesIsProduct(account.replays + 1, budget);
  }
}
