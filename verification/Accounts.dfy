/** What becomes of the contacts of an event: a law of conservation over every run of
    the statement machine, whatever is interleaved and whatever fails. */
module Accounts {
  import opened Foundation
  import opened Tables
  import opened Operations
  import opened Dispatching
  import opened StatementMachine
  import opened Leases
  import opened FaultFree
  import opened StatementLedger
  import Delivery = DeliveryMachine

  /** Of one event: how often it was contacted; how often a replay cleared its attempts,
      and how many it cleared; how often a fault kept a verdict from the log; and how
      often a fault came after the log, with the budget spent. */
  datatype Account = Account(contacts: nat, replays: nat, cleared: nat, lost: nat, spared: nat)

  const NONE := Account(0, 0, 0, 0, 0)

  /** The event whose attempts a replay is about to delete. */
  function Clears(s: System, move: Move): Option<Id> {
    match move
    case ReplayWhole(letter) =>
      if letter in s.db.deadLetters then Some(s.db.deadLetters[letter].eventId) else None
    case ReplayClear(r) => if r in s.replays then Some(s.replays[r].event) else None
    case _ => None
  }

  function AccountNext(budget: nat, s: System, event: Id, account: Account, move: Move): Account
    requires Enabled(s, move)
  {
    if Clears(s, move) == Some(event) && event in s.db.events
    then account.(replays := account.replays + 1, cleared := account.cleared + Tried(s.db, event))
    else
      match move
      case Worker(w, Record(_, _)) =>
        if s.workers[w].event == event then account.(contacts := account.contacts + 1) else account
      case Worker(w, Fault) =>
        var pc := s.workers[w];
        if pc.event != event then account
        else if pc.Heard? then account.(lost := account.lost + 1)
        else if (pc.Logged? || pc.Burying?) && Tried(s.db, event) >= budget
        then account.(spared := account.spared + 1)
        else account
      case _ => account
  }

  ghost function AccountOf(config: Config, start: System, moves: seq<Move>, event: Id): Account
    requires IsRun(config, start, moves)
  {
    if moves == [] then NONE
    else
      var before, last := moves[..|moves| - 1], moves[|moves| - 1];
      AccountNext(Delivery.Budget(config), End(config, start, before), event,
                  AccountOf(config, start, before, event), last)
  }

  /** The workers that know the verdict of a contact and have not logged it. */
  function Hearers(s: System, event: Id): set<Id> {
    set w | w in s.workers && s.workers[w].Heard? && s.workers[w].event == event
  }

  /** Every contact is on file, cleared by a replay, about to be logged, or lost. */
  ghost predicate IsAccountedFor(s: System, event: Id, account: Account) {
    && (event in s.db.events ==>
          account.contacts == account.cleared + Tried(s.db, event) + |Hearers(s, event)| + account.lost)
    && (event !in s.minted ==> account == NONE)
  }

  // -------------------------------------------------------------------- the worker

  lemma AllButOne(a: set<Id>, w: Id)
    ensures |a| == |a - {w}| + (if w in a then 1 else 0)
  {
    assert a == if w in a then (a - {w}) + {w} else a - {w};
  }

  lemma HearersMove(s: System, t: System, w: Id, event: Id)
    requires w in s.workers && w in t.workers && t.workers == s.workers[w := t.workers[w]]
    ensures |Hearers(t, event)| == |Hearers(s, event)|
      - (if w in Hearers(s, event) then 1 else 0) + (if w in Hearers(t, event) then 1 else 0)
  {
    AllButOne(Hearers(s, event), w);
    AllButOne(Hearers(t, event), w);
    assert Hearers(t, event) - {w} == Hearers(s, event) - {w};
  }

  lemma ActOnHearers(config: Config, s: System, w: Id, act: Act, event: Id)
    requires Enabled(s, Worker(w, act))
    ensures var t := ActNext(config, s, w, act);
      |Hearers(t, event)| == |Hearers(s, event)|
        + (if act.Record? && s.workers[w].event == event then 1 else 0)
        - (if (act.Log? || act.Fault?) && s.workers[w].Heard? && s.workers[w].event == event then 1 else 0)
  {
    var t := ActNext(config, s, w, act);
    ActMovesOne(config, s, w, act);
    assert t.workers == s.workers[w := t.workers[w]];
    HearersMove(s, t, w, event);
    ActAndHearing(config, s, w, act);
  }

  lemma ActAndHearing(config: Config, s: System, w: Id, act: Act)
    requires Enabled(s, Worker(w, act))
    ensures var p, q := s.workers[w], ActNext(config, s, w, act).workers[w];
      && (q.Heard? <==> act.Record?)
      && (p.Heard? ==> act.Log? || act.Fault?)
      && (act.Record? ==> q.event == p.event && !p.Resting?)
  {
  }

  lemma LogOnAttempts(config: Config, s: System, w: Id, id: Id, wall: int, event: Id)
    requires AttemptsKnown(s) && Enabled(s, Worker(w, Log(id, wall)))
    ensures var t := ActNext(config, s, w, Log(id, wall));
      event in s.db.events ==>
        Tried(t.db, event) == Tried(s.db, event) + (if s.workers[w].event == event then 1 else 0)
  {
    var t, pc := ActNext(config, s, w, Log(id, wall)), s.workers[w];
    if pc.event in s.db.events {
      AttemptsAfterInsert(s.db, t.db, pc.event, id, AttemptRow(pc.event, pc.row.tried + 1, pc.response, wall));
    }
  }

  lemma ActBringsNoEvent(config: Config, s: System, w: Id, act: Act)
    requires Enabled(s, Worker(w, act))
    ensures var t := ActNext(config, s, w, act);
      t.db.events.Keys == s.db.events.Keys && s.minted <= t.minted
  {
  }

  lemma ActKeepsAccount(config: Config, budget: nat, s: System, w: Id, act: Act, event: Id, account: Account)
    requires IsAccountedFor(s, event, account) && AttemptsKnown(s) && KnownEvents(s) && Enabled(s, Worker(w, act))
    ensures IsAccountedFor(ActNext(config, s, w, act), event, AccountNext(budget, s, event, account, Worker(w, act)))
  {
    var t := ActNext(config, s, w, act);
    ActOnHearers(config, s, w, act, event);
    ActBringsNoEvent(config, s, w, act);
    assert !s.workers[w].Resting? ==> HeldBy(s, w, s.workers[w].event);
    if act.Log? {
      LogOnAttempts(config, s, w, act.id, act.wall, event);
    } else {
      ActLeavesAttempts(config, s, w, act);
      SameAttempts(s.db, t.db);
    }
  }

  // ------------------------------------------------------------------- the handlers

  lemma SameWorkersSameHearers(s: System, t: System, event: Id)
    requires t.workers == s.workers
    ensures Hearers(t, event) == Hearers(s, event)
  {
  }

  lemma NoHearersYet(s: System, event: Id)
    requires KnownEvents(s) && event !in s.minted
    ensures Hearers(s, event) == {}
  {
    forall w | w in Hearers(s, event)
      ensures false
    {
      assert HeldBy(s, w, event);
    }
  }

  lemma RetireKeepsAccount(config: Config, s: System, id: Id, event: Id, account: Account)
    requires IsAccountedFor(s, event, account) && Integrity(s.db)
    ensures IsAccountedFor(Next(config, s, RemoveEndpoint(id)), event, account)
  {
    RetireMeans(s.db, id);
    SameWorkersSameHearers(s, Next(config, s, RemoveEndpoint(id)), event);
  }

  lemma WholeReplayKeepsAccount(config: Config, budget: nat, s: System, letter: Id, event: Id, account: Account)
    requires IsAccountedFor(s, event, account) && Integrity(s.db) && KnownEvents(s)
    ensures IsAccountedFor(Next(config, s, ReplayWhole(letter)), event,
                     AccountNext(budget, s, event, account, ReplayWhole(letter)))
  {
    ReplayMeans(s.db, letter);
    SameWorkersSameHearers(s, Next(config, s, ReplayWhole(letter)), event);
  }

  lemma ClearKeepsAccount(config: Config, budget: nat, s: System, r: Id, event: Id, account: Account)
    requires IsAccountedFor(s, event, account) && KnownEvents(s) && Enabled(s, ReplayClear(r))
    ensures IsAccountedFor(Next(config, s, ReplayClear(r)), event,
                     AccountNext(budget, s, event, account, ReplayClear(r)))
  {
    DeletedAttempts(s.db, s.replays[r].event);
    SameWorkersSameHearers(s, Next(config, s, ReplayClear(r)), event);
  }

  lemma OthersKeepAccount(config: Config, s: System, move: Move, event: Id, account: Account)
    requires IsAccountedFor(s, event, account) && KnownEvents(s) && AttemptsHaveEvents(s.db) && Enabled(s, move)
    requires !move.Worker? && !move.RemoveEndpoint? && Clears(s, move).None?
    ensures IsAccountedFor(Next(config, s, move), event, account)
  {
    var t := Next(config, s, move);
    NoEventNoAttempts(s.db);
    SameWorkersSameHearers(s, t, event);
    if event !in s.minted {
      NoHearersYet(s, event);
    }
    assert t.db.attempts == s.db.attempts;
    SameAttempts(s.db, t.db);
  }

  lemma MoveKeepsAccount(config: Config, budget: nat, s: System, move: Move, event: Id, account: Account)
    requires IsAccountedFor(s, event, account) && AttemptsKnown(s) && KnownEvents(s) && Integrity(s.db)
    requires Enabled(s, move)
    ensures IsAccountedFor(Next(config, s, move), event, AccountNext(budget, s, event, account, move))
  {
    match move
    case Worker(w, act) => ActKeepsAccount(config, budget, s, w, act, event, account);
    case RemoveEndpoint(id) => RetireKeepsAccount(config, s, id, event, account);
    case ReplayWhole(letter) => WholeReplayKeepsAccount(config, budget, s, letter, event, account);
    case ReplayClear(r) => ClearKeepsAccount(config, budget, s, r, event, account);
    case _ => OthersKeepAccount(config, s, move, event, account);
  }

  lemma {:induction false} RunKeepsAccount(config: Config, start: System, moves: seq<Move>, event: Id)
    requires IsStart(start) && IsRun(config, start, moves)
    ensures IsAccountedFor(End(config, start, moves), event, AccountOf(config, start, moves, event))
  {
    if moves != [] {
      var before, last := moves[..|moves| - 1], moves[|moves| - 1];
      RunKeepsAccount(config, start, before, event);
      RunKeepsAttemptsKnown(config, start, before);
      RunKeepsKnown(config, start, before);
      RunKeepsIntegrity(config, start, before);
      MoveKeepsAccount(config, Delivery.Budget(config), End(config, start, before), last, event,
                       AccountOf(config, start, before, event));
    }
  }

  /** In every run, with any number of workers, faults at any of their statements, and
      replays whole or interleaved: the contacts of a stored event are exactly the
      attempts on file, those that replays have cleared, the verdicts about to be
      logged, and those that a fault kept from the log. */
  lemma ContactsAreAccountedFor(config: Config, start: System, moves: seq<Move>, event: Id)
    requires IsStart(start) && IsRun(config, start, moves) && event in End(config, start, moves).db.events
    ensures var s, account := End(config, start, moves), AccountOf(config, start, moves, event);
      account.contacts == account.cleared + Tried(s.db, event) + |Hearers(s, event)| + account.lost
  {
    RunKeepsAccount(config, start, moves, event);
  }
}
