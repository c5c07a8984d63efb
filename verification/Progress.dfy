/** No worker gets stuck: whatever the others have done, its own next statements are
    always possible, and few of them bring it to rest and let its event go. */
module Progress {
  import opened Foundation
  import opened Tables
  import opened Dispatching
  import opened StatementMachine
  import opened Leases
  import opened SoloPasses
  import opened SoloReplays
  import opened StatementLedger
  import Reach = Reachability

  /** How many statements a worker is from rest, at most. */
  function Stage(pc: Pc): nat {
    match pc
    case Resting => 0
    case Withheld(_) => 1
    case Erring(_) => 1
    case Burying(_, _, _) => 2
    case Logged(_, _, _) => 3
    case Heard(_, _, _) => 4
    case Contacting(_, _) => 5
    case Ready(_, _) => 6
    case HasUrl(_, _, _, _) => 7
    case HasEvent(_, _, _) => 8
    case Claimed(_) => 9
  }

  /** The statement that comes next, for some answer and with a new identifier. */
  function NextAct(s: System, pc: Pc, response: Response, id: Id): Act
    requires !pc.Resting?
  {
    match pc
    case Claimed(_) | HasEvent(_, _, _) | HasUrl(_, _, _, _) => Read
    case Ready(_, _) => AskBreaker(s.clock)
    case Contacting(_, _) => Record(response, s.clock)
    case Heard(_, _, _) => Log(id, 0)
    case Logged(_, _, _) => SetFinal
    case Burying(_, _, _) => Bury(id, 0)
    case _ => Requeue
  }

  lemma MovesOn(config: Config, s: System, w: Id, response: Response, id: Id)
    requires w in s.workers && !s.workers[w].Resting? && id !in s.minted
    ensures var act := NextAct(s, s.workers[w], response, id);
      && Enabled(s, Worker(w, act)) && !act.Fault?
      && w in ActNext(config, s, w, act).workers
      && Stage(ActNext(config, s, w, act).workers[w]) < Stage(s.workers[w])
  {
  }

  // ---------------------------------------------------------- how a pass can go wrong

  /** The statement is refused: a row it needs is gone, or the row it inserts is taken. */
  predicate IsRefused(s: System, pc: Pc, act: Act) {
    match pc
    case Claimed(event) => event !in s.db.events
    case HasEvent(_, endpoint, _) => endpoint !in s.db.endpoints
    case Heard(event, _, _) => event !in s.db.events || (act.Log? && act.id in s.db.attempts)
    case Burying(event, _, _) => event !in s.db.events
    case _ => false
  }

  /** A pass errs at a statement that faults or is refused, and nowhere else; a breaker
      that does not grant is no error. */
  lemma ErrsIff(config: Config, s: System, w: Id, act: Act)
    requires Enabled(s, Worker(w, act)) && !s.workers[w].Resting? && !s.workers[w].Erring?
    ensures w in ActNext(config, s, w, act).workers
    ensures ActNext(config, s, w, act).workers[w].Erring? <==> act.Fault? || IsRefused(s, s.workers[w], act)
  {
  }

  /** A worker lets its event go only with its final status, in the queue again, buried,
      or stranded, by the statement that made it so. */
  lemma LetsGoWith(config: Config, s: System, w: Id, act: Act)
    requires Enabled(s, Worker(w, act)) && !s.workers[w].Resting?
    requires w in ActNext(config, s, w, act).workers && ActNext(config, s, w, act).workers[w].Resting?
    ensures var t := ActNext(config, s, w, act);
      match s.workers[w]
      case Withheld(e) => t.db == SetStatus(s.db, e, Received) && t.stranded == s.stranded
      case Erring(e) =>
        if act.Fault? then t.db == s.db && t.stranded == s.stranded + {e}
        else t.db == SetStatus(s.db, e, Received) && t.stranded == s.stranded
      case Logged(e, _, _) => e in t.db.events ==> t.db.events[e].status in {Delivered, Received}
      case Burying(e, _, _) => exists letter :: IsLetterOf(t.db, letter, e)
      case _ => false
  {
    if s.workers[w].Burying? {
      assert IsLetterOf(ActNext(config, s, w, act).db, act.id, s.workers[w].event);
    }
  }

  // ------------------------------------------------------------------- the way to rest

  lemma SoloFromFirst(config: Config, s: System, w: Id, act: Act, moves: seq<Move>)
    requires Enabled(s, Worker(w, act)) && !act.Fault?
    requires IsRun(config, ActNext(config, s, w, act), moves) && IsSolo(moves, w, false)
    ensures IsRun(config, s, [Worker(w, act)] + moves) && IsSolo([Worker(w, act)] + moves, w, false)
    ensures End(config, s, [Worker(w, act)] + moves) == End(config, ActNext(config, s, w, act), moves)
  {
    Reach.RunsConcatenate(config, s, [Worker(w, act)], moves);
  }

  /** From any state at all, a worker alone comes to rest in at most nine statements, none
      of which fails, whatever the downstream answers. */
  lemma {:induction false} ComesToRest(config: Config, s: System, w: Id, response: Response) returns (moves: seq<Move>)
    requires w in s.workers
    ensures IsRun(config, s, moves) && IsSolo(moves, w, false) && |moves| <= Stage(s.workers[w])
    ensures w in End(config, s, moves).workers && End(config, s, moves).workers[w].Resting?
    decreases Stage(s.workers[w])
  {
    if s.workers[w].Resting? {
      moves := [];
    } else {
      var id := SomeIdIsFree(s.minted);
      var act := NextAct(s, s.workers[w], response, id);
      MovesOn(config, s, w, response, id);
      moves := ComesToRest(config, ActNext(config, s, w, act), w, response);
      SoloFromFirst(config, s, w, act, moves);
      moves := [Worker(w, act)] + moves;
    }
  }

  lemma {:induction false} SoloKeeps(config: Config, s: System, moves: seq<Move>, w: Id)
    requires LeasesHold(s) && IsRun(config, s, moves) && IsSolo(moves, w, false) && w in s.workers
    ensures var t := End(config, s, moves);
      && LeasesHold(t) && t.stranded == s.stranded && t.workers.Keys == s.workers.Keys
      && forall v :: v in s.workers && v != w ==> t.workers[v] == s.workers[v]
  {
    if moves != [] {
      var before, last := moves[..|moves| - 1], moves[|moves| - 1];
      assert last in moves;
      SoloKeeps(config, s, before, w);
      var t := End(config, s, before);
      ActKeepsLeases(config, t, w, last.act);
      ActMovesOne(config, t, w, last.act);
      SmoothActStrandsNothing(config, t, w, last.act);
    }
  }

  lemma SmoothActStrandsNothing(config: Config, s: System, w: Id, act: Act)
    requires Enabled(s, Worker(w, act)) && !act.Fault?
    ensures ActNext(config, s, w, act).stranded == s.stranded
  {
  }

  /** In every run with any number of workers, faults at any of their statements and
      whole replays, the holder of an event can let it go by at most nine statements of
      its own: then nobody holds it and it is not in PROCESSING. */
  lemma HoldersCanLetGo(config: Config, start: System, moves: seq<Move>, w: Id, e: Id, response: Response)
    returns (more: seq<Move>)
    requires IsStart(start) && IsRun(config, start, moves) && forall m :: m in moves ==> Unsplit(m)
    requires HeldBy(End(config, start, moves), w, e)
    ensures IsRun(config, End(config, start, moves), more) && IsSolo(more, w, false) && |more| <= 9
    ensures var t := End(config, End(config, start, moves), more);
      !HasStatus(t.db, e, Processing) && forall v :: !HeldBy(t, v, e)
  {
    var s := End(config, start, moves);
    UnsplitRunKeepsLeases(config, start, moves);
    more := ComesToRest(config, s, w, response);
    SoloKeeps(config, s, more, w);
    var t := End(config, s, more);
    forall v
      ensures !HeldBy(t, v, e)
    {
      assert v != w && HeldBy(t, v, e) ==> HeldBy(s, v, e);
    }
  }
}
