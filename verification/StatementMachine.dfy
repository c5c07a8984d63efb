/** The relay with single statements as steps: any number of workers, each with a
    program counter; storage faults at any worker statement; and replays, whole or
    statement by statement. */
module StatementMachine {
  import opened Foundation
  import opened Tables
  import opened Operations
  import opened CircuitBreakers
  import opened Dispatching

  /** Where a worker stands: which statement it runs next, and what it carries. */
  datatype Pc =
    | Resting
    | Claimed(event: Id)
    | HasEvent(event: Id, endpoint: Id, body: seq<Byte>)
    | HasUrl(event: Id, endpoint: Id, url: string, body: seq<Byte>)
    | Ready(event: Id, row: Fetched)
    | Withheld(event: Id)
    | Contacting(event: Id, row: Fetched)
    | Heard(event: Id, row: Fetched, response: Response)
    | Logged(event: Id, row: Fetched, response: Response)
    | Burying(event: Id, row: Fetched, response: Response)
    | Erring(event: Id)

  /** Where a replay stands: it has read the dead letter; put the event back;
      cleared the attempts. */
  datatype ReplayPc =
    | Selected(letter: Id, event: Id)
    | Requeued(letter: Id, event: Id)
    | Cleared(letter: Id, event: Id)

  /** `stranded` collects the events whose requeue after an error failed too. */
  datatype System = System(
    db: Database,
    calls: Histories,
    clock: Instant,
    minted: set<Id>,
    workers: map<Id, Pc>,
    replays: map<Id, ReplayPc>,
    stranded: set<Id>)

  predicate IsStart(s: System) {
    && s.db == EMPTY && s.calls == map[] && s.minted == {} && s.replays == map[] && s.stranded == {}
    && forall w :: w in s.workers ==> s.workers[w] == Resting
  }

  /** One statement of a worker, with what it takes from outside. */
  datatype Act =
    | Claim
    | Read
    | AskBreaker(at: Instant)
    | Record(response: Response, at: Instant)
    | Log(id: Id, wall: int)
    | SetFinal
    | Bury(id: Id, wall: int)
    | Requeue
    | Fault

  datatype Move =
    | Worker(worker: Id, act: Act)
    | CreateEndpoint(id: Id, endpoint: Endpoint)
    | RemoveEndpoint(id: Id)
    | AcceptEvent(id: Id, event: Event)
    | ReplayWhole(letter: Id)
    | ReplaySelect(replay: Id, letter: Id)
    | ReplayRequeue(replay: Id)
    | ReplayClear(replay: Id)
    | ReplayDrop(replay: Id)

  /** Which act can come next. A failed claim leaves no trace, and neither the breaker
      nor the contact is a statement, so a fault is a step of its own elsewhere. */
  predicate ActFits(s: System, pc: Pc, act: Act) {
    match act
    case Claim => pc.Resting?
    case Read => pc.Claimed? || pc.HasEvent? || pc.HasUrl?
    case AskBreaker(at) => pc.Ready? && s.clock <= at
    case Record(_, at) => pc.Contacting? && s.clock <= at
    case Log(id, _) => pc.Heard? && id !in s.minted
    case SetFinal => pc.Logged?
    case Bury(id, _) => pc.Burying? && id !in s.minted
    case Requeue => pc.Withheld? || pc.Erring?
    case Fault => !pc.Resting? && !pc.Ready? && !pc.Contacting?
  }

  predicate Enabled(s: System, move: Move) {
    match move
    case Worker(w, act) => w in s.workers && ActFits(s, s.workers[w], act)
    case CreateEndpoint(id, _) => id !in s.minted
    case RemoveEndpoint(_) => true
    case AcceptEvent(id, _) => id !in s.minted
    case ReplayWhole(_) => true
    case ReplaySelect(r, letter) => r !in s.replays && letter in s.db.deadLetters
    case ReplayRequeue(r) => r in s.replays && s.replays[r].Selected?
    case ReplayClear(r) => r in s.replays && s.replays[r].Requeued?
    case ReplayDrop(r) => r in s.replays && s.replays[r].Cleared?
  }

  function At(s: System, w: Id, pc: Pc): System {
    s.(workers := s.workers[w := pc])
  }

  /** The effect of one worker statement. A statement that finds its row gone, or
      is refused by a constraint, sends the worker to the requeue. */
  ghost function ActNext(config: Config, s: System, w: Id, act: Act): System
    requires w in s.workers && ActFits(s, s.workers[w], act)
  {
    var pc := s.workers[w];
    match act
    case Claim =>
      (match NextEvent(s.db)
       case None => s
       case Some(event) => At(s.(db := SetStatus(s.db, event, Processing)), w, Claimed(event)))
    case Read =>
      (match pc
       case Claimed(event) =>
         if event in s.db.events
         then At(s, w, HasEvent(event, s.db.events[event].endpointId, s.db.events[event].body))
         else At(s, w, Erring(event))
       case HasEvent(event, endpoint, body) =>
         if endpoint in s.db.endpoints
         then At(s, w, HasUrl(event, endpoint, s.db.endpoints[endpoint].targetUrl, body))
         else At(s, w, Erring(event))
       case HasUrl(event, endpoint, url, body) =>
         At(s, w, Ready(event, Fetched(endpoint, url, body, |AttemptsOf(s.db, event)|)))
       case _ => s)
    case AskBreaker(at) =>
      var granted := GrantsFrom(config.failureThreshold, config.recovery, HistoryOf(s.calls, pc.row.endpoint), at);
      At(s.(calls := Extended(s.calls, pc.row.endpoint, Ask(at)), clock := at), w,
         if granted then Contacting(pc.event, pc.row) else Withheld(pc.event))
    case Record(response, at) =>
      At(s.(calls := Extended(s.calls, pc.row.endpoint, Verdict(response, at)), clock := at), w,
         Heard(pc.event, pc.row, response))
    case Log(id, wall) =>
      var t := s.(minted := s.minted + {id});
      (match InsertAttempt(s.db, id, AttemptRow(pc.event, pc.row.tried + 1, pc.response, wall))
       case Some(db) => At(t.(db := db), w, Logged(pc.event, pc.row, pc.response))
       case None => At(t, w, Erring(pc.event)))
    case SetFinal =>
      var status := FinalStatus(config, pc.row.tried + 1, pc.response);
      At(s.(db := SetStatus(s.db, pc.event, status)), w,
         if status.Failed? then Burying(pc.event, pc.row, pc.response) else Resting)
    case Bury(id, wall) =>
      var t := s.(minted := s.minted + {id});
      (match PutDeadLetter(s.db, id, DeadLetterRow(pc.event, pc.row.endpoint, pc.response, wall))
       case Some(db) => At(t.(db := db), w, Resting)
       case None => At(t, w, Erring(pc.event)))
    case Requeue =>
      At(s.(db := SetStatus(s.db, pc.event, Received)), w, Resting)
    case Fault =>
      if pc.Erring? then At(s.(stranded := s.stranded + {pc.event}), w, Resting)
      else At(s, w, Erring(pc.event))
  }

  ghost function Next(config: Config, s: System, move: Move): System
    requires Enabled(s, move)
  {
    match move
    case Worker(w, act) => ActNext(config, s, w, act)
    case CreateEndpoint(id, endpoint) =>
      var t := s.(minted := s.minted + {id});
      (match InsertEndpoint(s.db, id, endpoint)
       case Some(db) => t.(db := db)
       case None => t)
    case RemoveEndpoint(id) => s.(db := Retire(s.db, id).0)
    case AcceptEvent(id, event) => s.(db := Accept(s.db, id, event).0, minted := s.minted + {id})
    case ReplayWhole(letter) => s.(db := Replay(s.db, letter).0)
    case ReplaySelect(r, letter) =>
      s.(replays := s.replays[r := Selected(letter, s.db.deadLetters[letter].eventId)])
    case ReplayRequeue(r) =>
      var pc := s.replays[r];
      s.(db := SetStatus(s.db, pc.event, Received), replays := s.replays[r := Requeued(pc.letter, pc.event)])
    case ReplayClear(r) =>
      var pc := s.replays[r];
      s.(db := DeleteAttemptsOf(s.db, pc.event), replays := s.replays[r := Cleared(pc.letter, pc.event)])
    case ReplayDrop(r) =>
      s.(db := DeleteDeadLetter(s.db, s.replays[r].letter), replays := s.replays - {r})
  }

  /** A run: each move is enabled where it is made. */
  ghost predicate IsRun(config: Config, start: System, moves: seq<Move>) {
    moves == [] ||
    (IsRun(config, start, moves[..|moves| - 1]) &&
     Enabled(End(config, start, moves[..|moves| - 1]), moves[|moves| - 1]))
  }

  ghost function End(config: Config, start: System, moves: seq<Move>): System {
    if moves == [] then start
    else
      var before := End(config, start, moves[..|moves| - 1]);
      if Enabled(before, moves[|moves| - 1]) then Next(config, before, moves[|moves| - 1]) else before
  }

  /** The event a worker holds. */
  function Holds(pc: Pc): Option<Id> {
    if pc.Resting? then None else Some(pc.event)
  }

  predicate HeldBy(s: System, w: Id, event: Id) {
    w in s.workers && Holds(s.workers[w]) == Some(event)
  }

  // ------------------------------------------------------------ the schema's constraints

  lemma ActKeepsIntegrity(config: Config, s: System, w: Id, act: Act)
    requires Integrity(s.db) && Enabled(s, Worker(w, act))
    ensures Integrity(ActNext(config, s, w, act).db)
  {
    var pc := s.workers[w];
    match act
    case Claim =>
      if NextEvent(s.db).Some? {
        SetStatusKeeps(s.db, NextEvent(s.db).value, Processing);
      }
    case Log(id, wall) =>
      var row := AttemptRow(pc.event, pc.row.tried + 1, pc.response, wall);
      if InsertAttempt(s.db, id, row).Some? {
        InsertAttemptKeeps(s.db, id, row);
      }
    case SetFinal => SetStatusKeeps(s.db, pc.event, FinalStatus(config, pc.row.tried + 1, pc.response));
    case Bury(id, wall) =>
      var row := DeadLetterRow(pc.event, pc.row.endpoint, pc.response, wall);
      if PutDeadLetter(s.db, id, row).Some? {
        PutDeadLetterKeeps(s.db, id, row);
      }
    case Requeue => SetStatusKeeps(s.db, pc.event, Received);
    case _ =>
  }

  /** Every statement, and every interleaving, respects the schema. */
  lemma MoveKeepsIntegrity(config: Config, s: System, move: Move)
    requires Integrity(s.db) && Enabled(s, move)
    ensures Integrity(Next(config, s, move).db)
  {
    match move
    case Worker(w, act) => ActKeepsIntegrity(config, s, w, act);
    case CreateEndpoint(id, endpoint) =>
      if InsertEndpoint(s.db, id, endpoint).Some? {
        InsertEndpointKeeps(s.db, id, endpoint);
      }
    case RemoveEndpoint(id) => RetireKeeps(s.db, id);
    case AcceptEvent(id, event) => AcceptKeeps(s.db, id, event);
    case ReplayWhole(letter) => ReplayKeeps(s.db, letter);
    case ReplaySelect(_, _) =>
    case ReplayRequeue(r) => SetStatusKeeps(s.db, s.replays[r].event, Received);
    case ReplayClear(r) => DeleteAttemptsKeeps(s.db, s.replays[r].event);
    case ReplayDrop(r) => DeleteDeadLetterKeeps(s.db, s.replays[r].letter);
  }

  lemma {:induction false} RunKeepsIntegrity(config: Config, start: System, moves: seq<Move>)
    requires Integrity(start.db) && IsRun(config, start, moves)
    ensures Integrity(End(config, start, moves).db)
  {
    if moves != [] {
      RunKeepsIntegrity(config, start, moves[..|moves| - 1]);
      MoveKeepsIntegrity(config, End(config, start, moves[..|moves| - 1]), moves[|moves| - 1]);
    }
  }
}
