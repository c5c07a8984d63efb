/** Lease exclusivity: with any number of workers and faults at any of their
    statements, an event in PROCESSING has one holder, and only its holder touches
    its status. Interleaved replays keep this up exactly as long as each of their
    status updates hits an event that nobody holds; whole replays always do. */
module Leases {
  import opened Foundation
  import opened Tables
  import opened Operations
  import opened Dispatching
  import opened StatementMachine

  /** A held event is in PROCESSING; once its worker has written FAILED it is FAILED,
      and may be gone with its endpoint. */
  predicate LeaseMatches(db: Database, pc: Pc) {
    match pc
    case Resting => true
    case Burying(event, _, _) => event in db.events ==> db.events[event].status == Failed
    case Erring(event) => event in db.events ==> db.events[event].status in {Processing, Failed}
    case _ => HasStatus(db, pc.event, Processing)
  }

  ghost predicate LeasesMatch(s: System) {
    forall w :: w in s.workers ==> LeaseMatches(s.db, s.workers[w])
  }

  /** No event has two holders. */
  ghost predicate OneHolder(s: System) {
    forall v, w, e :: HeldBy(s, v, e) && HeldBy(s, w, e) ==> v == w
  }

  /** A PROCESSING event has a holder or is stranded. */
  ghost predicate NoOrphans(s: System) {
    forall e :: HasStatus(s.db, e, Processing) ==> e in s.stranded || exists w :: HeldBy(s, w, e)
  }

  /** What is meant by the leases. */
  ghost predicate LeasesHold(s: System) {
    LeasesMatch(s) && OneHolder(s) && NoOrphans(s)
  }

  /** Held and stored events have been handed out. */
  ghost predicate KnownEvents(s: System) {
    s.db.events.Keys <= s.minted && s.stranded <= s.minted && forall w, e :: HeldBy(s, w, e) ==> e in s.minted
  }

  /** The event that a replay is about to put back into the queue. */
  function PutBack(s: System, move: Move): Option<Id> {
    match move
    case ReplayWhole(letter) =>
      if letter in s.db.deadLetters then Some(s.db.deadLetters[letter].eventId) else None
    case ReplayRequeue(r) => if r in s.replays then Some(s.replays[r].event) else None
    case _ => None
  }

  /** A replay's status update, if this is one, hits an event that nobody holds. */
  ghost predicate HitsNobody(s: System, move: Move) {
    PutBack(s, move).Some? && PutBack(s, move).value in s.db.events ==>
      forall w :: !HeldBy(s, w, PutBack(s, move).value)
  }

  // ------------------------------------------------------------------ worker statements

  /** The worker's event changes status as its new place requires, and it keeps the
      event or lets it go; nothing else changes. */
  lemma WorkerKeepsLeases(s: System, t: System, w: Id)
    requires LeasesHold(s) && w in s.workers && !s.workers[w].Resting?
    requires t.workers.Keys == s.workers.Keys && forall v :: v in s.workers && v != w ==> t.workers[v] == s.workers[v]
    requires t.workers[w].Resting? || Holds(t.workers[w]) == Holds(s.workers[w])
    requires var e := s.workers[w].event;
      && t.db.events.Keys == s.db.events.Keys
      && (forall f :: f in s.db.events && f != e ==> t.db.events[f] == s.db.events[f])
      && (e in t.db.events && t.workers[w].Resting? && e !in t.stranded ==> t.db.events[e].status != Processing)
    requires LeaseMatches(t.db, t.workers[w]) && s.stranded <= t.stranded
    ensures LeasesHold(t)
  {
    var e := s.workers[w].event;
    assert HeldBy(s, w, e);
    forall v, f | HeldBy(t, v, f)
      ensures HeldBy(s, v, f)
    {
    }
    forall v | v in t.workers
      ensures LeaseMatches(t.db, t.workers[v])
    {
      if v != w && !s.workers[v].Resting? {
        assert HeldBy(s, v, s.workers[v].event);
        assert s.workers[v].event != e;
      }
    }
    forall f | HasStatus(t.db, f, Processing)
      ensures f in t.stranded || exists v :: HeldBy(t, v, f)
    {
      if f == e {
        if !t.workers[w].Resting? {
          assert HeldBy(t, w, e);
        }
      } else {
        assert HasStatus(s.db, f, Processing);
        if f !in s.stranded {
          var v :| HeldBy(s, v, f);
          assert HeldBy(t, v, f);
        }
      }
    }
  }

  // One lemma for each kind of statement.

  lemma ReadKeepsLeases(config: Config, s: System, w: Id, act: Act)
    requires LeasesHold(s) && Enabled(s, Worker(w, act)) && (act.Read? || act.AskBreaker? || act.Record?)
    ensures LeasesHold(ActNext(config, s, w, act))
  {
    assert LeaseMatches(s.db, s.workers[w]);
    WorkerKeepsLeases(s, ActNext(config, s, w, act), w);
  }

  lemma LogKeepsLeases(config: Config, s: System, w: Id, act: Act)
    requires LeasesHold(s) && Enabled(s, Worker(w, act)) && (act.Log? || act.Bury?)
    ensures LeasesHold(ActNext(config, s, w, act))
  {
    assert LeaseMatches(s.db, s.workers[w]);
    WorkerKeepsLeases(s, ActNext(config, s, w, act), w);
  }

  lemma SettleKeepsLeases(config: Config, s: System, w: Id)
    requires LeasesHold(s) && Enabled(s, Worker(w, SetFinal))
    ensures LeasesHold(ActNext(config, s, w, SetFinal))
  {
    assert HasStatus(s.db, s.workers[w].event, Processing);
    WorkerKeepsLeases(s, ActNext(config, s, w, SetFinal), w);
  }

  lemma RequeueKeepsLeases(config: Config, s: System, w: Id)
    requires LeasesHold(s) && Enabled(s, Worker(w, Requeue))
    ensures LeasesHold(ActNext(config, s, w, Requeue))
  {
    WorkerKeepsLeases(s, ActNext(config, s, w, Requeue), w);
  }

  lemma FaultKeepsLeases(config: Config, s: System, w: Id)
    requires LeasesHold(s) && Enabled(s, Worker(w, Fault))
    ensures LeasesHold(ActNext(config, s, w, Fault))
  {
    assert LeaseMatches(s.db, s.workers[w]);
    WorkerKeepsLeases(s, ActNext(config, s, w, Fault), w);
  }

  lemma ClaimKeepsLeases(config: Config, s: System, w: Id)
    requires LeasesHold(s) && Enabled(s, Worker(w, Claim))
    ensures LeasesHold(ActNext(config, s, w, Claim))
  {
    if NextEvent(s.db).Some? {
      ClaimOfKeepsLeases(s, ActNext(config, s, w, Claim), w, NextEvent(s.db).value);
    }
  }

  lemma ClaimOfKeepsLeases(s: System, t: System, w: Id, event: Id)
    requires LeasesHold(s) && w in s.workers && s.workers[w].Resting? && HasStatus(s.db, event, Received)
    requires t == At(s.(db := SetStatus(s.db, event, Processing)), w, Claimed(event))
    ensures LeasesHold(t)
  {
    forall v | v in s.workers && !s.workers[v].Resting?
      ensures s.workers[v].event != event
    {
      assert LeaseMatches(s.db, s.workers[v]);
    }
    forall v, f | HeldBy(t, v, f)
      ensures if f == event then v == w else HeldBy(s, v, f)
    {
    }
    assert HeldBy(t, w, event);
    forall f | HasStatus(t.db, f, Processing)
      ensures f in t.stranded || exists v :: HeldBy(t, v, f)
    {
      if f != event {
        assert HasStatus(s.db, f, Processing);
        if f !in s.stranded {
          var v :| HeldBy(s, v, f);
          assert HeldBy(t, v, f);
        }
      }
    }
  }

  lemma ActKeepsLeases(config: Config, s: System, w: Id, act: Act)
    requires LeasesHold(s) && Enabled(s, Worker(w, act))
    ensures LeasesHold(ActNext(config, s, w, act))
  {
    match act
    case Claim => ClaimKeepsLeases(config, s, w);
    case Fault => FaultKeepsLeases(config, s, w);
    case Read | AskBreaker(_) | Record(_, _) => ReadKeepsLeases(config, s, w, act);
    case Log(_, _) | Bury(_, _) => LogKeepsLeases(config, s, w, act);
    case SetFinal => SettleKeepsLeases(config, s, w);
    case Requeue => RequeueKeepsLeases(config, s, w);
  }

  // ----------------------------------------------------------------------- handlers

  /** A move of the handlers: it changes no event that is held, and removes none in
      PROCESSING. */
  lemma HandlerKeepsLeases(s: System, t: System)
    requires LeasesHold(s) && t.workers == s.workers && s.stranded <= t.stranded
    requires forall w, e :: HeldBy(s, w, e) ==>
      (e in t.db.events ==> e in s.db.events && t.db.events[e] == s.db.events[e]) &&
      (HasStatus(s.db, e, Processing) ==> e in t.db.events)
    requires forall e :: HasStatus(t.db, e, Processing) ==> HasStatus(s.db, e, Processing)
    ensures LeasesHold(t)
  {
    forall w, e
      ensures HeldBy(t, w, e) <==> HeldBy(s, w, e)
    {
    }
    forall w | w in t.workers
      ensures LeaseMatches(t.db, t.workers[w])
    {
      assert LeaseMatches(s.db, s.workers[w]);
      if !s.workers[w].Resting? {
        assert HeldBy(s, w, s.workers[w].event);
      }
    }
    forall e | HasStatus(t.db, e, Processing)
      ensures e in t.stranded || exists w :: HeldBy(t, w, e)
    {
      if e !in s.stranded {
        var w :| HeldBy(s, w, e);
        assert HeldBy(t, w, e);
      }
    }
  }

  lemma ReplayKeepsLeases(config: Config, s: System, letter: Id)
    requires LeasesHold(s) && Integrity(s.db) && HitsNobody(s, ReplayWhole(letter))
    ensures LeasesHold(Next(config, s, ReplayWhole(letter)))
  {
    ReplayMeans(s.db, letter);
    forall w, e | HeldBy(s, w, e)
      ensures letter in s.db.deadLetters ==> s.db.deadLetters[letter].eventId != e
    {
      assert PutBack(s, ReplayWhole(letter)) != Some(e) || e !in s.db.events;
    }
    HandlerKeepsLeases(s, Next(config, s, ReplayWhole(letter)));
  }

  lemma RetireKeepsLeases(config: Config, s: System, id: Id)
    requires LeasesHold(s) && Integrity(s.db)
    ensures LeasesHold(Next(config, s, RemoveEndpoint(id)))
  {
    RetireMeans(s.db, id);
    HandlerKeepsLeases(s, Next(config, s, RemoveEndpoint(id)));
  }

  lemma AcceptKeepsLeases(config: Config, s: System, id: Id, event: Event)
    requires LeasesHold(s) && KnownEvents(s) && Integrity(s.db) && Enabled(s, AcceptEvent(id, event))
    ensures LeasesHold(Next(config, s, AcceptEvent(id, event)))
  {
    AcceptMeans(s.db, id, event);
    HandlerKeepsLeases(s, Next(config, s, AcceptEvent(id, event)));
  }

  /** Creating an endpoint and the statements of an interleaved replay. */
  lemma StatementKeepsLeases(config: Config, s: System, move: Move)
    requires LeasesHold(s) && Enabled(s, move) && HitsNobody(s, move)
    requires move.CreateEndpoint? || move.ReplaySelect? || move.ReplayRequeue? || move.ReplayClear? || move.ReplayDrop?
    ensures LeasesHold(Next(config, s, move))
  {
    forall w: Id, e: Id | HeldBy(s, w, e)
      ensures PutBack(s, move) == Some(e) ==> e !in s.db.events
    {
    }
    HandlerKeepsLeases(s, Next(config, s, move));
  }

  lemma MoveKeepsLeases(config: Config, s: System, move: Move)
    requires LeasesHold(s) && KnownEvents(s) && Integrity(s.db) && Enabled(s, move) && HitsNobody(s, move)
    ensures LeasesHold(Next(config, s, move))
  {
    match move
    case Worker(w, act) => ActKeepsLeases(config, s, w, act);
    case RemoveEndpoint(id) => RetireKeepsLeases(config, s, id);
    case AcceptEvent(id, event) => AcceptKeepsLeases(config, s, id, event);
    case ReplayWhole(letter) => ReplayKeepsLeases(config, s, letter);
    case _ => StatementKeepsLeases(config, s, move);
  }

  /** Whoever holds an event that a replay puts back no longer holds a lease. */
  lemma HitBreaksLeases(config: Config, s: System, move: Move)
    requires Integrity(s.db) && Enabled(s, move) && !HitsNobody(s, move)
    ensures !LeasesMatch(Next(config, s, move))
  {
    var e := PutBack(s, move).value;
    var w :| HeldBy(s, w, e);
    var t := Next(config, s, move);
    if move.ReplayWhole? {
      ReplayMeans(s.db, move.letter);
    }
    assert HasStatus(t.db, e, Received) && t.workers[w] == s.workers[w];
    assert !LeaseMatches(t.db, t.workers[w]);
  }

  /** A move keeps the leases exactly when, if it is a replay's status update, it hits
      an event that nobody holds. */
  lemma MoveKeepsLeasesIff(config: Config, s: System, move: Move)
    requires LeasesHold(s) && KnownEvents(s) && Integrity(s.db) && Enabled(s, move)
    ensures LeasesHold(Next(config, s, move)) <==> HitsNobody(s, move)
  {
    if HitsNobody(s, move) {
      MoveKeepsLeases(config, s, move);
    } else {
      HitBreaksLeases(config, s, move);
    }
  }

  // ------------------------------------------------------------------- known events

  lemma ActKeepsKnown(config: Config, s: System, w: Id, act: Act)
    requires KnownEvents(s) && Enabled(s, Worker(w, act))
    ensures KnownEvents(ActNext(config, s, w, act))
  {
    var t := ActNext(config, s, w, act);
    if !s.workers[w].Resting? {
      assert HeldBy(s, w, s.workers[w].event);
    }
    assert t.db.events.Keys == s.db.events.Keys && s.minted <= t.minted;
    forall v, f | HeldBy(t, v, f)
      ensures f in t.minted
    {
      assert HeldBy(s, v, f) || v == w;
    }
  }

  lemma MoveKeepsKnown(config: Config, s: System, move: Move)
    requires KnownEvents(s) && Integrity(s.db) && Enabled(s, move)
    ensures KnownEvents(Next(config, s, move))
  {
    match move {
      case Worker(w, act) => ActKeepsKnown(config, s, w, act);
      case RemoveEndpoint(id) => RetireMeans(s.db, id);
      case ReplayWhole(letter) => ReplayMeans(s.db, letter);
      case _ =>
    }
    if !move.Worker? {
      var t := Next(config, s, move);
      assert t.workers == s.workers && t.stranded == s.stranded;
      assert forall w, e :: HeldBy(t, w, e) ==> HeldBy(s, w, e);
    }
  }

  lemma {:induction false} RunKeepsKnown(config: Config, start: System, moves: seq<Move>)
    requires IsStart(start) && IsRun(config, start, moves)
    ensures KnownEvents(End(config, start, moves))
  {
    if moves != [] {
      var before, last := moves[..|moves| - 1], moves[|moves| - 1];
      RunKeepsKnown(config, start, before);
      RunKeepsIntegrity(config, start, before);
      MoveKeepsKnown(config, End(config, start, before), last);
    }
  }

  // ------------------------------------------------- when the leases hold, over runs

  ghost predicate LeasesHoldThroughout(config: Config, start: System, moves: seq<Move>) {
    && LeasesHold(End(config, start, moves))
    && (moves != [] ==> LeasesHoldThroughout(config, start, moves[..|moves| - 1]))
  }

  /** Every status update of every replay hits an event that nobody holds. */
  ghost predicate ReplaysHitNobody(config: Config, start: System, moves: seq<Move>) {
    moves != [] ==>
      && ReplaysHitNobody(config, start, moves[..|moves| - 1])
      && HitsNobody(End(config, start, moves[..|moves| - 1]), moves[|moves| - 1])
  }

  /** In every run, with any number of workers, faults at any of their statements,
      and replays whole or interleaved: the leases hold throughout exactly when no
      replay puts back an event that somebody holds. */
  lemma {:induction false} LeasesHoldIff(config: Config, start: System, moves: seq<Move>)
    requires IsStart(start) && IsRun(config, start, moves)
    ensures LeasesHoldThroughout(config, start, moves) <==> ReplaysHitNobody(config, start, moves)
  {
    if moves != [] {
      var before, last := moves[..|moves| - 1], moves[|moves| - 1];
      LeasesHoldIff(config, start, before);
      RunKeepsIntegrity(config, start, before);
      RunKeepsKnown(config, start, before);
      var s := End(config, start, before);
      if LeasesHold(s) {
        MoveKeepsLeasesIff(config, s, last);
      }
    }
  }

  // ------------------------------------------------------------------- whole replays

  /** The moves of a run in which replays are not interleaved. */
  predicate Unsplit(move: Move) {
    !move.ReplaySelect? && !move.ReplayRequeue? && !move.ReplayClear? && !move.ReplayDrop?
  }

  /** Stranded events have no holder and no way back into the queue. */
  ghost predicate StrandedStay(s: System) {
    forall e :: e in s.stranded ==>
      && (e in s.db.events ==> s.db.events[e].status in {Processing, Failed})
      && forall w :: !HeldBy(s, w, e)
  }

  /** Dead letters are of FAILED events that nobody holds. */
  ghost predicate LettersAreFree(s: System) {
    forall d :: d in s.db.deadLetters ==>
      var e := s.db.deadLetters[d].eventId;
      && HasStatus(s.db, e, Failed)
      && e !in s.stranded
      && forall w :: !HeldBy(s, w, e)
  }

  ghost predicate NobodyElses(s: System) {
    StrandedStay(s) && LettersAreFree(s)
  }

  lemma FreeLettersAreHitSafely(s: System, move: Move)
    requires LettersAreFree(s) && Unsplit(move)
    ensures HitsNobody(s, move)
  {
  }

  /** The worker's event is neither stranded nor the subject of a dead letter; it
      strands it, buries it, or leaves both as they are. */
  lemma WorkerLeavesRest(s: System, t: System, w: Id)
    requires NobodyElses(s) && OneHolder(s) && w in s.workers && !s.workers[w].Resting?
    requires t.workers.Keys == s.workers.Keys && forall v :: v in s.workers && v != w ==> t.workers[v] == s.workers[v]
    requires t.workers[w].Resting? || Holds(t.workers[w]) == Holds(s.workers[w])
    requires t.db.events.Keys == s.db.events.Keys
    requires forall f :: f in s.db.events && f != s.workers[w].event ==> t.db.events[f] == s.db.events[f]
    requires t.stranded != s.stranded ==>
      && t.stranded == s.stranded + {s.workers[w].event} && t.workers[w].Resting? && t.db == s.db
      && LeaseMatches(s.db, s.workers[w]) && s.workers[w].Erring?
    requires forall d :: d in t.db.deadLetters ==>
      if t.db.deadLetters[d].eventId == s.workers[w].event
      then t.workers[w].Resting? && s.workers[w].event !in t.stranded && HasStatus(t.db, s.workers[w].event, Failed)
      else d in s.db.deadLetters && t.db.deadLetters[d] == s.db.deadLetters[d]
    ensures NobodyElses(t)
  {
    var e := s.workers[w].event;
    assert HeldBy(s, w, e);
    forall v, f | HeldBy(t, v, f)
      ensures HeldBy(s, v, f) && (f == e ==> v == w && !t.workers[w].Resting?)
    {
      assert HeldBy(s, v, f);
    }
  }

  lemma ActLeavesRest(config: Config, s: System, w: Id, act: Act)
    requires NobodyElses(s) && LeasesHold(s) && Enabled(s, Worker(w, act))
    requires act.Read? || act.AskBreaker? || act.Record? || act.Log?
    ensures NobodyElses(ActNext(config, s, w, act))
  {
    assert HeldBy(s, w, s.workers[w].event);
    WorkerLeavesRest(s, ActNext(config, s, w, act), w);
  }

  lemma SettleLeavesRest(config: Config, s: System, w: Id, act: Act)
    requires NobodyElses(s) && LeasesHold(s) && Enabled(s, Worker(w, act)) && (act.SetFinal? || act.Requeue?)
    ensures NobodyElses(ActNext(config, s, w, act))
  {
    assert HeldBy(s, w, s.workers[w].event);
    WorkerLeavesRest(s, ActNext(config, s, w, act), w);
  }

  lemma FaultLeavesRest(config: Config, s: System, w: Id)
    requires NobodyElses(s) && LeasesHold(s) && Enabled(s, Worker(w, Fault))
    ensures NobodyElses(ActNext(config, s, w, Fault))
  {
    assert HeldBy(s, w, s.workers[w].event) && LeaseMatches(s.db, s.workers[w]);
    WorkerLeavesRest(s, ActNext(config, s, w, Fault), w);
  }

  lemma BuryLeavesRest(config: Config, s: System, w: Id, id: Id, wall: int)
    requires NobodyElses(s) && LeasesHold(s) && Enabled(s, Worker(w, Bury(id, wall)))
    ensures NobodyElses(ActNext(config, s, w, Bury(id, wall)))
  {
    assert HeldBy(s, w, s.workers[w].event) && LeaseMatches(s.db, s.workers[w]);
    WorkerLeavesRest(s, ActNext(config, s, w, Bury(id, wall)), w);
  }

  lemma ClaimLeavesRest(config: Config, s: System, w: Id)
    requires NobodyElses(s) && Enabled(s, Worker(w, Claim))
    ensures NobodyElses(ActNext(config, s, w, Claim))
  {
    var t := ActNext(config, s, w, Claim);
    if NextEvent(s.db).Some? {
      forall v, f | HeldBy(t, v, f)
        ensures HeldBy(s, v, f) || f == NextEvent(s.db).value
      {
      }
    }
  }

  lemma HandlerLeavesRest(s: System, t: System)
    requires NobodyElses(s) && t.workers == s.workers && t.stranded == s.stranded
    requires forall e :: e in s.stranded && e in t.db.events ==> e in s.db.events && t.db.events[e] == s.db.events[e]
    requires forall d :: d in t.db.deadLetters ==>
      && d in s.db.deadLetters && t.db.deadLetters[d] == s.db.deadLetters[d]
      && HasStatus(t.db, t.db.deadLetters[d].eventId, Failed)
    ensures NobodyElses(t)
  {
    assert forall w, e :: HeldBy(t, w, e) <==> HeldBy(s, w, e);
  }

  lemma InsertLeavesRest(config: Config, s: System, move: Move)
    requires NobodyElses(s) && KnownEvents(s) && Enabled(s, move) && (move.CreateEndpoint? || move.AcceptEvent?)
    ensures NobodyElses(Next(config, s, move))
  {
    HandlerLeavesRest(s, Next(config, s, move));
  }

  lemma RetireLeavesRest(config: Config, s: System, id: Id)
    requires NobodyElses(s) && Integrity(s.db)
    ensures NobodyElses(Next(config, s, RemoveEndpoint(id)))
  {
    RetireMeans(s.db, id);
    HandlerLeavesRest(s, Next(config, s, RemoveEndpoint(id)));
  }

  lemma ReplayLeavesRest(config: Config, s: System, letter: Id)
    requires NobodyElses(s) && OneDeadLetterEach(s.db)
    ensures NobodyElses(Next(config, s, ReplayWhole(letter)))
  {
    if letter in s.db.deadLetters {
      ReplayedRows(s.db, letter);
    }
    HandlerLeavesRest(s, Next(config, s, ReplayWhole(letter)));
  }

  lemma MoveLeavesRest(config: Config, s: System, move: Move)
    requires NobodyElses(s) && LeasesHold(s) && KnownEvents(s) && Integrity(s.db)
    requires Enabled(s, move) && Unsplit(move)
    ensures NobodyElses(Next(config, s, move))
  {
    match move
    case Worker(w, Claim) => ClaimLeavesRest(config, s, w);
    case Worker(w, Bury(id, wall)) => BuryLeavesRest(config, s, w, id, wall);
    case Worker(w, Fault) => FaultLeavesRest(config, s, w);
    case Worker(w, SetFinal) => SettleLeavesRest(config, s, w, SetFinal);
    case Worker(w, Requeue) => SettleLeavesRest(config, s, w, Requeue);
    case Worker(w, act) => ActLeavesRest(config, s, w, act);
    case RemoveEndpoint(id) => RetireLeavesRest(config, s, id);
    case ReplayWhole(letter) => ReplayLeavesRest(config, s, letter);
    case _ => InsertLeavesRest(config, s, move);
  }

  lemma {:induction false} UnsplitRunKeepsLeases(config: Config, start: System, moves: seq<Move>)
    requires IsStart(start) && IsRun(config, start, moves) && forall m :: m in moves ==> Unsplit(m)
    ensures LeasesHold(End(config, start, moves)) && NobodyElses(End(config, start, moves))
  {
    if moves != [] {
      var before, last := moves[..|moves| - 1], moves[|moves| - 1];
      UnsplitRunKeepsLeases(config, start, before);
      RunKeepsIntegrity(config, start, before);
      RunKeepsKnown(config, start, before);
      assert last in moves;
      var s := End(config, start, before);
      FreeLettersAreHitSafely(s, last);
      MoveKeepsLeases(config, s, last);
      MoveLeavesRest(config, s, last);
    }
  }

  /** The events that a move may write: a worker's own, or the one it claims; a
      replayed one; a new one; those of a removed endpoint. */
  ghost predicate Touches(s: System, move: Move, e: Id) {
    match move
    case Worker(w, act) => HeldBy(s, w, e) || (act.Claim? && NextEvent(s.db) == Some(e))
    case RemoveEndpoint(id) => HasStatus(s.db, e, Delivered) || HasStatus(s.db, e, Failed)
    case AcceptEvent(id, _) => e == id
    case ReplayWhole(letter) => letter in s.db.deadLetters && s.db.deadLetters[letter].eventId == e
    case _ => false
  }

  lemma ActWritesItsOwn(config: Config, s: System, w: Id, act: Act, e: Id)
    requires Enabled(s, Worker(w, act)) && !Touches(s, Worker(w, act), e)
    ensures var t := ActNext(config, s, w, act);
      && t.db.events.Keys == s.db.events.Keys
      && (e in s.db.events ==> t.db.events[e] == s.db.events[e])
  {
    assert !s.workers[w].Resting? ==> s.workers[w].event != e;
  }

  lemma OthersAreUntouched(config: Config, s: System, move: Move, e: Id)
    requires Integrity(s.db) && Enabled(s, move) && Unsplit(move) && !Touches(s, move, e)
    requires e in s.minted
    ensures var t := Next(config, s, move);
      && (e in t.db.events <==> e in s.db.events)
      && (e in s.db.events ==> t.db.events[e] == s.db.events[e])
  {
    match move
    case Worker(w, act) => ActWritesItsOwn(config, s, w, act, e);
    case RemoveEndpoint(id) => RetireMeans(s.db, id);
    case AcceptEvent(id, event) =>
    case ReplayWhole(letter) => ReplayMeans(s.db, letter);
    case _ =>
  }

  /** In every run with any number of workers, faults at any of their statements and
      whole replays: no event has two holders, and each PROCESSING event either has
      one or was stranded by a failed requeue, never both. */
  lemma LeaseExclusivity(config: Config, start: System, moves: seq<Move>)
    requires IsStart(start) && IsRun(config, start, moves) && forall m :: m in moves ==> Unsplit(m)
    ensures var s := End(config, start, moves);
      && (forall v, w, e :: HeldBy(s, v, e) && HeldBy(s, w, e) ==> v == w)
      && (forall e :: HasStatus(s.db, e, Processing) ==> (e in s.stranded <==> !exists w :: HeldBy(s, w, e)))
      && (forall w :: w in s.workers ==> LeaseMatches(s.db, s.workers[w]))
  {
    UnsplitRunKeepsLeases(config, start, moves);
  }

  /** In every such run, a step that is not the holder's own leaves the held event
      with its holder and in its status; it can only remove the event, once FAILED,
      together with its endpoint. */
  lemma OnlyTheHolderActs(config: Config, start: System, moves: seq<Move>, move: Move, w: Id, e: Id)
    requires IsStart(start) && IsRun(config, start, moves) && forall m :: m in moves ==> Unsplit(m)
    requires Enabled(End(config, start, moves), move) && Unsplit(move)
    requires HeldBy(End(config, start, moves), w, e) && (move.Worker? ==> move.worker != w)
    ensures var s := End(config, start, moves);
            var t := Next(config, s, move);
      && HeldBy(t, w, e)
      && (e in t.db.events ==> e in s.db.events && t.db.events[e] == s.db.events[e])
      && (e in s.db.events && e !in t.db.events ==> move.RemoveEndpoint? && HasStatus(s.db, e, Failed))
  {
    UnsplitRunKeepsLeases(config, start, moves);
    RunKeepsIntegrity(config, start, moves);
    RunKeepsKnown(config, start, moves);
    HeldIsUntouched(config, End(config, start, moves), move, w, e);
  }

  lemma HeldIsUntouched(config: Config, s: System, move: Move, w: Id, e: Id)
    requires LeasesHold(s) && LettersAreFree(s) && KnownEvents(s) && Integrity(s.db)
    requires Enabled(s, move) && Unsplit(move)
    requires HeldBy(s, w, e) && (move.Worker? ==> move.worker != w)
    ensures var t := Next(config, s, move);
      && HeldBy(t, w, e)
      && (e in t.db.events ==> e in s.db.events && t.db.events[e] == s.db.events[e])
      && (e in s.db.events && e !in t.db.events ==> move.RemoveEndpoint? && HasStatus(s.db, e, Failed))
  {
    assert LeaseMatches(s.db, s.workers[w]);
    if Touches(s, move, e) {
      assert move.RemoveEndpoint? && HasStatus(s.db, e, Failed);
      RetireMeans(s.db, move.id);
    } else {
      OthersAreUntouched(config, s, move, e);
    }
  }
}
