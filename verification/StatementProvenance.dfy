/** Where every contact comes from and where every accepted event goes, with deletions,
    faults and replays between the statements of a pass. */
module StatementProvenance {
  import opened Foundation
  import opened Tables
  import opened Operations
  import opened Dispatching
  import opened StatementMachine
  import opened StatementLedger
  import opened Accounts

  /** The events a run has accepted and the endpoints it has created, by identifier. */
  datatype Origins = Origins(accepted: map<Id, Event>, registered: map<Id, Endpoint>)

  ghost function OriginsNext(s: System, origins: Origins, move: Move): Origins {
    match move
    case AcceptEvent(id, row) =>
      if Accept(s.db, id, row).1.Accepted? then origins.(accepted := origins.accepted[id := row]) else origins
    case CreateEndpoint(id, row) =>
      if InsertEndpoint(s.db, id, row).Some?
      then origins.(registered := origins.registered[id := row]) else origins
    case _ => origins
  }

  ghost function OriginsOf(config: Config, start: System, moves: seq<Move>): Origins {
    if moves == [] then Origins(map[], map[])
    else
      var before, last := moves[..|moves| - 1], moves[|moves| - 1];
      OriginsNext(End(config, start, before), OriginsOf(config, start, before), last)
  }

  /** Equal but for the status. */
  predicate SameContents(a: Event, b: Event) {
    a.(status := b.status) == b
  }

  predicate FetchedTruly(origins: Origins, event: Id, endpoint: Id, body: seq<Byte>) {
    && event in origins.accepted && origins.accepted[event].endpointId == endpoint
    && origins.accepted[event].body == body
  }

  predicate RowIsTrue(origins: Origins, event: Id, row: Fetched) {
    && FetchedTruly(origins, event, row.endpoint, row.body)
    && row.endpoint in origins.registered && origins.registered[row.endpoint].targetUrl == row.url
  }

  /** A worker carries what was accepted under its event's identifier and registered
      for that event's endpoint. */
  predicate CarriesTruly(origins: Origins, pc: Pc) {
    match pc
    case HasEvent(event, endpoint, body) => FetchedTruly(origins, event, endpoint, body)
    case HasUrl(event, endpoint, url, body) =>
      FetchedTruly(origins, event, endpoint, body) &&
      endpoint in origins.registered && origins.registered[endpoint].targetUrl == url
    case Ready(event, row) => RowIsTrue(origins, event, row)
    case Contacting(event, row) => RowIsTrue(origins, event, row)
    case Heard(event, row, _) => RowIsTrue(origins, event, row)
    case Logged(event, row, _) => RowIsTrue(origins, event, row)
    case Burying(event, row, _) => RowIsTrue(origins, event, row)
    case _ => true
  }

  ghost predicate RowsHaveOrigins(origins: Origins, db: Database) {
    && (forall e :: e in db.events ==> e in origins.accepted && SameContents(origins.accepted[e], db.events[e]))
    && (forall n :: n in db.endpoints ==>
          n in origins.registered && origins.registered[n] == db.endpoints[n])
  }

  /** An accepted event without a row has lost its endpoint too. */
  ghost predicate GoneWithEndpoint(origins: Origins, db: Database) {
    forall e :: e in origins.accepted && e !in db.events ==> origins.accepted[e].endpointId !in db.endpoints
  }

  ghost predicate IdsAreMinted(origins: Origins, s: System) {
    && origins.accepted.Keys <= s.minted && origins.registered.Keys <= s.minted
    && forall e :: e in origins.accepted ==> origins.accepted[e].endpointId in origins.registered
  }

  ghost predicate IsTraced(origins: Origins, s: System) {
    && RowsHaveOrigins(origins, s.db) && GoneWithEndpoint(origins, s.db) && IdsAreMinted(origins, s)
    && forall w :: w in s.workers ==> CarriesTruly(origins, s.workers[w])
  }

  // -------------------------------------------------------------------- the worker

  lemma ActLeavesEndpoints(config: Config, s: System, w: Id, act: Act)
    requires Enabled(s, Worker(w, act))
    ensures ActNext(config, s, w, act).db.endpoints == s.db.endpoints
  {
  }

  lemma ActLeavesContents(config: Config, s: System, w: Id, act: Act, e: Id)
    requires Enabled(s, Worker(w, act)) && e in s.db.events
    ensures var t := ActNext(config, s, w, act);
      e in t.db.events && SameContents(s.db.events[e], t.db.events[e])
  {
  }

  lemma ActCarriesTruly(config: Config, s: System, w: Id, act: Act, origins: Origins)
    requires RowsHaveOrigins(origins, s.db) && Enabled(s, Worker(w, act)) && CarriesTruly(origins, s.workers[w])
    ensures w in ActNext(config, s, w, act).workers
    ensures CarriesTruly(origins, ActNext(config, s, w, act).workers[w])
  {
    match s.workers[w]
    case Claimed(_) =>
    case HasEvent(_, _, _) =>
    case _ =>
  }

  lemma ActIsTraced(config: Config, s: System, w: Id, act: Act, origins: Origins)
    requires IsTraced(origins, s) && Enabled(s, Worker(w, act))
    ensures IsTraced(origins, ActNext(config, s, w, act))
  {
    var t := ActNext(config, s, w, act);
    ActLeavesEndpoints(config, s, w, act);
    ActBringsNoEvent(config, s, w, act);
    ActMovesOne(config, s, w, act);
    ActCarriesTruly(config, s, w, act, origins);
    assert RowsHaveOrigins(origins, t.db) by {
      forall e | e in t.db.events
        ensures e in origins.accepted && SameContents(origins.accepted[e], t.db.events[e])
      {
        ActLeavesContents(config, s, w, act, e);
      }
    }
  }

  // -------------------------------------------------------------------- the handlers

  /** A handler's move that adds no row: rows keep their contents, or go; an event goes
      only with its endpoint. */
  lemma HandlerIsTraced(s: System, t: System, origins: Origins)
    requires IsTraced(origins, s) && t.workers == s.workers && s.minted <= t.minted
    requires forall n :: n in t.db.endpoints ==> n in s.db.endpoints && t.db.endpoints[n] == s.db.endpoints[n]
    requires forall e :: e in t.db.events ==> e in s.db.events && SameContents(s.db.events[e], t.db.events[e])
    requires forall e :: e in s.db.events && e !in t.db.events ==> s.db.events[e].endpointId !in t.db.endpoints
    ensures IsTraced(origins, t)
  {
    assert RowsHaveOrigins(origins, t.db) by {
      forall e | e in t.db.events
        ensures e in origins.accepted && SameContents(origins.accepted[e], t.db.events[e])
      {
        assert SameContents(s.db.events[e], t.db.events[e]);
      }
    }
  }

  lemma RetireIsTraced(config: Config, s: System, id: Id, origins: Origins)
    requires IsTraced(origins, s) && Integrity(s.db)
    ensures IsTraced(origins, Next(config, s, RemoveEndpoint(id)))
  {
    var t := Next(config, s, RemoveEndpoint(id));
    RetireMeans(s.db, id);
    assert forall n :: n in t.db.endpoints ==> t.db.endpoints[n] == s.db.endpoints[n];
    HandlerIsTraced(s, t, origins);
  }

  lemma ReplayIsTraced(config: Config, s: System, letter: Id, origins: Origins)
    requires IsTraced(origins, s) && Integrity(s.db)
    ensures IsTraced(origins, Next(config, s, ReplayWhole(letter)))
  {
    ReplayMeans(s.db, letter);
    HandlerIsTraced(s, Next(config, s, ReplayWhole(letter)), origins);
  }

  lemma StatementIsTraced(config: Config, s: System, move: Move, origins: Origins)
    requires IsTraced(origins, s) && Enabled(s, move)
    requires move.ReplaySelect? || move.ReplayRequeue? || move.ReplayClear? || move.ReplayDrop?
    ensures IsTraced(origins, Next(config, s, move))
  {
    HandlerIsTraced(s, Next(config, s, move), origins);
  }

  lemma CarriesOn(origins: Origins, more: Origins, pc: Pc)
    requires CarriesTruly(origins, pc)
    requires origins.accepted.Keys <= more.accepted.Keys && origins.registered.Keys <= more.registered.Keys
    requires forall e :: e in origins.accepted ==> more.accepted[e] == origins.accepted[e]
    requires forall n :: n in origins.registered ==> more.registered[n] == origins.registered[n]
    ensures CarriesTruly(more, pc)
  {
  }

  lemma CreateIsTraced(config: Config, s: System, id: Id, row: Endpoint, origins: Origins)
    requires IsTraced(origins, s) && Enabled(s, CreateEndpoint(id, row))
    ensures IsTraced(OriginsNext(s, origins, CreateEndpoint(id, row)), Next(config, s, CreateEndpoint(id, row)))
  {
    var more := OriginsNext(s, origins, CreateEndpoint(id, row));
    forall w | w in s.workers
      ensures CarriesTruly(more, s.workers[w])
    {
      CarriesOn(origins, more, s.workers[w]);
    }
  }

  lemma AcceptIsTraced(config: Config, s: System, id: Id, row: Event, origins: Origins)
    requires IsTraced(origins, s) && Integrity(s.db) && Enabled(s, AcceptEvent(id, row))
    ensures IsTraced(OriginsNext(s, origins, AcceptEvent(id, row)), Next(config, s, AcceptEvent(id, row)))
  {
    var more := OriginsNext(s, origins, AcceptEvent(id, row));
    AcceptMeans(s.db, id, row);
    forall w | w in s.workers
      ensures CarriesTruly(more, s.workers[w])
    {
      CarriesOn(origins, more, s.workers[w]);
    }
  }

  lemma {:induction false} RunIsTraced(config: Config, start: System, moves: seq<Move>)
    requires IsStart(start) && IsRun(config, start, moves)
    ensures IsTraced(OriginsOf(config, start, moves), End(config, start, moves))
  {
    if moves != [] {
      var before, last := moves[..|moves| - 1], moves[|moves| - 1];
      var s, origins := End(config, start, before), OriginsOf(config, start, before);
      RunIsTraced(config, start, before);
      RunKeepsIntegrity(config, start, before);
      match last
      case Worker(w, act) => ActIsTraced(config, s, w, act, origins);
      case CreateEndpoint(id, row) => CreateIsTraced(config, s, id, row, origins);
      case AcceptEvent(id, row) => AcceptIsTraced(config, s, id, row, origins);
      case RemoveEndpoint(id) => RetireIsTraced(config, s, id, origins);
      case ReplayWhole(letter) => ReplayIsTraced(config, s, letter, origins);
      case _ => StatementIsTraced(config, s, last, origins);
    }
  }

  /** In every run, whatever comes between the fetch and the contact: a worker in contact
      carries the body accepted under its event's identifier to the URL registered for
      the endpoint it was accepted for. */
  lemma ContactsCarryWhatWasAccepted(config: Config, start: System, moves: seq<Move>, w: Id)
    requires IsStart(start) && IsRun(config, start, moves)
    requires w in End(config, start, moves).workers && End(config, start, moves).workers[w].Contacting?
    ensures var (origins, pc) := (OriginsOf(config, start, moves), End(config, start, moves).workers[w]);
      && pc.event in origins.accepted
      && pc.row.body == origins.accepted[pc.event].body
      && pc.row.endpoint == origins.accepted[pc.event].endpointId
      && pc.row.endpoint in origins.registered && pc.row.url == origins.registered[pc.row.endpoint].targetUrl
  {
    RunIsTraced(config, start, moves);
    assert CarriesTruly(OriginsOf(config, start, moves), End(config, start, moves).workers[w]);
  }

  predicate AreMoves(origins: Origins, moves: seq<Move>) {
    && (forall n :: n in origins.registered ==> CreateEndpoint(n, origins.registered[n]) in moves)
    && (forall e :: e in origins.accepted ==> AcceptEvent(e, origins.accepted[e]) in moves)
  }

  lemma AreMovesLater(s: System, origins: Origins, moves: seq<Move>, move: Move)
    requires AreMoves(origins, moves)
    ensures AreMoves(OriginsNext(s, origins, move), moves + [move])
  {
    assert (moves + [move])[|moves|] == move;
  }

  lemma {:induction false} OriginsAreMoves(config: Config, start: System, moves: seq<Move>)
    ensures AreMoves(OriginsOf(config, start, moves), moves)
  {
    if moves != [] {
      var before, last := moves[..|moves| - 1], moves[|moves| - 1];
      OriginsAreMoves(config, start, before);
      AreMovesLater(End(config, start, before), OriginsOf(config, start, before), before, last);
      assert before + [last] == moves;
    }
  }

  /** In every run an endpoint's row is one that it was created with. */
  lemma EndpointsStayAsCreated(config: Config, start: System, moves: seq<Move>, n: Id)
    requires IsStart(start) && IsRun(config, start, moves) && n in End(config, start, moves).db.endpoints
    ensures CreateEndpoint(n, End(config, start, moves).db.endpoints[n]) in moves
  {
    RunIsTraced(config, start, moves);
    OriginsAreMoves(config, start, moves);
  }

  /** In every run an event's row is, but for its status, one that was accepted. */
  lemma EventsStayAsAccepted(config: Config, start: System, moves: seq<Move>, e: Id) returns (row: Event)
    requires IsStart(start) && IsRun(config, start, moves) && e in End(config, start, moves).db.events
    ensures AcceptEvent(e, row) in moves && SameContents(row, End(config, start, moves).db.events[e])
  {
    RunIsTraced(config, start, moves);
    OriginsAreMoves(config, start, moves);
    row := OriginsOf(config, start, moves).accepted[e];
  }

  // ---------------------------------------------------------------- nothing gets lost

  /** Only the removal of its endpoint removes an event, once DELIVERED or FAILED. */
  lemma OnlyRetiringRemoves(config: Config, s: System, move: Move, e: Id)
    requires Integrity(s.db) && Enabled(s, move) && e in s.db.events && e !in Next(config, s, move).db.events
    ensures move.RemoveEndpoint? && move.id == s.db.events[e].endpointId
    ensures HasStatus(s.db, e, Delivered) || HasStatus(s.db, e, Failed)
  {
    match move
    case Worker(w, act) => ActBringsNoEvent(config, s, w, act);
    case RemoveEndpoint(id) => RetireMeans(s.db, id);
    case ReplayWhole(letter) => ReplayMeans(s.db, letter);
    case _ =>
  }

  lemma AcceptStores(config: Config, s: System, origins: Origins, move: Move, e: Id)
    requires Integrity(s.db) && IsTraced(origins, s) && Enabled(s, move)
    requires e in OriginsNext(s, origins, move).accepted && e !in origins.accepted
    ensures e in Next(config, s, move).db.events
  {
    AcceptMeans(s.db, move.id, move.event);
  }

  /** In every run an accepted event still has its row, with what was accepted; or, at
      some move of the run, it was DELIVERED or FAILED and its endpoint was deleted, and
      neither has come back. */
  lemma {:induction false} NoSilentLoss(config: Config, start: System, moves: seq<Move>, e: Id) returns (i: nat)
    requires IsStart(start) && IsRun(config, start, moves) && e in OriginsOf(config, start, moves).accepted
    ensures var s, row := End(config, start, moves), OriginsOf(config, start, moves).accepted[e];
      if e in s.db.events then SameContents(row, s.db.events[e])
      else
        && row.endpointId !in s.db.endpoints
        && i < |moves| && moves[i] == RemoveEndpoint(row.endpointId)
        && (HasStatus(End(config, start, moves[..i]).db, e, Delivered) ||
            HasStatus(End(config, start, moves[..i]).db, e, Failed))
  {
    RunIsTraced(config, start, moves);
    i := 0;
    if moves != [] && e !in End(config, start, moves).db.events {
      var before, last := moves[..|moves| - 1], moves[|moves| - 1];
      var s := End(config, start, before);
      RunKeepsIntegrity(config, start, before);
      RunIsTraced(config, start, before);
      if e !in OriginsOf(config, start, before).accepted {
        AcceptStores(config, s, OriginsOf(config, start, before), last, e);
      } else if e in s.db.events {
        OnlyRetiringRemoves(config, s, last, e);
        i := |moves| - 1;
      } else {
        i := NoSilentLoss(config, start, before, e);
        assert before[..i] == moves[..i] && before[i] == moves[i];
        OriginsStay(s, OriginsOf(config, start, before), last, e);
      }
    }
  }

  lemma OriginsStay(s: System, origins: Origins, move: Move, e: Id)
    requires IdsAreMinted(origins, s) && Enabled(s, move) && e in origins.accepted
    ensures e in OriginsNext(s, origins, move).accepted
    ensures OriginsNext(s, origins, move).accepted[e] == origins.accepted[e]
  {
  }
}
