/** The dispatch loop drains the queue: a bound on the passes that mixes retry
    budgets, breaker time and sleep. */
module Drain {
  import opened Foundation
  import opened Tables
  import opened CircuitBreakers
  import opened Backoff
  import opened Storage
  import opened Dispatching
  import opened DeliveryMachine

  // ----------------------------------------------------------------------- the loop

  /** The loop between two passes: the relay, and the last sleep. */
  datatype Loop = Loop(world: World, previousSleep: Duration)

  /** What one turn of the loop takes from outside: the input of its pass, and the
      draw in case it has to back off. */
  datatype Turn = Turn(input: Input, draw: nat)

  ghost function PassOf(config: Config, loop: Loop, turn: Turn): Pass {
    RunOnce(config, loop.world.db, loop.world.calls, turn.input)
  }

  ghost predicate Admissible(config: Config, loop: Loop, turn: Turn) {
    && Enabled(loop.world, DispatchOnce(turn.input))
    && InRange(config.backoffBase, loop.previousSleep, turn.draw)
  }

  /** Settled: go on at once, and forget the last sleep. Deferred or errored: sleep
      for the delay. Idle: sleep for the poll interval. The clock moves on by at
      least the sleep. */
  ghost function LoopNext(config: Config, poll: Duration, loop: Loop, turn: Turn): Loop {
    var after := Next(config, loop.world, DispatchOnce(turn.input));
    match PassOf(config, loop, turn).outcome
    case Settled => Loop(after, config.backoffBase)
    case Idle => Loop(after.(clock := after.clock + poll), loop.previousSleep)
    case _ =>
      var delay := Min(turn.draw, config.backoffCap);
      Loop(after.(clock := after.clock + delay), delay)
  }

  /** One turn, from one state of the loop to the next. */
  ghost predicate Turned(config: Config, poll: Duration, before: Loop, turn: Turn, after: Loop) {
    Admissible(config, before, turn) && after == LoopNext(config, poll, before, turn)
  }

  /** A stretch of the loop's run: its states, and what came from outside between them. */
  ghost predicate Execution(config: Config, poll: Duration, trace: seq<Loop>, turns: seq<Turn>) {
    && |trace| == |turns| + 1
    && forall i {:trigger turns[i]} :: 0 <= i < |turns| ==> Turned(config, poll, trace[i], turns[i], trace[i + 1])
  }

  /** The pass at this turn finds no event to claim. */
  ghost predicate IdleAt(config: Config, trace: seq<Loop>, turns: seq<Turn>, i: nat)
    requires i < |turns| < |trace|
  {
    PassOf(config, trace[i], turns[i]).outcome.Idle?
  }

  /** Each of the first n passes finds an event to claim. */
  ghost predicate Claiming(config: Config, trace: seq<Loop>, turns: seq<Turn>, n: nat)
    requires n <= |turns| < |trace|
  {
    n == 0 || (Claiming(config, trace, turns, n - 1) && !IdleAt(config, trace, turns, n - 1))
  }

  // -------------------------------------------------------------------- work to do

  /** The contacts that the waiting events among `ids` may still cost. */
  ghost function WorkOn(config: Config, db: Database, ids: set<Id>): nat {
    if ids == {} then 0
    else
      var e :| e in ids;
      Owed(config, db, e) + WorkOn(config, db, ids - {e})
  }

  function Owed(config: Config, db: Database, event: Id): nat {
    Max(0, Budget(config) - |AttemptsOf(db, event)|)
  }

  /** M: the sum of what is left of the budgets, over the waiting events. */
  ghost function Work(config: Config, db: Database): nat {
    WorkOn(config, db, Waiting(db))
  }

  lemma {:induction false} WorkWithout(config: Config, db: Database, ids: set<Id>, e: Id)
    requires e in ids
    ensures WorkOn(config, db, ids) == Owed(config, db, e) + WorkOn(config, db, ids - {e})
    decreases |ids|
  {
    var f :| f in ids && WorkOn(config, db, ids) == Owed(config, db, f) + WorkOn(config, db, ids - {f});
    if f != e {
      WorkWithout(config, db, ids - {f}, e);
      WorkWithout(config, db, ids - {e}, f);
      assert ids - {f} - {e} == ids - {e} - {f};
    }
  }

  lemma {:induction false} SameWork(config: Config, before: Database, after: Database, ids: set<Id>)
    requires forall e :: e in ids ==> Owed(config, before, e) == Owed(config, after, e)
    ensures WorkOn(config, before, ids) == WorkOn(config, after, ids)
    decreases |ids|
  {
    if ids != {} {
      var e :| e in ids;
      WorkWithout(config, before, ids, e);
      WorkWithout(config, after, ids, e);
      SameWork(config, before, after, ids - {e});
    }
  }

  /** One event was tried once more, and waits on or not; the others are as before. */
  lemma LessWork(config: Config, before: Database, after: Database, event: Id)
    requires event in Waiting(before) && |AttemptsOf(before, event)| < Budget(config)
    requires |AttemptsOf(after, event)| == |AttemptsOf(before, event)| + 1
    requires forall e :: e != event ==> AttemptsOf(after, e) == AttemptsOf(before, e)
    requires Waiting(after) == Waiting(before) || Waiting(after) == Waiting(before) - {event}
    ensures Work(config, after) < Work(config, before)
  {
    var others := Waiting(before) - {event};
    WorkWithout(config, before, Waiting(before), event);
    SameWork(config, before, after, others);
    if event in Waiting(after) {
      WorkWithout(config, after, Waiting(after), event);
    }
  }

  /** A contact leaves strictly less work. */
  lemma ContactReducesWork(config: Config, db: Database, event: Id, input: Input)
    requires HasStatus(db, event, Received) && input.attemptId !in db.attempts
    requires |AttemptsOf(db, event)| < Budget(config)
    ensures Work(config, Contacted(config, db, event, input)) < Work(config, db)
  {
    var after := Contacted(config, db, event, input);
    AttemptsAfterContact(config, db, event, input);
    if HasStatus(after, event, Received) {
      assert Waiting(after) == Waiting(db);
    } else {
      assert Waiting(after) == Waiting(db) - {event};
    }
    LessWork(config, db, after, event);
  }

  // ----------------------------------------------------------------- time to wait

  /** How long the head of the queue still has to wait for its breaker. */
  ghost function Wait(config: Config, w: World): nat {
    match NextEvent(w.db)
    case None => 0
    case Some(event) => WaitFor(config, HistoryOf(w.calls, w.db.events[event].endpointId), w.clock)
  }

  function WaitFor(config: Config, calls: seq<Call>, now: Instant): nat {
    if StateFrom(config.failureThreshold, config.recovery, calls, now).Open?
    then Max(0, LastFailure(calls).value + config.recovery - now)
    else 0
  }

  /** A refusal means a wait that has not run out; waiting `pause` shortens it by
      at least that much. */
  lemma RefusalWaits(config: Config, calls: seq<Call>, clock: Instant, input: Input, pause: nat)
    requires SoundHistory(config, calls, clock) && clock <= input.askedAt <= input.recordedAt
    requires !GrantsFrom(config.failureThreshold, config.recovery, calls, input.askedAt)
    ensures WaitFor(config, calls, clock) > 0
    ensures WaitFor(config, calls + [Ask(input.askedAt)], input.recordedAt + pause)
         <= Max(0, WaitFor(config, calls, clock) - pause)
  {
    NoProbeOut(config, calls);
    assert (calls + [Ask(input.askedAt)])[..|calls|] == calls;
  }

  lemma WaitIsBounded(config: Config, calls: seq<Call>, clock: Instant)
    requires SoundHistory(config, calls, clock)
    ensures WaitFor(config, calls, clock) <= config.recovery
  {
    if LastFailure(calls).Some? {
      LastFailureIsPast(calls);
    }
  }

  /** The number of pauses that cover a length of time. */
  function Rounds(length: nat, pause: nat): nat
    requires pause > 0
  {
    if length == 0 then 0 else 1 + Rounds(Max(0, length - pause), pause)
  }

  lemma {:induction false} RoundsGrow(a: nat, b: nat, pause: nat)
    requires pause > 0 && a <= b
    ensures Rounds(a, pause) <= Rounds(b, pause)
    decreases b
  {
    if a > 0 {
      RoundsGrow(Max(0, a - pause), Max(0, b - pause), pause);
    }
  }

  lemma OneRoundLess(before: nat, after: nat, pause: nat)
    requires pause > 0 && before > 0 && after <= Max(0, before - pause)
    ensures Rounds(after, pause) < Rounds(before, pause)
  {
    RoundsGrow(after, Max(0, before - pause), pause);
  }

  lemma {:induction false} RoundsTimes(length: nat, pause: nat)
    requires pause > 0
    ensures Times(Rounds(length, pause), pause) <= length + pause - 1
    decreases length
  {
    if length > 0 {
      RoundsTimes(Max(0, length - pause), pause);
    }
  }

  /** Rounds is division, rounded up. */
  lemma RoundsIsCeiling(length: nat, pause: nat)
    requires pause > 0
    ensures Rounds(length, pause) <= (length + pause - 1) / pause
  {
    RoundsTimes(length, pause);
    TimesFits(Rounds(length, pause), pause, length + pause - 1);
  }

  // -------------------------------------------------------------------- potential

  /** The least sleep of a backoff. */
  function Pause(config: Config): nat {
    Min(config.backoffBase, config.backoffCap)
  }

  /** Waiting makes progress, or there is nothing to wait for. */
  predicate Paces(config: Config) {
    Pause(config) > 0 || config.recovery == 0
  }

  /** The length of time that one pause is counted for. */
  function Beat(config: Config): (beat: nat)
    ensures beat > 0
  {
    AtLeastOne(Pause(config))
  }

  function PassesPerContact(config: Config): nat {
    1 + Rounds(config.recovery, Beat(config))
  }

  /** A bound on the claiming passes still to come. */
  ghost function Potential(config: Config, w: World): nat {
    if Work(config, w.db) == 0 then 0
    else Times(Work(config, w.db) - 1, PassesPerContact(config)) + 1 + Rounds(Wait(config, w), Beat(config))
  }

  lemma PotentialIsBounded(config: Config, w: World)
    requires Inv(config, w)
    ensures Potential(config, w) <= Times(Work(config, w.db), PassesPerContact(config))
  {
    WaitOfHeadIsBounded(config, w);
    RoundsGrow(Wait(config, w), config.recovery, Beat(config));
  }

  lemma WaitOfHeadIsBounded(config: Config, w: World)
    requires SoundHistories(config, w.calls, w.clock)
    ensures Wait(config, w) <= config.recovery
  {
    if NextEvent(w.db).Some? {
      var endpoint := w.db.events[NextEvent(w.db).value].endpointId;
      if endpoint in w.calls {
        WaitIsBounded(config, w.calls[endpoint], w.clock);
      }
    }
  }

  lemma WaitingMeansWork(config: Config, db: Database, event: Id)
    requires Ledger(Budget(config), db) && HasStatus(db, event, Received)
    ensures Work(config, db) > 0 && |AttemptsOf(db, event)| < Budget(config)
  {
    assert LedgerOf(Budget(config), db, event);
    WorkWithout(config, db, Waiting(db), event);
  }

  lemma TurnKeepsInv(config: Config, poll: Duration, loop: Loop, turn: Turn)
    requires Inv(config, loop.world) && Admissible(config, loop, turn)
    ensures Inv(config, LoopNext(config, poll, loop, turn).world)
  {
    PassKeepsInv(config, loop.world, turn.input);
    var after := Next(config, loop.world, DispatchOnce(turn.input));
    var later := LoopNext(config, poll, loop, turn).world;
    assert after.calls == later.calls && after.clock <= later.clock;
  }

  lemma LessWorkLessPotential(config: Config, w: World, after: World)
    requires Work(config, after.db) < Work(config, w.db)
    requires Potential(config, after) <= Times(Work(config, after.db), PassesPerContact(config))
    ensures Potential(config, after) < Potential(config, w)
  {
    TimesGrows(Work(config, after.db), Work(config, w.db) - 1, PassesPerContact(config));
  }

  lemma DeferralPays(config: Config, w: World, after: World, event: Id, input: Input, delay: Duration)
    requires Paces(config) && Inv(config, w) && Enabled(w, DispatchOnce(input))
    requires NextEvent(w.db) == Some(event) && event in w.db.events && after.db == w.db
    requires var endpoint := w.db.events[event].endpointId;
      && after.calls == Extended(w.calls, endpoint, Ask(input.askedAt))
      && !GrantsFrom(config.failureThreshold, config.recovery, HistoryOf(w.calls, endpoint), input.askedAt)
    requires after.clock == input.recordedAt + delay && delay >= Pause(config)
    ensures Potential(config, after) < Potential(config, w)
  {
    WaitingMeansWork(config, w.db, event);
    var calls := HistoryOf(w.calls, w.db.events[event].endpointId);
    assert Wait(config, w) > 0 && Wait(config, after) <= Max(0, Wait(config, w) - Beat(config)) by {
      RefusalWaits(config, calls, w.clock, input, delay);
      WaitIsBounded(config, calls, w.clock);
    }
    OneRoundLess(Wait(config, w), Wait(config, after), Beat(config));
  }

  /** Every turn that finds an event to claim pays for itself. */
  lemma TurnPays(config: Config, poll: Duration, loop: Loop, turn: Turn)
    requires Paces(config) && Inv(config, loop.world) && Admissible(config, loop, turn)
    requires !PassOf(config, loop, turn).outcome.Idle?
    ensures Potential(config, LoopNext(config, poll, loop, turn).world) < Potential(config, loop.world)
  {
    var w, after := loop.world, LoopNext(config, poll, loop, turn).world;
    PassCases(config, w, turn.input);
    TurnKeepsInv(config, poll, loop, turn);
    var event := NextEvent(w.db).value;
    if PassOf(config, loop, turn).outcome.Settled? {
      WaitingMeansWork(config, w.db, event);
      ContactReducesWork(config, w.db, event, turn.input);
      PotentialIsBounded(config, after);
      LessWorkLessPotential(config, w, after);
    } else {
      DeferralPays(config, w, after, event, turn.input, Min(turn.draw, config.backoffCap));
    }
  }

  lemma TurnStep(config: Config, poll: Duration, loop: Loop, turn: Turn)
    requires Paces(config) && Inv(config, loop.world) && Admissible(config, loop, turn)
    requires !PassOf(config, loop, turn).outcome.Idle?
    ensures Inv(config, LoopNext(config, poll, loop, turn).world)
    ensures Potential(config, LoopNext(config, poll, loop, turn).world) < Potential(config, loop.world)
  {
    TurnKeepsInv(config, poll, loop, turn);
    TurnPays(config, poll, loop, turn);
  }

  lemma {:induction false} TurnsPay(config: Config, poll: Duration, trace: seq<Loop>, turns: seq<Turn>, n: nat)
    requires Paces(config) && Execution(config, poll, trace, turns) && Inv(config, trace[0].world)
    requires n <= |turns| && Claiming(config, trace, turns, n)
    ensures Inv(config, trace[n].world)
    ensures Potential(config, trace[n].world) + n <= Potential(config, trace[0].world)
  {
    if n > 0 {
      TurnsPay(config, poll, trace, turns, n - 1);
      assert Turned(config, poll, trace[n - 1], turns[n - 1], trace[n - 1 + 1]);
      TurnStep(config, poll, trace[n - 1], turns[n - 1]);
    }
  }

  ghost function Limit(config: Config, db: Database): nat {
    Times(Work(config, db), PassesPerContact(config))
  }

  lemma BusyWithinLimit(config: Config, poll: Duration, trace: seq<Loop>, turns: seq<Turn>, n: nat)
    requires Paces(config) && Execution(config, poll, trace, turns) && Inv(config, trace[0].world)
    requires n <= |turns| && Claiming(config, trace, turns, n)
    ensures n <= Limit(config, trace[0].world.db)
  {
    TurnsPay(config, poll, trace, turns, n);
    PotentialIsBounded(config, trace[0].world);
  }

  /** M * (1 + ceil(R / pause)). */
  ghost function DrainLimit(config: Config, db: Database): nat {
    Work(config, db) * (1 + (config.recovery + Beat(config) - 1) / Beat(config))
  }

  lemma LimitIsDrainLimit(config: Config, db: Database)
    ensures Limit(config, db) <= DrainLimit(config, db)
  {
    RoundsIsCeiling(config.recovery, Beat(config));
    TimesIsProduct(Work(config, db), PassesPerContact(config));
    MoreOfEach(Work(config, db), PassesPerContact(config), 1 + (config.recovery + Beat(config) - 1) / Beat(config));
  }

  /** However the downstream answers and whatever delays are drawn: from any sound
      state, at most M * (1 + ceil(R / pause)) passes claim an event before the
      first idle pass. */
  lemma DrainBound(config: Config, poll: Duration, trace: seq<Loop>, turns: seq<Turn>, n: nat)
    requires Paces(config) && Execution(config, poll, trace, turns) && Inv(config, trace[0].world)
    requires n <= |turns| && Claiming(config, trace, turns, n)
    ensures n <= DrainLimit(config, trace[0].world.db)
  {
    BusyWithinLimit(config, poll, trace, turns, n);
    LimitIsDrainLimit(config, trace[0].world.db);
  }

  lemma MoreOfEach(m: nat, a: nat, b: nat)
    requires a <= b
    ensures m * a <= m * b
  {
  }

  /** Every event is DELIVERED or FAILED. */
  ghost predicate Drained(db: Database) {
    forall e :: e in db.events ==> db.events[e].status in {Delivered, Failed}
  }

  /** An idle pass finds nothing left to do. */
  lemma IdleMeansDrained(config: Config, w: World)
    requires Inv(config, w) && NextEvent(w.db).None?
    ensures Drained(w.db)
  {
    forall e | e in w.db.events
      ensures w.db.events[e].status in {Delivered, Failed}
    {
      assert LedgerOf(Budget(config), w.db, e);
      assert e !in Waiting(w.db);
    }
  }

  lemma IdleTurn(config: Config, loop: Loop, turn: Turn)
    requires Inv(config, loop.world) && Admissible(config, loop, turn)
    ensures PassOf(config, loop, turn).outcome.Idle? <==> NextEvent(loop.world.db).None?
    ensures PassOf(config, loop, turn).outcome.Idle? ==> Drained(loop.world.db)
  {
    PassCases(config, loop.world, turn.input);
    if NextEvent(loop.world.db).None? {
      IdleMeansDrained(config, loop.world);
    }
  }

  lemma {:induction false} FirstIdle(config: Config, trace: seq<Loop>, turns: seq<Turn>, k: nat) returns (n: nat)
    requires k <= |turns| < |trace|
    ensures n <= k && Claiming(config, trace, turns, n)
    ensures n < k ==> IdleAt(config, trace, turns, n)
  {
    if k == 0 {
      n := 0;
    } else {
      n := FirstIdle(config, trace, turns, k - 1);
      if n == k - 1 && !IdleAt(config, trace, turns, n) {
        n := k;
      }
    }
  }

  /** The loop gets there: of any run of more turns than the bound, some turn within
      the bound is idle, and then every event is DELIVERED or FAILED. */
  lemma LoopDrains(config: Config, poll: Duration, trace: seq<Loop>, turns: seq<Turn>) returns (n: nat)
    requires Paces(config) && Execution(config, poll, trace, turns) && Inv(config, trace[0].world)
    requires |turns| > DrainLimit(config, trace[0].world.db)
    ensures n <= DrainLimit(config, trace[0].world.db) && IdleAt(config, trace, turns, n)
    ensures Drained(trace[n].world.db)
  {
    n := FirstIdle(config, trace, turns, |turns|);
    DrainBound(config, poll, trace, turns, n);
    TurnsPay(config, poll, trace, turns, n);
    assert Turned(config, poll, trace[n], turns[n], trace[n + 1]);
    IdleTurn(config, trace[n], turns[n]);
  }

  lemma HistoriesArePast(config: Config, w: World, now: Instant)
    requires Inv(config, w) && w.clock <= now
    ensures Past(w.calls, now)
  {
  }

  /** One turn: a pass, and the sleep that its outcome asks for. */
  method LoopTurn(store: Store, shared: SharedBreakers, config: Config, poll: Duration, turns: seq<Turn>,
                  previousSleep: Duration, ghost trace: seq<Loop>, n: nat)
    returns (idle: bool, sleep: Duration)
    requires Wired(store, shared, config) && n < |turns| < |trace|
    requires Inv(config, trace[n].world) && Turned(config, poll, trace[n], turns[n], trace[n + 1])
    requires trace[n] == Loop(trace[n].world, previousSleep)
    requires trace[n].world.db == store.Contents() && trace[n].world.calls == shared.calls
    modifies store, shared.Repr
    ensures Wired(store, shared, config)
    ensures forall o :: o in shared.Repr ==> o in old(shared.Repr) || fresh(o)
    ensures idle <==> IdleAt(config, trace, turns, n)
    ensures !idle ==>
      && trace[n + 1].world.db == store.Contents() && trace[n + 1].world.calls == shared.calls
      && trace[n + 1].previousSleep == sleep
    ensures idle ==> store.Contents() == trace[n].world.db && Drained(store.Contents())
  {
    ghost var loop := trace[n];
    var turn := turns[n];
    HistoriesArePast(config, loop.world, turn.input.askedAt);
    IdleTurn(config, loop, turn);
    sleep := previousSleep;
    var outcome, contact := RunDispatchOnce(store, shared, config, turn.input);
    idle := outcome.Idle?;
    match outcome {
      case Idle =>
      case Settled =>
        sleep := config.backoffBase;
      case _ =>
        sleep := DecorrelatedJitter(config.backoffBase, config.backoffCap, previousSleep, turn.draw);
    }
  }

  lemma Ready(config: Config, poll: Duration, trace: seq<Loop>, turns: seq<Turn>, n: nat)
    requires Execution(config, poll, trace, turns) && n < |turns| && Inv(config, trace[n].world)
    ensures Turned(config, poll, trace[n], turns[n], trace[n + 1])
    ensures IdleAt(config, trace, turns, n) ==> Drained(trace[n].world.db)
  {
    assert Turned(config, poll, trace[n], turns[n], trace[n + 1]);
    IdleTurn(config, trace[n], turns[n]);
  }

  lemma Advance(config: Config, poll: Duration, trace: seq<Loop>, turns: seq<Turn>, n: nat)
    requires Paces(config) && n < |turns| < |trace| && Inv(config, trace[n].world)
    requires Turned(config, poll, trace[n], turns[n], trace[n + 1]) && !IdleAt(config, trace, turns, n)
    ensures Inv(config, trace[n + 1].world)
    ensures Potential(config, trace[n + 1].world) < Potential(config, trace[n].world)
  {
    TurnStep(config, poll, trace[n], turns[n]);
  }

  /** The dispatch loop over the real tables and breakers, up to its first idle
      pass. Given more turns than the bound, it drains the queue. */
  method RunDispatchLoop(store: Store, shared: SharedBreakers, config: Config, poll: Duration, turns: seq<Turn>,
                         ghost trace: seq<Loop>)
    returns (passes: nat)
    requires Wired(store, shared, config) && Paces(config)
    requires Execution(config, poll, trace, turns) && Inv(config, trace[0].world)
    requires trace[0] == Loop(trace[0].world, config.backoffBase)
    requires trace[0].world.db == store.Contents() && trace[0].world.calls == shared.calls
    requires |turns| > Limit(config, trace[0].world.db)
    modifies store, shared.Repr
    ensures Wired(store, shared, config)
    ensures passes <= Limit(config, trace[0].world.db) && store.Contents() == trace[passes].world.db
    ensures Drained(store.Contents())
  {
    var previousSleep := config.backoffBase;
    passes := 0;
    ghost var limit := Limit(config, trace[0].world.db);
    PotentialIsBounded(config, trace[0].world);
    while true
      invariant Wired(store, shared, config)
      invariant forall o :: o in shared.Repr ==> o in old(shared.Repr) || fresh(o)
      invariant passes <= |turns| && Inv(config, trace[passes].world)
      invariant passes + Potential(config, trace[passes].world) <= limit
      invariant store.Contents() == trace[passes].world.db && shared.calls == trace[passes].world.calls
      invariant previousSleep == trace[passes].previousSleep
      decreases Potential(config, trace[passes].world)
    {
      Ready(config, poll, trace, turns, passes);
      var idle, sleep := LoopTurn(store, shared, config, poll, turns, previousSleep, trace, passes);
      if idle {
        return;
      }
      Advance(config, poll, trace, turns, passes);
      previousSleep := sleep;
      passes := passes + 1;
    }
  }
}
