/** A run in which a replay puts a delivered event back into the queue. */
module DeliveredAgain {
  import opened Foundation
  import opened Tables
  import opened Operations
  import opened CircuitBreakers
  import opened Dispatching
  import opened StatementMachine
  import opened FaultFree
  import opened SoloPasses
  import opened Reachability
  import opened Exhaustion
  import opened Simulation
  import opened StaleCount
  import opened DeliveredEvents

  /** The only event waits, and the breaker would grant an attempt. */
  ghost predicate IsWaiting(config: Config, s: System, at: Instant, next: Id) {
    && Integrity(s.db) && AttemptsKnown(s) && s.workers == map[0 := Resting] && s.clock <= at
    && IsOnly(s.db, 1, Received) && s.db.events[1].endpointId == 0
    && (forall id :: id in s.minted ==> id < next)
    && GrantsFrom(config.failureThreshold, config.recovery, HistoryOf(s.calls, 0), at)
  }

  /** One replay has read the dead letter when another completes. */
  lemma OneReplayLags(config: Config) returns (s: System, at: Instant, next: Id)
    ensures ReachesAway(config, ONE_AT_REST, s) && IsWaiting(config, s, at, next)
    ensures 0 in s.replays && s.replays[0].Selected? && s.replays[0].event == 1
  {
    var t, letter;
    t, letter, at, next := ExhaustedAndGranted(config);
    AwayMore(config, ONE_AT_REST, t, ReplaySelect(0, letter));
    SelectEffect(config, t, 0, letter);
    var selected := t.(replays := t.replays[0 := Selected(letter, 1)]);
    AwayMore(config, ONE_AT_REST, selected, ReplayWhole(letter));
    s := selected.(db := Replay(t.db, letter).0);
    ReplayKeeps(t.db, letter);
    ReplayMeans(t.db, letter);
  }

  lemma AsksGranted(config: Config, s: System, at: Instant, next: Id) returns (t: System, row: Fetched)
    requires IsWaiting(config, s, at, next)
    ensures Leads(config, s, 0, false, t) && t.workers == map[0 := Contacting(1, row)] && t.replays == s.replays
    ensures t.clock == at && t.minted == s.minted && AttemptsKnown(t) && 1 in t.db.events
  {
    OnlyIsNext(s.db, 1);
    row := ClaimReadAsk(config, s, 0, 1, at);
    t := At(s.(db := SetStatus(s.db, 1, Processing), calls := Extended(s.calls, 0, Ask(at)), clock := at), 0,
            Contacting(1, row));
  }

  /** The downstream accepts. */
  lemma Delivers(config: Config, s: System, at: Instant, next: Id) returns (t: System)
    requires IsWaiting(config, s, at, next)
    ensures Leads(config, s, 0, false, t) && t.workers == map[0 := Resting] && t.replays == s.replays
    ensures HasStatus(t.db, 1, Delivered)
  {
    var asked, row := AsksGranted(config, s, at, next);
    var input := Input(at, at, 0, Http(200), next, next + 1);
    t := SettlesContact(config, s, asked, row, input);
    OnePlace(asked.workers, Contacting(1, row), Resting);
    SettleEffect(config, asked.db, 1, row.endpoint, row.tried + 1, input);
  }

  /** Delivered need not be final under interleaved replays: for every configuration,
      from the start, without faults and with replays that keep away from what workers
      hold or have counted, a replay that lags behind another puts a delivered event
      back into the queue. */
  lemma DeliveredThenReplayed(config: Config) returns (s: System, t: System)
    ensures IsStart(ONE_AT_REST) && ReachesAway(config, ONE_AT_REST, s) && HasStatus(s.db, 1, Delivered)
    ensures Enabled(s, ReplayRequeue(0)) && !SparesDelivered(s, ReplayRequeue(0))
    ensures t == Next(config, s, ReplayRequeue(0)) && ReachesAway(config, ONE_AT_REST, t)
    ensures HasStatus(t.db, 1, Received)
  {
    var waiting, at, next := OneReplayLags(config);
    s := Delivers(config, waiting, at, next);
    AwaySolo(config, ONE_AT_REST, waiting, 0, false, s);
    AwayMore(config, ONE_AT_REST, s, ReplayRequeue(0));
    t := Next(config, s, ReplayRequeue(0));
  }
}
