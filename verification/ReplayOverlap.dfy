/** A run in which interleaved replays break lease exclusivity. */
module ReplayOverlap {
  import opened Foundation
  import opened Tables
  import opened Dispatching
  import opened StatementMachine
  import opened Leases
  import opened Reachability
  import opened Exhaustion
  import opened Simulation

  lemma RequeueThenClaim(config: Config, s: System, t: System, r: Id, w: Id, e: Id) returns (u: System)
    requires Reaches(config, s, FAULTLESS, t)
    requires r in t.replays && t.replays[r].Selected? && t.replays[r].event == e
    requires w in t.workers && t.workers[w].Resting?
    requires e in t.db.events && IsOnly(t.db, e, t.db.events[e].status)
    ensures Reaches(config, s, FAULTLESS, u)
    ensures u.workers == t.workers[w := Claimed(e)] && IsOnly(u.db, e, Processing)
    ensures u.replays.Keys == t.replays.Keys && forall q :: q in t.replays && q != r ==> u.replays[q] == t.replays[q]
  {
    ReachesMore(config, s, FAULTLESS, t, ReplayRequeue(r));
    var queued := Next(config, t, ReplayRequeue(r));
    OnlyIsNext(queued.db, e);
    ReachesMore(config, s, FAULTLESS, queued, Worker(w, Claim));
    u := Next(config, queued, Worker(w, Claim));
  }

  /** Two replays that have both read one dead letter let two workers claim its event. */
  lemma TwoReplaysTwoHolders(config: Config, s: System, t: System, q: Id, r: Id, v: Id, w: Id, e: Id)
    returns (u: System)
    requires Reaches(config, s, FAULTLESS, t) && q != r && v != w
    requires q in t.replays && t.replays[q].Selected? && t.replays[q].event == e
    requires r in t.replays && t.replays[r].Selected? && t.replays[r].event == e
    requires v in t.workers && t.workers[v].Resting? && w in t.workers && t.workers[w].Resting?
    requires IsOnly(t.db, e, Failed)
    ensures Reaches(config, s, FAULTLESS, u) && HeldBy(u, v, e) && HeldBy(u, w, e)
  {
    var once := RequeueThenClaim(config, s, t, q, v, e);
    u := RequeueThenClaim(config, s, once, r, w, e);
  }

  const TWO_AT_REST := System(EMPTY, map[], 0, {}, map[0 := Resting, 1 := Resting], map[], {})

  /** Lease exclusivity does not survive interleaved replays: for every configuration,
      from the start and without any storage fault, two workers come to hold one event. */
  lemma InterleavedReplaysShareAnEvent(config: Config) returns (u: System)
    ensures IsStart(TWO_AT_REST) && Reaches(config, TWO_AT_REST, FAULTLESS, u) && !OneHolder(u)
  {
    var steps, letter := SomethingFails(config);
    var s := TWO_AT_REST;
    var t := RunLifts(config, s, FAULTLESS, 0, steps);
    ReachesMore(config, s, FAULTLESS, t, ReplaySelect(0, letter));
    var one := Next(config, t, ReplaySelect(0, letter));
    ReachesMore(config, s, FAULTLESS, one, ReplaySelect(1, letter));
    var two := Next(config, one, ReplaySelect(1, letter));
    u := TwoReplaysTwoHolders(config, s, two, 0, 1, 0, 1, 1);
    assert HeldBy(u, 0, 1) && HeldBy(u, 1, 1);
  }
}
