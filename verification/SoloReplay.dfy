/** A replay that nobody interrupts: its four statements, one after another, add up to
    the whole replay; so whole replays are a convenience, not a further power. */
module SoloReplays {
  import opened Foundation
  import opened Tables
  import opened Operations
  import opened Dispatching
  import opened StatementMachine
  import opened FaultFree
  import opened Reachability

  /** The statements of one replay, in their order. */
  function Statements(r: Id, letter: Id): seq<Move> {
    [ReplaySelect(r, letter), ReplayRequeue(r), ReplayClear(r), ReplayDrop(r)]
  }

  lemma OneMoreMove(config: Config, s: System, moves: seq<Move>, t: System, move: Move)
    requires IsRun(config, s, moves) && End(config, s, moves) == t && Enabled(t, move)
    ensures IsRun(config, s, moves + [move]) && End(config, s, moves + [move]) == Next(config, t, move)
  {
    assert (moves + [move])[..|moves|] == moves;
  }

  lemma ReplayGoneAgain(replays: map<Id, ReplayPc>, r: Id, a: ReplayPc, b: ReplayPc, c: ReplayPc)
    requires r !in replays
    ensures replays[r := a][r := b][r := c] - {r} == replays
  {
  }

  /** Wherever a replay can start, its other statements can follow, and together they
      do to the tables what the whole replay does, and to nothing else anything. */
  lemma SoloReplay(config: Config, s: System, r: Id, letter: Id)
    requires Enabled(s, ReplaySelect(r, letter))
    ensures IsRun(config, s, Statements(r, letter))
    ensures End(config, s, Statements(r, letter)) == s.(db := Replay(s.db, letter).0)
    ensures End(config, s, Statements(r, letter)) == Next(config, s, ReplayWhole(letter))
  {
    var event := s.db.deadLetters[letter].eventId;
    var select, requeue, clear, drop := ReplaySelect(r, letter), ReplayRequeue(r), ReplayClear(r), ReplayDrop(r);
    var selected := s.(replays := s.replays[r := Selected(letter, event)]);
    var requeued := selected.(db := SetStatus(s.db, event, Received),
                              replays := selected.replays[r := Requeued(letter, event)]);
    var cleared := requeued.(db := DeleteAttemptsOf(requeued.db, event),
                             replays := requeued.replays[r := Cleared(letter, event)]);
    OneMoreMove(config, s, [], s, select);
    OneMoreMove(config, s, [] + [select], selected, requeue);
    OneMoreMove(config, s, [] + [select] + [requeue], requeued, clear);
    OneMoreMove(config, s, [] + [select] + [requeue] + [clear], cleared, drop);
    ReplayGoneAgain(s.replays, r, Selected(letter, event), Requeued(letter, event), Cleared(letter, event));
    assert Statements(r, letter) == [] + [select] + [requeue] + [clear] + [drop];
  }

  /** What the four statements leave of the tables, in plain terms. */
  lemma SoloReplayMeans(config: Config, s: System, r: Id, letter: Id)
    requires Enabled(s, ReplaySelect(r, letter)) && Integrity(s.db)
    ensures var (t, event) := (End(config, s, Statements(r, letter)), s.db.deadLetters[letter].eventId);
      && HasStatus(t.db, event, Received) && AttemptsOf(t.db, event) == {}
      && letter !in t.db.deadLetters && t.db.deadLetters == s.db.deadLetters - {letter}
      && t.db.endpoints == s.db.endpoints && t.replays == s.replays && t.workers == s.workers
  {
    SoloReplay(config, s, r, letter);
    ReplayMeans(s.db, letter);
  }

  // -------------------------------------------------------------------- over whole runs

  lemma {:induction false} SomeIdIsFree(ids: set<Id>) returns (free: Id)
    ensures forall id :: id in ids ==> id < free
    decreases |ids|
  {
    if ids == {} {
      free := 0;
    } else {
      var id :| id in ids;
      free := SomeIdIsFree(ids - {id});
      free := if id < free then free else id + 1;
      assert forall other :: other in ids ==> other == id || other in ids - {id};
    }
  }

  /** Every run is matched by one whose replays are all made statement by statement, with
      faults only where the first has them. */
  lemma {:induction false} ReplaysSplit(config: Config, start: System, moves: seq<Move>) returns (split: seq<Move>)
    requires IsRun(config, start, moves)
    ensures IsRun(config, start, split) && End(config, start, split) == End(config, start, moves)
    ensures forall m :: m in split ==> !m.ReplayWhole? && (AreFaultless(moves) ==> Faultless(m))
  {
    if moves == [] {
      split := [];
    } else {
      var before, last := moves[..|moves| - 1], moves[|moves| - 1];
      var s := End(config, start, before);
      split := ReplaysSplit(config, start, before);
      assert last in moves && forall m :: m in before ==> m in moves;
      if !last.ReplayWhole? {
        assert (split + [last])[..|split|] == split;
        split := split + [last];
      } else if last.letter in s.db.deadLetters {
        var r := SomeIdIsFree(s.replays.Keys);
        SoloReplay(config, s, r, last.letter);
        RunsConcatenate(config, start, split, Statements(r, last.letter));
        split := split + Statements(r, last.letter);
      }
    }
  }
}
