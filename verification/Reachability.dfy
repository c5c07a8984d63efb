/** Runs of the statement machine, forgetting the moves. */
module Reachability {
  import opened Foundation
  import opened Dispatching
  import opened StatementMachine
  import opened FaultFree
  import opened Leases
  import opened SoloPasses
  import opened StatementLedger

  predicate AreFaultless(moves: seq<Move>) {
    forall m :: m in moves ==> Faultless(m)
  }

  /** What may happen on the way. */
  datatype Terms = Terms(mayFail: bool, mayReplay: bool)

  const SMOOTH := Terms(false, false)
  const FAULTLESS := Terms(false, true)
  const FAULTY := Terms(true, false)

  predicate IsReplay(move: Move) {
    move.ReplayWhole? || move.ReplaySelect? || move.ReplayRequeue? || move.ReplayClear? || move.ReplayDrop?
  }

  predicate Allows(terms: Terms, move: Move) {
    (terms.mayFail || Faultless(move)) && (terms.mayReplay || !IsReplay(move))
  }

  /** Some run takes the system from one state to the other, on these terms. */
  ghost predicate Reaches(config: Config, s: System, terms: Terms, t: System) {
    exists moves :: ReachesBy(config, s, terms, moves, t)
  }

  ghost predicate ReachesBy(config: Config, s: System, terms: Terms, moves: seq<Move>, t: System) {
    IsRun(config, s, moves) && (forall m :: m in moves ==> Allows(terms, m)) && End(config, s, moves) == t
  }

  lemma ReachesItself(config: Config, s: System, terms: Terms)
    ensures Reaches(config, s, terms, s)
  {
    assert ReachesBy(config, s, terms, [], s);
  }

  lemma ReachesMore(config: Config, s: System, terms: Terms, t: System, move: Move)
    requires Reaches(config, s, terms, t) && Enabled(t, move) && Allows(terms, move)
    ensures Reaches(config, s, terms, Next(config, t, move))
  {
    var moves :| ReachesBy(config, s, terms, moves, t);
    var more := moves + [move];
    assert more[..|moves|] == moves;
    assert ReachesBy(config, s, terms, more, Next(config, t, move));
  }

  lemma {:induction false} RunsConcatenate(config: Config, s: System, a: seq<Move>, b: seq<Move>)
    requires IsRun(config, s, a) && IsRun(config, End(config, s, a), b)
    ensures IsRun(config, s, a + b) && End(config, s, a + b) == End(config, End(config, s, a), b)
  {
    if b == [] {
      assert a + b == a;
    } else {
      RunsConcatenate(config, s, a, b[..|b| - 1]);
      assert (a + b)[..|a + b| - 1] == a + b[..|b| - 1];
    }
  }

  lemma ReachesFurther(config: Config, s: System, terms: Terms, t: System, u: System)
    requires Reaches(config, s, terms, t) && Reaches(config, t, terms, u)
    ensures Reaches(config, s, terms, u)
  {
    var a :| ReachesBy(config, s, terms, a, t);
    var b :| ReachesBy(config, t, terms, b, u);
    RunsConcatenate(config, s, a, b);
    assert forall m :: m in a + b ==> m in a || m in b;
    assert ReachesBy(config, s, terms, a + b, u);
  }

  lemma ReachesSolo(config: Config, s: System, terms: Terms, t: System, w: Id, calm: bool, u: System)
    requires Reaches(config, s, terms, t) && Leads(config, t, w, calm, u)
    ensures Reaches(config, s, terms, u)
  {
    var b :| LeadsBy(config, t, w, calm, b, u);
    assert ReachesBy(config, t, terms, b, u);
    ReachesFurther(config, s, terms, t, u);
  }

  lemma TermsWiden(config: Config, s: System, terms: Terms, wider: Terms, t: System)
    requires Reaches(config, s, terms, t)
    requires (terms.mayFail ==> wider.mayFail) && (terms.mayReplay ==> wider.mayReplay)
    ensures Reaches(config, s, wider, t)
  {
    var moves :| ReachesBy(config, s, terms, moves, t);
    assert ReachesBy(config, s, wider, moves, t);
  }

  // --------------------------------------------------- replays that keep away

  /** Some run without faults gets here whose replays keep away from what workers hold
      or have counted. */
  ghost predicate ReachesAway(config: Config, s: System, t: System) {
    exists moves :: AwayBy(config, s, moves, t)
  }

  ghost predicate AwayBy(config: Config, s: System, moves: seq<Move>, t: System) {
    IsRun(config, s, moves) && AreFaultless(moves) && ReplaysKeepAway(config, s, moves) && End(config, s, moves) == t
  }

  lemma AwayMore(config: Config, s: System, t: System, move: Move)
    requires ReachesAway(config, s, t) && Enabled(t, move) && Faultless(move)
    requires HitsNobody(t, move) && ClearsUncounted(t, move)
    ensures ReachesAway(config, s, Next(config, t, move))
  {
    var moves :| AwayBy(config, s, moves, t);
    var more := moves + [move];
    assert more[..|moves|] == moves;
    assert AwayBy(config, s, more, Next(config, t, move));
  }

  /** Without replays there is nothing to keep away from. */
  lemma {:induction false} AwayRun(config: Config, s: System, t: System, moves: seq<Move>)
    requires ReachesAway(config, s, t) && IsRun(config, t, moves)
    requires forall m :: m in moves ==> Allows(SMOOTH, m)
    ensures ReachesAway(config, s, End(config, t, moves))
  {
    if moves != [] {
      var before, last := moves[..|moves| - 1], moves[|moves| - 1];
      AwayRun(config, s, t, before);
      assert last in moves;
      AwayMore(config, s, End(config, t, before), last);
    }
  }

  lemma AwayFromStart(config: Config, s: System, t: System)
    requires Reaches(config, s, SMOOTH, t)
    ensures ReachesAway(config, s, t)
  {
    assert AwayBy(config, s, [], s);
    var moves :| ReachesBy(config, s, SMOOTH, moves, t);
    AwayRun(config, s, s, moves);
  }

  lemma AwaySolo(config: Config, s: System, t: System, w: Id, calm: bool, u: System)
    requires ReachesAway(config, s, t) && Leads(config, t, w, calm, u)
    ensures ReachesAway(config, s, u)
  {
    var moves :| LeadsBy(config, t, w, calm, moves, u);
    AwayRun(config, s, t, moves);
  }

  lemma AwayIsFaultless(config: Config, s: System, t: System)
    requires ReachesAway(config, s, t)
    ensures Reaches(config, s, FAULTLESS, t)
  {
    var moves :| AwayBy(config, s, moves, t);
    assert ReachesBy(config, s, FAULTLESS, moves, t);
  }
}
