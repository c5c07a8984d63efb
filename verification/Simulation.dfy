/** Every run of the delivery machine is a run of the statement machine in which one
    worker runs uninterrupted passes and the others rest. */
module Simulation {
  import opened Foundation
  import opened Tables
  import opened Dispatching
  import opened StatementMachine
  import opened FaultFree
  import opened SoloPasses
  import opened Reachability
  import Delivery = DeliveryMachine

  const ONE_AT_REST := System(EMPTY, map[], 0, {}, map[0 := Resting], map[], {})

  predicate AtRest(s: System) {
    s.replays == map[] && s.stranded == {} && forall w :: w in s.workers ==> s.workers[w].Resting?
  }

  /** The same tables and the same calls on the breakers. */
  ghost predicate Mirrors(s: System, w: Delivery.World) {
    && AtRest(s)
    && s.db == w.db && s.calls == w.calls
    && s.clock <= w.clock && s.minted <= w.minted
  }

  lemma ReachableAttemptsKnown(config: Config, start: System, terms: Terms, s: System)
    requires IsStart(start) && Reaches(config, start, terms, s)
    ensures AttemptsKnown(s)
  {
    var moves :| ReachesBy(config, start, terms, moves, s);
    RunKeepsAttemptsKnown(config, start, moves);
  }

  lemma PassLifts(config: Config, start: System, terms: Terms, s: System, w: Delivery.World, worker: Id, input: Input)
    returns (t: System)
    requires IsStart(start) && Reaches(config, start, terms, s) && worker in s.workers
    requires Delivery.Inv(config, w) && Delivery.Enabled(w, Delivery.DispatchOnce(input)) && Mirrors(s, w)
    ensures Reaches(config, start, terms, t) && t.workers == s.workers
    ensures Mirrors(t, Delivery.Next(config, w, Delivery.DispatchOnce(input)))
  {
    ReachableAttemptsKnown(config, start, terms, s);
    t := SoloPass(config, s, worker, input);
    ReachesSolo(config, start, terms, s, worker, false, t);
  }

  /** The move that a handler's step is. */
  function MoveOf(step: Delivery.Step): Move
    requires !step.DispatchOnce?
  {
    match step
    case CreateEndpoint(id, endpoint) => CreateEndpoint(id, endpoint)
    case RemoveEndpoint(id) => RemoveEndpoint(id)
    case AcceptEvent(id, event) => AcceptEvent(id, event)
    case ReplayDeadLetter(id) => ReplayWhole(id)
  }

  lemma HandlerLifts(config: Config, start: System, terms: Terms, s: System, w: Delivery.World, step: Delivery.Step)
    returns (t: System)
    requires Reaches(config, start, terms, s) && Delivery.Enabled(w, step) && Mirrors(s, w)
    requires !step.DispatchOnce? && (terms.mayReplay || !step.ReplayDeadLetter?)
    ensures Reaches(config, start, terms, t) && t.workers == s.workers && Mirrors(t, Delivery.Next(config, w, step))
  {
    ReachesMore(config, start, terms, s, MoveOf(step));
    t := Next(config, s, MoveOf(step));
  }

  /** For every run of the delivery machine there is a run of the statement machine,
      without faults, to the same tables and calls, with every worker at rest; and
      without replays when the first has none. */
  lemma {:induction false} RunLifts(config: Config, start: System, terms: Terms, worker: Id, steps: seq<Delivery.Step>)
    returns (s: System)
    requires IsStart(start) && start.clock == 0 && worker in start.workers
    requires Delivery.IsRun(config, Delivery.START, steps)
    requires terms.mayReplay || forall step :: step in steps ==> !step.ReplayDeadLetter?
    ensures Reaches(config, start, terms, s) && s.workers == start.workers
    ensures Mirrors(s, Delivery.Run(config, Delivery.START, steps))
  {
    if steps == [] {
      ReachesItself(config, start, terms);
      s := start;
    } else {
      var before, step := steps[..|steps| - 1], steps[|steps| - 1];
      var w := Delivery.Run(config, Delivery.START, before);
      s := RunLifts(config, start, terms, worker, before);
      Delivery.ReachableStatesAreSound(config, before);
      if step.DispatchOnce? {
        s := PassLifts(config, start, terms, s, w, worker, step.input);
      } else {
        s := HandlerLifts(config, start, terms, s, w, step);
      }
    }
  }
}
