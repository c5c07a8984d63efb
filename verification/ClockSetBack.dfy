/** A run in which the wall clock is set back between two acceptances, and the later
    event is delivered first. */
module ClockSetBack {
  import opened Tables
  import opened Dispatching
  import opened DeliveryMachine
  import opened Fifo
  import Exhaustion

  const EARLY := Event(0, "first", [], "", Received, 1)
  const LATE := Event(0, "second", [], "", Received, 0)

  lemma TwoAccepted(config: Config) returns (steps: seq<Step>)
    ensures IsRun(config, START, steps)
    ensures var w := Run(config, START, steps);
      && w.db.events == map[1 := EARLY, 2 := LATE] && w.calls == map[] && w.clock == 0 && w.minted == {0, 1, 2}
      && Events(w.log, TakenEvents) == [1, 2] && Events(w.log, FinishedEvents) == []
  {
    steps := Exhaustion.OneMoreStep(config, [], CreateEndpoint(0, Exhaustion.SOME_ENDPOINT));
    var w := Run(config, START, steps);
    assert Matching(w.db, 0, "first") == {};
    steps := Exhaustion.OneMoreStep(config, steps, AcceptEvent(1, EARLY));
    w := Run(config, START, steps);
    EventsOneMore([Registered(0, Exhaustion.SOME_ENDPOINT)], Took(1, 0, "first", []), TakenEvents);
    EventsOneMore([Registered(0, Exhaustion.SOME_ENDPOINT)], Took(1, 0, "first", []), FinishedEvents);
    assert Matching(w.db, 0, "second") == {};
    steps := Exhaustion.OneMoreStep(config, steps, AcceptEvent(2, LATE));
    EventsOneMore(w.log, Took(2, 0, "second", []), TakenEvents);
    EventsOneMore(w.log, Took(2, 0, "second", []), FinishedEvents);
  }

  lemma LateIsContacted(config: Config, w: World, input: Input)
    requires Inv(config, w) && Enabled(w, DispatchOnce(input)) && input.response == Http(200)
    requires w.db.events == map[1 := EARLY, 2 := LATE] && w.calls == map[]
    ensures var contact := RunOnce(config, w.db, w.calls, input).contact;
      && contact.Some? && contact.value.event == 2
      && HasStatus(Next(config, w, DispatchOnce(input)).db, 2, Delivered)
  {
    assert 2 in Waiting(w.db) && IsNext(w.db, 2);
    NextIsUnique(w.db, 2, NextEvent(w.db).value);
    PassCases(config, w, input);
  }

  /** The event accepted second is the first, and only, one to be finished. */
  lemma LaterEventFinishesFirst(config: Config) returns (steps: seq<Step>)
    ensures IsRun(config, START, steps)
    ensures Events(Run(config, START, steps).log, TakenEvents) == [1, 2]
    ensures Events(Run(config, START, steps).log, FinishedEvents) == [2]
  {
    steps := TwoAccepted(config);
    ReachableStatesAreSound(config, steps);
    var w := Run(config, START, steps);
    var input := Input(0, 0, 0, Http(200), 3, 4);
    LateIsContacted(config, w, input);
    steps := Exhaustion.OneMoreStep(config, steps, DispatchOnce(input));
    var contact := RunOnce(config, w.db, w.calls, input).contact.value;
    EventsPass(w.log, Run(config, START, steps).db, contact, TakenEvents);
    EventsPass(w.log, Run(config, START, steps).db, contact, FinishedEvents);
  }
}
