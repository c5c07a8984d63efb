/** Counting over runs of `transition_status`: what leaves a status came in. */
module CompareAndSwap {
  import opened Foundation
  import opened Tables
  import opened Operations

  /** One call, on any event. Each call is one transaction, so a concurrent run
      is a sequence of calls. */
  datatype Swap = Swap(event: Id, from: Status, to: Status)

  function Final(db: Database, swaps: seq<Swap>): Database {
    if swaps == [] then db
    else
      var last := swaps[|swaps| - 1];
      Transition(Final(db, swaps[..|swaps| - 1]), last.event, last.from, last.to).0
  }

  /** The return value of the call at `i`. */
  predicate Wins(db: Database, swaps: seq<Swap>, i: nat)
    requires i < |swaps|
  {
    Transition(Final(db, swaps[..i]), swaps[i].event, swaps[i].from, swaps[i].to).1
  }

  /** True returns that took the event out of a status, and into it. */
  function Exits(db: Database, swaps: seq<Swap>, event: Id, status: Status): nat {
    if swaps == [] then 0
    else
      var n := |swaps| - 1;
      Exits(db, swaps[..n], event, status) +
      (if Wins(db, swaps, n) && swaps[n].event == event && swaps[n].from == status && swaps[n].to != status
       then 1 else 0)
  }

  function Entries(db: Database, swaps: seq<Swap>, event: Id, status: Status): nat {
    if swaps == [] then 0
    else
      var n := |swaps| - 1;
      Entries(db, swaps[..n], event, status) +
      (if Wins(db, swaps, n) && swaps[n].event == event && swaps[n].to == status && swaps[n].from != status
       then 1 else 0)
  }

  function Occupancy(db: Database, event: Id, status: Status): nat {
    if HasStatus(db, event, status) then 1 else 0
  }

  /** In every run, the exits from a status are its entries, counting the event's
      first stay, less its present stay. */
  lemma {:induction false} SwapsBalance(db: Database, swaps: seq<Swap>, event: Id, status: Status)
    ensures Exits(db, swaps, event, status)
         == Occupancy(db, event, status) + Entries(db, swaps, event, status)
            - Occupancy(Final(db, swaps), event, status)
  {
    if swaps != [] {
      SwapsBalance(db, swaps[..|swaps| - 1], event, status);
    }
  }

  lemma {:induction false} NoEntries(db: Database, swaps: seq<Swap>, event: Id, status: Status)
    requires forall i :: 0 <= i < |swaps| && swaps[i].event == event ==> swaps[i].to != status
    ensures Entries(db, swaps, event, status) == 0
  {
    if swaps != [] {
      NoEntries(db, swaps[..|swaps| - 1], event, status);
    }
  }

  lemma {:induction false} SomeoneWins(db: Database, swaps: seq<Swap>, event: Id, status: Status, i: nat)
    requires i < |swaps| && swaps[i].event == event && swaps[i].from == status && swaps[i].to != status
    requires HasStatus(db, event, status)
    requires forall j :: 0 <= j < |swaps| && swaps[j].event == event ==> swaps[j].to != status
    ensures Exits(db, swaps, event, status) >= 1
  {
    var n := |swaps| - 1;
    if i < n {
      SomeoneWins(db, swaps[..n], event, status, i);
    } else {
      NoEntries(db, swaps[..n], event, status);
      SwapsBalance(db, swaps[..n], event, status);
    }
  }

  /** Callers that race to take an event out of a status it is in, with nobody
      putting it back, have exactly one winner; if it is not there, none. */
  lemma {:induction false} RaceHasOneWinner(db: Database, swaps: seq<Swap>, event: Id, status: Status)
    requires swaps != []
    requires forall i :: 0 <= i < |swaps| ==>
      swaps[i].event == event && swaps[i].from == status && swaps[i].to != status
    ensures Exits(db, swaps, event, status) == Occupancy(db, event, status)
  {
    NoEntries(db, swaps, event, status);
    SwapsBalance(db, swaps, event, status);
    if HasStatus(db, event, status) {
      SomeoneWins(db, swaps, event, status, 0);
    }
  }
}
