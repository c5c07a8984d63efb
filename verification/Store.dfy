/** The database as the handlers and the worker use it: tables that statements
    and transactions update in place. */
module Storage {
  import opened Foundation
  import opened Tables
  import opened Operations

  class Store {
    var endpoints: map<Id, Endpoint>
    var events: map<Id, Event>
    var attempts: map<Id, Attempt>
    var deadLetters: map<Id, DeadLetter>

    ghost function Contents(): Database
      reads this
    {
      Database(endpoints, events, attempts, deadLetters)
    }

    constructor ()
      ensures Contents() == EMPTY
    {
      endpoints, events, attempts, deadLetters := map[], map[], map[], map[];
    }

    // ------------------------------------------------------------ single statements

    method UpdateStatus(event: Id, status: Status)
      modifies this`events
      ensures Contents() == SetStatus(old(Contents()), event, status)
    {
      if event in events {
        events := events[event := events[event].(status := status)];
      }
    }

    method AddAttempt(id: Id, attempt: Attempt) returns (added: bool)
      modifies this`attempts
      ensures added <==> InsertAttempt(old(Contents()), id, attempt).Some?
      ensures added ==> Contents() == InsertAttempt(old(Contents()), id, attempt).value
      ensures !added ==> Contents() == old(Contents())
    {
      added := id !in attempts && attempt.eventId in events;
      if added {
        attempts := attempts[id := attempt];
      }
    }

    method ReplaceDeadLetter(id: Id, letter: DeadLetter) returns (added: bool)
      modifies this`deadLetters
      ensures added <==> PutDeadLetter(old(Contents()), id, letter).Some?
      ensures added ==> Contents() == PutDeadLetter(old(Contents()), id, letter).value
      ensures !added ==> Contents() == old(Contents())
    {
      added := letter.eventId in events;
      if added {
        var others := map d | d in deadLetters && d != id && deadLetters[d].eventId != letter.eventId :: deadLetters[d];
        deadLetters := others[id := letter];
      }
    }

    method RemoveAttempts(event: Id)
      modifies this`attempts
      ensures Contents() == DeleteAttemptsOf(old(Contents()), event)
    {
      attempts := map a | a in attempts && attempts[a].eventId != event :: attempts[a];
    }

    method RemoveDeadLetter(id: Id)
      modifies this`deadLetters
      ensures Contents() == DeleteDeadLetter(old(Contents()), id)
    {
      deadLetters := map d | d in deadLetters && d != id :: deadLetters[d];
    }

    // ----------------------------------------------------------------- transactions

    /** BEGIN IMMEDIATE; look the key up; insert; commit. */
    method AcceptEvent(id: Id, event: Event) returns (result: AcceptResult)
      requires KeysAreUnique(Contents())
      modifies this`events
      ensures (Contents(), result) == Accept(old(Contents()), id, event)
    {
      var matching := set e | e in events && events[e].endpointId == event.endpointId && events[e].key == event.key;
      assert matching == Matching(Contents(), event.endpointId, event.key);
      if existing :| existing in matching {
        result := Duplicate(events[existing].status);
      } else {
        if id in events || event.endpointId !in endpoints {
          result := AcceptRefused;
        } else {
          events := events[id := event.(status := Received)];
          result := Accepted(id);
        }
      }
    }

    /** BEGIN IMMEDIATE; one guarded update; commit. */
    method TransitionStatus(event: Id, from: Status, to: Status) returns (changed: bool)
      modifies this`events
      ensures (Contents(), changed) == Transition(old(Contents()), event, from, to)
    {
      changed := event in events && events[event].status == from;
      if changed {
        UpdateStatus(event, to);
      }
    }

    /** BEGIN IMMEDIATE; move the oldest RECEIVED event to PROCESSING; commit. */
    method ClaimNextEvent() returns (claimed: Option<(Id, Id)>)
      modifies this`events
      ensures claimed.None? <==> NextEvent(old(Contents())).None?
      ensures claimed.None? ==> Contents() == old(Contents())
      ensures claimed.Some? ==>
        && NextEvent(old(Contents())) == Some(claimed.value.0)
        && claimed.value.1 == old(events)[claimed.value.0].endpointId
        && Contents() == SetStatus(old(Contents()), claimed.value.0, Processing)
    {
      var waiting := set e | e in events && events[e].status == Received;
      assert waiting == Waiting(Contents());
      NextExists(Contents());
      if waiting == {} {
        claimed := None;
      } else {
        ghost var db := Contents();
        var oldest :| oldest in waiting && forall e :: e in waiting && e != oldest ==>
          events[oldest].createdAt < events[e].createdAt ||
          (events[oldest].createdAt == events[e].createdAt && oldest < e);
        assert IsNext(db, oldest);
        NextIsUnique(db, oldest, NextEvent(db).value);
        claimed := Some((oldest, events[oldest].endpointId));
        UpdateStatus(oldest, Processing);
      }
    }

    /** Four statements on one connection, each committed by itself. */
    method ReplayDeadLetter(id: Id) returns (replayed: Option<Id>)
      modifies this
      ensures (Contents(), replayed) == Replay(old(Contents()), id)
    {
      if id !in deadLetters {
        return None;
      }
      var event := deadLetters[id].eventId;
      UpdateStatus(event, Received);
      RemoveAttempts(event);
      RemoveDeadLetter(id);
      replayed := Some(event);
    }

    method CreateEndpoint(id: Id, endpoint: Endpoint) returns (created: bool)
      modifies this`endpoints
      ensures created <==> id !in old(endpoints)
      ensures Contents() == if created then InsertEndpoint(old(Contents()), id, endpoint).value else old(Contents())
    {
      created := id !in endpoints;
      if created {
        endpoints := endpoints[id := endpoint];
      }
    }

    /** Count the undelivered events; refuse, or delete with the cascade. */
    method RemoveEndpoint(id: Id) returns (result: RetireResult)
      modifies this
      ensures (Contents(), result) == Retire(old(Contents()), id)
    {
      var pending := set e | e in events && events[e].endpointId == id &&
                             (events[e].status == Received || events[e].status == Processing);
      assert pending == PendingAt(Contents(), id);
      if |pending| > 0 {
        return StillPending(|pending|);
      }
      result := if id in endpoints then Retired else UnknownEndpoint;
      Cascade(id);
    }

    /** DELETE FROM endpoints, with what the foreign keys take along. */
    method Cascade(id: Id)
      modifies this
      ensures Contents() == DeleteEndpoint(old(Contents()), id)
    {
      var doomed := set e | e in events && events[e].endpointId == id;
      endpoints := map n | n in endpoints && n != id :: endpoints[n];
      attempts := map a | a in attempts && attempts[a].eventId !in doomed :: attempts[a];
      deadLetters := map d | d in deadLetters && deadLetters[d].eventId !in doomed :: deadLetters[d];
      events := map e | e in events && e !in doomed :: events[e];
    }
  }
}
