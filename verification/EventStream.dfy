/** Reading the event log of a job over connections that may break and resume. */
module EventStream {
  import opened FootprintModel
  import opened FootprintInvariant

  /** One turn of the reader's loop: whether the client is gone, whether it still owns the job,
      and the log as committed at that moment. */
  datatype Poll = Poll(disconnected: bool, owned: bool, log: seq<Event>)

  datatype Frame = Sent(event: Event) | Heartbeat

  const HEARTBEAT_TICKS: nat := 25

  /** `where sequence > after order by sequence`, on a log stored in order. */
  function Newer(log: seq<Event>, after: nat): seq<Event> {
    if log == [] then []
    else (if log[0].sequence > after then [log[0]] else []) + Newer(log[1..], after)
  }

  lemma {:induction false} NewerIsSuffix(log: seq<Event>, first: nat, after: nat)
    requires forall i | 0 <= i < |log| :: log[i].sequence == first + i
    ensures Newer(log, after) == if after < first then log else if after - first < |log| then log[after - first + 1..] else []
  {
    if log != [] {
      NewerIsSuffix(log[1..], first + 1, after);
      assert log == [log[0]] + log[1..];
    }
  }

  /** On a numbered log the new events are those past position `after`. */
  lemma NewerOfNumbered(log: seq<Event>, after: nat)
    requires Numbered(log)
    ensures Newer(log, after) == if after <= |log| then log[after..] else []
  {
    NewerIsSuffix(log, 1, after);
  }

  /** Snapshots of one growing, numbered log. */
  ghost predicate Snapshots(polls: seq<Poll>, log: seq<Event>) {
    && Numbered(log)
    && (forall i | 0 <= i < |polls| :: polls[i].log <= log)
    && (forall i, j | 0 <= i <= j < |polls| :: polls[i].log <= polls[j].log)
  }

  function EventsOf(frames: seq<Frame>): seq<Event> {
    if frames == [] then []
    else
      EventsOf(frames[..|frames| - 1]) + (match frames[|frames| - 1] case Sent(e) => [e] case Heartbeat => [])
  }

  lemma EventsOfSent(frames: seq<Frame>, e: Event)
    ensures EventsOf(frames + [Sent(e)]) == EventsOf(frames) + [e]
    ensures EventsOf(frames + [Heartbeat]) == EventsOf(frames)
  {
    assert (frames + [Sent(e)])[..|frames|] == frames && (frames + [Heartbeat])[..|frames|] == frames;
  }

  predicate NoTerminal(events: seq<Event>) {
    forall i | 0 <= i < |events| :: !events[i].terminal
  }

  /** What one connection may send: the events after `start`, in order and without gaps, ending
      at the first terminal one. */
  predicate InOrder(events: seq<Event>, log: seq<Event>, start: nat) {
    && (events != [] ==> start + |events| <= |log| && events == log[start..start + |events|])
    && (events != [] ==> NoTerminal(events[..|events| - 1]))
  }

  /** One connection, for as long as the polls last. `last` is the id of the last event sent,
      and `finished` tells that a terminal event was sent. */
  method Stream(polls: seq<Poll>, start: nat, ghost log: seq<Event>)
    returns (frames: seq<Frame>, last: nat, finished: bool)
    requires Snapshots(polls, log)
    ensures InOrder(EventsOf(frames), log, start)
    ensures last == start + |EventsOf(frames)|
    ensures finished <==> EventsOf(frames) != [] && EventsOf(frames)[|EventsOf(frames)| - 1].terminal
    ensures (forall i | 0 <= i < |polls| :: !polls[i].disconnected && polls[i].owned) && polls != [] && !finished ==>
              last >= |polls[|polls| - 1].log|
  {
    hide Newer, EventsOf;
    frames, last, finished := [], start, false;
    var idle := 0;
    StartOfStream();
    for i := 0 to |polls|
      invariant !finished && NoTerminal(EventsOf(frames)) && last == start + |EventsOf(frames)|
      invariant InOrder(EventsOf(frames), log, start)
      invariant forall j | 0 <= j < i :: !polls[j].disconnected && polls[j].owned
      invariant i > 0 ==> last >= |polls[i - 1].log|
    {
      if polls[i].disconnected || !polls[i].owned {
        return;
      }
      var events := Newer(polls[i].log, last);
      NewerOfNumbered(polls[i].log, last);
      if events != [] {
        idle := 0;
        ghost var first := last;
        for k := 0 to |events|
          invariant !finished && NoTerminal(EventsOf(frames)) && last == start + |EventsOf(frames)| == first + k
          invariant InOrder(EventsOf(frames), log, start)
        {
          EventsOfSent(frames, events[k]);
          NextEvent(EventsOf(frames), polls[i].log, log, start, first, k);
          frames := frames + [Sent(events[k])];
          last := events[k].sequence;
          if events[k].terminal {
            finished := true;
            return;
          }
        }
      } else {
        idle := idle + 1;
        if idle % HEARTBEAT_TICKS == 0 {
          EventsOfSent(frames, Event(0, JobAccepted, false));
          frames := frames + [Heartbeat];
        }
      }
    }
  }

  lemma StartOfStream()
    ensures EventsOf([]) == []
  {}

  lemma NextEvent(sent: seq<Event>, snapshot: seq<Event>, log: seq<Event>, start: nat, first: nat, k: nat)
    requires Numbered(log) && snapshot <= log && first <= |snapshot| && first + k < |snapshot|
    requires InOrder(sent, log, start) && NoTerminal(sent) && start + |sent| == first + k
    ensures InOrder(sent + [snapshot[first + k]], log, start)
    ensures snapshot[first + k].sequence == start + |sent| + 1
    ensures !snapshot[first + k].terminal ==> NoTerminal(sent + [snapshot[first + k]])
  {
    var e := snapshot[first + k];
    assert e == log[first + k];
    assert (sent + [e])[..|sent|] == sent;
    assert log[start..start + |sent| + 1] == log[start..start + |sent|] + [e];
  }

  // ---------- Reconnecting ----------

  /** What a client received on one connection: it asked for events after `start`, and got the
      first of those that were sent. */
  datatype Connection = Connection(start: nat, received: seq<Event>)

  /** Each connection resumes from the last id received before. */
  predicate Resumed(connections: seq<Connection>) {
    && (connections != [] ==> connections[0].start == 0)
    && (forall i | 0 <= i < |connections| - 1 ::
          connections[i + 1].start == LastId(connections[i]))
  }

  function LastId(c: Connection): nat {
    if c.received == [] then c.start else c.received[|c.received| - 1].sequence
  }

  function Received(connections: seq<Connection>): seq<Event> {
    if connections == [] then [] else Received(connections[..|connections| - 1]) + connections[|connections| - 1].received
  }

  /** However often a reader disconnects, it has received each event once and in order: exactly
      the log up to the last id it knows. */
  lemma {:induction false} ResumedReaderMissesNothing(connections: seq<Connection>, log: seq<Event>)
    requires Numbered(log) && Resumed(connections)
    requires forall i | 0 <= i < |connections| :: InOrder(connections[i].received, log, connections[i].start)
    ensures |Received(connections)| <= |log| && Received(connections) == log[..|Received(connections)|]
    ensures connections != [] ==> LastId(connections[|connections| - 1]) == |Received(connections)|
  {
    if connections != [] {
      var n := |connections| - 1;
      var earlier, last := connections[..n], connections[n];
      ResumedReaderMissesNothing(earlier, log);
      assert last.start == |Received(earlier)| by {
        if n > 0 {
          assert connections[n - 1 + 1].start == LastId(connections[n - 1]);
        }
      }
      if last.received != [] {
        assert log[..last.start + |last.received|] == log[..last.start] + log[last.start..last.start + |last.received|];
      } else {
        assert Received(connections) == Received(earlier);
      }
    }
  }

  /** A reader of a job that has finished gets the terminal event last: once it is received,
      everything was received. */
  lemma TerminalEventIsLast(db: Db, connections: seq<Connection>)
    requires db.job.Some? && EventsOk(db) && Resumed(connections)
    requires forall i | 0 <= i < |connections| :: InOrder(connections[i].received, db.events, connections[i].start)
    requires Received(connections) != [] && Received(connections)[|Received(connections)| - 1].terminal
    ensures Received(connections) == db.events
  {
    ResumedReaderMissesNothing(connections, db.events);
    var all := Received(connections);
    assert all[|all| - 1] == db.events[|all| - 1];
    assert db.events[..|db.events|] == db.events;
  }
}
