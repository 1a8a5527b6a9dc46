/** The dispatcher that drains the outbox: most urgent message first, each at least once. */
module OutboxDispatch {
  import opened Wrappers

  type Id = nat

  /** `run` is the run named in the payload; `known` tells whether a queue exists for the topic. */
  datatype Message = Message(priority: int, created: int, run: Option<nat>, known: bool, attempts: nat, dispatched: bool)
  {
    predicate Deliverable() {
      run.Some? && known
    }
  }

  type Rows = map<Id, Message>

  /** What happens to the hand-over to the broker: it succeeds, it is refused, or it succeeds
      but the transaction that records it is lost. */
  datatype Handover = Delivered | Refused | DeliveredButLost

  function Pending(rows: Rows): (pending: set<Id>)
    ensures pending <= rows.Keys
  {
    set k | k in rows && !rows[k].dispatched
  }

  /** `order by priority desc, created_at, id` */
  predicate Before(rows: Rows, a: Id, b: Id)
    requires a in rows && b in rows
  {
    || rows[a].priority > rows[b].priority
    || (rows[a].priority == rows[b].priority
        && (rows[a].created < rows[b].created || (rows[a].created == rows[b].created && a < b)))
  }

  predicate IsFirst(rows: Rows, k: Id) {
    k in Pending(rows) && forall j | j in Pending(rows) && j != k :: Before(rows, k, j)
  }

  lemma FirstIsUnique(rows: Rows, a: Id, b: Id)
    requires IsFirst(rows, a) && IsFirst(rows, b)
    ensures a == b
  {}

  lemma BeforeIsTransitive(rows: Rows, a: Id, b: Id, c: Id)
    requires a in rows && b in rows && c in rows && Before(rows, a, b) && Before(rows, b, c)
    ensures Before(rows, a, c)
  {}

  method SelectFirst(rows: Rows) returns (first: Option<Id>)
    ensures first.None? <==> Pending(rows) == {}
    ensures first.Some? ==> IsFirst(rows, first.value)
    ensures first.Some? ==>
      var k := first.value;
      && k in rows && !rows[k].dispatched
      && forall j | j in rows && j != k && !rows[j].dispatched ::
           || rows[j].priority < rows[k].priority
           || (rows[j].priority == rows[k].priority && rows[j].created > rows[k].created)
           || (rows[j].priority == rows[k].priority && rows[j].created == rows[k].created && j > k)
  {
    first := None;
    var left := Pending(rows);
    while left != {}
      invariant left <= Pending(rows)
      invariant first.None? ==> left == Pending(rows)
      invariant first.Some? ==> first.value in Pending(rows) - left
      invariant first.Some? ==> forall j | j in Pending(rows) - left && j != first.value :: Before(rows, first.value, j)
      decreases |left|
    {
      var k :| k in left;
      if first.None? || Before(rows, k, first.value) {
        if first.Some? {
          forall j | j in Pending(rows) - left && j != first.value ensures Before(rows, k, j) {
            BeforeIsTransitive(rows, k, first.value, j);
          }
        }
        first := Some(k);
      }
      left := left - {k};
    }
    if first.Some? {
      IsFirstExactly(rows, first.value);
    }
  }

  /** The head of the queue: the most urgent pending message, of those the oldest, of those the one
      with the smallest id. */
  lemma IsFirstExactly(rows: Rows, k: Id)
    ensures IsFirst(rows, k) <==>
      && k in rows && !rows[k].dispatched
      && forall j | j in rows && j != k && !rows[j].dispatched ::
           || rows[j].priority < rows[k].priority
           || (rows[j].priority == rows[k].priority && rows[j].created > rows[k].created)
           || (rows[j].priority == rows[k].priority && rows[j].created == rows[k].created && j > k)
  {
    assert forall j :: j in Pending(rows) <==> j in rows && !rows[j].dispatched;
  }

  function Marked(m: Message): Message {
    m.(attempts := m.attempts + 1, dispatched := true)
  }

  /** The queue and everything the broker has received. */
  datatype State = State(rows: Rows, received: seq<Id>)

  /** One turn with head `k`. A refusal or a lost transaction leaves the rows alone. */
  function Turn(s: State, k: Id, h: Handover): State
    requires k in s.rows
  {
    if !s.rows[k].Deliverable() then
      State(if h.DeliveredButLost? then s.rows else s.rows[k := Marked(s.rows[k])], s.received)
    else
      match h
      case Delivered => State(s.rows[k := Marked(s.rows[k])], s.received + [k])
      case Refused => s
      case DeliveredButLost => State(s.rows, s.received + [k])
  }

  class Dispatcher {
    var rows: Rows
    var received: seq<Id>

    function Now(): State
      reads this
    {
      State(rows, received)
    }

    /** Take the first pending message. The result tells whether there was one; without it the
        hand-over failed and the turn raised an error. */
    method DispatchOnce(h: Handover) returns (found: Option<bool>)
      modifies this
      ensures Pending(old(rows)) == {} ==> found == Some(false) && Now() == old(Now())
      ensures Pending(old(rows)) != {} ==> exists k :: IsFirst(old(rows), k) && Now() == Turn(old(Now()), k, h)
      ensures Pending(old(rows)) != {} && h.Delivered? ==> found == Some(true)
    {
      var first := SelectFirst(rows);
      if first.None? {
        return Some(false);
      }
      var k := first.value;
      var before := rows;
      rows := rows[k := rows[k].(attempts := rows[k].attempts + 1)];
      if rows[k].run.Some? && rows[k].known {
        if h.Refused? {
          rows := before;
          return None;
        }
        received := received + [k];
      }
      rows := rows[k := rows[k].(dispatched := true)];
      if h.DeliveredButLost? {
        rows := before;
        return None;
      }
      return Some(true);
    }
  }

  // ---------- Whole runs of the dispatcher ----------

  /** A state reached by any number of turns. */
  ghost predicate Run(s: State, handovers: seq<Handover>, after: State)
    decreases |handovers|
  {
    if handovers == [] then after == s
    else if Pending(s.rows) == {} then Run(s, handovers[1..], after)
    else exists k :: IsFirst(s.rows, k) && Run(Turn(s, k, handovers[0]), handovers[1..], after)
  }

  /** Every message that is marked although it could be delivered has reached the broker. */
  predicate MarkedWereReceived(s: State) {
    forall k | k in s.rows && s.rows[k].dispatched && s.rows[k].Deliverable() :: k in s.received
  }

  /** At least once: no message is marked without having been received. */
  lemma {:induction false} AtLeastOnce(s: State, handovers: seq<Handover>, after: State)
    requires MarkedWereReceived(s) && Run(s, handovers, after)
    ensures MarkedWereReceived(after) && s.received <= after.received
    decreases |handovers|
  {
    if handovers != [] {
      if Pending(s.rows) == {} {
        AtLeastOnce(s, handovers[1..], after);
      } else {
        var k :| IsFirst(s.rows, k) && Run(Turn(s, k, handovers[0]), handovers[1..], after);
        AtLeastOnce(Turn(s, k, handovers[0]), handovers[1..], after);
      }
    }
  }

  predicate AllDelivered(handovers: seq<Handover>) {
    forall i | 0 <= i < |handovers| :: handovers[i].Delivered?
  }

  /** The deliveries are the deliverable messages of `pending`. */
  ghost predicate DeliversAll(rows: Rows, pending: set<Id>, delivered: seq<Id>)
    requires pending <= rows.Keys
  {
    forall k :: k in delivered <==> k in pending && rows[k].Deliverable()
  }

  /** Each once, most urgent first. */
  predicate InOrder(rows: Rows, delivered: seq<Id>) {
    forall i, j | 0 <= i < j < |delivered| :: Ordered(rows, delivered, i, j)
  }

  predicate Ordered(rows: Rows, delivered: seq<Id>, i: nat, j: nat)
    requires i < |delivered| && j < |delivered|
  {
    delivered[i] in rows && delivered[j] in rows && Before(rows, delivered[i], delivered[j])
  }

  /** The queue is empty, and the broker received each deliverable message that was pending
      exactly once, most urgent first. */
  ghost predicate Drains(s: State, after: State, delivered: seq<Id>) {
    && Pending(after.rows) == {}
    && after.received == s.received + delivered
    && DeliversAll(s.rows, Pending(s.rows), delivered)
    && InOrder(s.rows, delivered)
  }

  /** While the broker accepts messages, as many turns as there are pending messages drain the
      queue in order. */
  lemma {:induction false} QueueDrainsInOrder(s: State, handovers: seq<Handover>, after: State) returns (delivered: seq<Id>)
    requires AllDelivered(handovers) && |handovers| == |Pending(s.rows)| && Run(s, handovers, after)
    ensures Drains(s, after, delivered)
    decreases |handovers|
  {
    hide Drains, Run, IsFirst, Pending, AllDelivered, Turn;
    if handovers == [] {
      delivered := [];
      NothingPending(s, after);
    } else {
      var k := FirstTurn(s, handovers, after);
      TurnRemovesFirst(s, k);
      var rest := QueueDrainsInOrder(Turn(s, k, Delivered), handovers[1..], after);
      delivered := if s.rows[k].Deliverable() then [k] + rest else rest;
      FirstThenDrain(s, k, after, rest);
    }
  }

  lemma FirstThenDrain(s: State, k: Id, after: State, rest: seq<Id>)
    requires k in s.rows && IsFirst(s.rows, k) && Drains(Turn(s, k, Delivered), after, rest)
    ensures Drains(s, after, if s.rows[k].Deliverable() then [k] + rest else rest)
  {
    TurnRemovesFirst(s, k);
    if s.rows[k].Deliverable() {
      DrainWith(s, k, Turn(s, k, Delivered), after, [k], rest);
    } else {
      DrainWith(s, k, Turn(s, k, Delivered), after, [], rest);
      assert [] + rest == rest;
    }
  }

  lemma DrainWith(s: State, k: Id, next: State, after: State, head: seq<Id>, rest: seq<Id>)
    requires k in s.rows && IsFirst(s.rows, k) && Drains(next, after, rest)
    requires next.rows == s.rows[k := Marked(s.rows[k])] && Pending(next.rows) == Pending(s.rows) - {k}
    requires next.received == s.received + head && head == if s.rows[k].Deliverable() then [k] else []
    ensures Drains(s, after, head + rest)
  {
    hide IsFirst, DeliversAll, InOrder, Pending, Marked;
    FirstThenRest(s.rows, next.rows, k, rest);
    assert s.received + head + rest == s.received + (head + rest);
  }

  lemma NothingPending(s: State, after: State)
    requires Run(s, [], after) && |Pending(s.rows)| == 0
    ensures Drains(s, after, [])
  {}

  lemma FirstTurn(s: State, handovers: seq<Handover>, after: State) returns (k: Id)
    requires handovers != [] && AllDelivered(handovers) && |handovers| == |Pending(s.rows)| && Run(s, handovers, after)
    ensures k in s.rows && IsFirst(s.rows, k) && Run(Turn(s, k, Delivered), handovers[1..], after)
    ensures AllDelivered(handovers[1..])
  {
    assert handovers[0] == Delivered;
    k :| IsFirst(s.rows, k) && Run(Turn(s, k, handovers[0]), handovers[1..], after);
  }

  lemma TurnRemovesFirst(s: State, k: Id)
    requires IsFirst(s.rows, k)
    ensures var next := Turn(s, k, Delivered);
      && next.rows == s.rows[k := Marked(s.rows[k])] && Pending(next.rows) == Pending(s.rows) - {k}
      && |Pending(next.rows)| == |Pending(s.rows)| - 1
      && next.received == s.received + (if s.rows[k].Deliverable() then [k] else [])
  {
    assert Pending(Turn(s, k, Delivered).rows) == Pending(s.rows) - {k};
  }

  function Head(rows: Rows, k: Id): seq<Id>
    requires k in rows
  {
    if rows[k].Deliverable() then [k] else []
  }

  lemma FirstThenRest(rows: Rows, next: Rows, k: Id, rest: seq<Id>)
    requires k in rows && IsFirst(rows, k) && next == rows[k := Marked(rows[k])]
    requires DeliversAll(next, Pending(rows) - {k}, rest) && InOrder(next, rest)
    ensures DeliversAll(rows, Pending(rows), Head(rows, k) + rest) && InOrder(rows, Head(rows, k) + rest)
  {
    hide DeliversAll, InOrder, Head, Marked;
    assert k in Pending(rows);
    MembersExtend(rows, next, k, rest);
    OrderExtends(rows, next, k, rest);
  }

  lemma MembersExtend(rows: Rows, next: Rows, k: Id, rest: seq<Id>)
    requires k in Pending(rows) && next == rows[k := Marked(rows[k])]
    requires DeliversAll(next, Pending(rows) - {k}, rest)
    ensures DeliversAll(rows, Pending(rows), Head(rows, k) + rest)
  {
    hide Pending;
    forall x
      ensures x in Head(rows, k) + rest <==> x in Pending(rows) && rows[x].Deliverable()
    {
      assert x in Head(rows, k) + rest <==> x in Head(rows, k) || x in rest;
      if x != k && x in Pending(rows) {
        assert next[x] == rows[x];
      }
    }
  }

  lemma OrderExtends(rows: Rows, next: Rows, k: Id, rest: seq<Id>)
    requires k in rows && IsFirst(rows, k) && next == rows[k := Marked(rows[k])]
    requires DeliversAll(next, Pending(rows) - {k}, rest) && InOrder(next, rest)
    ensures InOrder(rows, Head(rows, k) + rest)
  {
    hide Pending;
    forall i, j | 0 <= i < j < |Head(rows, k) + rest|
      ensures Ordered(rows, Head(rows, k) + rest, i, j)
    {
      var all, shift := Head(rows, k) + rest, |Head(rows, k)|;
      assert all[j] == rest[j - shift] && rest[j - shift] in rest;
      if i >= shift {
        assert all[i] == rest[i - shift];
        assert Ordered(next, rest, i - shift, j - shift);
      }
    }
  }

  /** As long as the broker refuses the first message nothing changes: the messages behind it
      wait. */
  lemma {:induction false} RefusalBlocksTheQueue(s: State, handovers: seq<Handover>, after: State, k: Id)
    requires IsFirst(s.rows, k) && s.rows[k].Deliverable()
    requires forall i | 0 <= i < |handovers| :: handovers[i].Refused?
    requires Run(s, handovers, after)
    ensures after == s
    decreases |handovers|
  {
    if handovers != [] {
      var j :| IsFirst(s.rows, j) && Run(Turn(s, j, handovers[0]), handovers[1..], after);
      FirstIsUnique(s.rows, j, k);
      RefusalBlocksTheQueue(s, handovers[1..], after, k);
    }
  }
}
