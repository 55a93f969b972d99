/** Events and customers of the single-teller bank simulation, and the
    operations the handlers use on the event priority queue.

    The priority queue is kept as a sequence in storage order: its order
    carries no meaning, `pop()` removes an event of minimum time and
    `push(...)` adds one. */
module Events {

  /** The two kinds of event; the simulation's `processor.h` tags them 'A' and 'D'. */
  datatype Kind = Arrival | Departure

  /** A scheduled event: its kind, the time it fires, the length of the
      transaction it brings, and the wait of the customer a departure
      stands for. */
  datatype Event = Event(kind: Kind, time: int, transLength: int, waited: int)

  /** A customer standing in the bank line: arrival time and transaction length. */
  datatype Customer = Customer(time: int, transLength: int)

  /** `e` is an event `top()` may return: it is queued and no queued event is earlier. */
  predicate IsHead(q: seq<Event>, e: Event) {
    e in q && forall x :: x in q ==> e.time <= x.time
  }

  /** The queue after popping `e`: one occurrence of `e` is gone and every
      other queued event is still there. */
  function RemoveFirst(q: seq<Event>, e: Event): (r: seq<Event>)
    requires e in q
    ensures |r| == |q| - 1
    ensures multiset(r) == multiset(q) - multiset{e}
    ensures forall x :: x in r ==> x in q
  {
    if q[0] == e then
      assert q == [q[0]] + q[1..];
      q[1..]
    else
      assert q == [q[0]] + q[1..];
      [q[0]] + RemoveFirst(q[1..], e)
  }

  /** Position of the event `top()` returns. Among events of equal time the
      first stored one is taken; the simulation's `processor.h` leaves this
      tie-break to its comparator, which is not part of this model. */
  function HeadIndex(q: seq<Event>): (i: nat)
    requires q != []
    ensures i < |q| && IsHead(q, q[i])
  {
    if |q| == 1 then 0
    else
      var j := HeadIndex(q[1..]) + 1;
      if q[0].time <= q[j].time then 0 else j
  }

  /** Number of queued events of kind `k`. */
  function Pending(q: seq<Event>, k: Kind): (n: nat)
    ensures n <= |q|
    ensures n == 0 <==> forall x :: x in q ==> x.kind != k
  {
    if q == [] then 0
    else (if q[0].kind == k then 1 else 0) + Pending(q[1..], k)
  }

  /** Pushing an event adds one to the count of its own kind only. */
  lemma {:induction false} PendingPush(q: seq<Event>, e: Event, k: Kind)
    ensures Pending(q + [e], k) == Pending(q, k) + (if e.kind == k then 1 else 0)
  {
    if q != [] {
      assert (q + [e])[1..] == q[1..] + [e];
      PendingPush(q[1..], e, k);
    }
  }

  /** Popping an event takes one from the count of its own kind only. */
  lemma {:induction false} PendingPop(q: seq<Event>, e: Event, k: Kind)
    requires e in q
    ensures Pending(RemoveFirst(q, e), k) == Pending(q, k) - (if e.kind == k then 1 else 0)
  {
    if q[0] != e {
      var rest := RemoveFirst(q[1..], e);
      PendingPop(q[1..], e, k);
      assert RemoveFirst(q, e) == [q[0]] + rest;
      assert ([q[0]] + rest)[1..] == rest;
    }
  }

  /** Every queued event is an arrival or a departure. */
  lemma {:induction false} PendingSplit(q: seq<Event>)
    ensures Pending(q, Arrival) + Pending(q, Departure) == |q|
  {
    if q != [] {
      PendingSplit(q[1..]);
    }
  }
}
