/** The event-handling core of the single-teller bank simulation: the
    arrival and departure transitions over the event queue, the bank line
    and the teller flag.

    `Arrive`, `Depart` and `Next` give each transition as a function of the
    state, the lemmas state what the transitions promise, and the class
    `Bank` carries out the same transitions in place. */
module Processor {
  import opened Events

  /** The three pieces of state the handlers share: the event priority
      queue, the bank line (front at index 0) and the teller flag. */
  datatype State = State(eventQueue: seq<Event>, bankLine: seq<Customer>, tellerAvailable: bool)

  /** A free teller never has customers waiting. */
  predicate TellerFreeLineEmpty(s: State) {
    s.tellerAvailable ==> s.bankLine == []
  }

  /** What holds at every point of a run that starts from queued arrivals
      with non-negative transaction lengths and no carried wait, an empty
      line and a free teller (the handlers themselves never check lengths):
      - a free teller never has customers waiting;
      - exactly one departure is pending while the teller is busy, none while free;
      - transaction lengths and carried waits are never negative;
      - nobody in line arrived after any queued event fires;
      - the line is ordered by arrival time. */
  predicate Valid(s: State) {
    && TellerFreeLineEmpty(s)
    && Pending(s.eventQueue, Departure) == (if s.tellerAvailable then 0 else 1)
    && (forall e :: e in s.eventQueue ==> e.transLength >= 0 && e.waited >= 0)
    && (forall c :: c in s.bankLine ==> c.transLength >= 0)
    && (forall c, e :: c in s.bankLine && e in s.eventQueue ==> c.time <= e.time)
    && (forall i, j :: 0 <= i < j < |s.bankLine| ==> s.bankLine[i].time <= s.bankLine[j].time)
  }

  /** processArrival: pop the head; a free teller with nobody waiting
      takes the customer at once, otherwise the customer joins the line. */
  function Arrive(s: State, event: Event): (r: State)
    requires IsHead(s.eventQueue, event)
    ensures s.bankLine <= r.bankLine && |r.bankLine| <= |s.bankLine| + 1
    ensures TellerFreeLineEmpty(s) ==> TellerFreeLineEmpty(r)
  {
    var rest := RemoveFirst(s.eventQueue, event);
    if s.tellerAvailable && s.bankLine == [] then
      State(rest + [Event(Departure, event.time + event.transLength, 0, 0)], s.bankLine, false)
    else
      State(rest, s.bankLine + [Customer(event.time, event.transLength)], s.tellerAvailable)
  }

  /** processDeparture: pop the head; the front customer, if any, goes to
      the teller and a departure carrying the wait is scheduled, otherwise
      the teller becomes free. */
  function Depart(s: State, event: Event): (r: State)
    requires IsHead(s.eventQueue, event)
    ensures s.bankLine == [] ==> r.bankLine == []
    ensures s.bankLine != [] ==> s.bankLine == [s.bankLine[0]] + r.bankLine
    ensures TellerFreeLineEmpty(s) ==> TellerFreeLineEmpty(r)
  {
    var currentTime := event.time;
    var rest := RemoveFirst(s.eventQueue, event);
    if s.bankLine != [] then
      var customer := s.bankLine[0];
      assert s.bankLine == [customer] + s.bankLine[1..];
      var timeWaited := currentTime - customer.time;
      var departureTime := currentTime + customer.transLength;
      State(rest + [Event(Departure, departureTime, 0, timeWaited)], s.bankLine[1..], s.tellerAvailable)
    else
      State(rest, s.bankLine, true)
  }

  /** One step of a run: take the head event and hand it to its handler. */
  function Next(s: State): (r: State)
    requires s.eventQueue != []
    ensures TellerFreeLineEmpty(s) ==> TellerFreeLineEmpty(r)
  {
    var event := s.eventQueue[HeadIndex(s.eventQueue)];
    if event.kind == Arrival then Arrive(s, event) else Depart(s, event)
  }

  /** Customers inside the bank: those in line and the one at the teller. */
  function Population(s: State): (n: nat) {
    |s.bankLine| + (if s.tellerAvailable then 0 else 1)
  }

  /** A bound on the steps left in a run: each pending arrival still has
      to arrive and to leave, each customer inside still has to leave. */
  function Work(s: State): (w: nat) {
    2 * Pending(s.eventQueue, Arrival) + Population(s)
  }

  // ---------------------------------------------------------------------
  // Arrival

  /** A free teller with an empty line serves the arriving customer at once:
      the head is replaced by one departure at arrival time plus
      transaction length, the teller is busy and the line is untouched. */
  lemma ArrivalServedAtOnce(s: State, event: Event)
    requires IsHead(s.eventQueue, event)
    requires s.tellerAvailable && s.bankLine == []
    ensures var r := Arrive(s, event);
      && multiset(r.eventQueue) == multiset(s.eventQueue) - multiset{event}
                                   + multiset{Event(Departure, event.time + event.transLength, 0, 0)}
      && !r.tellerAvailable
      && r.bankLine == s.bankLine
  {
  }

  /** Otherwise the arriving customer joins the back of the line: the head
      is popped, nothing is pushed and the teller flag is unchanged. */
  lemma ArrivalJoinsLine(s: State, event: Event)
    requires IsHead(s.eventQueue, event)
    requires !(s.tellerAvailable && s.bankLine == [])
    ensures var r := Arrive(s, event);
      && multiset(r.eventQueue) == multiset(s.eventQueue) - multiset{event}
      && r.bankLine == s.bankLine + [Customer(event.time, event.transLength)]
      && r.tellerAvailable == s.tellerAvailable
  {
  }

  /** An arrival never removes a customer: the old line is a prefix of the
      new one, which is at most one longer; the queue keeps its size when
      the customer is served and loses one event when the customer waits,
      so line length plus queue size is unchanged. */
  lemma ArrivalNeverRemoves(s: State, event: Event)
    requires IsHead(s.eventQueue, event)
    ensures var r := Arrive(s, event);
      && s.bankLine <= r.bankLine
      && |r.bankLine| <= |s.bankLine| + 1
      && |r.bankLine| + |r.eventQueue| == |s.bankLine| + |s.eventQueue|
      && (|r.bankLine| == |s.bankLine| <==> s.tellerAvailable && s.bankLine == [])
  {
  }

  /** An arrival keeps the joint invariant. */
  lemma ArriveKeepsTellerFreeLineEmpty(s: State, event: Event)
    requires IsHead(s.eventQueue, event)
    requires TellerFreeLineEmpty(s)
    ensures TellerFreeLineEmpty(Arrive(s, event))
  {
  }

  /** An arrival event keeps the whole run invariant. */
  lemma ArrivePreservesValid(s: State, event: Event)
    requires IsHead(s.eventQueue, event) && event.kind == Arrival
    requires Valid(s)
    ensures Valid(Arrive(s, event))
  {
    var q := s.eventQueue;
    var rest := RemoveFirst(q, event);
    PendingPop(q, event, Departure);
    var r := Arrive(s, event);
    if s.tellerAvailable && s.bankLine == [] {
      var d := Event(Departure, event.time + event.transLength, 0, 0);
      PendingPush(rest, d, Departure);
      assert r == State(rest + [d], [], false);
      forall e | e in r.eventQueue
        ensures e.transLength >= 0 && e.waited >= 0
      {
        if e != d { assert e in q; }
      }
    } else {
      assert !s.tellerAvailable;
      var customer := Customer(event.time, event.transLength);
      assert r == State(rest, s.bankLine + [customer], false);
      forall e | e in r.eventQueue
        ensures e.transLength >= 0 && e.waited >= 0 && customer.time <= e.time
      {
        assert e in q;
      }
      forall c, e | c in r.bankLine && e in r.eventQueue
        ensures c.time <= e.time
      {
        assert e in q;
        if c != customer { assert c in s.bankLine; }
      }
      forall i, j | 0 <= i < j < |r.bankLine|
        ensures r.bankLine[i].time <= r.bankLine[j].time
      {
        assert r.bankLine[i] == s.bankLine[i] && r.bankLine[i] in s.bankLine;
        if j == |s.bankLine| {
          assert r.bankLine[j] == customer;
        } else {
          assert r.bankLine[j] == s.bankLine[j];
        }
      }
    }
  }

  // ---------------------------------------------------------------------
  // Departure

  /** With customers waiting, a departure hands the teller to the front
      customer: exactly that customer leaves the line, the rest keep their
      order, the teller stays as it was, and the head is replaced by a
      departure at the current time plus the customer's transaction
      length, with length 0 and the wait the customer spent in line. */
  lemma DepartureAdvancesLine(s: State, event: Event)
    requires IsHead(s.eventQueue, event)
    requires s.bankLine != []
    ensures var r := Depart(s, event);
      var customer := s.bankLine[0];
      && s.bankLine == [customer] + r.bankLine
      && r.tellerAvailable == s.tellerAvailable
      && multiset(r.eventQueue) == multiset(s.eventQueue) - multiset{event}
           + multiset{Event(Departure, event.time + customer.transLength, 0, event.time - customer.time)}
  {
  }

  /** With nobody waiting, a departure frees the teller: the head is
      popped, nothing is pushed and the line stays empty. */
  lemma DepartureFreesTeller(s: State, event: Event)
    requires IsHead(s.eventQueue, event)
    requires s.bankLine == []
    ensures var r := Depart(s, event);
      && multiset(r.eventQueue) == multiset(s.eventQueue) - multiset{event}
      && r.tellerAvailable
      && r.bankLine == []
  {
  }

  /** A departure keeps the joint invariant. */
  lemma DepartKeepsTellerFreeLineEmpty(s: State, event: Event)
    requires IsHead(s.eventQueue, event)
    requires TellerFreeLineEmpty(s)
    ensures TellerFreeLineEmpty(Depart(s, event))
  {
  }

  /** In a valid state the wait a departure records is never negative:
      the customer at the front arrived no later than now. */
  lemma DepartureWaitNonNegative(s: State, event: Event)
    requires IsHead(s.eventQueue, event) && Valid(s)
    requires s.bankLine != []
    ensures event.time - s.bankLine[0].time >= 0
  {
  }

  /** A departure event keeps the whole run invariant. */
  lemma DepartPreservesValid(s: State, event: Event)
    requires IsHead(s.eventQueue, event) && event.kind == Departure
    requires Valid(s)
    ensures Valid(Depart(s, event))
  {
    var q := s.eventQueue;
    var rest := RemoveFirst(q, event);
    PendingPop(q, event, Departure);
    // the event being processed is the pending departure, so the teller is busy
    assert Pending(q, Departure) != 0;
    assert !s.tellerAvailable && Pending(rest, Departure) == 0;
    var r := Depart(s, event);
    if s.bankLine != [] {
      var customer := s.bankLine[0];
      assert customer in s.bankLine;
      assert customer.time <= event.time && customer.transLength >= 0;
      var d := Event(Departure, event.time + customer.transLength, 0, event.time - customer.time);
      PendingPush(rest, d, Departure);
      assert r.eventQueue == rest + [d] && r.bankLine == s.bankLine[1..];
      forall e | e in r.eventQueue
        ensures e.transLength >= 0 && e.waited >= 0 && event.time <= e.time
      {
        if e != d { assert e in q; }
      }
      forall c | c in r.bankLine
        ensures c in s.bankLine && c.transLength >= 0 && c.time <= event.time
      {
        assert c in s.bankLine;
      }
      forall c, e | c in r.bankLine && e in r.eventQueue
        ensures c.time <= e.time
      {
        assert c.time <= event.time <= e.time;
      }
      forall i, j | 0 <= i < j < |r.bankLine|
        ensures r.bankLine[i].time <= r.bankLine[j].time
      {
        assert r.bankLine[i] == s.bankLine[i + 1] && r.bankLine[j] == s.bankLine[j + 1];
      }
    } else {
      assert r == State(rest, [], true);
      forall e | e in r.eventQueue
        ensures e.transLength >= 0 && e.waited >= 0
      {
        assert e in q;
      }
    }
  }

  // ---------------------------------------------------------------------
  // Runs

  /** A step removes exactly the event processed: every other queued event
      is still queued, and at most one new event is added. */
  lemma NextPopsOnlyHead(s: State)
    requires s.eventQueue != []
    ensures var head := s.eventQueue[HeadIndex(s.eventQueue)];
      var r := Next(s);
      && multiset(s.eventQueue) - multiset{head} <= multiset(r.eventQueue)
      && |r.eventQueue| <= |s.eventQueue|
  {
    var q := s.eventQueue;
    var head := q[HeadIndex(q)];
    if head.kind == Arrival {
      if s.tellerAvailable && s.bankLine == [] {
        ArrivalServedAtOnce(s, head);
      } else {
        ArrivalJoinsLine(s, head);
      }
    } else {
      if s.bankLine != [] {
        DepartureAdvancesLine(s, head);
      } else {
        DepartureFreesTeller(s, head);
      }
    }
  }

  /** Every step keeps the run invariant. */
  lemma NextPreservesValid(s: State)
    requires s.eventQueue != [] && Valid(s)
    ensures Valid(Next(s))
  {
    var event := s.eventQueue[HeadIndex(s.eventQueue)];
    if event.kind == Arrival {
      ArrivePreservesValid(s, event);
    } else {
      DepartPreservesValid(s, event);
    }
  }

  /** Events are processed in time order: after a step, nothing in the
      queue fires before the event just processed. */
  lemma NextNotEarlier(s: State)
    requires s.eventQueue != [] && Valid(s)
    ensures var head := s.eventQueue[HeadIndex(s.eventQueue)];
      forall x :: x in Next(s).eventQueue ==> head.time <= x.time
  {
  }

  /** Given the joint invariant, an arrival brings exactly one customer
      into the bank (to the teller or to the line) and leaves one arrival
      fewer pending. */
  lemma ArrivalAddsCustomer(s: State, event: Event)
    requires IsHead(s.eventQueue, event) && event.kind == Arrival
    requires TellerFreeLineEmpty(s)
    ensures var r := Arrive(s, event);
      && Population(r) == Population(s) + 1
      && Pending(r.eventQueue, Arrival) == Pending(s.eventQueue, Arrival) - 1
  {
    var rest := RemoveFirst(s.eventQueue, event);
    PendingPop(s.eventQueue, event, Arrival);
    if s.tellerAvailable && s.bankLine == [] {
      var d := Event(Departure, event.time + event.transLength, 0, 0);
      PendingPush(rest, d, Arrival);
      assert Arrive(s, event) == State(rest + [d], [], false);
    } else {
      assert !s.tellerAvailable;
      assert Arrive(s, event) == State(rest, s.bankLine + [Customer(event.time, event.transLength)], false);
    }
  }

  /** Given the joint invariant and a busy teller, a departure sends exactly
      one customer out of the bank and leaves the pending arrivals alone. */
  lemma DepartureRemovesCustomer(s: State, event: Event)
    requires IsHead(s.eventQueue, event) && event.kind == Departure
    requires TellerFreeLineEmpty(s) && !s.tellerAvailable
    ensures var r := Depart(s, event);
      && Population(r) == Population(s) - 1
      && Pending(r.eventQueue, Arrival) == Pending(s.eventQueue, Arrival)
  {
    var rest := RemoveFirst(s.eventQueue, event);
    PendingPop(s.eventQueue, event, Arrival);
    if s.bankLine != [] {
      var customer := s.bankLine[0];
      var d := Event(Departure, event.time + customer.transLength, 0, event.time - customer.time);
      PendingPush(rest, d, Arrival);
      assert Depart(s, event) == State(rest + [d], s.bankLine[1..], false);
    } else {
      assert Depart(s, event) == State(rest, [], true);
    }
  }

  /** Every step lowers `Work`, so a run empties the queue after at most
      `Work` steps. */
  lemma NextDecreasesWork(s: State)
    requires s.eventQueue != [] && Valid(s)
    ensures Work(Next(s)) < Work(s)
  {
    var q := s.eventQueue;
    var event := q[HeadIndex(q)];
    if event.kind == Arrival {
      ArrivalAddsCustomer(s, event);
    } else {
      // the event being processed is the pending departure, so the teller is busy
      assert Pending(q, Departure) != 0;
      DepartureRemovesCustomer(s, event);
    }
  }

  /** In a valid state no work is left exactly when the queue is empty, and
      then the teller is free and nobody waits: a run ends with every
      customer served. */
  lemma WorkZeroIffDone(s: State)
    requires Valid(s)
    ensures Work(s) == 0 <==> s.eventQueue == []
    ensures s.eventQueue == [] ==> s.tellerAvailable && s.bankLine == []
  {
    PendingSplit(s.eventQueue);
  }

  /** A run starts valid: only arrivals with non-negative lengths and no
      carried wait are queued, the line is empty and the teller is free. */
  lemma SeedValid(seed: seq<Event>)
    requires forall e :: e in seed ==> e.kind == Arrival && e.transLength >= 0 && e.waited == 0
    ensures Valid(State(seed, [], true))
  {
  }

  /** The handlers never check transaction lengths: an arrival at time 5
      with length -3 at a free teller schedules a departure at time 2,
      before the event just processed. Run-level facts therefore need the
      seed's lengths to be non-negative, as `Valid` requires. */
  lemma NegativeLengthSchedulesEarlier()
    ensures var a := Event(Arrival, 5, -3, 0);
      && Next(State([a], [], true)) == State([Event(Departure, 2, 0, 0)], [], false)
      && !Valid(State([a], [], true))
  {
    var a := Event(Arrival, 5, -3, 0);
    assert HeadIndex([a]) == 0 && RemoveFirst([a], a) == [];
    assert a in [a];
  }

  /** One customer (time 0, length 5) meets a free teller: a departure at
      time 5 is scheduled, and processing it frees the teller again. */
  lemma OneCustomer()
    ensures var d5 := Event(Departure, 5, 0, 0);
      && Next(State([Event(Arrival, 0, 5, 0)], [], true)) == State([d5], [], false)
      && Next(State([d5], [], false)) == State([], [], true)
  {
    var a0, d5 := Event(Arrival, 0, 5, 0), Event(Departure, 5, 0, 0);
    assert HeadIndex([a0]) == 0 && RemoveFirst([a0], a0) == [];
    assert HeadIndex([d5]) == 0 && RemoveFirst([d5], d5) == [];
  }

  /** Two customers, the first (time 0, length 5) is served at once. */
  lemma TwoCustomersFirstServed()
    ensures var a1, d5 := Event(Arrival, 1, 3, 0), Event(Departure, 5, 0, 0);
      Next(State([Event(Arrival, 0, 5, 0), a1], [], true)) == State([a1, d5], [], false)
  {
    var a0, a1 := Event(Arrival, 0, 5, 0), Event(Arrival, 1, 3, 0);
    assert [a0, a1][1..] == [a1] && HeadIndex([a0, a1]) == 0;
    assert RemoveFirst([a0, a1], a0) == [a1];
  }

  /** The second (time 1, length 3) finds the teller busy and joins the line. */
  lemma TwoCustomersSecondWaits()
    ensures var a1, d5 := Event(Arrival, 1, 3, 0), Event(Departure, 5, 0, 0);
      Next(State([a1, d5], [], false)) == State([d5], [Customer(1, 3)], false)
  {
    var a1, d5 := Event(Arrival, 1, 3, 0), Event(Departure, 5, 0, 0);
    assert [a1, d5][1..] == [d5] && HeadIndex([a1, d5]) == 0;
    assert RemoveFirst([a1, d5], a1) == [d5];
  }

  /** Continuing: at time 5 the waiting customer reaches the teller, a
      departure at time 8 carrying a wait of 4 is scheduled, and at time 8
      the teller becomes free. */
  lemma TwoCustomersDepart()
    ensures var d5, d8 := Event(Departure, 5, 0, 0), Event(Departure, 8, 0, 4);
      && Next(State([d5], [Customer(1, 3)], false)) == State([d8], [], false)
      && Next(State([d8], [], false)) == State([], [], true)
  {
    var d5, d8 := Event(Departure, 5, 0, 0), Event(Departure, 8, 0, 4);
    assert HeadIndex([d5]) == 0 && RemoveFirst([d5], d5) == [];
    assert [Customer(1, 3)][1..] == [];
    assert HeadIndex([d8]) == 0 && RemoveFirst([d8], d8) == [];
  }

  // ---------------------------------------------------------------------
  // The handlers acting in place

  /** The caller-owned state the handlers update through references. */
  class Bank {
    var eventQueue: seq<Event>
    var bankLine: seq<Customer>
    var tellerAvailable: bool

    function Snapshot(): State
      reads this
    {
      State(eventQueue, bankLine, tellerAvailable)
    }

    /** The state at the start of a run: the seeded events, nobody in line
        and a free teller. */
    constructor (seed: seq<Event>)
      ensures Snapshot() == State(seed, [], true)
    {
      eventQueue := seed;
      bankLine := [];
      tellerAvailable := true;
    }

    /** processArrival, for `event` the head of the queue. */
    method ProcessArrival(event: Event)
      requires IsHead(eventQueue, event)
      modifies this
      ensures Snapshot() == Arrive(old(Snapshot()), event)
      ensures TellerFreeLineEmpty(old(Snapshot())) ==> TellerFreeLineEmpty(Snapshot())
      ensures event.kind == Arrival && Valid(old(Snapshot())) ==> Valid(Snapshot())
    {
      ghost var before := Snapshot();
      var currentTime := event.time;
      eventQueue := RemoveFirst(eventQueue, event);

      if tellerAvailable && |bankLine| == 0 {
        // Straight to the window
        var departureTime := currentTime + event.transLength;
        eventQueue := eventQueue + [Event(Departure, departureTime, 0, 0)];
        tellerAvailable := false;
      } else {
        // Back of the line
        bankLine := bankLine + [Customer(event.time, event.transLength)];
      }

      if TellerFreeLineEmpty(before) {
        ArriveKeepsTellerFreeLineEmpty(before, event);
      }
      if event.kind == Arrival && Valid(before) {
        ArrivePreservesValid(before, event);
      }
    }

    /** processDeparture, for `event` the head of the queue. */
    method ProcessDeparture(event: Event)
      requires IsHead(eventQueue, event)
      modifies this
      ensures Snapshot() == Depart(old(Snapshot()), event)
      ensures TellerFreeLineEmpty(old(Snapshot())) ==> TellerFreeLineEmpty(Snapshot())
      ensures event.kind == Departure && Valid(old(Snapshot())) ==> Valid(Snapshot())
    {
      ghost var before := Snapshot();
      var currentTime := event.time;
      eventQueue := RemoveFirst(eventQueue, event);

      if |bankLine| != 0 {
        // Line moves forward
        var customer := bankLine[0];
        bankLine := bankLine[1..];
        var timeWaited := currentTime - customer.time;
        var departureTime := currentTime + customer.transLength;
        eventQueue := eventQueue + [Event(Departure, departureTime, 0, timeWaited)];
      } else {
        // Take a break
        tellerAvailable := true;
      }

      if TellerFreeLineEmpty(before) {
        DepartKeepsTellerFreeLineEmpty(before, event);
      }
      if event.kind == Departure && Valid(before) {
        DepartPreservesValid(before, event);
      }
    }

    /** One step of the driver: take a copy of the head event and dispatch
        it on its kind. Returns the event processed. */
    method Step() returns (event: Event)
      requires eventQueue != []
      modifies this
      ensures IsHead(old(eventQueue), event)
      ensures Snapshot() == Next(old(Snapshot()))
      ensures Valid(old(Snapshot())) ==>
        Valid(Snapshot()) && forall x :: x in eventQueue ==> event.time <= x.time
    {
      ghost var before := Snapshot();
      event := eventQueue[HeadIndex(eventQueue)];
      if event.kind == Arrival {
        ProcessArrival(event);
      } else {
        ProcessDeparture(event);
      }
      if Valid(before) {
        NextNotEarlier(before);
      }
    }
  }
}
