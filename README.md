# Single-teller bank simulation: event-handling core

This project models the event handlers of a discrete-event simulation of one bank teller. The two handlers, `processArrival` and `processDeparture` in `processor.h`, share three pieces of caller-owned state:

- the event priority queue, whose events are arrivals (`'A'`) and departures (`'D'`), each with a time, a transaction length and a carried wait;
- the bank line, a FIFO of customers, each with an arrival time and a transaction length;
- the `tellerAvailable` flag.

Each handler pops the head event, the one with the earliest time. An arrival goes straight to a free teller with an empty line: a departure is scheduled at arrival time plus transaction length, and the teller becomes busy. Otherwise the arriving customer joins the back of the line. A departure hands the teller to the front customer, if there is one, and schedules that customer's departure carrying the wait the customer spent in line. With nobody in line, the departure frees the teller.

Files:

- `events.dfy` (module `Events`): `Event`, `Customer` and the kind tag. The handlers pop (`RemoveFirst`) and push (sequence append) on the queue. `IsHead` and `HeadIndex` say which event the caller hands in. `Pending`, a count of queued events by kind, is used only by the run invariant and the termination measure.
- `processor.dfy` (module `Processor`): the shared state as a value `State`. `Arrive`, `Depart` and `Next` (one dispatching step) give the transitions as functions. `Valid` is the run invariant. The lemmas state what the transitions promise. The class `Bank` holds the three fields `eventQueue`, `bankLine` and `tellerAvailable`, and its `modifies this` methods `ProcessArrival`, `ProcessDeparture` and `Step` update them in place. Each method is proved to produce exactly the state its transition function gives.

The queue is a sequence in storage order, and that order carries no meaning. Popping removes one occurrence of the head event, an event of minimum time. Pushing appends. `Valid` collects what holds throughout a run that starts from queued arrivals with non-negative transaction lengths and no carried wait, an empty line and a free teller:

- a free teller never has customers waiting;
- exactly one departure is pending while the teller is busy, and none while it is free;
- transaction lengths and carried waits are non-negative;
- no customer in line arrived later than any queued event;
- the line is ordered by arrival time.

From `Valid` the model proves four run-level facts, all for runs seeded that way:

- recorded waits are never negative;
- events are processed in non-decreasing time order;
- every step lowers a measure, so a run ends;
- a run ends with the queue empty, the line empty and the teller free.

## Model

| member | source | states |
|---|---|---|
| `Events.RemoveFirst` | processor.h:48 | Popping the head removes exactly one occurrence of that event. Every other queued event stays, and the queue shrinks by one. |
| `Events.HeadIndex` | processor.h:32-33 | The event handed to a handler is queued and no queued event is earlier. |
| `Events.PendingPush` | processor.h:54 | Pushing an event raises the count of its own kind by one and leaves the other count alone. |
| `Events.PendingPop` | processor.h:90 | Popping an event lowers the count of its own kind by one and leaves the other count alone. |
| `Processor.Arrive` | processor.h:42-62 | The arrival transition never removes a customer: the old line is a prefix of the new one, at most one longer. It keeps "teller available implies line empty". |
| `Processor.Depart` | processor.h:84-109 | The departure transition removes at most the front customer: an empty line stays empty, and a non-empty old line is its front customer followed by the new line. It keeps "teller available implies line empty". |
| `Processor.Next` | processor.h:42-109 | One step dispatches the head event to the arrival or departure transition by its kind. It keeps "teller available implies line empty". |
| `Processor.ArrivalServedAtOnce` | processor.h:52-55 | Free teller and empty line: the head is replaced by exactly one departure at `time + transLength`. The teller becomes busy and the line is unchanged. |
| `Processor.ArrivalJoinsLine` | processor.h:57-60 | Otherwise `Customer(time, transLength)` is appended at the back of the line. Only the head leaves the queue, nothing is pushed, and the teller flag is unchanged. |
| `Processor.ArrivalNeverRemoves` | processor.h:47-60 | The old line is a prefix of the new one, at most one longer. It is longer exactly when the customer is not served at once. Line length plus queue size is unchanged: the queue keeps its size when the customer is served and loses one event otherwise. |
| `Processor.ArriveKeepsTellerFreeLineEmpty` | processor.h:52-60 | An arrival preserves "teller available implies line empty". |
| `Processor.ArrivePreservesValid` | processor.h:42-62 | An arrival event keeps the whole run invariant. |
| `Processor.ArrivalAddsCustomer` | processor.h:52-60 | Under the joint invariant, an arrival brings exactly one customer inside the bank, to the teller or to the line. One fewer arrival is pending. |
| `Processor.DepartureAdvancesLine` | processor.h:94-102 | Non-empty line: exactly the front customer leaves the line, and the rest keep their order. The teller flag is unchanged. The head is replaced by one departure at `currentTime + customer.transLength`, with length 0 and wait `currentTime - customer.time`. |
| `Processor.DepartureFreesTeller` | processor.h:104-107 | Empty line: the teller becomes available. Only the head leaves the queue, nothing is pushed, and the line stays empty. |
| `Processor.DepartKeepsTellerFreeLineEmpty` | processor.h:94-107 | A departure preserves "teller available implies line empty". |
| `Processor.DepartureWaitNonNegative` | processor.h:99 | In a valid state the computed `timeWaited` is never negative. |
| `Processor.DepartPreservesValid` | processor.h:84-109 | A departure event keeps the whole run invariant. |
| `Processor.DepartureRemovesCustomer` | processor.h:94-107 | Under the joint invariant and a busy teller, a departure sends exactly one customer out of the bank. Pending arrivals are unchanged. |
| `Processor.NextPopsOnlyHead` | processor.h:47-107 | A step removes exactly the event processed. Every other queued event stays queued, and at most one event is added. |
| `Processor.NextPreservesValid` | processor.h:42-109 | Every step, arrival or departure, keeps the run invariant. |
| `Processor.NextNotEarlier` | processor.h:53-102 | From a valid state, after a step nothing queued fires before the event just processed, so events are handled in non-decreasing time order. |
| `Processor.NextDecreasesWork` | processor.h:42-109 | From a valid state, every step lowers `2 * pending arrivals + customers inside`, so a run ends. |
| `Processor.WorkZeroIffDone` | processor.h:37-40 | In a valid state no work is left exactly when the queue is empty. The teller is then free and the line empty. |
| `Processor.SeedValid` | processor.h:42-45 | Queued arrivals with non-negative lengths and no carried wait, an empty line and a free teller form a valid state. |
| `Processor.NegativeLengthSchedulesEarlier` | processor.h:52-55 | The arrival handler does not check the transaction length: an arrival at 5 with length -3 at a free teller schedules a departure at 2, and such a state is not `Valid`. |
| `Processor.OneCustomer` | processor.h:52-55 | An arrival at 0 with length 5 at a free teller schedules a departure at 5. That departure frees the teller. |
| `Processor.TwoCustomersFirstServed` | processor.h:52-55 | With arrivals at 0 (length 5) and 1 (length 3), the first is served at once and a departure at 5 is queued. |
| `Processor.TwoCustomersSecondWaits` | processor.h:57-60 | The arrival at 1 finds the teller busy and joins the line as `Customer(1, 3)`. |
| `Processor.TwoCustomersDepart` | processor.h:94-107 | At 5 the waiting customer reaches the teller: a departure at 8 carrying wait 4 is queued. At 8 the teller becomes free. |
| `Processor.Bank.constructor` | processor.h:42-45 | A run's state starts as the seeded queue, an empty line and a free teller. |
| `Processor.Bank.ProcessArrival` | processor.h:42-62 | The fields become exactly `Arrive` of the old state and the head event. The method keeps the joint invariant and, for an arrival event, the run invariant. |
| `Processor.Bank.ProcessDeparture` | processor.h:84-109 | The fields become exactly `Depart` of the old state and the head event. The method keeps the joint invariant and, for a departure event, the run invariant. |
| `Processor.Bank.Step` | processor.h:32-33 | The method processes a head event by its kind, giving `Next` of the old state. From a valid state it keeps validity, and no remaining event is earlier than the one processed. |

## Left out

- Console logging (processor.h:49 and 92) is output only; it is not modelled.
- `std::shared_ptr` ownership and the `emplace` note (processor.h:9-13): events and customers are plain values.
- The comparator `CustomCompare` is not part of this model. Any event of minimum time may be popped. `HeadIndex`, used only by `Next` and `Step` (and the lemmas about them), takes the first stored one; the comparator's own tie-break among equal times is not modelled.
- The driver loop, the reading of simulation parameters and the aggregation of statistics (total wait, customers served) are not part of this model. `Step` is a thin dispatch on the event kind, and the lemmas about runs speak only of the two handlers.
- `Processor.Bank.ProcessArrival`: the calling convention (processor.h:28-30) passes `event` as a reference to the queue's first event pointer, and the source reads `event->time` and `event->transLength` after `eventQueue.pop()` (processor.h:48, then 49, 53 and 59). With two or more events queued, those reads see the new top event, not the one being processed. With one event queued, `pop()` destroys the very pointer `event` refers to, so the reads are undefined behaviour. The model takes `event` as a value copy made before the pop, which is what the handler evidently intends; `processDeparture` avoids the problem by using only `currentTime` after its pop (processor.h:89-100).
- `Processor.Bank.ProcessArrival`, `Processor.Bank.ProcessDeparture`: times, lengths and waits are unbounded integers. C++ `int` overflow in `currentTime + transLength` is not modelled.
- The handlers do not check the event kind, so the model does not check it either. The lemmas about the run invariant assume that the caller dispatches by kind, as `Step` does.
- A negative `timeWaited` is not checked in the code (processor.h:99), and the model follows the code. `DepartureWaitNonNegative` proves that it cannot occur in a valid state.
- The doc comment of `processDeparture` (processor.h:80-82) says it "makes the teller unavailable" when a customer is in line. The code (processor.h:95-102) leaves the flag as it is, and the model follows the code. Under the joint invariant the flag is already false there.
- The run-level lemmas (`SeedValid`, `NextPreservesValid`, `NextNotEarlier`, `NextDecreasesWork`, `WorkZeroIffDone`, `DepartureWaitNonNegative`) assume the caller seeds arrivals with non-negative transaction lengths and no carried wait. The handlers never check transaction lengths (processor.h:53, 100): an arrival at time 5 with length -3 at a free teller schedules a departure at time 2, before the event just processed, and a negative length can likewise make recorded waits negative.
- The definitions of `Event` and `Customer` are not part of this model; their fields are taken from the constructor calls at processor.h:54, 59 and 102. The two-argument `Event('D', departureTime)` (processor.h:54) is taken to default the transaction length and the carried wait to 0.
