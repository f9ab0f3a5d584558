# Cross-thread limited FIFO

A model of `cross_thread_limited_fifo_t`, the bounded FIFO channel of RethinkDB
that carries values from one source thread to the queue's home thread. `push`
runs on the source thread. It takes one unit of the drain semaphore and one unit
of the admission semaphore, then dispatches a `do_pusher_t` hop to the home
thread. That hop runs `do_push`, which appends the value to the list and updates
the availability flag. The consumer calls `produce_next_value` on the home
thread. It takes the front of the list and dispatches a `do_done_caller_t` hop
back to the source thread, whose `do_done` gives both units back. The destructor
sets the teardown flag and releases one drain unit per item left on the list.
Then it waits in `drain()` until the drain count is zero.

The project has two modules.

- `FifoModel` (`fifo_model.dfy`) is the bookkeeping as a state machine. A
  `Channel` value holds the list, the two semaphore counts, the flag, the
  teardown flag, and the hops dispatched but not yet run. Each operation and
  each hop is a function that keeps `Valid`. `Valid` holds three invariants: the
  flag says whether the list is non-empty; every admission unit is held by a
  value in flight or a pending `do_done` (conservation); and the drain count
  equals the pending pushes plus the pending dones plus, before teardown, the
  items on the list (drain balance). `Run` plays any interleaving of the two
  threads as a sequence of calls. The lemmas prove FIFO order for every such
  sequence, that the units held and the values in flight stay within the
  capacity unless `set_capacity` lowers it below the units held, and when the
  destructor balances the drain semaphore. `CapacityTwoRun` exhibits one
  concrete interleaving that `Run` accepts, and `ThirdPushWaits` one that it
  refuses because push would wait for admission.
- `LimitedFifo` (`limited_fifo.dfy`) is the object itself, a class whose methods
  update its fields in place. Every method is proved against the matching
  `FifoModel` step. The destructor keeps the source's counting loop of
  compensating releases. The `drain()` wait is a loop that runs the queued
  `do_done` hops until the count is zero. Two client methods exercise the
  object. `CapacityTwoScenario` builds a queue of capacity 2, pushes a and b,
  shows that a third push must wait until the consumer's first `do_done` has
  run, pushes x, checks that a, b, x come out in that order, and destroys the
  queue. `DestroyWithUnconsumedItem` pushes one value that reaches the list,
  never consumes it, and destroys the queue; the drain still ends at zero.

Each cross-thread hop is a call of its own, and pushes reach the home thread
oldest first. This stands for the dispatcher's ordering per pair of threads.

## Model

| member | source | states |
|---|---|---|
| FifoModel.Init | src/concurrency/queue/cross_thread_limited_fifo.hpp:22-30 | a new channel is valid, holds no value, has no hop in flight, holds no unit of either semaphore, keeps the given capacity, has the flag down and is not in teardown |
| FifoModel.Push | src/concurrency/queue/cross_thread_limited_fifo.hpp:61-67 | push keeps the invariants, appends the value at the end of what is in flight, takes exactly one admission unit and one drain unit, and leaves the list and the flag alone |
| FifoModel.DoPush | src/concurrency/queue/cross_thread_limited_fifo.hpp:82-87 | do_push moves the oldest pending value to the back of the list without reordering anything in flight, raises the flag and keeps the invariants and counters |
| FifoModel.ProduceNextValue | src/concurrency/queue/cross_thread_limited_fifo.hpp:101-109 | the value returned is the old front, the list becomes its old tail, the flag afterwards says whether the list is non-empty, exactly one do_done is scheduled, and the invariants hold |
| FifoModel.DoDone | src/concurrency/queue/cross_thread_limited_fifo.hpp:89-93 | do_done gives back exactly one admission unit and one drain unit, retires one pending hop, changes nothing else and keeps the invariants |
| FifoModel.SetCapacity | src/concurrency/queue/cross_thread_limited_fifo.hpp:69-72 | set_capacity changes the capacity and nothing else; admitted values keep their units; the units held stay within the new capacity exactly when it is at least the units held |
| FifoModel.Compensate | src/concurrency/queue/cross_thread_limited_fifo.hpp:32-44 | setting the teardown flag and releasing one drain unit per listed item leaves the drain count equal to the hops still in flight, with nothing else changed |
| FifoModel.Drain | src/concurrency/queue/cross_thread_limited_fifo.hpp:45 | running every queued do_done lowers both counts by the number of pending dones, leaves none pending, and keeps the list, the flag and the invariants |
| FifoModel.DestructorDrainsIffNoPendingPush | src/concurrency/queue/cross_thread_limited_fifo.hpp:32-46 | after compensation and drain, the drain count equals the number of pushes still in flight, so it is zero if and only if none is; the listed items keep their admission units |
| FifoModel.Step | src/concurrency/queue/cross_thread_limited_fifo.hpp:61-109 | every possible call keeps the invariants and the teardown flag; what it hands to the consumer followed by what is in flight equals what was in flight followed by what it pushed; every call but set_capacity keeps the capacity, and every call keeps the units held within it unless set_capacity lowers it below them |
| FifoModel.BoundedLimitsInFlight | src/concurrency/queue/cross_thread_limited_fifo.hpp:25 | while the units held are within the capacity, so are the values pushed and not yet produced |
| FifoModel.BoundKept | src/concurrency/queue/cross_thread_limited_fifo.hpp:61-93 | the fifo is limited: along any sequence of calls without set_capacity, the units held and the values in flight stay within the capacity, which does not change |
| FifoModel.LimitedFromConstruction | src/concurrency/queue/cross_thread_limited_fifo.hpp:22-30 | constructed with a non-negative capacity, the channel never has more values in flight than that capacity while set_capacity is not called |
| FifoModel.ThirdPushWaits | src/concurrency/queue/cross_thread_limited_fifo.hpp:63-64 | with capacity 2, a third push before any value is retired is not a possible call, because co_lock would wait |
| FifoModel.CapacityTwoRun | src/concurrency/queue/cross_thread_limited_fifo.hpp:61-109 | a concrete interleaving from construction with capacity 2 is possible, hands out a, b, x in push order, and ends with an empty list and two do_done hops pending |
| FifoModel.Run | src/concurrency/queue/cross_thread_limited_fifo.hpp:61-109 | every sequence of possible calls ends in a state that keeps the flag, conservation and drain-balance invariants |
| FifoModel.RunIsFifo | src/concurrency/queue/cross_thread_limited_fifo.hpp:61-109 | for any interleaving, the values produced followed by those still in flight equal those in flight at the start followed by everything pushed, in push order |
| FifoModel.FifoFromConstruction | src/concurrency/queue/cross_thread_limited_fifo.hpp:22-30 | from construction, the values produced are a prefix of the values pushed, in push order, and the rest are exactly the values still in flight |
| FifoModel.DestructionBalancesAfterAnyRun | src/concurrency/queue/cross_thread_limited_fifo.hpp:32-48 | after any interleaving from construction, destroying with no push in flight brings the drain count to zero |
| LimitedFifo.CrossThreadLimitedFifo.constructor | src/concurrency/queue/cross_thread_limited_fifo.hpp:22-30 | the new object's state is the initial channel |
| LimitedFifo.CrossThreadLimitedFifo.Push | src/concurrency/queue/cross_thread_limited_fifo.hpp:61-67 | updates the fields in place exactly as FifoModel.Push, when a unit of admission is free |
| LimitedFifo.CrossThreadLimitedFifo.SetCapacity | src/concurrency/queue/cross_thread_limited_fifo.hpp:69-72 | updates only the capacity, as FifoModel.SetCapacity |
| LimitedFifo.CrossThreadLimitedFifo.DoPush | src/concurrency/queue/cross_thread_limited_fifo.hpp:82-87 | appends the oldest pending value to the list in place, as FifoModel.DoPush, and never runs in teardown |
| LimitedFifo.CrossThreadLimitedFifo.DoDone | src/concurrency/queue/cross_thread_limited_fifo.hpp:89-93 | releases both units in place, as FifoModel.DoDone |
| LimitedFifo.CrossThreadLimitedFifo.ProduceNextValue | src/concurrency/queue/cross_thread_limited_fifo.hpp:101-109 | pops and returns the front in place, as FifoModel.ProduceNextValue, only while the flag is up and before teardown |
| LimitedFifo.CrossThreadLimitedFifo.Destroy | src/concurrency/queue/cross_thread_limited_fifo.hpp:32-48 | with no push in flight, the compensating loop and the drain wait leave the drain count and the pending dones at zero, the list untouched, and one admission unit held per listed item |
| LimitedFifo.CapacityTwoScenario | src/concurrency/queue/cross_thread_limited_fifo.hpp:61-109 | with capacity 2, a third push waits until a do_done frees a unit; the consumer receives a, b, x in push order and destruction drains to zero |
| LimitedFifo.DestroyWithUnconsumedItem | src/concurrency/queue/cross_thread_limited_fifo.hpp:32-48 | an item pushed and never consumed is compensated by the destructor, whose drain completes at zero |

`do_push` asserts that the teardown flag is clear (line 84), so `DoPush`
requires it. In the model such a hop can therefore never run after teardown, and
its drain unit is never released: `FifoModel.DestructorDrainsIffNoPendingPush`
shows that the drain count then stays at the number of pushes in flight, so
`drain()` would not return. `Destroy` therefore requires that no push is in
flight.

## Left out

- Threads, thread ids, `do_on_thread`, `on_thread_t`, `assert_thread`, `assert_good_thread_id` and `get_thread_id` are not modelled. Each method stands for a call made on the right thread. A hop running is a method call of its own, and pushes run on the home thread oldest first.
- LimitedFifo.CrossThreadLimitedFifo.Push: the suspension in `co_lock` becomes the precondition `admitted < capacity`. The push is atomic, so the window where it holds a drain unit while waiting for admission is not modelled.
- LimitedFifo.CrossThreadLimitedFifo.Destroy: the blocking `drain()` is a loop that runs the pending `do_done` hops until the drain count is zero. How the cooperative scheduler resumes the waiter is not modelled.
- The internals of `adjustable_semaphore_t` and `drain_semaphore_t` are not part of this model. Both are plain counters, and the admission test is `admitted < capacity`.
- `trickle_fraction` (a float) only shapes how the admission semaphore releases capacity, so it is left out.
- `drain_semaphore.rethread(...)` (lines 29 and 47) only records thread ownership, so it is left out.
- `availability_control_t` and the `passive_producer_t` base are reduced to the boolean flag. The consumer notification is not modelled.
- The `queue_t` template parameter is a sequence.
- `push` after the destructor has started is excluded by a precondition. The code does not check for it, and its `do_push` would fail the teardown assertion.
