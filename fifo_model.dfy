/** A state-machine view of cross_thread_limited_fifo_t.

    A channel state holds the fields the queue object keeps (the item list,
    the two semaphore counts, the availability flag, the teardown flag) together
    with the cross-thread work that has been dispatched but has not run yet:
    do_pusher_t hops waiting on the home thread and do_done_caller_t hops
    waiting on the source thread. Each hop is a step of its own, so an
    interleaving of the two threads is a sequence of calls (see Run).
 */
module FifoModel {

  datatype Option<T> = None | Some(value: T)

  /** One state of the channel. */
  datatype Channel<T> = Channel(
    queue: seq<T>,          // the home-thread item list, front first
    pendingPushes: seq<T>,  // values of do_pusher_t hops not yet run on the home thread, oldest first
    pendingDones: nat,      // do_done_caller_t hops not yet run on the source thread
    admitted: int,          // units held in the admission semaphore
    capacity: int,          // capacity of the admission semaphore
    drainCount: int,        // drain-semaphore acquires minus releases
    available: bool,        // the availability flag the consumer reads
    inDestructor: bool)     // set once, when the destructor starts

  /** The values that have been pushed and not yet produced, oldest first:
      those already on the list come before those still travelling to it. */
  function InFlight<T>(c: Channel<T>): seq<T>
  {
    c.queue + c.pendingPushes
  }

  /** The bookkeeping every reachable state keeps.
      - The availability flag says whether the list is non-empty.
      - Conservation: every admission unit is held by a value in flight or by a
        do_done hop that has not yet given it back.
      - Drain balance: the drain semaphore is acquired once per push and released
        once per do_done; once the destructor has compensated for the items left
        on the list, those no longer count. */
  predicate Valid<T>(c: Channel<T>)
  {
    && c.available == (c.queue != [])
    && c.admitted == |c.pendingPushes| + |c.queue| + c.pendingDones
    && c.drainCount == |c.pendingPushes| + c.pendingDones + (if c.inDestructor then 0 else |c.queue|)
  }

  /** The constructor: an empty list, nothing in flight, no unit held. */
  function Init<T>(capacity: int): (c: Channel<T>)
    ensures Valid(c) && InFlight(c) == [] && c.pendingDones == 0
    ensures c.admitted == 0 && c.drainCount == 0 && c.capacity == capacity
    ensures !c.available && !c.inDestructor
  {
    Channel([], [], 0, 0, capacity, 0, false, false)
  }

  /** The limit the admission semaphore exists for: no more units are held
      than the capacity allows. Lowering the capacity below the units already
      held is the one way to leave it (see SetCapacity). */
  predicate Bounded<T>(c: Channel<T>)
  {
    c.admitted <= c.capacity
  }

  /** In a bounded state, the values pushed and not yet produced never exceed
      the capacity. */
  lemma BoundedLimitsInFlight<T>(c: Channel<T>)
    requires Valid(c) && Bounded(c)
    ensures |InFlight(c)| <= c.admitted <= c.capacity
  {
  }

  /** push runs without suspending only while a unit of admission is free;
      it is not called once the destructor has started. */
  predicate CanPush<T>(c: Channel<T>)
  {
    !c.inDestructor && c.admitted < c.capacity
  }

  /** push, on the source thread: one drain unit, one admission unit, and a
      do_pusher_t hop to the home thread carrying the value. */
  function Push<T>(c: Channel<T>, v: T): (r: Channel<T>)
    requires Valid(c) && CanPush(c)
    ensures Valid(r) && InFlight(r) == InFlight(c) + [v]
    ensures r.queue == c.queue && r.available == c.available && r.pendingDones == c.pendingDones
    ensures r.admitted == c.admitted + 1 && r.drainCount == c.drainCount + 1
    ensures r.capacity == c.capacity && r.inDestructor == c.inDestructor
  {
    c.(drainCount := c.drainCount + 1,
       admitted := c.admitted + 1,
       pendingPushes := c.pendingPushes + [v])
  }

  /** do_push, run on the home thread by the oldest do_pusher_t hop: the value
      goes to the back of the list and the flag follows the list. */
  function DoPush<T>(c: Channel<T>): (r: Channel<T>)
    requires Valid(c) && c.pendingPushes != [] && !c.inDestructor
    ensures Valid(r) && InFlight(r) == InFlight(c)
    ensures r.queue == c.queue + [c.pendingPushes[0]] && r.available
    ensures r.pendingDones == c.pendingDones && r.admitted == c.admitted
    ensures r.drainCount == c.drainCount && r.capacity == c.capacity && !r.inDestructor
  {
    var q := c.queue + [c.pendingPushes[0]];
    assert [c.pendingPushes[0]] + c.pendingPushes[1..] == c.pendingPushes;
    c.(queue := q, pendingPushes := c.pendingPushes[1..], available := q != [])
  }

  /** produce_next_value, on the home thread: only called while the flag is set.
      It hands out the front, leaves the rest of the list in order, dispatches
      one do_done hop and lowers the flag when the list runs empty. */
  function ProduceNextValue<T>(c: Channel<T>): (r: (T, Channel<T>))
    requires Valid(c) && c.available && !c.inDestructor
    ensures Valid(r.1) && [r.0] + InFlight(r.1) == InFlight(c)
    ensures [r.0] + r.1.queue == c.queue && r.1.pendingPushes == c.pendingPushes
    ensures r.1.available == (r.1.queue != [])
    ensures r.1.pendingDones == c.pendingDones + 1
    ensures r.1.admitted == c.admitted && r.1.drainCount == c.drainCount
    ensures r.1.capacity == c.capacity && !r.1.inDestructor
  {
    var v := c.queue[0];
    var q := c.queue[1..];
    (v, c.(queue := q, pendingDones := c.pendingDones + 1, available := q != []))
  }

  /** do_done, run on the source thread by a do_done_caller_t hop: the admission
      unit and the drain unit of one produced value are given back. It runs
      during the destructor too, which is how the drain completes. */
  function DoDone<T>(c: Channel<T>): (r: Channel<T>)
    requires Valid(c) && c.pendingDones > 0
    ensures Valid(r) && r.pendingDones == c.pendingDones - 1
    ensures r.admitted == c.admitted - 1 && r.drainCount == c.drainCount - 1
    ensures r.(pendingDones := c.pendingDones, admitted := c.admitted, drainCount := c.drainCount) == c
  {
    c.(pendingDones := c.pendingDones - 1,
       admitted := c.admitted - 1,
       drainCount := c.drainCount - 1)
  }

  /** set_capacity: only the admission capacity changes; values already admitted
      keep their units, even when the new capacity is below their number. */
  function SetCapacity<T>(c: Channel<T>, capacity: int): (r: Channel<T>)
    requires Valid(c)
    ensures Valid(r) && r.capacity == capacity
    ensures r.(capacity := c.capacity) == c
    ensures Bounded(r) <==> capacity >= c.admitted
  {
    c.(capacity := capacity)
  }

  /** The first half of the destructor: the teardown flag is set and one drain
      unit is released for every item left on the list. Afterwards the drain
      count is exactly the number of hops still in flight. */
  function Compensate<T>(c: Channel<T>): (r: Channel<T>)
    requires Valid(c) && !c.inDestructor
    ensures Valid(r) && r.inDestructor
    ensures r.drainCount == |c.pendingPushes| + c.pendingDones
    ensures r.(inDestructor := false, drainCount := c.drainCount) == c
  {
    c.(inDestructor := true, drainCount := c.drainCount - |c.queue|)
  }

  /** What the wait in drain() lets happen: the source thread runs every
      do_done hop still queued for it. */
  function Drain<T>(c: Channel<T>): (r: Channel<T>)
    requires Valid(c)
    ensures Valid(r) && r.pendingDones == 0
    ensures r.drainCount == c.drainCount - c.pendingDones
    ensures r.admitted == c.admitted - c.pendingDones
    ensures r.(pendingDones := c.pendingDones, admitted := c.admitted, drainCount := c.drainCount) == c
    decreases c.pendingDones
  {
    if c.pendingDones == 0 then c else Drain(DoDone(c))
  }

  /** The destructor balances the drain semaphore exactly when no do_pusher_t hop
      is still in flight: each pending push holds a drain unit that neither the
      compensation nor any do_done gives back, and its do_push may not run once
      the teardown flag is set. The values left on the list keep their
      admission units. */
  lemma DestructorDrainsIffNoPendingPush<T>(c: Channel<T>)
    requires Valid(c) && !c.inDestructor
    ensures Drain(Compensate(c)).drainCount == |c.pendingPushes|
    ensures Drain(Compensate(c)).drainCount == 0 <==> c.pendingPushes == []
    ensures Drain(Compensate(c)).admitted == |c.queue| + |c.pendingPushes|
    ensures Drain(Compensate(c)).queue == c.queue
  {
  }

  /** A call made on one of the two threads, or a dispatched hop that runs. */
  datatype Call<T> =
    | PushCall(value: T)             // push, on the source thread
    | DoPushHop                      // the oldest do_pusher_t runs on the home thread
    | ProduceCall                    // produce_next_value, on the home thread
    | DoDoneHop                      // a do_done_caller_t runs on the source thread
    | SetCapacityCall(capacity: int) // set_capacity

  /** When a call may happen: push does not suspend, the hop exists, the
      consumer only pulls while the flag is set, and neither do_push nor
      produce_next_value runs once the teardown flag is set. */
  predicate Enabled<T>(c: Channel<T>, call: Call<T>)
  {
    match call
    case PushCall(_) => CanPush(c)
    case DoPushHop => c.pendingPushes != [] && !c.inDestructor
    case ProduceCall => c.available && !c.inDestructor
    case DoDoneHop => c.pendingDones > 0
    case SetCapacityCall(_) => true
  }

  /** The values a call hands to the channel. */
  function Accepted<T>(call: Call<T>): seq<T>
  {
    if call.PushCall? then [call.value] else []
  }

  /** The values a sequence of calls pushes, in call order. */
  function Pushed<T>(calls: seq<Call<T>>): seq<T>
  {
    if calls == [] then [] else Accepted(calls[0]) + Pushed(calls[1..])
  }

  /** One call: the new state and the values it hands to the consumer. */
  function Step<T>(c: Channel<T>, call: Call<T>): (r: (Channel<T>, seq<T>))
    requires Valid(c) && Enabled(c, call)
    ensures Valid(r.0) && r.0.inDestructor == c.inDestructor
    ensures r.1 + InFlight(r.0) == InFlight(c) + Accepted(call)
    ensures |r.1| == if call.ProduceCall? then 1 else 0
    ensures Bounded(c) && (call.SetCapacityCall? ==> call.capacity >= c.admitted) ==> Bounded(r.0)
    ensures !call.SetCapacityCall? ==> r.0.capacity == c.capacity
  {
    match call
    case PushCall(v) => (Push(c, v), [])
    case DoPushHop => (DoPush(c), [])
    case ProduceCall =>
      var (v, c') := ProduceNextValue(c);
      (c', [v])
    case DoDoneHop => (DoDone(c), [])
    case SetCapacityCall(n) => (SetCapacity(c, n), [])
  }

  /** Runs a sequence of calls: the final state and every value produced, in
      order, or None when some call is not possible in the state it meets. */
  function Run<T>(c: Channel<T>, calls: seq<Call<T>>): (r: Option<(Channel<T>, seq<T>)>)
    requires Valid(c)
    ensures r.Some? ==> Valid(r.value.0) && r.value.0.inDestructor == c.inDestructor
    decreases |calls|
  {
    if calls == [] then Some((c, []))
    else if !Enabled(c, calls[0]) then None
    else
      var s := Step(c, calls[0]);
      var rest := Run(s.0, calls[1..]);
      if rest.None? then None else Some((rest.value.0, s.1 + rest.value.1))
  }

  /** FIFO for any interleaving: what was in flight, followed by everything
      pushed, equals everything produced followed by what is still in flight. */
  lemma {:induction false} RunIsFifo<T>(c: Channel<T>, calls: seq<Call<T>>)
    requires Valid(c) && Run(c, calls).Some?
    ensures Run(c, calls).value.1 + InFlight(Run(c, calls).value.0) == InFlight(c) + Pushed(calls)
    decreases |calls|
  {
    if calls != [] {
      var s := Step(c, calls[0]);
      RunIsFifo(s.0, calls[1..]);
      var rest := Run(s.0, calls[1..]).value;
      assert Run(c, calls).value == (rest.0, s.1 + rest.1);
      assert Pushed(calls) == Accepted(calls[0]) + Pushed(calls[1..]);
      Regroup(s.1, rest.1, InFlight(rest.0), InFlight(s.0), Pushed(calls[1..]), InFlight(c), Accepted(calls[0]));
    }
  }

  /** The sequence algebra of one step of RunIsFifo. */
  lemma Regroup<T>(out: seq<T>, outs: seq<T>, left: seq<T>, mid: seq<T>, later: seq<T>, start: seq<T>, now: seq<T>)
    requires outs + left == mid + later && out + mid == start + now
    ensures (out + outs) + left == start + (now + later)
  {
    calc {
      (out + outs) + left;
      out + (outs + left);
      out + (mid + later);
      (out + mid) + later;
      (start + now) + later;
    }
  }

  /** From construction, the consumer sees exactly the pushed values in push
      order: a prefix of them, followed in the channel by the rest. */
  lemma FifoFromConstruction<T>(capacity: int, calls: seq<Call<T>>)
    requires Run(Init<T>(capacity), calls).Some?
    ensures Pushed(calls) == Run(Init<T>(capacity), calls).value.1 + InFlight(Run(Init<T>(capacity), calls).value.0)
    ensures Run(Init<T>(capacity), calls).value.1 <= Pushed(calls)
  {
    RunIsFifo(Init<T>(capacity), calls);
  }

  /** The fifo is limited: along any sequence of calls that never lowers the
      capacity below the units held, the units held and the values in flight
      stay within the capacity. */
  lemma {:induction false} BoundKept<T>(c: Channel<T>, calls: seq<Call<T>>)
    requires Valid(c) && Bounded(c) && Run(c, calls).Some?
    requires forall i :: 0 <= i < |calls| ==> !calls[i].SetCapacityCall?
    ensures Bounded(Run(c, calls).value.0)
    ensures |InFlight(Run(c, calls).value.0)| <= Run(c, calls).value.0.capacity
    ensures Run(c, calls).value.0.capacity == c.capacity
    decreases |calls|
  {
    if calls != [] {
      var s := Step(c, calls[0]);
      assert !calls[0].SetCapacityCall?;
      BoundKept(s.0, calls[1..]);
      assert Run(c, calls).value == Run(s.0, calls[1..]).value.(1 := s.1 + Run(s.0, calls[1..]).value.1);
    }
  }

  /** Constructed with a non-negative capacity, the fifo holds at most that many
      values in flight after any sequence of calls that leaves the capacity alone. */
  lemma LimitedFromConstruction<T>(capacity: int, calls: seq<Call<T>>)
    requires capacity >= 0 && Run(Init<T>(capacity), calls).Some?
    requires forall i :: 0 <= i < |calls| ==> !calls[i].SetCapacityCall?
    ensures |InFlight(Run(Init<T>(capacity), calls).value.0)| <= capacity
  {
    BoundKept(Init<T>(capacity), calls);
  }

  /** With capacity 2, a third push before any value is retired is not a
      possible call: push waits for admission. */
  lemma ThirdPushWaits<T>(a: T, b: T, x: T)
    ensures Run(Init<T>(2), [PushCall(a), PushCall(b), PushCall(x)]).None?
  {
    var c0 := Init<T>(2);
    var c1 := Push(c0, a);
    var c2 := Push(c1, b);
    assert !Enabled(c2, PushCall(x));
    assert Run(c2, [PushCall(x)]).None?;
    assert [PushCall(a), PushCall(b), PushCall(x)][1..] == [PushCall(b), PushCall(x)];
    assert [PushCall(b), PushCall(x)][1..] == [PushCall(x)];
  }

  /** A possible interleaving with capacity 2: a and b are pushed and reach the
      list, the consumer takes a, its do_done frees a unit, x is pushed and
      reaches the list after b, and the consumer takes b and then x. */
  function CapacityTwoCalls<T>(a: T, b: T, x: T): seq<Call<T>>
  {
    [PushCall(a), PushCall(b), DoPushHop, DoPushHop, ProduceCall,
     DoDoneHop, PushCall(x), ProduceCall, DoPushHop, ProduceCall]
  }

  /** CapacityTwoCalls is a possible interleaving from construction: it ends
      with an empty channel, both units still held by pending do_done hops,
      and the consumer has received a, b, x. */
  lemma CapacityTwoRun<T>(a: T, b: T, x: T)
    ensures Run(Init<T>(2), CapacityTwoCalls(a, b, x))
            == Some((Channel([], [], 2, 2, 2, 2, false, false), [a, b, x]))
  {
    var calls := CapacityTwoCalls(a, b, x);
    var c0: Channel<T> := Channel([], [], 0, 0, 2, 0, false, false);
    var c1: Channel<T> := Channel([], [a], 0, 1, 2, 1, false, false);
    var c2: Channel<T> := Channel([], [a, b], 0, 2, 2, 2, false, false);
    var c10: Channel<T> := Channel([], [], 2, 2, 2, 2, false, false);
    CapacityTwoRunMiddle(a, b, x);
    assert [] + [a, b, x] == [a, b, x] && [] + [a] == [a] && [a] + [b] == [a, b];
    assert Step(c1, PushCall(b)) == (c2, []);
    RunFirst(c1, calls[1..], c10, [a, b, x]);
    assert Step(c0, PushCall(a)) == (c1, []);
    RunFirst(c0, calls[0..], c10, [a, b, x]);
  }

  /** The middle of CapacityTwoRun: a and b reach the list. */
  lemma CapacityTwoRunMiddle<T>(a: T, b: T, x: T)
    ensures Run(Channel([], [a, b], 0, 2, 2, 2, false, false), CapacityTwoCalls(a, b, x)[2..])
            == Some((Channel([], [], 2, 2, 2, 2, false, false), [a, b, x]))
  {
    var calls := CapacityTwoCalls(a, b, x);
    var c2: Channel<T> := Channel([], [a, b], 0, 2, 2, 2, false, false);
    var c3: Channel<T> := Channel([a], [b], 0, 2, 2, 2, true, false);
    var c4: Channel<T> := Channel([a, b], [], 0, 2, 2, 2, true, false);
    var c10: Channel<T> := Channel([], [], 2, 2, 2, 2, false, false);
    CapacityTwoRunTakeA(a, b, x);
    assert [] + [a, b, x] == [a, b, x];
    assert [b][1..] == [] && [a] + [b] == [a, b];
    assert Step(c3, DoPushHop) == (c4, []);
    RunFirst(c3, calls[3..], c10, [a, b, x]);
    assert [a, b][1..] == [b] && [] + [a] == [a];
    assert Step(c2, DoPushHop) == (c3, []);
    RunFirst(c2, calls[2..], c10, [a, b, x]);
  }

  /** The consumer takes a, the front of the list. */
  lemma CapacityTwoRunTakeA<T>(a: T, b: T, x: T)
    ensures Run(Channel([a, b], [], 0, 2, 2, 2, true, false), CapacityTwoCalls(a, b, x)[4..])
            == Some((Channel([], [], 2, 2, 2, 2, false, false), [a, b, x]))
  {
    var calls := CapacityTwoCalls(a, b, x);
    var c4: Channel<T> := Channel([a, b], [], 0, 2, 2, 2, true, false);
    var c5: Channel<T> := Channel([b], [], 1, 2, 2, 2, true, false);
    var c10: Channel<T> := Channel([], [], 2, 2, 2, 2, false, false);
    CapacityTwoRunTail(a, b, x);
    assert Step(c4, ProduceCall) == (c5, [a]);
    RunFirst(c4, calls[4..], c10, [b, x]);
    assert [a] + [b, x] == [a, b, x];
  }

  /** The end of CapacityTwoRun: from b alone on the list with both units
      held, the last five calls produce b and then x. */
  lemma CapacityTwoRunTail<T>(a: T, b: T, x: T)
    ensures Run(Channel([b], [], 1, 2, 2, 2, true, false), CapacityTwoCalls(a, b, x)[5..])
            == Some((Channel([], [], 2, 2, 2, 2, false, false), [b, x]))
  {
    var calls := CapacityTwoCalls(a, b, x);
    var c5: Channel<T> := Channel([b], [], 1, 2, 2, 2, true, false);
    var c6: Channel<T> := Channel([b], [], 0, 1, 2, 1, true, false);
    var c7: Channel<T> := Channel([b], [x], 0, 2, 2, 2, true, false);
    var c8: Channel<T> := Channel([], [x], 1, 2, 2, 2, false, false);
    var c9: Channel<T> := Channel([x], [], 1, 2, 2, 2, true, false);
    var c10: Channel<T> := Channel([], [], 2, 2, 2, 2, false, false);
    assert calls[10..] == [];
    assert Step(c9, ProduceCall) == (c10, [x]);
    RunFirst(c9, calls[9..], c10, []);
    assert [x] + [] == [x];
    assert [x][1..] == [] && [] + [x] == [x];
    assert Step(c8, DoPushHop) == (c9, []);
    RunFirst(c8, calls[8..], c10, [x]);
    assert Step(c7, ProduceCall) == (c8, [b]);
    RunFirst(c7, calls[7..], c10, [x]);
    assert [b] + [x] == [b, x];
    assert Step(c6, PushCall(x)) == (c7, []);
    RunFirst(c6, calls[6..], c10, [b, x]);
    assert Step(c5, DoDoneHop) == (c6, []);
    RunFirst(c5, calls[5..], c10, [b, x]);
  }

  /** How Run unfolds once on a non-empty sequence of calls. */
  lemma RunFirst<T>(c: Channel<T>, calls: seq<Call<T>>, final: Channel<T>, outs: seq<T>)
    requires Valid(c) && calls != [] && Enabled(c, calls[0])
    requires Run(Step(c, calls[0]).0, calls[1..]) == Some((final, outs))
    ensures Run(c, calls) == Some((final, Step(c, calls[0]).1 + outs))
  {
  }

  /** After any interleaving of calls from construction, destroying the channel
      with no push in flight leaves the drain semaphore at zero once the
      outstanding do_done hops have run. */
  lemma DestructionBalancesAfterAnyRun<T>(capacity: int, calls: seq<Call<T>>)
    requires Run(Init<T>(capacity), calls).Some?
    requires Run(Init<T>(capacity), calls).value.0.pendingPushes == []
    ensures Drain(Compensate(Run(Init<T>(capacity), calls).value.0)).drainCount == 0
  {
    DestructorDrainsIffNoPendingPush(Run(Init<T>(capacity), calls).value.0);
  }
}
