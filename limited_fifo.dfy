/** cross_thread_limited_fifo_t as an object whose methods update its fields in
    place. Each method is proved against the matching step of FifoModel, whose
    Valid predicate (flag, conservation, drain balance) every method keeps.

    Besides the object's own fields, the class keeps the cross-thread work in
    flight: do_pusher_t hops not yet run on the home thread (pendingPushes) and
    do_done_caller_t hops not yet run on the source thread (pendingDones). A hop
    running is a method call of its own (DoPush, DoDone), so an interleaving of
    the two threads is a sequence of method calls. */
module LimitedFifo {
  import M = FifoModel

  /** The fields are those of FifoModel.Channel, one by one; Model() is the
      abstraction function that reads them back as a Channel value. */
  class CrossThreadLimitedFifo<T> {
    var queue: seq<T>
    var pendingPushes: seq<T>
    var pendingDones: nat
    var admitted: int      // the admission semaphore's units held
    var capacity: int      // the admission semaphore's capacity
    var drainCount: int    // the drain semaphore's acquires minus releases
    var available: bool
    var inDestructor: bool

    /** The object's state as a value of the model. */
    ghost function Model(): M.Channel<T>
      reads this
    {
      M.Channel(queue, pendingPushes, pendingDones, admitted, capacity, drainCount, available, inDestructor)
    }

    ghost predicate Valid()
      reads this
    {
      M.Valid(Model())
    }

    constructor (capacity: int)
      ensures Valid() && Model() == M.Init(capacity)
    {
      queue := [];
      pendingPushes := [];
      pendingDones := 0;
      admitted := 0;
      this.capacity := capacity;
      drainCount := 0;
      available := false;
      inDestructor := false;
    }

    /** push, on the source thread. The wait for a free admission unit is the
        precondition admitted < capacity. */
    method Push(value: T)
      requires Valid() && !inDestructor && admitted < capacity
      modifies this
      ensures Valid() && Model() == M.Push(old(Model()), value)
    {
      drainCount := drainCount + 1;
      admitted := admitted + 1;
      pendingPushes := pendingPushes + [value];
    }

    /** set_capacity, after its hop to the source thread. */
    method SetCapacity(capacity: int)
      requires Valid()
      modifies this
      ensures Valid() && Model() == M.SetCapacity(old(Model()), capacity)
    {
      this.capacity := capacity;
    }

    /** do_push, run on the home thread by the oldest do_pusher_t hop. */
    method DoPush()
      requires Valid() && pendingPushes != [] && !inDestructor
      modifies this
      ensures Valid() && Model() == M.DoPush(old(Model()))
    {
      var value := pendingPushes[0];
      pendingPushes := pendingPushes[1..];
      queue := queue + [value];
      available := queue != [];
    }

    /** do_done, run on the source thread by a do_done_caller_t hop. */
    method DoDone()
      requires Valid() && pendingDones > 0
      modifies this
      ensures Valid() && Model() == M.DoDone(old(Model()))
    {
      admitted := admitted - 1;
      drainCount := drainCount - 1;
      pendingDones := pendingDones - 1;
    }

    /** produce_next_value, on the home thread, while the flag is set. */
    method ProduceNextValue() returns (v: T)
      requires Valid() && available && !inDestructor
      modifies this
      ensures Valid() && (v, Model()) == M.ProduceNextValue(old(Model()))
    {
      v := queue[0];
      queue := queue[1..];
      pendingDones := pendingDones + 1;
      available := queue != [];
    }

    /** The destructor. It sets the teardown flag, releases one drain unit per
        item left on the list (counted before the loop), and then waits in
        drain() until the drain count is zero; while it waits, the source thread
        runs the do_done hops still queued for it, one per iteration below. It
        may only start when no do_pusher_t hop is in flight (see
        FifoModel.DestructorDrainsIffNoPendingPush). */
    method Destroy()
      requires Valid() && !inDestructor && pendingPushes == []
      modifies this
      ensures Valid() && Model() == M.Drain(M.Compensate(old(Model())))
      ensures drainCount == 0 && pendingDones == 0
      ensures queue == old(queue) && admitted == |queue|
    {
      inDestructor := true;
      var releases := |queue|;
      for i := 0 to releases
        invariant drainCount == old(drainCount) - i
        invariant Model() == old(Model()).(inDestructor := true, drainCount := drainCount)
      {
        drainCount := drainCount - 1;
      }
      assert Model() == M.Compensate(old(Model()));
      while drainCount != 0
        invariant Valid() && M.Drain(Model()) == M.Drain(M.Compensate(old(Model())))
        invariant drainCount == pendingDones
        decreases pendingDones
      {
        DoDone();
      }
    }
  }

  /** Capacity 2: push a and b, a third push would wait; the consumer takes a,
      its do_done frees a unit, x is pushed, and the consumer gets b then x.
      Destroying the emptied queue leaves the drain semaphore at zero. */
  method CapacityTwoScenario<T>(a: T, b: T, x: T) returns (produced: seq<T>, drained: int)
    ensures produced == [a, b, x] && drained == 0
  {
    var fifo := new CrossThreadLimitedFifo<T>(2);
    fifo.Push(a);
    fifo.Push(b);
    assert !(fifo.admitted < fifo.capacity);
    fifo.DoPush();
    fifo.DoPush();
    var first := fifo.ProduceNextValue();
    fifo.DoDone();
    fifo.Push(x);
    var second := fifo.ProduceNextValue();
    fifo.DoPush();
    var third := fifo.ProduceNextValue();
    fifo.Destroy();
    produced, drained := [first, second, third], fifo.drainCount;
  }

  /** Capacity 1: a is pushed and reaches the list but is never consumed; the
      destructor compensates for it and the drain completes. */
  method DestroyWithUnconsumedItem<T>(a: T) returns (left: seq<T>, drained: int)
    ensures left == [a] && drained == 0
  {
    var fifo := new CrossThreadLimitedFifo<T>(1);
    fifo.Push(a);
    fifo.DoPush();
    fifo.Destroy();
    left, drained := fifo.queue, fifo.drainCount;
  }
}
