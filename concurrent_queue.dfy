/**
 * `ConcurrentQueue<T, max_size>` of the newer engine, mutex variant: a FIFO
 * bounded by `max_size` (unbounded when it is `unlimited_size`). Each
 * operation is one atomic step; a blocking wait is the condition under
 * which the call can return, and a timed wait that expires finds the queue
 * as it was.
 */
module ConcurrentQueueModel {

  /** `unlimited_size` = `SIZE_MAX` on a 64-bit target. */
  const UNLIMITED_SIZE: nat := 0xFFFF_FFFF_FFFF_FFFF

  class ConcurrentQueue<T> {
    var items: seq<T>
    const maxSize: nat
    /** `T{}`, what a pop returns when there is nothing to pop. */
    const empty: T

    ghost predicate Valid()
      reads this
    {
      maxSize > 0 && (maxSize == UNLIMITED_SIZE || |items| <= maxSize)
    }

    constructor (capacity: nat, none: T)
      requires capacity > 0
      ensures Valid() && items == [] && maxSize == capacity && empty == none
    {
      items := [];
      maxSize := capacity;
      empty := none;
    }

    /** `try_pop`: the front element, or `T{}` and no change when the queue is empty. */
    method TryPop() returns (r: T)
      requires Valid()
      modifies this
      ensures Valid()
      ensures old(items) == [] ==> r == empty && items == []
      ensures old(items) != [] ==> r == old(items)[0] && items == old(items)[1..]
    {
      if |items| == 0 {
        return empty;
      }
      r := items[0];
      items := items[1..];
    }

    /** `wait_pop`: waits until there is an element, then removes the front one. */
    method WaitPop() returns (r: T)
      requires Valid() && items != []
      modifies this
      ensures Valid()
      ensures r == old(items)[0] && items == old(items)[1..]
    {
      r := items[0];
      items := items[1..];
    }

    /** `timed_pop`: `T{}` if the queue is still empty when the wait ends, else the front element. */
    method TimedPop() returns (r: T)
      requires Valid()
      modifies this
      ensures Valid()
      ensures old(items) == [] ==> r == empty && items == []
      ensures old(items) != [] ==> r == old(items)[0] && items == old(items)[1..]
    {
      if items == [] {
        return empty;
      }
      r := items[0];
      items := items[1..];
    }

    /** `force_push`: on a full queue the oldest element is dropped and returned; then the item is appended. */
    method ForcePush(x: T) returns (dropped: T)
      requires Valid()
      modifies this
      ensures Valid()
      ensures maxSize != UNLIMITED_SIZE ==> |items| <= maxSize
      ensures |old(items)| >= maxSize ==> dropped == old(items)[0] && items == old(items)[1..] + [x]
      ensures |old(items)| < maxSize ==> dropped == empty && items == old(items) + [x]
    {
      dropped := empty;
      if |items| >= maxSize {
        dropped := items[0];
        items := items[1..];
      }
      items := items + [x];
    }

    /** `try_push`: appends and reports true, or reports false and changes nothing when full. */
    method TryPush(x: T) returns (pushed: bool)
      requires Valid()
      modifies this
      ensures Valid()
      ensures pushed <==> |old(items)| < maxSize
      ensures items == if pushed then old(items) + [x] else old(items)
    {
      if |items| >= maxSize {
        return false;
      }
      items := items + [x];
      return true;
    }

    /** Whether `wait_push` would have to wait: only a bounded, full queue makes it wait. */
    predicate WaitPushBlocks()
      reads this
    {
      maxSize != UNLIMITED_SIZE && |items| >= maxSize
    }

    /** `wait_push`: waits for room when bounded, then appends. */
    method WaitPush(x: T)
      requires Valid() && !WaitPushBlocks()
      modifies this
      ensures Valid()
      ensures items == old(items) + [x]
    {
      items := items + [x];
    }

    /** Items come out in the order they went in. */
    method PushThenPop(x: T, y: T) returns (first: T, second: T)
      requires Valid() && items == [] && maxSize >= 2
      modifies this
      ensures Valid() && items == []
      ensures first == x && second == y
    {
      WaitPush(x);
      WaitPush(y);
      first := WaitPop();
      second := WaitPop();
    }
  }

  /** An unbounded queue never makes `wait_push` wait. */
  lemma UnlimitedNeverBlocks(q: ConcurrentQueue<int>)
    requires q.maxSize == UNLIMITED_SIZE
    ensures !q.WaitPushBlocks()
  {
  }
}
