/**
 * The older `concurrent_queue<T>`: a deque with a `try_pop_skip` flag that
 * lets `try_pop` return without locking after it has once found the deque
 * empty. Every push clears the flag. Operations are atomic steps.
 */
module ConcurrentDequeModel {
  import opened Wrappers

  class ConcurrentDeque<T> {
    var items: seq<T>
    var tryPopSkip: bool

    /** Sequentially, the flag is only ever set on an empty deque. */
    ghost predicate Valid()
      reads this
    {
      tryPopSkip ==> items == []
    }

    constructor ()
      ensures Valid() && items == [] && !tryPopSkip
    {
      items := [];
      tryPopSkip := false;
    }

    /** `empty`. */
    function Empty(): (r: bool)
      reads this
      ensures r <==> |items| == 0
    {
      |items| == 0
    }

    /** `size`. */
    function Size(): (n: nat)
      reads this
      ensures n == |items|
    {
      |items|
    }

    /** `emplace_back` (and `push`): appends and clears the skip flag. */
    method EmplaceBack(x: T)
      requires Valid()
      modifies this
      ensures Valid() && items == old(items) + [x] && !tryPopSkip
    {
      items := items + [x];
      tryPopSkip := false;
    }

    /** `push`. */
    method Push(x: T)
      requires Valid()
      modifies this
      ensures Valid() && items == old(items) + [x] && !tryPopSkip
    {
      EmplaceBack(x);
    }

    /** `emplace_front`: inserts at the front and clears the skip flag. */
    method EmplaceFront(x: T)
      requires Valid()
      modifies this
      ensures Valid() && items == [x] + old(items) && !tryPopSkip
    {
      items := [x] + items;
      tryPopSkip := false;
    }

    /** `pop`: waits for an element, then removes and returns the front one. */
    method Pop() returns (r: T)
      requires Valid() && items != []
      modifies this
      ensures Valid() && r == old(items)[0] && items == old(items)[1..]
    {
      r := items[0];
      items := items[1..];
    }

    /** `try_pop`: nothing while the skip flag is set or the deque is empty (which sets the flag). */
    method TryPop() returns (r: Option<T>)
      requires Valid()
      modifies this
      ensures Valid()
      ensures r.None? <==> old(items) == []
      ensures r.None? ==> items == old(items) && tryPopSkip
      ensures r.Some? ==> r.value == old(items)[0] && items == old(items)[1..] && tryPopSkip == old(tryPopSkip)
    {
      if tryPopSkip {
        return None;
      }
      if |items| == 0 {
        tryPopSkip := true;
        return None;
      }
      r := Some(items[0]);
      items := items[1..];
    }
  }
}
