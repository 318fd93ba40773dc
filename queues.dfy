/** The bounded FIFO queues that carry data from the acquisition side to the
    data writer. */
module Queues {

  /** A FIFO of at most `capacity` items. */
  class BoundedQueue<T> {
    var items: seq<T>
    const capacity: nat

    ghost predicate Valid()
      reads this
    {
      |items| <= capacity
    }

    constructor (capacity: nat)
      ensures Valid()
      ensures this.capacity == capacity && items == []
    {
      this.capacity := capacity;
      items := [];
    }

    predicate IsEmpty()
      reads this
    {
      items == []
    }

    /** Appends `x` when there is room. A full queue refuses the item (`ok` is
        false) and is left as it was. */
    method Put(x: T) returns (ok: bool)
      requires Valid()
      modifies this
      ensures Valid()
      ensures ok <==> |old(items)| < capacity
      ensures items == if ok then old(items) + [x] else old(items)
    {
      ok := |items| < capacity;
      if ok {
        items := items + [x];
      }
    }

    /** Removes and returns the oldest item. */
    method Get() returns (x: T)
      requires items != []
      modifies this
      ensures x == old(items)[0] && items == old(items)[1..]
    {
      x := items[0];
      items := items[1..];
    }
  }
}
