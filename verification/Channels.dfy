/** Go channels with a buffer, as objects.  A send to a full channel would wait and a send to a
    closed one would panic, so `Send` requires that neither is the case. */
module Channels {
  class Channel<T> {
    const capacity: nat
    ghost const owner: string  // whose channel it is
    var queue: seq<T>
    var closed: bool

    constructor (capacity: nat, ghost owner: string)
      ensures this.capacity == capacity && this.owner == owner && queue == [] && !closed
    {
      this.capacity, this.owner := capacity, owner;
      queue, closed := [], false;
    }

    method Len() returns (n: nat)
      ensures n == |queue|
    {
      return |queue|;
    }

    method Send(x: T)
      requires !closed && |queue| < capacity
      modifies this`queue
      ensures queue == old(queue) + [x]
    {
      queue := queue + [x];
    }

    method Receive() returns (x: T)
      requires queue != []
      modifies this`queue
      ensures old(queue) == [x] + queue
    {
      x := queue[0];
      queue := queue[1..];
    }

    method Close()
      requires !closed
      modifies this`closed
      ensures closed
    {
      closed := true;
    }
  }
}
