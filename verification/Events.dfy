/** The bounded channel through which handlers and the monitor publish fleet events: sends never block. */
module Events {
  import opened FleetTypes

  datatype Event = Event(kind: string, node: NodeId, row: Node, at: Time)

  /** A non-blocking send: the event is dropped when the buffer is full. */
  function Offer<T>(queue: seq<T>, capacity: nat, e: T): (r: seq<T>)
    ensures queue <= r
    ensures |queue| < capacity ==> r == queue + [e]
    ensures |queue| >= capacity ==> r == queue
  {
    if |queue| < capacity then queue + [e] else queue
  }

  function OfferAll<T>(queue: seq<T>, capacity: nat, es: seq<T>): (r: seq<T>)
    ensures queue <= r
    ensures |queue| <= capacity ==> |r| <= capacity
    ensures |queue| + |es| <= capacity ==> r == queue + es
  {
    if es == [] then queue
    else Offer(OfferAll(queue, capacity, es[..|es| - 1]), capacity, es[|es| - 1])
  }

  lemma {:induction false} OfferAllSplit<T>(queue: seq<T>, capacity: nat, first: seq<T>, second: seq<T>)
    ensures OfferAll(queue, capacity, first + second) == OfferAll(OfferAll(queue, capacity, first), capacity, second)
    decreases |second|
  {
    if second == [] {
      assert first + second == first;
    } else {
      var init := second[..|second| - 1];
      OfferAllSplit(queue, capacity, first, init);
      assert (first + second)[..|first + second| - 1] == first + init;
    }
  }

  class Channel {
    const capacity: nat
    var queue: seq<Event>

    constructor (capacity: nat)
      ensures this.capacity == capacity && queue == []
    {
      this.capacity := capacity;
      queue := [];
    }

    method Send(e: Event)
      modifies this
      ensures queue == Offer(old(queue), capacity, e)
    {
      if |queue| < capacity {
        queue := queue + [e];
      }
    }
  }
}
