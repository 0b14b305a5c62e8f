// ThreadSafeQueue as its callers see it: each method runs under the queue mutex, which QueueLocks
// shows to make it one atomic operation of a sequential queue.

module Queues {
  import opened Bytes
  import opened QueueLocks

  class ThreadSafeQueue<T> {
    var data: seq<T>

    constructor ()
      ensures data == []
    {
      data := [];
    }

    method Peek(front: bool) returns (t: T)
      requires data != []
      ensures (data, Item(t)) == Sequential(data, if front then PeekFront else PeekBack)
    {
      t := if front then data[0] else data[|data| - 1];
    }

    method PopFrontItem() returns (t: T)
      requires data != []
      modifies this
      ensures (data, Item(t)) == Sequential(old(data), PopFront)
    {
      t := data[0];
      data := data[1..];
    }

    method PopBackItem() returns (t: T)
      requires data != []
      modifies this
      ensures (data, Item(t)) == Sequential(old(data), PopBack)
    {
      t := data[|data| - 1];
      data := data[..|data| - 1];
    }

    method PushFrontItem(item: T)
      modifies this
      ensures (data, Done) == Sequential(old(data), PushFront(item))
    {
      data := [item] + data;
    }

    method PushBackItem(item: T)
      modifies this
      ensures (data, Done) == Sequential(old(data), PushBack(item))
    {
      data := data + [item];
    }

    method LooksEmpty() returns (empty: bool)
      ensures (data, Answer(empty)) == Sequential(data, IsEmpty)
    {
      empty := |data| == 0;
    }

    method Count() returns (n: nat)
      ensures (data, QueueLocks.Count(n)) == Sequential(data, Size)
    {
      n := |data|;
    }

    method Clear()
      modifies this
      ensures (data, Done) == Sequential(old(data), QueueLocks.Clear)
    {
      data := [];
    }
  }
}
