/** The ring buffer of a queue. */
module Rings {
  import opened Model

  class Ring {
    const storage: array<Bytes>
    var head: nat
    var tail: nat
    var count: nat

    ghost predicate Valid()
      reads this
    {
      && head < storage.Length && tail < storage.Length && count <= storage.Length
      && tail == if head + count < storage.Length then head + count else head + count - storage.Length
    }

    /** The queued items, oldest first. */
    ghost function Contents(): (r: seq<Bytes>)
      requires Valid()
      reads this, storage
      ensures |r| == count
    {
      if head + count <= storage.Length then storage[head..head + count]
      else storage[head..] + storage[..head + count - storage.Length]
    }

    constructor (capacity: nat)
      requires capacity > 0
      ensures Valid() && fresh(storage) && storage.Length == capacity && Contents() == []
    {
      storage := new Bytes[capacity](i => []);
      head, tail, count := 0, 0, 0;
    }

    method PushRaw(x: Bytes)
      requires Valid() && count < storage.Length
      modifies this, storage
      ensures Valid() && Contents() == old(Contents()) + [x]
    {
      storage[tail] := x;
      tail := tail + 1;
      if tail == storage.Length { tail := 0; }
      count := count + 1;
    }

    method PopRaw() returns (x: Bytes)
      requires Valid() && count > 0
      modifies this
      ensures Valid() && old(Contents()) == [x] + Contents()
    {
      ghost var items := Contents();
      x := storage[head];
      head := head + 1;
      if head == storage.Length { head := 0; }
      count := count - 1;
      assert items[0] == x && Contents() == items[1..];
    }
  }
}
