/** Ring buffers over a flat store: the queue a store holds from a head position
    on, and the two-part copy that both rings of the program append with. */
module Rings {
  import opened Arithmetic

  /** The position that is `offset` places after `head` in a store of `size` places. */
  function Slot(size: nat, head: nat, offset: nat): (s: nat)
    requires head < size && offset <= size
    ensures s < size
    ensures s == (head + offset) % size
  {
    WrapOnce(size, head + offset);
    if head + offset < size then head + offset else head + offset - size
  }

  /** The queue in order, oldest first. */
  function Queue<T>(store: seq<T>, head: nat, count: nat): (q: seq<T>)
    requires head < |store| && count <= |store|
    ensures |q| == count
  {
    seq(count, i requires 0 <= i < count => store[Slot(|store|, head, i)])
  }

  lemma DropOldest<T>(store: seq<T>, head: nat, count: nat, n: nat)
    requires head < |store| && n <= count <= |store|
    ensures Queue(store, Slot(|store|, head, n), count - n) == Queue(store, head, count)[n..]
  {
  }

  /** The store after copying data in at a position, the part that does not fit going to the front. */
  function Stored<T>(store: seq<T>, tail: nat, data: seq<T>): (r: seq<T>)
    requires tail < |store| && |data| <= |store|
    ensures |r| == |store|
  {
    var room := |store| - tail;
    if |data| <= room then store[..tail] + data + store[tail + |data|..]
    else data[room..] + store[|data| - room..tail] + data[..room]
  }

  lemma StoredAt<T>(store: seq<T>, tail: nat, data: seq<T>, k: nat)
    requires tail < |store| && |data| <= |store| && k < |store|
    ensures Stored(store, tail, data)[Slot(|store|, tail, k)] == if k < |data| then data[k] else store[Slot(|store|, tail, k)]
  {
  }

  /** Appending behind the queue leaves the queue in place and adds the data after it. */
  lemma AppendNewest<T>(store: seq<T>, head: nat, count: nat, data: seq<T>)
    requires head < |store| && count + |data| <= |store|
    ensures Queue(Stored(store, Slot(|store|, head, count), data), head, count + |data|) == Queue(store, head, count) + data
  {
    var size, tail := |store|, Slot(|store|, head, count);
    var after := Stored(store, tail, data);
    forall i | 0 <= i < count + |data|
      ensures after[Slot(size, head, i)] == (Queue(store, head, count) + data)[i]
    {
      if i < count {
        var k := size - count + i;
        assert Slot(size, head, i) == Slot(size, tail, k) by { SlotShift(size, head, count, k); }
        StoredAt(store, tail, data, k);
      } else {
        SlotShift(size, head, count, i - count);
        StoredAt(store, tail, data, i - count);
      }
    }
  }

  lemma SlotShift(size: nat, head: nat, a: nat, b: nat)
    requires head < size && a <= size && b < size
    ensures Slot(size, Slot(size, head, a), b) == if a + b <= size then Slot(size, head, a + b) else Slot(size, head, a + b - size)
  {
  }

  lemma StoredInTwoParts<T>(store: seq<T>, tail: nat, data: seq<T>)
    requires tail < |store| && |store| - tail < |data| <= |store|
    ensures var room := |store| - tail;
            Stored(store, tail, data) == [] + data[room..] + (store[..tail] + data[..room])[|data| - room..]
  {
  }

  /** A block copy into a store. */
  method CopyInto<T>(store: array<T>, at: nat, data: seq<T>)
    requires at + |data| <= store.Length
    modifies store
    ensures store[..] == old(store[..at]) + data + old(store[at + |data|..])
  {
    forall i | 0 <= i < |data| {
      store[at + i] := data[i];
    }
  }

  /** The wrapped copy: the part up to the end of the store first, then the rest at its front. */
  method Append<T>(store: array<T>, tail: nat, data: seq<T>)
    requires tail < store.Length && |data| <= store.Length
    modifies store
    ensures store[..] == Stored(old(store[..]), tail, data)
  {
    ghost var before := store[..];
    var first := if |data| <= store.Length - tail then |data| else store.Length - tail;
    CopyInto(store, tail, data[..first]);
    if |data| > first {
      ghost var middle := store[..];
      StoredInTwoParts(before, tail, data);
      assert middle == before[..tail] + data[..first];
      CopyInto(store, 0, data[first..]);
      assert store[..] == [] + data[first..] + middle[|data| - first..];
    } else {
      assert data[..first] == data;
    }
  }
}
