/** ConcurrentQueue<Type, Size>: a ring buffer of Size + 1 slots with a head
    and a tail index. It is modelled sequentially: the atomic loads and stores
    become plain field reads and writes. The queue's contents are the slots
    from head up to (not including) tail, going round the ring. */
module ConcurrentQueues {
  import opened Wrappers

  const SizeT: int := 0x1_0000_0000_0000_0000

  /** (i + 1) % c for an index i of a ring of c slots. */
  function Next(i: nat, c: nat): (r: nat)
    requires i < c
    ensures r < c && r == (i + 1) % c
  {
    Wrap(i + 1, c);
    if i + 1 == c then 0 else i + 1
  }

  /** A position less than twice round the ring, reduced once. */
  lemma Wrap(x: nat, c: nat)
    requires 0 < c && x < 2 * c
    ensures x % c == if x < c then x else x - c
  {
    if x >= c {
      assert x == c + (x - c);
    }
  }

  /** The number of slots from head to tail going round the ring. */
  function Count(head: nat, tail: nat, c: nat): (r: nat)
    requires head < c && tail < c
    ensures r < c
  {
    if tail >= head then tail - head else tail + c - head
  }

  /** The slot k places after head. */
  function At(head: nat, k: nat, c: nat): (r: nat)
    requires head < c && k < c
    ensures r < c && r == (head + k) % c
  {
    Wrap(head + k, c);
    if head + k < c then head + k else head + k - c
  }

  /** The slots from head to tail, going round a ring of |slots| slots. */
  function Contents<T>(slots: seq<T>, head: nat, tail: nat): (r: seq<T>)
    requires head < |slots| && tail < |slots|
    ensures |r| == Count(head, tail, |slots|)
    ensures forall k :: 0 <= k < |r| ==> r[k] == slots[At(head, k, |slots|)]
  {
    seq(Count(head, tail, |slots|), k requires 0 <= k < Count(head, tail, |slots|) => slots[At(head, k, |slots|)])
  }

  /** The ring is full exactly when it holds |slots| - 1 elements, the
      template's Size. */
  lemma FullIffSizeElements<T>(slots: seq<T>, head: nat, tail: nat)
    requires head < |slots| && tail < |slots|
    ensures Next(tail, |slots|) == head <==> |Contents(slots, head, tail)| == |slots| - 1
  {
  }

  /** The ring is empty exactly when head equals tail. */
  lemma EmptyIffHeadIsTail<T>(slots: seq<T>, head: nat, tail: nat)
    requires head < |slots| && tail < |slots|
    ensures head == tail <==> |Contents(slots, head, tail)| == 0
  {
  }

  /** Storing at tail and advancing tail appends the element, unless the ring
      is full. */
  lemma PushAppends<T>(slots: seq<T>, head: nat, tail: nat, x: T)
    requires head < |slots| && tail < |slots| && Next(tail, |slots|) != head
    ensures Contents(slots[tail := x], head, Next(tail, |slots|)) == Contents(slots, head, tail) + [x]
  {
    var c := |slots|;
    var before := Contents(slots, head, tail);
    var after := Contents(slots[tail := x], head, Next(tail, c));
    var n := |before|;
    assert |after| == n + 1;
    forall k | 0 <= k < n + 1 ensures after[k] == (before + [x])[k] {
      if k < n {
        assert At(head, k, c) != tail;
      } else {
        assert At(head, k, c) == tail;
      }
    }
  }

  /** Advancing head drops the first element. */
  lemma PopDropsFirst<T>(slots: seq<T>, head: nat, tail: nat)
    requires head < |slots| && tail < |slots| && head != tail
    ensures |Contents(slots, head, tail)| > 0
    ensures Contents(slots, Next(head, |slots|), tail) == Contents(slots, head, tail)[1..]
  {
    var c := |slots|;
    var before := Contents(slots, head, tail);
    var after := Contents(slots, Next(head, c), tail);
    assert |after| == |before| - 1;
    forall k | 0 <= k < |after| ensures after[k] == before[k + 1] {
      assert At(Next(head, c), k, c) == At(head, k + 1, c);
    }
  }

  /** size(): tail - head in size_t arithmetic. */
  function UnsignedSize(head: nat, tail: nat): (r: nat)
    requires head < SizeT && tail < SizeT
    ensures r < SizeT
    ensures tail >= head ==> r == tail - head
    ensures tail < head ==> r == SizeT - (head - tail)
  {
    (tail - head) % SizeT
  }

  /** size() is the element count while tail >= head; after the tail wraps
      behind the head it is the count plus 2^64 - (Size + 1), far larger
      than Size. */
  lemma SizeAfterWrap<T>(slots: seq<T>, head: nat, tail: nat)
    requires head < |slots| && tail < |slots| && |slots| < SizeT
    ensures tail >= head ==> UnsignedSize(head, tail) == |Contents(slots, head, tail)|
    ensures tail < head ==> UnsignedSize(head, tail) == |Contents(slots, head, tail)| + SizeT - |slots|
    ensures tail < head ==> UnsignedSize(head, tail) >= SizeT - |slots|
  {
  }

  class ConcurrentQueue<T> {
    const size: nat
    const data: array<T>
    var head: nat
    var tail: nat

    ghost predicate Valid()
      reads this
    {
      data.Length == size + 1 && head < data.Length && tail < data.Length
    }

    /** The queued elements, oldest first. */
    ghost function Elements(): (r: seq<T>)
      reads this, data
      requires Valid()
      ensures |r| <= size
    {
      Contents(data[..], head, tail)
    }

    /** _data.resize(Capacity) with default-constructed slots; head and tail
        start at 0. */
    constructor (size: nat, default: T)
      requires size + 1 < SizeT
      ensures Valid() && fresh(data) && this.size == size
      ensures head == 0 && tail == 0 && Elements() == []
    {
      this.size := size;
      data := new T[size + 1](_ => default);
      head := 0;
      tail := 0;
    }

    /** The move constructor: `_data = other._data` copies the slots (other is
        an lvalue there), and head and tail are copied; other is left as it
        was. */
    constructor Moved(other: ConcurrentQueue<T>)
      requires other.Valid()
      ensures Valid() && fresh(data) && size == other.size
      ensures head == other.head && tail == other.tail && data[..] == other.data[..]
      ensures Elements() == other.Elements()
    {
      size := other.size;
      data := new T[other.data.Length](i requires 0 <= i < other.data.Length reads other.data => other.data[i]);
      head := other.head;
      tail := other.tail;
    }

    /** try_push: fails, changing nothing, exactly when Size elements are
        held; otherwise stores at tail and advances it. */
    method TryPush(x: T) returns (ok: bool)
      requires Valid()
      modifies this, data
      ensures Valid()
      ensures ok <==> Next(old(tail), data.Length) != old(head)
      ensures ok <==> |old(Elements())| < size
      ensures ok ==> Elements() == old(Elements()) + [x]
      ensures !ok ==> Elements() == old(Elements()) && data[..] == old(data[..]) && tail == old(tail)
      ensures head == old(head)
    {
      FullIffSizeElements(data[..], head, tail);
      var current := tail;
      var next := Next(current, data.Length);
      if next != head {
        PushAppends(data[..], head, tail, x);
        data[current] := x;
        assert data[..] == old(data[..])[current := x];
        tail := next;
        ok := true;
      } else {
        ok := false;
      }
    }

    /** try_pop: fails exactly when head == tail; otherwise hands out the
        element at head and advances head. The moved-from slot keeps its
        value in this model. */
    method TryPop() returns (r: Option<T>)
      requires Valid()
      modifies this
      ensures Valid() && tail == old(tail)
      ensures r.None? <==> old(head) == old(tail)
      ensures r.None? <==> |old(Elements())| == 0
      ensures r.Some? ==> r.value == old(Elements())[0] && Elements() == old(Elements())[1..]
      ensures r.None? ==> Elements() == old(Elements()) && head == old(head)
    {
      EmptyIffHeadIsTail(data[..], head, tail);
      var current := head;
      if current == tail {
        r := None;
      } else {
        PopDropsFirst(data[..], head, tail);
        r := Some(data[current]);
        head := Next(current, data.Length);
      }
    }

    /** empty(): head == tail, which is exactly an empty queue. */
    method Empty() returns (b: bool)
      requires Valid()
      ensures b <==> head == tail
      ensures b <==> |Elements()| == 0
    {
      EmptyIffHeadIsTail(data[..], head, tail);
      b := head == tail;
    }

    /** size(): the unsigned difference tail - head. */
    method Size() returns (n: nat)
      requires Valid() && data.Length < SizeT
      ensures n == UnsignedSize(head, tail)
      ensures tail >= head ==> n == |Elements()|
      ensures tail < head ==> n == |Elements()| + SizeT - data.Length
    {
      SizeAfterWrap(data[..], head, tail);
      n := (tail - head) % SizeT;
    }
  }
}
