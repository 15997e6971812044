/** ResourceSet<Type, Size> of the Direct3D 12 backend: a fixed table of Size
    slots plus a FIFO list of free slot indices. `push` takes the front of the
    free list, `erase` appends to its back and resets the slot; neither checks
    whether the index is live. */
module ResourceSets {

  /** The abstract value of a table: the slot contents and the free list. */
  datatype Slots<T> = Slots(data: seq<T>, ids: seq<nat>)

  /** 0, 1, ..., n - 1. */
  function Indices(n: nat): (r: seq<nat>)
    ensures |r| == n && forall i :: 0 <= i < n ==> r[i] == i
  {
    if n == 0 then [] else Indices(n - 1) + [n - 1]
  }

  /** Every free-list entry names a slot of the table. */
  predicate WellFormed<T>(s: Slots<T>) {
    forall i :: 0 <= i < |s.ids| ==> s.ids[i] < |s.data|
  }

  predicate NoDuplicates(ids: seq<nat>) {
    forall i, j :: 0 <= i < j < |ids| ==> ids[i] != ids[j]
  }

  /** A new or cleared table: every slot empty, every index free, ascending. */
  function Fresh<T>(size: nat, empty: T): (s: Slots<T>)
    ensures WellFormed(s) && NoDuplicates(s.ids)
    ensures |s.data| == size && s.ids == Indices(size)
  {
    Slots(seq(size, _ => empty), Indices(size))
  }

  /** push: the front of the free list receives the element and is returned. */
  function AfterPush<T>(s: Slots<T>, e: T): (r: (Slots<T>, nat))
    requires WellFormed(s) && |s.ids| > 0
    ensures WellFormed(r.0) && |r.0.data| == |s.data|
    ensures r.1 == s.ids[0] && r.0.ids == s.ids[1..] && r.0.data[r.1] == e
    ensures forall k :: 0 <= k < |s.data| && k != r.1 ==> r.0.data[k] == s.data[k]
  {
    (Slots(s.data[s.ids[0] := e], s.ids[1..]), s.ids[0])
  }

  /** erase: the slot is reset and its index appended to the free list. */
  function AfterErase<T>(s: Slots<T>, index: nat, empty: T): (r: Slots<T>)
    requires WellFormed(s) && index < |s.data|
    ensures WellFormed(r) && |r.data| == |s.data|
    ensures r.ids == s.ids + [index] && r.data[index] == empty
    ensures forall k :: 0 <= k < |s.data| && k != index ==> r.data[k] == s.data[k]
  {
    Slots(s.data[index := empty], s.ids + [index])
  }

  /** Pushing the elements `es` one after another: the final table and the
      indices handed out, in order. */
  function PushAll<T>(s: Slots<T>, es: seq<T>): (r: (Slots<T>, seq<nat>))
    requires WellFormed(s) && |es| <= |s.ids|
    ensures |r.1| == |es| && |r.0.data| == |s.data|
    decreases |es|
  {
    if |es| == 0 then (s, [])
    else
      var (s1, i) := AfterPush(s, es[0]);
      var (s2, rest) := PushAll(s1, es[1..]);
      (s2, [i] + rest)
  }

  /** Reuse is first-in first-out: n pushes hand out the first n free indices,
      in free-list order, and leave the rest of the list. */
  lemma {:induction false} PushAllIsFifo<T>(s: Slots<T>, es: seq<T>)
    requires WellFormed(s) && |es| <= |s.ids|
    ensures PushAll(s, es).1 == s.ids[..|es|]
    ensures PushAll(s, es).0.ids == s.ids[|es|..]
    ensures WellFormed(PushAll(s, es).0)
    decreases |es|
  {
    if |es| > 0 {
      var (s1, i) := AfterPush(s, es[0]);
      PushAllIsFifo(s1, es[1..]);
      assert s.ids[..|es|] == [s.ids[0]] + s.ids[1..][..|es| - 1];
      assert s.ids[|es|..] == s.ids[1..][|es| - 1..];
    }
  }

  /** A fresh table hands out 0, 1, 2, ... in ascending order. */
  lemma FreshHandsOutAscending<T>(size: nat, empty: T, es: seq<T>)
    requires |es| <= size
    ensures PushAll(Fresh(size, empty), es).1 == Indices(|es|)
  {
    PushAllIsFifo(Fresh(size, empty), es);
  }

  /** Erasing an index that is not free keeps the free list free of duplicates. */
  lemma EraseOfLiveIndexKeepsNoDuplicates<T>(s: Slots<T>, index: nat, empty: T)
    requires WellFormed(s) && NoDuplicates(s.ids) && index < |s.data| && index !in s.ids
    ensures NoDuplicates(AfterErase(s, index, empty).ids)
  {
  }

  /** erase has no guard: erasing the same index twice lists it twice, and two
      later pushes both return it, so two live handles share one slot. */
  lemma {:induction false} DoubleEraseHandsOutTwice<T>(s: Slots<T>, index: nat, empty: T, es: seq<T>)
    requires WellFormed(s) && index < |s.data| && |es| == |s.ids| + 2
    ensures var twice := AfterErase(AfterErase(s, index, empty), index, empty);
      !NoDuplicates(twice.ids) &&
      PushAll(twice, es).1[|s.ids|] == index && PushAll(twice, es).1[|s.ids| + 1] == index
  {
    var twice := AfterErase(AfterErase(s, index, empty), index, empty);
    assert twice.ids == s.ids + [index, index];
    assert twice.ids[|s.ids|] == twice.ids[|s.ids| + 1];
    PushAllIsFifo(twice, es);
  }

  class ResourceSet<T> {
    const data: array<T>
    var ids: seq<nat>
    /** Type{}, the value a reset slot holds. */
    const empty: T

    ghost predicate Valid()
      reads this
    {
      forall i :: 0 <= i < |ids| ==> ids[i] < data.Length
    }

    ghost function State(): (s: Slots<T>)
      reads this, data
      ensures Valid() ==> WellFormed(s)
    {
      Slots(data[..], ids)
    }

    /** fill_data: append 0, ..., Size - 1 to the free list. */
    method FillIds()
      requires ids == []
      modifies this`ids
      ensures ids == Indices(data.Length)
    {
      var i := 0;
      while i < data.Length
        invariant 0 <= i <= data.Length
        invariant ids == Indices(i)
      {
        ids := ids + [i];
        i := i + 1;
      }
    }

    constructor (size: nat, empty: T)
      ensures Valid() && fresh(data) && this.empty == empty
      ensures State() == Fresh(size, empty)
    {
      data := new T[size](_ => empty);
      this.empty := empty;
      ids := [];
      new;
      FillIds();
    }

    method Push(e: T) returns (index: nat)
      requires Valid() && |ids| > 0
      modifies this, data
      ensures Valid()
      ensures (State(), index) == AfterPush(old(State()), e)
    {
      index := ids[0];
      ids := ids[1..];
      data[index] := e;
    }

    method Erase(index: nat)
      requires Valid() && index < data.Length
      modifies this, data
      ensures Valid()
      ensures State() == AfterErase(old(State()), index, empty)
    {
      ids := ids + [index];
      data[index] := empty;
    }

    /** clear: every slot reset, the free list rebuilt as 0, ..., Size - 1. */
    method Clear()
      modifies this, data
      ensures Valid()
      ensures State() == Fresh(data.Length, empty)
    {
      forall k | 0 <= k < data.Length {
        data[k] := empty;
      }
      ids := [];
      FillIds();
    }

    /** operator[] */
    function Get(index: nat): T
      requires index < data.Length
      reads data
    {
      data[index]
    }
  }
}
