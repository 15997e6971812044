/** core::ref_counted_object and core::ref_ptr: an intrusive uint32 reference
    count and the smart pointer that adjusts it. The atomic counter is a plain
    field here; `delete` is modelled by a `deleted` flag on the object, and
    touching a deleted object (undefined behaviour) is excluded by a
    precondition. The deleter is always the default one. */
module RefPtrs {

  const U32: int := 0x1_0000_0000
  type Uint32 = x: int | 0 <= x < U32

  class RefCounted {
    var refCount: Uint32
    var deleted: bool

    /** A new object has count 0. */
    constructor ()
      ensures refCount == 0 && !deleted
    {
      refCount := 0;
      deleted := false;
    }

    /** The copy and move constructors take over the other object's count. */
    constructor Copied(other: RefCounted)
      ensures refCount == other.refCount && !deleted
    {
      refCount := other.refCount;
      deleted := false;
    }

    /** The copy and move assignments overwrite the count with the other's. */
    method AssignCount(other: RefCounted)
      requires !deleted
      modifies this
      ensures refCount == old(other.refCount) && !deleted
    {
      refCount := other.refCount;
    }

    /** add_ref: ++ref_count, returning the new count (uint32 wrap-around). */
    method AddRef() returns (count: Uint32)
      requires !deleted
      modifies this
      ensures count == refCount == (old(refCount) + 1) % U32 && !deleted
    {
      refCount := (refCount + 1) % U32;
      count := refCount;
    }

    /** release: --ref_count, returning the new count; 0 wraps to 2^32 - 1. */
    method Release() returns (count: Uint32)
      requires !deleted
      modifies this
      ensures count == refCount == (old(refCount) - 1) % U32 && !deleted
      ensures old(refCount) == 0 ==> count == U32 - 1
    {
      refCount := (refCount - 1) % U32;
      count := refCount;
    }
  }

  class RefPtr {
    var ptr: RefCounted?

    /** ref_ptr(nullptr): holds nothing and touches no count. */
    constructor Null()
      ensures ptr == null
    {
      ptr := null;
    }

    /** ref_ptr(Type*) and the copy constructor (which is this constructor
        applied to other.ptr): a non-null pointer gains one reference. */
    constructor (p: RefCounted?)
      requires p != null ==> !p.deleted
      modifies p
      ensures ptr == p
      ensures p != null ==> p.refCount == (old(p.refCount) + 1) % U32 && !p.deleted
    {
      ptr := p;
      new;
      if p != null {
        var _ := p.AddRef();
      }
    }

    /** The converting "move" constructor: it reads other.get(), which asserts
        a non-null pointer, and adds a reference; other keeps its pointer. */
    constructor Converted(other: RefPtr)
      requires other.ptr != null && !other.ptr.deleted
      modifies other.ptr
      ensures ptr == other.ptr == old(other.ptr)
      ensures ptr.refCount == (old(other.ptr.refCount) + 1) % U32 && !ptr.deleted
    {
      ptr := other.ptr;
      new;
      var _ := ptr.AddRef();
    }

    /** ~ref_ptr: a held object is released once and deleted exactly when the
        count reaches 0. */
    method Destroy()
      requires ptr != null ==> !ptr.deleted
      modifies ptr
      ensures ptr == old(ptr)
      ensures ptr != null ==> ptr.refCount == (old(ptr.refCount) - 1) % U32
      ensures ptr != null ==> (ptr.deleted <==> ptr.refCount == 0)
    {
      if ptr != null {
        var count := ptr.Release();
        if count == 0 {
          ptr.deleted := true;
        }
      }
    }

    /** The copy assignment and the converting "move" assignment: the pointer
        is overwritten without releasing the object held before, and the new
        object gains a reference; the source keeps its pointer. */
    method Assign(other: RefPtr)
      requires other.ptr != null ==> !other.ptr.deleted
      modifies this, other.ptr
      ensures ptr == old(other.ptr) && other.ptr == old(other.ptr)
      ensures ptr != null ==> ptr.refCount == (old(other.ptr.refCount) + 1) % U32 && !ptr.deleted
      ensures old(ptr) != null && old(ptr) != ptr ==> unchanged(old(ptr))
    {
      ptr := other.ptr;
      if ptr != null {
        var _ := ptr.AddRef();
      }
    }

    /** get(), operator-> and operator&: assert a non-null pointer. */
    method Get() returns (p: RefCounted)
      requires ptr != null
      ensures p == ptr
    {
      p := ptr;
    }

    /** ref_ptr::release(): decrements the count but keeps the pointer. */
    method ReleaseRef() returns (p: RefCounted)
      requires ptr != null && !ptr.deleted
      modifies ptr
      ensures p == ptr == old(ptr)
      ensures p.refCount == (old(p.refCount) - 1) % U32 && !p.deleted
    {
      var _ := ptr.Release();
      p := ptr;
    }

    /** operator bool. */
    predicate IsSet()
      reads this
    {
      ptr != null
    }
  }

  /** make_ref: a fresh object held by one ref_ptr, with count 1. */
  method MakeRef() returns (r: RefPtr)
    ensures fresh(r) && fresh(r.ptr)
    ensures r.IsSet() && r.ptr.refCount == 1 && !r.ptr.deleted
  {
    var o := new RefCounted();
    r := new RefPtr(o);
  }

  /** Self-assignment does not release and still adds a reference: the count
      of the object rises by one. */
  method SelfAssignment() returns (r: RefPtr)
    ensures r.IsSet() && r.ptr.refCount == 2 && !r.ptr.deleted
  {
    r := MakeRef();
    r.Assign(r);
  }

  /** Copy assignment leaks the previously held object: after assigning b to
      a, a's old object still has count 1, and destroying both pointers never
      deletes it. */
  method AssignmentLeaks() returns (first: RefCounted, second: RefCounted)
    ensures first.refCount == 1 && !first.deleted
    ensures second.refCount == 0 && second.deleted
  {
    var a := MakeRef();
    var b := MakeRef();
    first := a.ptr;
    second := b.ptr;
    a.Assign(b);
    a.Destroy();
    b.Destroy();
  }

  /** release() followed by the destructor counts down twice: a make_ref
      object ends with count 2^32 - 1 and is never deleted. */
  method ReleaseThenDestroy() returns (o: RefCounted)
    ensures o.refCount == U32 - 1 && !o.deleted
  {
    var r := MakeRef();
    o := r.ReleaseRef();
    r.Destroy();
  }

  /** A copy of a make_ref pointer, destroyed before the original, leaves
      the object alive; destroying the original then deletes it. */
  method CopyThenDestroyBoth() returns (o: RefCounted)
    ensures o.refCount == 0 && o.deleted
  {
    var r := MakeRef();
    var c := new RefPtr(r.ptr);
    c.Destroy();
    assert !r.ptr.deleted;
    r.Destroy();
    o := r.ptr;
  }
}
