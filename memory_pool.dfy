/** The block-bitmap GPU memory pool of lgfx: a pool owns a number of fixed-size
    heaps; each heap tracks its 256 blocks with one flag byte per block (0 free,
    1 in use) and a cursor `offset`. The native heap object is left out. */
module MemoryPools {
  import opened Wrappers

  const HeapSize: nat := 268435456
  const BlockSize: nat := 1048576
  const BlockCount: nat := 256
  /** size_t and uint64_t arithmetic wraps modulo 2^64. */
  const Word: nat := 0x1_0000_0000_0000_0000

  newtype byte = x: int | 0 <= x < 256

  datatype MemoryType = Default | Upload | ReadBack
  datatype MemoryFlags = Buffers | RtDs | NonRtDs

  /** A default heap is exactly BlockCount default blocks. */
  lemma DefaultHeapHoldsWholeBlocks()
    ensures HeapSize / BlockSize == BlockCount && HeapSize % BlockSize == 0
  {
  }

  // ---------------------------------------------------------------------
  // Specification of one heap's block flags

  /** Number of free (zero) flags in `b`. */
  function FreeCount(b: seq<byte>): (n: nat)
    ensures n <= |b|
  {
    if |b| == 0 then 0 else FreeCount(b[..|b| - 1]) + (if b[|b| - 1] == 0 then 1 else 0)
  }

  /** Index of the first free block, or |b| when every block is in use. */
  function FirstFree(b: seq<byte>): (k: nat)
    ensures k <= |b|
    ensures k < |b| ==> b[k] == 0
    ensures forall i :: 0 <= i < k ==> b[i] != 0
  {
    if |b| == 0 then 0 else if b[0] == 0 then 0 else 1 + FirstFree(b[1..])
  }

  /** memset: the flags [from, from + n) set to v, the others kept. */
  function Fill(b: seq<byte>, from: nat, n: nat, v: byte): (r: seq<byte>)
    requires from + n <= |b|
    ensures |r| == |b|
    ensures forall i :: 0 <= i < |b| ==> r[i] == (if from <= i < from + n then v else b[i])
  {
    b[..from] + seq(n, _ => v) + b[from + n..]
  }

  lemma FreeCountStep(b: seq<byte>, j: nat)
    requires j < |b|
    ensures FreeCount(b[..j + 1]) == FreeCount(b[..j]) + (if b[j] == 0 then 1 else 0)
  {
    assert b[..j + 1][..j] == b[..j];
  }

  /** No free block lies before the first free one; after it, the free blocks of a
      prefix all sit in [FirstFree(b), j). */
  lemma {:induction false} FreeCountBeforeFirst(b: seq<byte>, j: nat)
    requires j <= |b|
    ensures j <= FirstFree(b) ==> FreeCount(b[..j]) == 0
    ensures FirstFree(b) < j ==> FreeCount(b[..j]) >= 1 && FirstFree(b) + FreeCount(b[..j]) <= j
  {
    if j > 0 {
      FreeCountBeforeFirst(b, j - 1);
      FreeCountStep(b, j - 1);
    }
  }

  lemma {:induction false} FreeCountMonotone(b: seq<byte>, i: nat, j: nat)
    requires i <= j <= |b|
    ensures FreeCount(b[..i]) <= FreeCount(b[..j])
  {
    if i < j {
      FreeCountMonotone(b, i, j - 1);
      FreeCountStep(b, j - 1);
    }
  }

  /** The running count of free blocks takes every value up to its final one. */
  lemma {:induction false} FreeCountReaches(b: seq<byte>, n: nat, k: nat) returns (j: nat)
    requires n <= |b| && k <= FreeCount(b[..n])
    ensures j <= n && FreeCount(b[..j]) == k
  {
    if FreeCount(b[..n]) == k {
      j := n;
    } else {
      assert n > 0;
      FreeCountStep(b, n - 1);
      j := FreeCountReaches(b, n - 1, k);
    }
  }

  /** The scan of one heap for `size` bytes reaches a count equal to `size`: the
      request is a positive whole number of blocks, and no more blocks than the
      heap has free ANYWHERE at or after the first free one: they need not be
      contiguous. */
  predicate ScanSucceeds(b: seq<byte>, size: nat) {
    size > 0 && size % BlockSize == 0 && size / BlockSize <= FreeCount(b)
  }

  /** The marking memset runs only when the count is complete before the last
      block has been examined. */
  predicate ScanMarks(b: seq<byte>, size: nat)
    requires |b| > 0
  {
    ScanSucceeds(b, size) && size / BlockSize <= FreeCount(b[..|b| - 1])
  }

  /** The flags after one heap's scan: the size/BlockSize blocks starting at the
      first free block are set to 1 when the scan marks, otherwise nothing changes. */
  function AfterScan(b: seq<byte>, size: nat): (r: seq<byte>)
    requires |b| > 0
    ensures |r| == |b|
  {
    if ScanMarks(b, size) then
      FreeCountBeforeFirst(b, |b| - 1);
      Fill(b, FirstFree(b), size / BlockSize, 1)
    else b
  }

  // ---------------------------------------------------------------------
  // Specification of the pool

  datatype HeapState = HeapState(blocks: seq<byte>, offset: nat)

  predicate WellFormed(st: seq<HeapState>) {
    forall i :: 0 <= i < |st| ==> |st[i].blocks| == BlockCount
  }

  /** Allocate passes over a heap whose cursor plus the request (a wrapping
      64-bit sum) exceeds the heap size. */
  predicate Skipped(h: HeapState, size: nat) {
    (h.offset + size) % Word > HeapSize
  }

  predicate Fits(h: HeapState, size: nat) {
    !Skipped(h, size) && ScanSucceeds(h.blocks, size)
  }

  /** The first heap at or after `from`, in creation order, that the request fits. */
  function FirstFit(st: seq<HeapState>, size: nat, from: nat): (r: Option<nat>)
    requires from <= |st|
    decreases |st| - from
    ensures r.Some? ==> from <= r.value < |st| && Fits(st[r.value], size)
    ensures r.Some? ==> forall k :: from <= k < r.value ==> !Fits(st[k], size)
    ensures r.None? ==> forall k :: from <= k < |st| ==> !Fits(st[k], size)
  {
    if from == |st| then None
    else if Fits(st[from], size) then Some(from)
    else FirstFit(st, size, from + 1)
  }

  /** The heaps after Allocate: only the chosen heap's flags change, and no
      heap's cursor moves. */
  function AfterAllocate(st: seq<HeapState>, size: nat): (r: seq<HeapState>)
    requires WellFormed(st)
    ensures |r| == |st| && WellFormed(r)
    ensures forall i :: 0 <= i < |st| ==> r[i].offset == st[i].offset
    ensures forall i :: 0 <= i < |st| && FirstFit(st, size, 0) != Some(i) ==> r[i] == st[i]
  {
    match FirstFit(st, size, 0)
    case None => st
    case Some(i) => st[i := st[i].(blocks := AfterScan(st[i].blocks, size))]
  }

  /** A zero-byte request never finds a heap. */
  lemma ZeroSizeNeverFits(st: seq<HeapState>)
    ensures FirstFit(st, 0, 0).None?
  {
  }

  /** The blocks counted need not be contiguous: with block 0 free, block 1 in use
      and block 2 free, a two-block request succeeds at offset 0 and marks block 1,
      which a previous allocation already holds. */
  lemma {:induction false} AllocationMayCoverUsedBlock(b: seq<byte>)
    requires |b| == BlockCount && b[0] == 0 && b[1] == 1 && b[2] == 0
    ensures ScanMarks(b, 2 * BlockSize) && FirstFree(b) == 0
    ensures AfterScan(b, 2 * BlockSize)[0] == 1 && AfterScan(b, 2 * BlockSize)[1] == 1
    ensures AfterScan(b, 2 * BlockSize)[2] == b[2] == 0
  {
    FreeCountStep(b, 0);
    FreeCountStep(b, 1);
    FreeCountStep(b, 2);
    assert b[..0] == [];
    FreeCountMonotone(b, 3, |b| - 1);
    FreeCountMonotone(b, |b| - 1, |b|);
    assert b[..|b|] == b;
  }

  lemma {:induction false} NoFreeInUsed(n: nat)
    ensures FreeCount(seq(n, _ => 1 as byte)) == 0
  {
    if n > 0 {
      var s := seq(n, _ => 1 as byte);
      assert s[..n - 1] == seq(n - 1, _ => 1 as byte);
      NoFreeInUsed(n - 1);
    }
  }

  /** When the count is completed by the very last block, the scan returns
      a record without marking anything: a heap whose only free block is the
      last one hands out that block, and keeps handing it out. */
  lemma {:induction false} LastBlockIsNeverMarked()
    ensures var b := seq(BlockCount - 1, _ => 1 as byte) + [0 as byte];
      ScanSucceeds(b, BlockSize) && !ScanMarks(b, BlockSize) &&
      FirstFree(b) == BlockCount - 1 && AfterScan(b, BlockSize) == b
  {
    var b := seq(BlockCount - 1, _ => 1 as byte) + [0 as byte];
    assert b[..|b| - 1] == seq(BlockCount - 1, _ => 1 as byte);
    NoFreeInUsed(BlockCount - 1);
    assert FreeCount(b) == 1;
    assert forall i :: 0 <= i < BlockCount - 1 ==> b[i] != 0;
  }

  /** The same state comes back when the chosen heap's scan does not mark, so
      every later identical request returns the same heap and offset. */
  lemma UnmarkedAllocationRepeats(st: seq<HeapState>, size: nat, i: nat)
    requires WellFormed(st) && FirstFit(st, size, 0) == Some(i)
    requires !ScanMarks(st[i].blocks, size)
    ensures AfterAllocate(st, size) == st
    ensures FirstFit(AfterAllocate(st, size), size, 0) == Some(i)
  {
  }

  /** Freeing a record whose blocks were all free before the allocation restores
      the flags; freeing one that covered a used block frees that block too. */
  lemma {:induction false} DeallocateUndoesMarking(b: seq<byte>, size: nat)
    requires |b| == BlockCount && ScanMarks(b, size)
    ensures FirstFree(b) + size / BlockSize <= |b|
    ensures var f := FirstFree(b);
      var freed := Fill(AfterScan(b, size), f, size / BlockSize, 0);
      (freed == b <==> forall k :: f <= k < f + size / BlockSize ==> b[k] == 0)
  {
    FreeCountBeforeFirst(b, |b| - 1);
    var f := FirstFree(b);
    var freed := Fill(AfterScan(b, size), f, size / BlockSize, 0);
    if forall k :: f <= k < f + size / BlockSize ==> b[k] == 0 {
      assert forall k :: 0 <= k < |b| ==> freed[k] == b[k];
    }
  }

  // ---------------------------------------------------------------------
  // Records

  /** The record Allocate returns: the heap, the byte offset in it, and the
      aligned size (the implementation's record carries the size). */
  datatype AllocInfo = AllocInfo(heap: MemoryHeap?, offset: nat, size: nat)

  /** The record the header declares: heap and offset only. */
  datatype DeclaredAllocInfo = DeclaredAllocInfo(heap: MemoryHeap?, offset: nat)

  /** operator! of the declared record. */
  predicate IsNull(info: DeclaredAllocInfo) {
    info.heap == null
  }

  function Declared(info: AllocInfo): DeclaredAllocInfo {
    DeclaredAllocInfo(info.heap, info.offset)
  }

  /** The declared record cannot tell two allocations of different sizes apart, so
      the declared Deallocate(record, size) must be told the size by its caller. */
  lemma DeclaredRecordLosesSize(heap: MemoryHeap?, offset: nat, s1: nat, s2: nat)
    requires s1 != s2
    ensures Declared(AllocInfo(heap, offset, s1)) == Declared(AllocInfo(heap, offset, s2))
    ensures AllocInfo(heap, offset, s1) != AllocInfo(heap, offset, s2)
  {
  }

  /** Number of heaps made for a pool of `size` bytes: the floor of size/HeapSize
      when more than one heap's worth is asked for, otherwise one. The pool can
      therefore hold less than was asked for. */
  function HeapCount(size: nat): (n: nat)
    ensures n >= 1
    ensures size <= HeapSize ==> n == 1
    ensures size > HeapSize ==> n * HeapSize <= size < (n + 1) * HeapSize
  {
    if size > HeapSize then size / HeapSize else 1
  }

  // ---------------------------------------------------------------------
  // Implementation

  class MemoryHeap {
    const blocks: array<byte>
    var offset: nat

    ghost predicate Valid() {
      blocks.Length == BlockCount
    }

    ghost function State(): HeapState
      reads this, blocks
    {
      HeapState(blocks[..], offset)
    }

    /** A new heap: BlockCount free blocks and the cursor at 0. */
    constructor ()
      ensures Valid() && fresh(blocks)
      ensures State() == HeapState(seq(BlockCount, _ => 0), 0)
    {
      blocks := new byte[BlockCount](_ => 0);
      offset := 0;
    }

    /** The scan of this heap inside Allocate: count free blocks from the first
        free one on, mark when the count is complete, and report the first free
        block's offset when the count ends equal to `size`. */
    method Scan(size: nat) returns (found: bool, at: nat)
      requires Valid()
      modifies blocks
      ensures found == ScanSucceeds(old(blocks[..]), size)
      ensures found ==> at == FirstFree(old(blocks[..])) * BlockSize
      ensures blocks[..] == AfterScan(old(blocks[..]), size)
    {
      ghost var b := blocks[..];
      var allocSize: nat := 0;
      var heapSet := false;
      var recOffset: nat := 0;
      var j := 0;
      while j < BlockCount
        invariant 0 <= j <= BlockCount
        invariant blocks[..] == b
        invariant allocSize == FreeCount(b[..j]) * BlockSize
        invariant forall i :: 0 <= i < j ==> FreeCount(b[..i]) * BlockSize != size
        invariant j == 0 ==> !heapSet && recOffset == 0
        invariant j > 0 ==> size != 0
        invariant j > 0 ==> heapSet && recOffset == (if FirstFree(b) < j then FirstFree(b) else j - 1) * BlockSize
      {
        if allocSize == size {
          if size > 0 {
            ScanStopsBeforeEnd(b, FreeCount(b[..j]), j);
            BlocksOf(FreeCount(b[..j]));
            BlocksOf(FirstFree(b));
          }
          Mark(recOffset / BlockSize, size / BlockSize);
          found := heapSet;
          at := recOffset;
          return;
        }
        FreeCountBeforeFirst(b, j);
        if allocSize == 0 {
          heapSet := true;
          recOffset := j * BlockSize;
        }
        FreeCountStep(b, j);
        allocSize := if blocks[j] == 0 then allocSize + BlockSize else allocSize;
        j := j + 1;
      }
      assert b[..BlockCount] == b;
      ScanRunsToEnd(b, size);
      found := allocSize == size;
      at := if found then recOffset else 0;
    }

    /** The memset of the scan: n flags from block `from` set to 1. */
    method Mark(from: nat, n: nat)
      requires Valid() && from + n <= BlockCount
      modifies blocks
      ensures blocks[..] == Fill(old(blocks[..]), from, n, 1)
    {
      forall k | from <= k < from + n {
        blocks[k] := 1;
      }
    }
  }

  /** k whole blocks are k * BlockSize bytes. */
  lemma BlocksOf(k: nat)
    ensures (k * BlockSize) / BlockSize == k && (k * BlockSize) % BlockSize == 0
  {
  }

  /** A scan whose count reaches k > 0 blocks at block j < |b| has found enough
      free blocks, marks, and the blocks it marks from the first free one lie
      before j. */
  lemma ScanStopsBeforeEnd(b: seq<byte>, k: nat, j: nat)
    requires j < |b| && k > 0 && FreeCount(b[..j]) == k
    ensures ScanMarks(b, k * BlockSize) && FirstFree(b) + k <= j
  {
    BlocksOf(k);
    FreeCountBeforeFirst(b, j);
    FreeCountMonotone(b, j, |b| - 1);
    FreeCountMonotone(b, j, |b|);
    assert b[..|b|] == b;
  }

  /** A scan whose count never equals `size` before the last block never marks,
      and succeeds exactly when the whole heap's count equals `size`. */
  lemma ScanRunsToEnd(b: seq<byte>, size: nat)
    requires |b| > 0
    requires forall i :: 0 <= i < |b| ==> FreeCount(b[..i]) * BlockSize != size
    ensures !ScanMarks(b, size)
    ensures ScanSucceeds(b, size) <==> size > 0 && FreeCount(b) * BlockSize == size
    ensures ScanSucceeds(b, size) ==> FirstFree(b) < |b|
  {
    var n := |b|;
    assert b[..n] == b;
    BlocksOf(FreeCount(b));
    if ScanSucceeds(b, size) {
      var k := size / BlockSize;
      assert size == k * BlockSize;
      NotCountedEarly(b, k, size);
      FreeCountStep(b, n - 1);
      assert b[..n - 1 + 1] == b;
      assert FreeCount(b) == k;
      FreeCountBeforeFirst(b, n);
    }
  }

  /** A count that reaches k blocks before the last block would have stopped
      the scan there. */
  lemma NotCountedEarly(b: seq<byte>, k: nat, size: nat)
    requires |b| > 0 && size == k * BlockSize
    requires forall i :: 0 <= i < |b| ==> FreeCount(b[..i]) * BlockSize != size
    ensures FreeCount(b[..|b| - 1]) < k
  {
    if k <= FreeCount(b[..|b| - 1]) {
      var j := FreeCountReaches(b, |b| - 1, k);
      assert false;
    }
  }

  class MemoryPool {
    const memoryType: MemoryType
    const memoryFlags: MemoryFlags
    /** The heaps, in creation order; none is ever added after construction. */
    const heaps: seq<MemoryHeap>

    ghost function Heaps(): set<MemoryHeap> {
      set i | 0 <= i < |heaps| :: heaps[i]
    }

    ghost function Arrays(): set<array<byte>> {
      set i | 0 <= i < |heaps| :: heaps[i].blocks
    }

    ghost predicate Valid()
      reads Heaps()
    {
      (forall i :: 0 <= i < |heaps| ==> heaps[i].Valid() && heaps[i].offset < Word) &&
      (forall i, j :: 0 <= i < j < |heaps| ==> heaps[i] != heaps[j] && heaps[i].blocks != heaps[j].blocks)
    }

    ghost function States(): (st: seq<HeapState>)
      reads Heaps(), Arrays()
      ensures |st| == |heaps|
      ensures forall i :: 0 <= i < |heaps| ==> st[i] == heaps[i].State()
    {
      seq(|heaps|, i reads Heaps(), Arrays() requires 0 <= i < |heaps| => heaps[i].State())
    }

    function GetType(): MemoryType {
      memoryType
    }

    function GetFlags(): MemoryFlags {
      memoryFlags
    }

    /** HeapCount(size) new heaps, all blocks free and every cursor at 0; the type
        and flags are kept for GetType and GetFlags. */
    constructor (size: nat, memoryType: MemoryType, memoryFlags: MemoryFlags)
      ensures Valid()
      ensures GetType() == memoryType && GetFlags() == memoryFlags
      ensures |heaps| == HeapCount(size)
      ensures forall i :: 0 <= i < |heaps| ==> fresh(heaps[i]) && fresh(heaps[i].blocks)
      ensures States() == seq(HeapCount(size), _ => HeapState(seq(BlockCount, _ => 0), 0))
    {
      var count := if size > HeapSize then size / HeapSize else 1;
      var hs: seq<MemoryHeap> := [];
      while |hs| < count
        invariant |hs| <= count
        invariant forall i :: 0 <= i < |hs| ==> fresh(hs[i]) && fresh(hs[i].blocks)
        invariant forall i :: 0 <= i < |hs| ==> hs[i].Valid() && hs[i].State() == HeapState(seq(BlockCount, _ => 0), 0)
        invariant forall i, j :: 0 <= i < j < |hs| ==> hs[i] != hs[j] && hs[i].blocks != hs[j].blocks
      {
        var h := new MemoryHeap();
        hs := hs + [h];
      }
      this.memoryType := memoryType;
      this.memoryFlags := memoryFlags;
      heaps := hs;
    }

    /** First fit over the heaps in creation order: skip a heap whose cursor plus
        the request exceeds HeapSize, scan the others, and return the first
        record a scan yields; throws when none does. `size` is the result of
        AlignedBlockSize for the caller's request. */
    method Allocate(size: nat) returns (r: Result<AllocInfo>)
      requires Valid() && size < Word
      modifies Arrays()
      ensures Valid()
      ensures States() == AfterAllocate(old(States()), size)
      ensures r.Err? <==> FirstFit(old(States()), size, 0).None?
      ensures r.Err? ==> r.message == "Memory Pool error"
      ensures r.Ok? ==> var i := FirstFit(old(States()), size, 0).value;
        r.value == AllocInfo(heaps[i], FirstFree(old(States())[i].blocks) * BlockSize, size) &&
        !IsNull(Declared(r.value))
      ensures size == 0 ==> r.Err?
    {
      ghost var st := States();
      var i := 0;
      while i < |heaps|
        invariant 0 <= i <= |heaps|
        invariant States() == st
        invariant FirstFit(st, size, 0) == FirstFit(st, size, i)
      {
        var h := heaps[i];
        if (h.offset + size) % Word > HeapSize {
          i := i + 1;
          continue;
        }
        var found, at := ScanHeap(i, size);
        if found {
          assert FirstFit(st, size, i) == Some(i);
          r := Ok(AllocInfo(h, at, size));
          return;
        }
        i := i + 1;
      }
      r := Err("Memory Pool error");
    }

    /** The scan of heap i: only that heap's flags change. */
    method ScanHeap(i: nat, size: nat) returns (found: bool, at: nat)
      requires Valid() && i < |heaps|
      modifies heaps[i].blocks
      ensures Valid()
      ensures found == ScanSucceeds(old(States())[i].blocks, size)
      ensures found ==> at == FirstFree(old(States())[i].blocks) * BlockSize
      ensures States() == old(States())[i := old(States())[i].(blocks := AfterScan(old(States())[i].blocks, size))]
      ensures !found ==> States() == old(States())
    {
      ghost var st := States();
      var h := heaps[i];
      found, at := h.Scan(size);
      assert forall k :: 0 <= k < |heaps| && k != i ==> heaps[k].blocks != h.blocks;
      assert States() == st[i := st[i].(blocks := h.blocks[..])];
      if !found {
        assert h.blocks[..] == st[i].blocks;
        assert st[i := st[i].(blocks := st[i].blocks)] == st;
      }
    }

    /** Zero the record's size/BlockSize flags starting at its block and move the
        heap's cursor to the freed offset. */
    method Deallocate(info: AllocInfo)
      requires Valid() && info.heap in Heaps() && info.offset < Word
      requires info.offset / BlockSize + info.size / BlockSize <= BlockCount
      modifies info.heap, info.heap.blocks
      ensures Valid()
      ensures info.heap.State() ==
        HeapState(Fill(old(info.heap.blocks[..]), info.offset / BlockSize, info.size / BlockSize, 0), info.offset)
    {
      var h := info.heap;
      var from := info.offset / BlockSize;
      var n := info.size / BlockSize;
      forall k | from <= k < from + n {
        h.blocks[k] := 0;
      }
      h.offset := info.offset;
    }
  }
}
