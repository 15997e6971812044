/** BufferPool<CBuffer, DataSize> and BufferPool<SBuffer, DataSize>: a fixed
    vector of GPU buffers created up front and a uint32 cursor. allocate hands
    out the buffer at the cursor through vector::at, which throws when the
    cursor has run past the end; reset rewinds the cursor. Buffer creation is
    native and assumed to succeed; a buffer is represented by its creation
    index and its description. */
module BufferPools {
  import opened Wrappers

  const U32: int := 0x1_0000_0000

  datatype BufferFlag = ConstantBuffer | ShaderResource | HostWrite

  datatype Usage = Dynamic | Static

  /** One GPU buffer: its creation index, byte size, flags, and the element
      stride of a structured buffer. */
  datatype GpuBuffer = GpuBuffer(id: nat, size: nat, flags: set<BufferFlag>, stride: Option<nat>)

  /** The pool_size buffers the constructor loop creates, all alike but for
      their creation index. */
  method CreateBuffers(poolSize: nat, size: nat, flags: set<BufferFlag>, stride: Option<nat>) returns (bs: seq<GpuBuffer>)
    ensures |bs| == poolSize
    ensures forall i :: 0 <= i < poolSize ==> bs[i] == GpuBuffer(i, size, flags, stride)
  {
    bs := [];
    var i := 0;
    while i < poolSize
      invariant 0 <= i <= poolSize && |bs| == i
      invariant forall k :: 0 <= k < i ==> bs[k] == GpuBuffer(k, size, flags, stride)
    {
      bs := bs + [GpuBuffer(i, size, flags, stride)];
      i := i + 1;
    }
  }

  /** What n allocations hand out, starting at cursor `from`: each is the
      buffer at the cursor, or the error of vector::at once it is past the
      end (after which the cursor no longer moves). */
  function Allocations(data: seq<GpuBuffer>, from: nat, n: nat): (r: seq<Result<GpuBuffer>>)
    ensures |r| == n
    decreases n
  {
    if n == 0 then []
    else if from < |data| then [Ok(data[from])] + Allocations(data, from + 1, n - 1)
    else [Err("out of range")] + Allocations(data, from, n - 1)
  }

  /** Between resets, allocations hand out the buffers in order: the k-th
      allocation from cursor `from` is data[from + k] while that exists, and
      every later one fails. */
  lemma {:induction false} AllocationsInOrder(data: seq<GpuBuffer>, from: nat, n: nat)
    ensures forall k :: 0 <= k < n ==> (from + k < |data| ==> Allocations(data, from, n)[k] == Ok(data[from + k]))
    ensures forall k :: 0 <= k < n ==> (from + k >= |data| ==> Allocations(data, from, n)[k].Err?)
    decreases n
  {
    if n > 0 {
      if from < |data| {
        AllocationsInOrder(data, from + 1, n - 1);
        forall k | 0 <= k < n ensures from + k < |data| ==> Allocations(data, from, n)[k] == Ok(data[from + k]) {
          if k > 0 {
            assert Allocations(data, from, n)[k] == Allocations(data, from + 1, n - 1)[k - 1];
          }
        }
        forall k | 0 <= k < n ensures from + k >= |data| ==> Allocations(data, from, n)[k].Err? {
          if k > 0 {
            assert Allocations(data, from, n)[k] == Allocations(data, from + 1, n - 1)[k - 1];
          }
        }
      } else {
        AllocationsInOrder(data, from, n - 1);
        forall k | 0 <= k < n ensures Allocations(data, from, n)[k].Err? {
          if k > 0 {
            assert Allocations(data, from, n)[k] == Allocations(data, from, n - 1)[k - 1];
          }
        }
      }
    }
  }

  /** Buffers created by the constructor are distinct, so allocations between
      resets that succeed hand out distinct buffers. */
  lemma AllocationsDistinct(data: seq<GpuBuffer>, n: nat, i: nat, j: nat)
    requires forall k :: 0 <= k < |data| ==> data[k].id == k
    requires i < j < n <= |data|
    ensures Allocations(data, 0, n)[i].Ok? && Allocations(data, 0, n)[j].Ok?
    ensures Allocations(data, 0, n)[i].value != Allocations(data, 0, n)[j].value
  {
    AllocationsInOrder(data, 0, n);
  }

  /** The flags of an SBuffer pool's buffers: HostWrite only when dynamic. */
  function SBufferFlags(usage: Usage): (f: set<BufferFlag>)
    ensures ShaderResource in f && ConstantBuffer !in f
    ensures HostWrite in f <==> usage == Dynamic
  {
    if usage == Dynamic then {ShaderResource, HostWrite} else {ShaderResource}
  }

  class BufferPool {
    var data: seq<GpuBuffer>
    var offset: nat

    ghost predicate Valid()
      reads this
    {
      |data| < U32 && offset <= |data| &&
      forall k :: 0 <= k < |data| ==> data[k].id == k
    }

    /** BufferPool<CBuffer, DataSize>: pool_size constant buffers of DataSize
        bytes with ConstantBuffer | HostWrite; the usage is ignored. */
    constructor CBuffer(dataSize: nat, poolSize: nat, usage: Usage)
      requires poolSize < U32
      ensures Valid() && offset == 0 && |data| == poolSize
      ensures forall i :: 0 <= i < poolSize ==> data[i] == GpuBuffer(i, dataSize, {ConstantBuffer, HostWrite}, None)
    {
      var bs := CreateBuffers(poolSize, dataSize, {ConstantBuffer, HostWrite}, None);
      data := bs;
      offset := 0;
    }

    /** BufferPool<SBuffer, DataSize>: pool_size structured buffers of
        DataSize * element_count bytes with element stride DataSize. */
    constructor SBuffer(dataSize: nat, elementCount: nat, poolSize: nat, usage: Usage)
      requires poolSize < U32
      ensures Valid() && offset == 0 && |data| == poolSize
      ensures forall i :: 0 <= i < poolSize ==> data[i] == GpuBuffer(i, dataSize * elementCount, SBufferFlags(usage), Some(dataSize))
    {
      var bs := CreateBuffers(poolSize, dataSize * elementCount, SBufferFlags(usage), Some(dataSize));
      data := bs;
      offset := 0;
    }

    /** reset: the cursor goes back to the first buffer. */
    method Reset()
      requires Valid()
      modifies this
      ensures Valid()
      ensures offset == 0 && data == old(data)
    {
      offset := 0;
    }

    /** allocate: the buffer at the cursor, which then advances; past the last
        buffer, vector::at throws and the cursor stays. */
    method Allocate() returns (r: Result<GpuBuffer>)
      requires Valid()
      modifies this
      ensures Valid() && data == old(data)
      ensures r == Allocations(data, old(offset), 1)[0]
      ensures r.Ok? <==> old(offset) < |data|
      ensures offset == if r.Ok? then old(offset) + 1 else old(offset)
    {
      if offset < |data| {
        r := Ok(data[offset]);
        offset := offset + 1;
      } else {
        r := Err("out of range");
      }
    }
  }
}
