/** Descriptor sets of the newer Direct3D 12 backend: create_descriptor_set
    gives a set one null binding per descriptor of its layout,
    update_descriptor_set overwrites single bindings with the records of
    textures, buffers and samplers, and the encoder's bind_descriptor_set hands
    each range of the layout the bindings that follow the earlier ranges'. The
    shader-visible ranges bind_descriptor_set allocates, the descriptor copies
    and the root-table calls are native; the model keeps which records each
    table receives and through which heap types. */
module DescriptorSets {
  import opened Wrappers
  import opened DescriptorLayouts
  import opened BackendResources

  type Binding = Option<Descriptor>

  /** create_descriptor_set: one default (null) binding per descriptor, range
      after range. */
  method CreateBindings(ranges: seq<Range>) returns (bindings: seq<Binding>)
    ensures |bindings| == TotalDescriptors(ranges)
    ensures forall k :: 0 <= k < |bindings| ==> bindings[k].None?
  {
    bindings := [];
    var i := 0;
    while i < |ranges|
      invariant 0 <= i <= |ranges|
      invariant |bindings| == Offset(ranges, i)
      invariant forall k :: 0 <= k < |bindings| ==> bindings[k].None?
    {
      var j := 0;
      while j < ranges[i].numDescriptors
        invariant 0 <= j <= ranges[i].numDescriptors
        invariant |bindings| == Offset(ranges, i) + j
        invariant forall k :: 0 <= k < |bindings| ==> bindings[k].None?
      {
        bindings := bindings + [None];
        j := j + 1;
      }
      OffsetStep(ranges, i);
      i := i + 1;
    }
    assert ranges[..|ranges|] == ranges;
  }

  /** The resource a write names. */
  datatype WriteSource = FromTexture(texture: Texture) | FromBuffer(buffer: Buffer) | FromSampler(record: Binding)

  /** DescriptorWriteDesc: the binding to overwrite and the resource. */
  datatype Write = Write(index: nat, source: WriteSource)

  /** The record a write stores: a texture's CBV/SRV/UAV view (null when it has
      none), a buffer's view, or a sampler's record. */
  function Resolve(src: WriteSource): Binding {
    match src
    case FromTexture(t) => View(t, CbvSrvUav).info
    case FromBuffer(b) => b.view.info
    case FromSampler(r) => r
  }

  predicate WritesInRange(bindings: seq<Binding>, writes: seq<Write>) {
    forall w :: 0 <= w < |writes| ==> writes[w].index < |bindings|
  }

  /** The bindings after the writes, applied in order. */
  function ApplyWrites(bindings: seq<Binding>, writes: seq<Write>): (r: seq<Binding>)
    requires WritesInRange(bindings, writes)
    ensures |r| == |bindings|
  {
    if |writes| == 0 then bindings
    else
      var last := writes[|writes| - 1];
      ApplyWrites(bindings, writes[..|writes| - 1])[last.index := Resolve(last.source)]
  }

  /** update_descriptor_set's loop. */
  method UpdateBindings(bindings: seq<Binding>, writes: seq<Write>) returns (r: seq<Binding>)
    requires WritesInRange(bindings, writes)
    ensures r == ApplyWrites(bindings, writes)
  {
    r := bindings;
    var w := 0;
    while w < |writes|
      invariant 0 <= w <= |writes|
      invariant r == ApplyWrites(bindings, writes[..w])
    {
      assert writes[..w + 1][..w] == writes[..w];
      r := r[writes[w].index := Resolve(writes[w].source)];
      w := w + 1;
    }
    assert writes[..w] == writes;
  }

  /** The position of the last write to binding k, if any. */
  function LastWrite(writes: seq<Write>, k: nat): (r: Option<nat>)
    ensures r.Some? ==>
      r.value < |writes| && writes[r.value].index == k &&
      forall j :: r.value < j < |writes| ==> writes[j].index != k
    ensures r.None? ==> forall j :: 0 <= j < |writes| ==> writes[j].index != k
  {
    if |writes| == 0 then None
    else if writes[|writes| - 1].index == k then Some(|writes| - 1)
    else LastWrite(writes[..|writes| - 1], k)
  }

  /** Later writes win and nothing else changes: a binding nobody writes keeps
      its record, and a written one holds the record of its last write. */
  lemma {:induction false} WriteOutcome(bindings: seq<Binding>, writes: seq<Write>, k: nat)
    requires WritesInRange(bindings, writes) && k < |bindings|
    ensures ApplyWrites(bindings, writes)[k] ==
      match LastWrite(writes, k)
      case None => bindings[k]
      case Some(j) => Resolve(writes[j].source)
  {
    if |writes| > 0 {
      WriteOutcome(bindings, writes[..|writes| - 1], k);
    }
  }

  /** A texture without a shader view writes the null record. */
  lemma TextureWithoutViewWritesNull(t: Texture)
    requires CbvSrvUav !in t.views
    ensures Resolve(FromTexture(t)).None?
  {
  }

  // ---------------------------------------------------------------------
  // bind_descriptor_set of the encoder

  datatype RootSignatureKind = GraphicsRoot | ComputeRoot

  /** Root table i: the root signature kind it is set on, the heap of the
      shader-visible range it is allocated in, the heap type the copies name,
      and the bindings copied into it. */
  datatype Table = Table(root: RootSignatureKind, rangeHeap: HeapType, copyHeap: HeapType, records: seq<Binding>)

  /** The first binding of table i as the uint32 binding_count holds it. */
  function Start(ranges: seq<Range>, i: nat): Uint32
    requires i <= |ranges|
  {
    Offset(ranges, i) % U32
  }

  /** The binding table i reads j-th, at uint32 position binding_count + j. */
  function Slot(ranges: seq<Range>, i: nat, j: nat): Uint32
    requires i <= |ranges|
  {
    (Start(ranges, i) + j) % U32
  }

  predicate TableInRange(ranges: seq<Range>, bindings: seq<Binding>, i: nat)
    requires i < |ranges|
  {
    forall j :: 0 <= j < ranges[i].numDescriptors ==> Slot(ranges, i, j) < |bindings|
  }

  predicate BindInRange(ranges: seq<Range>, bindings: seq<Binding>) {
    forall i :: 0 <= i < |ranges| ==> TableInRange(ranges, bindings, i)
  }

  /** The table bind_descriptor_set builds for range i. */
  function TableFor(ranges: seq<Range>, bindings: seq<Binding>, compute: bool, i: nat): Table
    requires i < |ranges| && TableInRange(ranges, bindings, i)
  {
    Table(if compute then ComputeRoot else GraphicsRoot,
          if ranges[i].kind == SamplerKind then HeapType.Sampler else CbvSrvUav,
          CbvSrvUav,
          seq(ranges[i].numDescriptors, j requires 0 <= j < ranges[i].numDescriptors => bindings[Slot(ranges, i, j)]))
  }

  /** Copies range i's bindings, one by one, as the inner loop does. */
  method CopyRange(ranges: seq<Range>, bindings: seq<Binding>, bindingCount: Uint32, i: nat) returns (records: seq<Binding>)
    requires i < |ranges| && TableInRange(ranges, bindings, i) && bindingCount == Start(ranges, i)
    ensures records == TableFor(ranges, bindings, false, i).records
  {
    records := [];
    var j := 0;
    while j < ranges[i].numDescriptors
      invariant 0 <= j <= ranges[i].numDescriptors && |records| == j
      invariant forall m :: 0 <= m < j ==> records[m] == bindings[Slot(ranges, i, m)]
    {
      assert (bindingCount + j) % U32 == Slot(ranges, i, j);
      records := records + [bindings[(bindingCount + j) % U32]];
      j := j + 1;
    }
  }

  /** The encoder's bind_descriptor_set loop (after its lazy reset). */
  method BindTables(ranges: seq<Range>, bindings: seq<Binding>, compute: bool) returns (tables: seq<Table>)
    requires BindInRange(ranges, bindings)
    ensures |tables| == |ranges|
    ensures forall i :: 0 <= i < |ranges| ==> tables[i] == TableFor(ranges, bindings, compute, i)
  {
    tables := [];
    var bindingCount: Uint32 := 0;
    var i := 0;
    while i < |ranges|
      invariant 0 <= i <= |ranges| && |tables| == i
      invariant bindingCount == Start(ranges, i)
      invariant forall m :: 0 <= m < i ==> tables[m] == TableFor(ranges, bindings, compute, m)
    {
      var range := ranges[i];
      var heap := if range.kind == SamplerKind then HeapType.Sampler else CbvSrvUav;
      var records := CopyRange(ranges, bindings, bindingCount, i);
      OffsetStep(ranges, i);
      AddMod(Offset(ranges, i), range.numDescriptors);
      bindingCount := (bindingCount + range.numDescriptors) % U32;
      tables := tables + [Table(if compute then ComputeRoot else GraphicsRoot, heap, CbvSrvUav, records)];
      i := i + 1;
    }
  }

  /** All the tables' bindings, root table 0 first. */
  function Concat(tables: seq<Table>): seq<Binding> {
    if |tables| == 0 then [] else Concat(tables[..|tables| - 1]) + tables[|tables| - 1].records
  }

  /** A binding list of create_descriptor_set's size, under 2^32 descriptors,
      is in range for bind_descriptor_set, and table i reads the bindings from
      the earlier tables' total on. */
  lemma CreatedBindingsAreInRange(ranges: seq<Range>, bindings: seq<Binding>)
    requires |bindings| == TotalDescriptors(ranges) < U32
    ensures BindInRange(ranges, bindings)
    ensures forall i, j :: 0 <= i < |ranges| && 0 <= j < ranges[i].numDescriptors ==> Slot(ranges, i, j) == Offset(ranges, i) + j
  {
    assert ranges[..|ranges|] == ranges;
    forall i, j | 0 <= i < |ranges| && 0 <= j < ranges[i].numDescriptors
      ensures Slot(ranges, i, j) == Offset(ranges, i) + j < |bindings|
    {
      OffsetStep(ranges, i);
      OffsetMonotone(ranges, i + 1, |ranges|);
    }
  }

  lemma {:induction false} TablesCoverPrefix(ranges: seq<Range>, bindings: seq<Binding>, compute: bool, n: nat)
    requires |bindings| == TotalDescriptors(ranges) < U32 && n <= |ranges|
    requires BindInRange(ranges, bindings) && Offset(ranges, n) <= |bindings|
    ensures Concat(seq(n, i requires 0 <= i < n => TableFor(ranges, bindings, compute, i))) == bindings[..Offset(ranges, n)]
  {
    CreatedBindingsAreInRange(ranges, bindings);
    var ts := seq(n, i requires 0 <= i < n => TableFor(ranges, bindings, compute, i));
    if n > 0 {
      OffsetStep(ranges, n - 1);
      TablesCoverPrefix(ranges, bindings, compute, n - 1);
      var ts' := seq(n - 1, i requires 0 <= i < n - 1 => TableFor(ranges, bindings, compute, i));
      assert ts[..n - 1] == ts';
      var t := ts[n - 1];
      var lo, hi := Offset(ranges, n - 1), Offset(ranges, n);
      assert t.records == bindings[lo..hi];
      assert bindings[..hi] == bindings[..lo] + bindings[lo..hi];
    }
  }

  /** The tables partition the bindings: read in root-table order they are the
      set's bindings, each exactly once. */
  lemma TablesPartitionBindings(ranges: seq<Range>, bindings: seq<Binding>, compute: bool)
    requires |bindings| == TotalDescriptors(ranges) < U32
    ensures BindInRange(ranges, bindings)
    ensures Concat(seq(|ranges|, i requires 0 <= i < |ranges| => TableFor(ranges, bindings, compute, i))) == bindings
  {
    CreatedBindingsAreInRange(ranges, bindings);
    assert ranges[..|ranges|] == ranges;
    TablesCoverPrefix(ranges, bindings, compute, |ranges|);
  }

  /** Sampler tables live in the sampler range allocator, but the descriptor
      copies into them name the CBV/SRV/UAV heap type. */
  lemma SamplerTablesCopiedAsCbvSrvUav(ranges: seq<Range>, bindings: seq<Binding>, compute: bool, i: nat)
    requires i < |ranges| && TableInRange(ranges, bindings, i) && ranges[i].kind == SamplerKind
    ensures TableFor(ranges, bindings, compute, i).rangeHeap == HeapType.Sampler
    ensures TableFor(ranges, bindings, compute, i).copyHeap == CbvSrvUav
  {
  }
}
