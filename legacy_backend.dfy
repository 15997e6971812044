/** The older Direct3D 12 backend of renderer/backend_d3d12.cpp: the per-frame
    resources create_swapchain_resources sets up, the views create_texture
    counts into its two-entry descriptor array, the shader-visible
    descriptors create_descriptor_set requests, the tables
    bind_descriptor_set points at, and the command-list selection of
    begin_context and end_context. Its register assignment is the loop of
    DescriptorLayouts. Device calls (view, fence, list and buffer creation)
    are native and only their requests are recorded. */
module LegacyBackends {
  import opened Wrappers
  import opened HResults
  import opened DescriptorLayouts

  const U64: int := 0x1_0000_0000_0000_0000
  type Uint64 = x: int | 0 <= x < U64

  // ---------------------------------------------------------------------
  // Texture views

  datatype Dimension = D1 | D2 | D3

  /** The TextureFlags bits create_texture tests. */
  datatype TextureFlags = TextureFlags(depthStencil: bool, renderTarget: bool, unorderedAccess: bool, shaderResource: bool)

  /** The heap a view's DescriptorAllocInfo came from; NoView is the
      default-constructed entry. */
  datatype View = NoView | DsvView | RtvView | SrvView

  datatype ViewFault = DepthStencilDimensionUnsupported | WritePastEnd

  /** The position of a view kind in the order create_texture creates them. */
  function Rank(v: View): nat {
    match v
    case NoView => 0
    case DsvView => 1
    case RtvView => 2
    case SrvView => 3
  }

  /** The views a texture's flags ask for, in creation order. Unordered access
      creates no view. */
  function ViewOrder(f: TextureFlags): (r: seq<View>)
    ensures |r| == (if f.depthStencil then 1 else 0) + (if f.renderTarget then 1 else 0) + (if f.shaderResource then 1 else 0)
    ensures DsvView in r <==> f.depthStencil
    ensures RtvView in r <==> f.renderTarget
    ensures SrvView in r <==> f.shaderResource
    ensures NoView !in r
    ensures forall i, j :: 0 <= i < j < |r| ==> Rank(r[i]) < Rank(r[j])
  {
    (if f.depthStencil then [DsvView] else []) +
    (if f.renderTarget then [RtvView] else []) +
    (if f.shaderResource then [SrvView] else [])
  }

  /** The two-entry descriptor array holding the first two views. */
  function Slots(order: seq<View>): (r: seq<View>)
    ensures |r| == 2
  {
    seq(2, k requires 0 <= k < 2 => if k < |order| then order[k] else NoView)
  }

  /** The view-creation part of create_texture. descriptor_alloc_count
      counts the views made; a third view would be written past the end of
      the array, which is where the model stops, and so does the assertion
      a depth-stencil view of a 3D texture trips. */
  method CreateTextureViews(flags: TextureFlags, dimension: Dimension) returns (views: array<View>, count: nat, fault: Option<ViewFault>)
    ensures fresh(views) && views.Length == 2
    ensures fault == Some(DepthStencilDimensionUnsupported) <==> flags.depthStencil && dimension == D3
    ensures fault == Some(WritePastEnd) <==> !(flags.depthStencil && dimension == D3) && |ViewOrder(flags)| == 3
    ensures fault.None? ==> count == |ViewOrder(flags)| && views[..] == Slots(ViewOrder(flags))
  {
    views := new View[2](_ => NoView);
    count := 0;
    fault := None;
    if flags.depthStencil {
      if dimension == D3 {
        fault := Some(DepthStencilDimensionUnsupported);
        return;
      }
      views[count] := DsvView;
      count := count + 1;
    }
    if flags.renderTarget {
      views[count] := RtvView;
      count := count + 1;
    }
    if flags.shaderResource {
      if count == 2 {
        fault := Some(WritePastEnd);
        return;
      }
      views[count] := SrvView;
      count := count + 1;
    }
    assert views[..] == Slots(ViewOrder(flags));
  }

  /** Entry 0, the one render passes and write_descriptor_set use, holds the
      first view created: the depth-stencil view if there is one, else the
      render-target view, else the shader-resource view. */
  lemma FirstSlotIsFirstView(f: TextureFlags)
    ensures Slots(ViewOrder(f))[0] ==
      if f.depthStencil then DsvView
      else if f.renderTarget then RtvView
      else if f.shaderResource then SrvView
      else NoView
  {
  }

  /** Only textures without a depth-stencil view use their render-target view
      as a colour target, and only textures with neither a depth-stencil nor
      a render-target view hand their shader-resource view to a descriptor
      write: both read entry 0. */
  lemma EntryZeroMatchesItsUse(f: TextureFlags)
    ensures Slots(ViewOrder(f))[0] == RtvView <==> f.renderTarget && !f.depthStencil
    ensures Slots(ViewOrder(f))[0] == SrvView <==> f.shaderResource && !f.renderTarget && !f.depthStencil
    ensures Slots(ViewOrder(f))[0] == DsvView <==> f.depthStencil
  {
    FirstSlotIsFirstView(f);
  }

  /** The array keeps a view in every one of its entries that a view was
      created for, and the rest stay default. */
  lemma {:induction false} SlotsKeepCreatedViews(f: TextureFlags, k: nat)
    requires k < 2
    ensures Slots(ViewOrder(f))[k] != NoView <==> k < |ViewOrder(f)|
  {
    var order := ViewOrder(f);
    if k < |order| {
      assert order[k] in order;
    }
  }

  // ---------------------------------------------------------------------
  // Descriptor sets

  /** The shader-visible heaps create_descriptor_set allocates from. */
  datatype ShaderHeap = CbvSrvUavHeap | SamplerHeap

  function HeapOf(k: RangeKind): (h: ShaderHeap)
    ensures h == SamplerHeap <==> k == SamplerKind
  {
    match k
    case Srv => CbvSrvUavHeap
    case Cbv => CbvSrvUavHeap
    case Uav => CbvSrvUavHeap
    case SamplerKind => SamplerHeap
  }

  /** The heap of every allocation, one per descriptor, range by range. */
  function Requests(ranges: seq<Range>): seq<ShaderHeap> {
    if |ranges| == 0 then []
    else Requests(ranges[..|ranges| - 1]) + seq(ranges[|ranges| - 1].numDescriptors, _ => HeapOf(ranges[|ranges| - 1].kind))
  }

  lemma RequestsStep(ranges: seq<Range>, i: nat)
    requires i < |ranges|
    ensures Requests(ranges[..i + 1]) == Requests(ranges[..i]) + seq(ranges[i].numDescriptors, _ => HeapOf(ranges[i].kind))
  {
    assert ranges[..i + 1][..i] == ranges[..i];
  }

  /** The two nested loops of create_descriptor_set. */
  method CreateDescriptorSet(ranges: seq<Range>) returns (allocs: seq<ShaderHeap>)
    ensures allocs == Requests(ranges)
  {
    allocs := [];
    var r := 0;
    while r < |ranges|
      invariant 0 <= r <= |ranges|
      invariant allocs == Requests(ranges[..r])
    {
      var range := ranges[r];
      var heap := HeapOf(range.kind);
      var i := 0;
      while i < range.numDescriptors
        invariant 0 <= i <= range.numDescriptors
        invariant allocs == Requests(ranges[..r]) + seq(i, _ => heap)
      {
        allocs := allocs + [heap];
        i := i + 1;
      }
      RequestsStep(ranges, r);
      r := r + 1;
    }
    assert ranges[..r] == ranges;
  }

  /** A set has exactly as many descriptors as its layout declares, and
      descriptor j of range i sits at the range's offset plus j, in the heap
      of the range's type. */
  lemma {:induction false} RequestsLayout(ranges: seq<Range>, i: nat, j: nat)
    requires i < |ranges| && j < ranges[i].numDescriptors
    ensures |Requests(ranges)| == TotalDescriptors(ranges)
    ensures Offset(ranges, i) + j < |Requests(ranges)|
    ensures Requests(ranges)[Offset(ranges, i) + j] == HeapOf(ranges[i].kind)
  {
    var n := |ranges| - 1;
    RequestsCount(ranges);
    assert ranges[..n + 1] == ranges;
    RequestsStep(ranges, n);
    RequestsCount(ranges[..n]);
    if i == n {
      assert Offset(ranges, i) == TotalDescriptors(ranges[..n]);
    } else {
      assert ranges[..n][i] == ranges[i];
      RequestsLayout(ranges[..n], i, j);
      assert ranges[..n][..i] == ranges[..i];
    }
  }

  lemma {:induction false} RequestsCount(ranges: seq<Range>)
    ensures |Requests(ranges)| == TotalDescriptors(ranges)
  {
    if |ranges| > 0 {
      RequestsCount(ranges[..|ranges| - 1]);
    }
  }

  /** One SetGraphicsRootDescriptorTable call: the root index, the set's
      allocation the handle is computed from (None when binding is past the
      end of the set), and the heap whose increment size scales it. */
  datatype TableBinding = TableBinding(rootIndex: nat, read: Option<ShaderHeap>, incrementHeap: ShaderHeap)

  /** What table i reads from a set's allocations. */
  function ReadAt(allocs: seq<ShaderHeap>, b: nat): Option<ShaderHeap> {
    if b < |allocs| then Some(allocs[b]) else None
  }

  /** The loop of bind_descriptor_set with its running binding. */
  method BindDescriptorSet(ranges: seq<Range>, allocs: seq<ShaderHeap>) returns (tables: seq<TableBinding>)
    ensures |tables| == |ranges|
    ensures forall i :: 0 <= i < |ranges| ==>
      tables[i] == TableBinding(i, ReadAt(allocs, Offset(ranges, i)), HeapOf(ranges[i].kind))
  {
    tables := [];
    var binding: nat := 0;
    var i := 0;
    while i < |ranges|
      invariant 0 <= i <= |ranges| && |tables| == i
      invariant binding == Offset(ranges, i)
      invariant forall k :: 0 <= k < i ==> tables[k] == TableBinding(k, ReadAt(allocs, Offset(ranges, k)), HeapOf(ranges[k].kind))
    {
      var t := TableBinding(i, ReadAt(allocs, binding), HeapOf(ranges[i].kind));
      OffsetStep(ranges, i);
      binding := binding + ranges[i].numDescriptors;
      tables := tables + [t];
      i := i + 1;
    }
  }

  /** For a set made by create_descriptor_set, every table of a non-empty
      range reads the first descriptor of its own range, from the heap its
      increment size belongs to. */
  lemma BoundTablesReadTheirRange(ranges: seq<Range>, i: nat)
    requires i < |ranges| && ranges[i].numDescriptors > 0
    ensures ReadAt(Requests(ranges), Offset(ranges, i)) == Some(HeapOf(ranges[i].kind))
  {
    RequestsLayout(ranges, i, 0);
  }

  /** An empty range reads whatever follows it: the next range's first
      descriptor, or nothing when only empty ranges follow. */
  lemma {:induction false} EmptyRangeReadsWhatFollows(ranges: seq<Range>, i: nat)
    requires i + 1 < |ranges| && ranges[i].numDescriptors == 0
    ensures Offset(ranges, i) == Offset(ranges, i + 1)
    ensures ranges[i + 1].numDescriptors > 0 ==> ReadAt(Requests(ranges), Offset(ranges, i)) == Some(HeapOf(ranges[i + 1].kind))
  {
    OffsetStep(ranges, i);
    if ranges[i + 1].numDescriptors > 0 {
      RequestsLayout(ranges, i + 1, 0);
    }
  }

  /** A trailing empty range reads past the end of the set. */
  lemma TrailingEmptyRangeReadsPastEnd(ranges: seq<Range>)
    requires |ranges| > 0 && ranges[|ranges| - 1].numDescriptors == 0
    ensures ReadAt(Requests(ranges), Offset(ranges, |ranges| - 1)) == None
  {
    var n := |ranges| - 1;
    RequestsCount(ranges);
    assert ranges[..n + 1] == ranges;
    OffsetStep(ranges, n);
  }

  // ---------------------------------------------------------------------
  // Per-frame resources and command-list contexts

  datatype ContextType = Graphics | Copy | Compute

  /** A CommandList entry: Missing is the default-constructed one with no
      allocator or list; a list made by CreateCommandList1 starts Closed. */
  datatype ListState = Missing | Closed | Recording

  /** A create_buffer request: its size and whether BufferFlags::HostWrite
      is set. */
  datatype BufferRequest = BufferRequest(size: nat, hostWrite: bool)

  /** An UploadBuffer pair: the buffer (None for the default handle) and
      the write offset. */
  datatype UploadBuffer = UploadBuffer(buffer: Option<BufferRequest>, offset: Uint64)

  const UploadSize: nat := 64 * 1024 * 1024

  /** Frame i of the seven per-frame vectors, which are always resized
      together: the direct, copy and compute lists, their fences' counters
      and the upload buffer. */
  datatype Frame = Frame(direct: ListState, copy: ListState, compute: ListState,
                         directFence: Uint64, copyFence: Uint64, computeFence: Uint64,
                         upload: UploadBuffer)

  /** The value-initialised frame vector::resize appends. */
  const DefaultFrame: Frame := Frame(Missing, Missing, Missing, 0, 0, 0, UploadBuffer(None, 0))

  /** vector::resize on every per-frame vector. */
  function Resized(frames: seq<Frame>, n: nat): (r: seq<Frame>)
    ensures |r| == n
    ensures forall i :: 0 <= i < n ==> r[i] == if i < |frames| then frames[i] else DefaultFrame
  {
    seq(n, i requires 0 <= i < n => if i < |frames| then frames[i] else DefaultFrame)
  }

  /** One iteration of create_swapchain_resources' loop: new closed lists,
      every fence counter one higher, a new 64 MiB host-writable upload
      buffer at offset 0. */
  function Initialised(f: Frame): Frame {
    Frame(Closed, Closed, Closed,
          (f.directFence + 1) % U64, (f.copyFence + 1) % U64, (f.computeFence + 1) % U64,
          UploadBuffer(Some(BufferRequest(UploadSize, true)), 0))
  }

  /** The frame a backend starts with. */
  const FreshFrame: Frame := Frame(Closed, Closed, Closed, 1, 1, 1, UploadBuffer(Some(BufferRequest(UploadSize, true)), 0))

  /** Set up from empty vectors, every frame has closed lists, counters of 1
      and a 64 MiB host-writable upload buffer at offset 0. */
  lemma FreshFrames(n: nat)
    ensures forall i :: 0 <= i < n ==> Initialised(Resized([], n)[i]) == FreshFrame
  {
  }

  /** The list of the given type in a frame. */
  function ListOf(f: Frame, t: ContextType): ListState {
    match t
    case Graphics => f.direct
    case Copy => f.copy
    case Compute => f.compute
  }

  function WithList(f: Frame, t: ContextType, s: ListState): (r: Frame)
    ensures ListOf(r, t) == s
    ensures forall u :: u != t ==> ListOf(r, u) == ListOf(f, u)
    ensures r.directFence == f.directFence && r.copyFence == f.copyFence && r.computeFence == f.computeFence
    ensures r.upload == f.upload
  {
    match t
    case Graphics => f.(direct := s)
    case Copy => f.(copy := s)
    case Compute => f.(compute := s)
  }

  /** current_list: which frame's list of which type. */
  datatype ListRef = ListRef(contextType: ContextType, frame: nat)

  class LegacyBackend {
    var frames: seq<Frame>
    var swapIndex: nat
    var current: Option<ListRef>

    /** The part of the constructor after the swapchain is created. */
    constructor(count: Uint64)
      ensures swapIndex == 0 && current == None
      ensures |frames| == count && forall i :: 0 <= i < count ==> frames[i] == FreshFrame
    {
      frames := [];
      swapIndex := 0;
      current := None;
      new;
      CreateSwapchainResources(count);
      FreshFrames(count);
    }

    /** create_swapchain_resources: resize, then set up every frame. */
    method CreateSwapchainResources(count: Uint64)
      modifies this
      ensures swapIndex == old(swapIndex) && current == old(current)
      ensures |frames| == count
      ensures forall i :: 0 <= i < count ==> frames[i] == Initialised(Resized(old(frames), count)[i])
    {
      var resized := Resized(frames, count);
      frames := resized;
      var i := 0;
      while i < count
        invariant 0 <= i <= count && |frames| == count
        invariant swapIndex == old(swapIndex) && current == old(current)
        invariant forall k :: 0 <= k < i ==> frames[k] == Initialised(resized[k])
        invariant forall k :: i <= k < count ==> frames[k] == resized[k]
      {
        frames := frames[i := Initialised(frames[i])];
        i := i + 1;
      }
    }

    /** begin_context: select the list of the given type at swap_index, then
      reset its allocator and the list; a failing reset throws with
      current_list already set. */
    method BeginContext(t: ContextType, allocatorReset: HResult, listReset: HResult) returns (r: Result<()>)
      requires swapIndex < |frames|
      modifies this
      ensures current == Some(ListRef(t, swapIndex))
      ensures swapIndex == old(swapIndex) && |frames| == |old(frames)|
      ensures r == if allocatorReset < 0 then ThrowIfFailed(allocatorReset) else ThrowIfFailed(listReset)
      ensures frames == if r.Ok? then old(frames)[swapIndex := WithList(old(frames)[swapIndex], t, Recording)] else old(frames)
    {
      current := Some(ListRef(t, swapIndex));
      r := ThrowIfFailed(allocatorReset);
      if r.Err? {
        return;
      }
      r := ThrowIfFailed(listReset);
      if r.Err? {
        return;
      }
      frames := frames[swapIndex := WithList(frames[swapIndex], t, Recording)];
    }

    /** end_context: close the current list and clear current_list; a failing
      Close throws and leaves both. */
    method EndContext(close: HResult) returns (r: Result<()>)
      requires current.Some? && current.value.frame < |frames|
      modifies this
      ensures swapIndex == old(swapIndex) && |frames| == |old(frames)|
      ensures r == ThrowIfFailed(close)
      ensures r.Ok? ==> (current == None &&
        frames == old(frames)[old(current).value.frame := WithList(old(frames)[old(current).value.frame], old(current).value.contextType, Closed)])
      ensures r.Err? ==> current == old(current) && frames == old(frames)
    {
      r := ThrowIfFailed(close);
      if r.Err? {
        return;
      }
      var c := current.value;
      frames := frames[c.frame := WithList(frames[c.frame], c.contextType, Closed)];
      current := None;
    }
  }
}
