/** The DX12Device of renderer/rhi/dx12/device.cpp: adapter choice, the three
    queues with their uint64 fence counters, command-buffer allocation,
    submission, wait_for_idle, and frame pacing through each frame's
    present_fence_value. Native calls are recorded in a log rather than
    performed; the value a fence reports as completed is supplied by the
    environment and never exceeds the last value signalled on it. A host wait
    for a value nothing will ever signal blocks forever, which the model
    reports as Hangs. */
module DX12Devices {
  import opened Wrappers
  import opened HResults

  const U64: int := 0x1_0000_0000_0000_0000
  type Uint64 = x: int | 0 <= x < U64

  /** fence_value++ on a uint64. */
  function Bump(v: Uint64): (r: Uint64)
    ensures v < U64 - 1 ==> r == v + 1
  {
    (v + 1) % U64
  }

  // ---------------------------------------------------------------------
  // Adapter choice

  /** What EnumAdapters1 yields at one index: the HRESULT of GetDesc1 and
      whether the description carries DXGI_ADAPTER_FLAG_SOFTWARE. */
  datatype Adapter = Adapter(descResult: HResult, software: bool)

  /** The index the loop stops at: the first adapter whose description fails,
      or the first hardware adapter. */
  function FirstStop(adapters: seq<Adapter>, from: nat): (r: Option<nat>)
    requires from <= |adapters|
    ensures r.Some? ==> from <= r.value < |adapters| && (adapters[r.value].descResult < 0 || !adapters[r.value].software)
    ensures r.Some? ==> forall j :: from <= j < r.value ==> adapters[j].descResult >= 0 && adapters[j].software
    ensures r.None? ==> forall j :: from <= j < |adapters| ==> adapters[j].descResult >= 0 && adapters[j].software
    decreases |adapters| - from
  {
    if from == |adapters| then None
    else if adapters[from].descResult < 0 || !adapters[from].software then Some(from)
    else FirstStop(adapters, from + 1)
  }

  /** The adapter the constructor keeps: the first non-software one in
      enumeration order, none when every adapter is a software one (the
      device is then created on the default adapter); a failing GetDesc1
      throws its message. */
  function AdapterChoice(adapters: seq<Adapter>): (r: Result<Option<nat>>)
    ensures r.Ok? && r.value.Some? ==> (r.value.value < |adapters| && !adapters[r.value.value].software &&
      forall j :: 0 <= j < r.value.value ==> adapters[j].software)
    ensures r == Ok(None) <==> forall j :: 0 <= j < |adapters| ==> adapters[j].descResult >= 0 && adapters[j].software
    ensures r.Err? ==> exists j :: 0 <= j < |adapters| && r.message == HResultToString(adapters[j].descResult) && adapters[j].descResult < 0
  {
    match FirstStop(adapters, 0)
    case None => Ok(None)
    case Some(i) => if adapters[i].descResult < 0 then Err(HResultToString(adapters[i].descResult)) else Ok(Some(i))
  }

  /** The enumeration loop. */
  method ChooseAdapter(adapters: seq<Adapter>) returns (r: Result<Option<nat>>)
    ensures r == AdapterChoice(adapters)
  {
    var i := 0;
    while i < |adapters|
      invariant 0 <= i <= |adapters|
      invariant FirstStop(adapters, 0) == FirstStop(adapters, i)
    {
      var a := adapters[i];
      if a.descResult < 0 {
        return Err(HResultToString(a.descResult));
      }
      if !a.software {
        return Ok(Some(i));
      }
      i := i + 1;
    }
    return Ok(None);
  }

  // ---------------------------------------------------------------------
  // Command lists

  /** D3D12_COMMAND_LIST_TYPE. */
  datatype ListType = Direct | CopyList | ComputeList | Bundle

  /** CommandBufferType, with room for values outside the enumeration. */
  datatype CommandBufferType = Graphics | Copy | Compute | OtherBufferType(value: int)

  /** The switch of allocate_command_buffer. */
  function ListTypeFor(t: CommandBufferType): (l: ListType)
    ensures l == Direct <==> t == Graphics
    ensures l == CopyList <==> t == Copy
    ensures l == ComputeList <==> t == Compute
    ensures l == Bundle <==> t.OtherBufferType?
  {
    match t
    case Graphics => Direct
    case Copy => CopyList
    case Compute => ComputeList
    case OtherBufferType(_) => Bundle
  }

  /** The switch of submit_command_lists: the queue for a list type, none for
      a bundle, which trips the assertion. */
  function QueueFor(l: ListType): (q: Option<nat>)
    ensures q.Some? <==> l != Bundle
    ensures q.Some? ==> q.value < 3
  {
    match l
    case Direct => Some(0)
    case CopyList => Some(1)
    case ComputeList => Some(2)
    case Bundle => None
  }

  /** The queue types in queue_infos' order. */
  const QueueTypes: seq<ListType> := [Direct, CopyList, ComputeList]

  /** A buffer of graphics, copy or compute type is submitted to the queue
      created for its list type. */
  lemma SubmittedToItsOwnQueue(t: CommandBufferType)
    requires !t.OtherBufferType?
    ensures QueueFor(ListTypeFor(t)).Some? && QueueTypes[QueueFor(ListTypeFor(t)).value] == ListTypeFor(t)
  {
  }

  // ---------------------------------------------------------------------
  // Frame pacing

  /** The counters of the three queues, each frame's present_fence_value and
      frame_index. */
  datatype Pacing = Pacing(counters: seq<Uint64>, presentValues: seq<Uint64>, frameIndex: nat)

  predicate WellFormed(s: Pacing) {
    |s.counters| == 3 && |s.presentValues| > 0 && s.frameIndex < |s.presentValues|
  }

  /** The state after construction: counters and present values 0. */
  function Initial(framesInFlight: nat): (s: Pacing)
    requires framesInFlight > 0
    ensures WellFormed(s)
  {
    Pacing([0, 0, 0], seq(framesInFlight, _ => 0), 0)
  }

  /** submit_command_lists on queue q: the counter goes up, then is signalled. */
  function Submit(s: Pacing, q: nat): (r: Pacing)
    requires WellFormed(s) && q < 3
    ensures WellFormed(r)
  {
    s.(counters := s.counters[q := Bump(s.counters[q])])
  }

  /** wait_for_idle: every counter goes up once. */
  function Idle(s: Pacing): (r: Pacing)
    requires WellFormed(s)
    ensures WellFormed(r)
  {
    s.(counters := [Bump(s.counters[0]), Bump(s.counters[1]), Bump(s.counters[2])])
  }

  /** present: the queue-0 counter goes up and becomes the current frame's
      present value. */
  function Presented(s: Pacing): (r: Pacing)
    requires WellFormed(s)
    ensures WellFormed(r)
    ensures r.presentValues[r.frameIndex] == r.counters[0]
  {
    var v := Bump(s.counters[0]);
    s.(counters := s.counters[0 := v], presentValues := s.presentValues[s.frameIndex := v])
  }

  /** request_next_swapchain_buffer for the back buffer the swapchain names:
      that frame's value becomes the next frame's value plus one. */
  function Request(s: Pacing, index: nat): (r: Pacing)
    requires WellFormed(s) && index < |s.presentValues|
    ensures WellFormed(r)
  {
    var n := |s.presentValues|;
    Pacing(s.counters, s.presentValues[index := (s.presentValues[(index + 1) % n] + 1) % U64], index)
  }

  /** resize_swapchain_buffers: wait_for_idle, then every present value 0. */
  function Resize(s: Pacing): (r: Pacing)
    requires WellFormed(s)
    ensures WellFormed(r)
    ensures forall f :: 0 <= f < |r.presentValues| ==> r.presentValues[f] == 0
  {
    Idle(s).(presentValues := seq(|s.presentValues|, _ => 0))
  }

  datatype WaitOutcome = NoWait | Waits | Hangs

  /** The host wait for `target` on a fence that reports `completed` and was
      last signalled with `signalled`: none when already reached, a wait that
      ends when the value was signalled, and one that never ends otherwise. */
  function WaitFor(target: Uint64, completed: Uint64, signalled: Uint64): (w: WaitOutcome)
    ensures w == NoWait <==> completed >= target
    ensures w == Hangs <==> completed < target && target > signalled
  {
    if completed >= target then NoWait else if target <= signalled then Waits else Hangs
  }

  /** No present value is ahead of the queue-0 counter. */
  predicate Settled(s: Pacing)
    requires WellFormed(s)
  {
    forall f :: 0 <= f < |s.presentValues| ==> s.presentValues[f] <= s.counters[0]
  }

  /** After a request and before its present: only the current frame may be
      one ahead of the queue-0 counter. */
  predicate Pending(s: Pacing)
    requires WellFormed(s)
  {
    (forall f :: 0 <= f < |s.presentValues| && f != s.frameIndex ==> s.presentValues[f] <= s.counters[0]) &&
    s.presentValues[s.frameIndex] as int <= s.counters[0] as int + 1
  }

  /** Counters far enough from 2^64 that k more increments do not wrap. */
  predicate Headroom(s: Pacing, k: nat)
    requires WellFormed(s)
  {
    forall q :: 0 <= q < 3 ==> s.counters[q] as int + k < U64
  }

  lemma InitialSettled(n: nat)
    requires n > 0
    ensures Settled(Initial(n))
  {
  }

  /** From a settled state the request waits at most for a value already
      signalled, and leaves a pending state. */
  lemma SettledRequestReturns(s: Pacing, index: nat, completed: Uint64)
    requires WellFormed(s) && index < |s.presentValues| && Settled(s) && Headroom(s, 1)
    requires completed <= s.counters[0]
    ensures WaitFor(s.presentValues[index], completed, s.counters[0]) != Hangs
    ensures Pending(Request(s, index))
  {
  }

  /** Submissions keep a pending state pending while the counters do not wrap. */
  lemma {:induction false} SubmitsKeepPending(s: Pacing, queues: seq<nat>)
    requires WellFormed(s) && Pending(s) && Headroom(s, |queues|)
    requires forall i :: 0 <= i < |queues| ==> queues[i] < 3
    ensures WellFormed(SubmitAll(s, queues)) && Pending(SubmitAll(s, queues))
    ensures forall q :: 0 <= q < 3 ==> s.counters[q] <= SubmitAll(s, queues).counters[q] <= s.counters[q] as int + |queues|
    ensures SubmitAll(s, queues).presentValues == s.presentValues && SubmitAll(s, queues).frameIndex == s.frameIndex
    decreases |queues|
  {
    if |queues| > 0 {
      var t := Submit(s, queues[0]);
      assert Headroom(t, |queues| - 1);
      assert Pending(t);
      SubmitsKeepPending(t, queues[1..]);
    }
  }

  /** A run of submissions in order. */
  function SubmitAll(s: Pacing, queues: seq<nat>): (r: Pacing)
    requires WellFormed(s) && forall i :: 0 <= i < |queues| ==> queues[i] < 3
    ensures WellFormed(r)
    decreases |queues|
  {
    if |queues| == 0 then s else SubmitAll(Submit(s, queues[0]), queues[1..])
  }

  /** Present settles a pending state: the current frame's value is the
      value just signalled. */
  lemma PresentSettles(s: Pacing)
    requires WellFormed(s) && Pending(s) && Headroom(s, 1)
    ensures Settled(Presented(s))
  {
  }

  /** One frame of the usual protocol — request the back buffer, submit, then
      present — never hangs and leaves the device settled again. */
  lemma FrameKeepsPacing(s: Pacing, index: nat, completed: Uint64, queues: seq<nat>)
    requires WellFormed(s) && index < |s.presentValues| && Settled(s) && Headroom(s, |queues| + 1)
    requires completed <= s.counters[0]
    requires forall i :: 0 <= i < |queues| ==> queues[i] < 3
    ensures WaitFor(s.presentValues[index], completed, s.counters[0]) != Hangs
    ensures Settled(Presented(SubmitAll(Request(s, index), queues)))
  {
    SettledRequestReturns(s, index, completed);
    var r := Request(s, index);
    assert Headroom(r, |queues| + 1);
    SubmitsKeepPending(r, queues);
    PresentSettles(SubmitAll(r, queues));
  }

  /** Two requests for the same back buffer without a present between them:
      the second waits for a value that queue 0 was never signalled, right
      after construction with two frames in flight. */
  lemma DoubleRequestHangs()
    ensures var s := Request(Request(Initial(2), 0), 0);
      WaitFor(Request(Initial(2), 0).presentValues[0], 0, s.counters[0]) == Hangs
  {
    assert Request(Initial(2), 0).presentValues[0] == 1;
  }

  /** Resize settles the device whatever state it was in. */
  lemma ResizeSettles(s: Pacing)
    requires WellFormed(s)
    ensures Settled(Resize(s))
  {
  }

  /** Submission signals the counter it has just raised, so a queue's
      signals run 1, 2, 3, ... */
  lemma SubmitSignalsNext(s: Pacing, q: nat)
    requires WellFormed(s) && q < 3 && s.counters[q] < U64 - 1
    ensures Submit(s, q).counters[q] == s.counters[q] + 1
    ensures forall p :: 0 <= p < 3 && p != q ==> Submit(s, q).counters[p] == s.counters[p]
  {
  }

  // ---------------------------------------------------------------------
  // The device

  /** The native calls the device issues. */
  datatype Op =
    | Execute(queue: nat, lists: seq<nat>)
    | Signal(queue: nat, value: Uint64)
    | HostWait(queue: nat, value: Uint64)
    | AllocateList(frame: nat, listType: ListType)
    | ResetList(list: nat)
    | ResetAllocator(frame: nat)
    | TryResetUpload
    | PresentCall
    | ResizeBuffers(width: nat, height: nat)

  datatype QueueInfo = QueueInfo(listType: ListType, fenceValue: Uint64)

  /** A frame's swapchain texture, named by creation number, and its
      present_fence_value. */
  datatype FrameInfo = FrameInfo(swapchainBuffer: nat, presentFenceValue: Uint64)

  /** A command buffer: its list type, the frame whose allocator made it, and
      its list. */
  datatype CommandBuffer = CommandBuffer(listType: ListType, frame: nat, list: nat)

  /** The wait of wait_for_idle on one queue just signalled with `value`. */
  function IdleOps(q: nat, value: Uint64, completed: Uint64): seq<Op> {
    [Signal(q, value)] + if completed < value then [HostWait(q, value)] else []
  }

  class Device {
    var queues: seq<QueueInfo>
    var frames: seq<FrameInfo>
    var frameIndex: nat
    var commandBatches: seq<nat>
    var texturesMade: nat
    var listsMade: nat
    var log: seq<Op>

    predicate Valid()
      reads this
    {
      |queues| == 3 && (forall q :: 0 <= q < 3 ==> queues[q].listType == QueueTypes[q]) &&
      |frames| > 0 && frameIndex < |frames|
    }

    function Counters(): seq<Uint64>
      reads this
      requires |queues| == 3
    {
      [queues[0].fenceValue, queues[1].fenceValue, queues[2].fenceValue]
    }

    function PresentValues(): (r: seq<Uint64>)
      reads this
      ensures |r| == |frames|
    {
      seq(|frames|, f requires 0 <= f < |frames| reads this => frames[f].presentFenceValue)
    }

    /** The fence state the pacing functions describe. */
    function State(): Pacing
      reads this
      requires Valid()
    {
      Pacing(Counters(), PresentValues(), frameIndex)
    }

    /** The queue and frame set-up of the constructor: DIRECT, COPY and
        COMPUTE queues with fence_value 0, then one frame per swapchain
        buffer with present_fence_value 0. */
    constructor(framesInFlight: nat)
      requires framesInFlight > 0
      ensures Valid() && State() == Initial(framesInFlight)
      ensures queues == [QueueInfo(Direct, 0), QueueInfo(CopyList, 0), QueueInfo(ComputeList, 0)]
      ensures frames == seq(framesInFlight, i requires 0 <= i < framesInFlight => FrameInfo(i, 0))
      ensures commandBatches == [] && log == [] && texturesMade == framesInFlight
    {
      var qs: seq<QueueInfo> := [];
      for k := 0 to 3
        invariant qs == seq(k, i requires 0 <= i < k => QueueInfo(QueueTypes[i], 0))
      {
        qs := qs + [QueueInfo(QueueTypes[k], 0)];
      }
      var fs: seq<FrameInfo> := [];
      for i := 0 to framesInFlight
        invariant fs == seq(i, j requires 0 <= j < i => FrameInfo(j, 0))
      {
        fs := fs + [FrameInfo(i, 0)];
      }
      queues := qs;
      frames := fs;
      frameIndex := 0;
      commandBatches := [];
      texturesMade := framesInFlight;
      listsMade := 0;
      log := [];
      new;
      assert PresentValues() == seq(framesInFlight, _ => 0);
    }

    /** allocate_command_buffer: a list of the mapped type from the current
        frame's allocator, reset before it is returned. */
    method AllocateCommandBuffer(t: CommandBufferType) returns (b: CommandBuffer)
      requires Valid()
      modifies this
      ensures b == CommandBuffer(ListTypeFor(t), frameIndex, old(listsMade))
      ensures log == old(log) + [AllocateList(frameIndex, ListTypeFor(t)), ResetList(old(listsMade))]
      ensures listsMade == old(listsMade) + 1
      ensures queues == old(queues) && frames == old(frames) && frameIndex == old(frameIndex)
      ensures commandBatches == old(commandBatches) && texturesMade == old(texturesMade)
    {
      var listType := ListTypeFor(t);
      b := CommandBuffer(listType, frameIndex, listsMade);
      listsMade := listsMade + 1;
      log := log + [AllocateList(frameIndex, listType), ResetList(b.list)];
    }

    /** submit_command_lists: every buffer's list joins command_batches, the
        batch runs on the queue of the first buffer's type, the batch list is
        cleared and the raised counter is signalled. A first buffer of any
        other type trips the assertion after the lists were added. */
    method SubmitCommandLists(buffers: seq<CommandBuffer>) returns (fault: bool)
      requires Valid() && |buffers| > 0
      modifies this
      ensures Valid()
      ensures fault <==> QueueFor(buffers[0].listType).None?
      ensures fault ==> (State() == old(State()) && log == old(log) &&
        commandBatches == old(commandBatches) + seq(|buffers|, i requires 0 <= i < |buffers| => buffers[i].list))
      ensures !fault ==> (var q := QueueFor(buffers[0].listType).value;
        State() == Submit(old(State()), q) && commandBatches == [] &&
        log == old(log) + [Execute(q, old(commandBatches) + seq(|buffers|, i requires 0 <= i < |buffers| => buffers[i].list)),
                           Signal(q, Bump(old(queues)[q].fenceValue))])
      ensures frames == old(frames) && frameIndex == old(frameIndex)
      ensures texturesMade == old(texturesMade) && listsMade == old(listsMade)
    {
      var i := 0;
      while i < |buffers|
        invariant 0 <= i <= |buffers|
        invariant commandBatches == old(commandBatches) + seq(i, k requires 0 <= k < i => buffers[k].list)
        invariant queues == old(queues) && frames == old(frames) && frameIndex == old(frameIndex) && log == old(log)
        invariant texturesMade == old(texturesMade) && listsMade == old(listsMade)
      {
        commandBatches := commandBatches + [buffers[i].list];
        i := i + 1;
      }
      var target := QueueFor(buffers[0].listType);
      if target.None? {
        return true;
      }
      var q := target.value;
      log := log + [Execute(q, commandBatches)];
      commandBatches := [];
      var v := Bump(queues[q].fenceValue);
      queues := queues[q := queues[q].(fenceValue := v)];
      log := log + [Signal(q, v)];
      fault := false;
    }

    /** One queue of wait_for_idle. */
    method IdleQueue(q: nat, completed: Uint64)
      requires Valid() && q < 3
      requires completed <= Bump(queues[q].fenceValue)
      modifies this
      ensures Valid()
      ensures queues == old(queues)[q := old(queues)[q].(fenceValue := Bump(old(queues)[q].fenceValue))]
      ensures log == old(log) + IdleOps(q, Bump(old(queues)[q].fenceValue), completed)
      ensures frames == old(frames) && frameIndex == old(frameIndex) && commandBatches == old(commandBatches)
      ensures texturesMade == old(texturesMade) && listsMade == old(listsMade)
    {
      var v := Bump(queues[q].fenceValue);
      queues := queues[q := queues[q].(fenceValue := v)];
      log := log + [Signal(q, v)];
      if completed < v {
        log := log + [HostWait(q, v)];
      }
    }

    /** wait_for_idle: every queue raises and signals its counter and the
        host waits until the GPU reports it; the value waited for is always
        the one just signalled, so the wait ends. `completed` holds what each
        fence reports right after its signal. */
    method WaitForIdle(completed: seq<Uint64>)
      requires Valid() && |completed| == 3
      requires forall q :: 0 <= q < 3 ==> completed[q] <= Bump(queues[q].fenceValue)
      modifies this
      ensures Valid() && State() == Idle(old(State()))
      ensures log == old(log) + IdleOps(0, Bump(old(queues)[0].fenceValue), completed[0])
                              + IdleOps(1, Bump(old(queues)[1].fenceValue), completed[1])
                              + IdleOps(2, Bump(old(queues)[2].fenceValue), completed[2])
      ensures frames == old(frames) && frameIndex == old(frameIndex) && commandBatches == old(commandBatches)
      ensures texturesMade == old(texturesMade) && listsMade == old(listsMade)
    {
      IdleQueue(0, completed[0]);
      IdleQueue(1, completed[1]);
      IdleQueue(2, completed[2]);
    }

    /** request_next_swapchain_buffer: take the back-buffer index from the
        swapchain, wait until queue 0 reaches that frame's present value,
        then give the frame the next frame's value plus one, reset its
        allocator and the upload context, and return its texture. */
    method RequestNextSwapchainBuffer(index: nat, completed: Uint64) returns (texture: nat, w: WaitOutcome)
      requires Valid() && index < |frames|
      requires completed <= queues[0].fenceValue
      modifies this
      ensures Valid()
      ensures w == WaitFor(old(frames)[index].presentFenceValue, completed, old(queues)[0].fenceValue)
      ensures w != Hangs ==> State() == Request(old(State()), index)
      ensures w == Hangs ==> State() == old(State()).(frameIndex := index)
      ensures log == old(log)
        + (if w == NoWait then [] else [HostWait(0, old(frames)[index].presentFenceValue)])
        + (if w == Hangs then [] else [ResetAllocator(index), TryResetUpload])
      ensures texture == frames[index].swapchainBuffer && frames[index].swapchainBuffer == old(frames)[index].swapchainBuffer
      ensures queues == old(queues) && commandBatches == old(commandBatches)
      ensures texturesMade == old(texturesMade) && listsMade == old(listsMade)
    {
      ghost var s0 := State();
      frameIndex := index;
      assert State() == s0.(frameIndex := index);
      var target := frames[index].presentFenceValue;
      w := WaitFor(target, completed, queues[0].fenceValue);
      if w != NoWait {
        log := log + [HostWait(0, target)];
      }
      texture := frames[index].swapchainBuffer;
      if w == Hangs {
        return;
      }
      var next := (index + 1) % |frames|;
      frames := frames[index := frames[index].(presentFenceValue := (frames[next].presentFenceValue + 1) % U64)];
      log := log + [ResetAllocator(index), TryResetUpload];
      assert PresentValues() == s0.presentValues[index := (s0.presentValues[next] + 1) % U64];
    }

    /** present: present, then raise and signal the queue-0 counter and keep
        it as the current frame's present value. */
    method Present()
      requires Valid()
      modifies this
      ensures Valid() && State() == Presented(old(State()))
      ensures log == old(log) + [PresentCall, Signal(0, Bump(old(queues)[0].fenceValue))]
      ensures commandBatches == old(commandBatches) && texturesMade == old(texturesMade) && listsMade == old(listsMade)
      ensures forall f :: 0 <= f < |frames| ==> frames[f].swapchainBuffer == old(frames)[f].swapchainBuffer
    {
      log := log + [PresentCall];
      var v := Bump(queues[0].fenceValue);
      queues := queues[0 := queues[0].(fenceValue := v)];
      log := log + [Signal(0, v)];
      frames := frames[frameIndex := frames[frameIndex].(presentFenceValue := v)];
      assert PresentValues() == old(State()).presentValues[frameIndex := v];
    }

    /** resize_swapchain_buffers: wait_for_idle, zero every present value,
        resize the buffers and make a new texture for every frame. */
    method ResizeSwapchainBuffers(width: nat, height: nat, completed: seq<Uint64>)
      requires Valid() && |completed| == 3
      requires forall q :: 0 <= q < 3 ==> completed[q] <= Bump(queues[q].fenceValue)
      modifies this
      ensures Valid() && State() == Resize(old(State()))
      ensures log == old(log) + IdleOps(0, Bump(old(queues)[0].fenceValue), completed[0])
                              + IdleOps(1, Bump(old(queues)[1].fenceValue), completed[1])
                              + IdleOps(2, Bump(old(queues)[2].fenceValue), completed[2])
                              + [ResizeBuffers(width, height)]
      ensures |frames| == |old(frames)| && texturesMade == old(texturesMade) + |frames|
      ensures forall f :: 0 <= f < |frames| ==> frames[f] == FrameInfo(old(texturesMade) + f, 0)
      ensures commandBatches == old(commandBatches) && listsMade == old(listsMade)
    {
      WaitForIdle(completed);
      var n := |frames|;
      var f := 0;
      while f < n
        invariant 0 <= f <= n && |frames| == n && Valid()
        invariant forall k :: 0 <= k < f ==> frames[k].presentFenceValue == 0
        invariant forall k :: f <= k < n ==> frames[k] == old(frames)[k]
        invariant queues == old(queues)[0 := queues[0]][1 := queues[1]][2 := queues[2]]
        invariant Counters() == Idle(old(State())).counters && frameIndex == old(frameIndex)
        invariant texturesMade == old(texturesMade) && listsMade == old(listsMade) && commandBatches == old(commandBatches)
        invariant log == old(log) + IdleOps(0, Bump(old(queues)[0].fenceValue), completed[0])
                                  + IdleOps(1, Bump(old(queues)[1].fenceValue), completed[1])
                                  + IdleOps(2, Bump(old(queues)[2].fenceValue), completed[2])
      {
        frames := frames[f := frames[f].(presentFenceValue := 0)];
        f := f + 1;
      }
      log := log + [ResizeBuffers(width, height)];
      var made := texturesMade;
      var i := 0;
      while i < n
        invariant 0 <= i <= n && |frames| == n && Valid()
        invariant forall k :: 0 <= k < i ==> frames[k] == FrameInfo(made + k, 0)
        invariant forall k :: i <= k < n ==> frames[k].presentFenceValue == 0
        invariant texturesMade == made + i
        invariant Counters() == Idle(old(State())).counters && frameIndex == old(frameIndex)
        invariant listsMade == old(listsMade) && commandBatches == old(commandBatches)
        invariant log == old(log) + IdleOps(0, Bump(old(queues)[0].fenceValue), completed[0])
                                  + IdleOps(1, Bump(old(queues)[1].fenceValue), completed[1])
                                  + IdleOps(2, Bump(old(queues)[2].fenceValue), completed[2])
                                  + [ResizeBuffers(width, height)]
      {
        frames := frames[i := FrameInfo(texturesMade, 0)];
        texturesMade := texturesMade + 1;
        i := i + 1;
      }
      assert PresentValues() == seq(n, _ => 0);
    }
  }
}
