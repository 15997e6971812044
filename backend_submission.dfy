/** Submission in the newer Direct3D 12 backend: one uint64 fence counter per
    queue (graphics, copy, compute), submit and submit_after, which hand back
    the queue's current counter and then increment it, wait, is_completed,
    wait_for_idle, and the encoder's lazy reset. Native queue operations are
    recorded in a log (execute, signal, GPU-side wait) instead of being
    performed; the value a fence has completed is supplied by the environment.
    The EncoderFlags values are declared outside the modelled files (in the
    interface header renderer/backend.h); they are taken to be the bits Graphics = 1, Copy = 2,
    Compute = 4, which is how wait_for_idle tests them. */
module BackendSubmission {
  import opened Wrappers

  const U64: int := 0x1_0000_0000_0000_0000
  type Uint64 = x: int | 0 <= x < U64

  const Graphics: nat := 1
  const Copy: nat := 2
  const Compute: nat := 4

  /** The queue a single flag value is submitted to: the get_queue_index
      switch, which falls back to the graphics queue. */
  function QueueIndex(flags: nat): (q: nat)
    ensures q < 3
    ensures q == 1 <==> flags == Copy
    ensures q == 2 <==> flags == Compute
  {
    if flags == Graphics then 0
    else if flags == Copy then 1
    else if flags == Compute then 2
    else 0
  }

  /** FenceResultInfo: the flags submitted with and the value signalled. */
  datatype FenceResultInfo = FenceResultInfo(flags: nat, value: Uint64)

  /** Recording commands; their native effect is left out. */
  datatype Command =
    | SetDescriptorHeaps(swapIndex: nat)
    | BindDescriptorSet(descriptorSet: nat)
    | SetViewport(x: nat, y: nat, width: nat, height: nat)
    | SetScissor(left: nat, top: nat, right: nat, bottom: nat)
    | Barrier(target: nat)
    | BeginRenderPass
    | EndRenderPass
    | BindPipeline(pipeline: nat)
    | BindVertexBuffer(index: nat, buffer: nat, offset: nat)
    | BindIndexBuffer(buffer: nat, offset: nat)
    | CopyBufferRegion
    | Draw(vertexCount: nat, instanceCount: nat, vertexOffset: nat)
    | DrawIndexed(indexCount: nat, instanceCount: nat, instanceOffset: nat)

  datatype ListType = Direct | CopyList | ComputeList

  /** get_command_list_type of Encoder::Impl::initialize. */
  function ListTypeFor(flags: nat): (t: ListType)
    ensures t == CopyList <==> flags == Copy
    ensures t == ComputeList <==> flags == Compute
  {
    if flags == Copy then CopyList else if flags == Compute then ComputeList else Direct
  }

  /** What a command list holds right after reset(): a direct list binds the
      swapchain frame's two shader-visible heaps, the others nothing. */
  function Prologue(t: ListType, swapIndex: nat): (cs: seq<Command>)
    ensures cs == [] <==> t != Direct
  {
    if t == Direct then [SetDescriptorHeaps(swapIndex)] else []
  }

  /** The encoder's state as a value: the is_reset flag and the command list. */
  datatype EncoderState = EncoderState(isReset: bool, commands: seq<Command>)

  /** One recording call: the lazy prologue `if(!is_reset) reset();`, then the
      command. */
  function AfterRecord(e: EncoderState, t: ListType, swapIndex: nat, c: Command): (r: EncoderState)
    ensures r.isReset
    ensures e.isReset ==> r.commands == e.commands + [c]
  {
    if e.isReset then EncoderState(true, e.commands + [c])
    else EncoderState(true, Prologue(t, swapIndex) + [c])
  }

  function RecordAll(e: EncoderState, t: ListType, swapIndex: nat, cs: seq<Command>): EncoderState
  {
    if |cs| == 0 then e else AfterRecord(RecordAll(e, t, swapIndex, cs[..|cs| - 1]), t, swapIndex, cs[|cs| - 1])
  }

  /** After a submit (is_reset false), recording any non-empty sequence of
      commands resets the list exactly once: the list is the prologue followed
      by the commands. */
  lemma {:induction false} RecordingAfterSubmitResetsOnce(commands: seq<Command>, t: ListType, swapIndex: nat, cs: seq<Command>)
    requires |cs| > 0
    ensures RecordAll(EncoderState(false, commands), t, swapIndex, cs) == EncoderState(true, Prologue(t, swapIndex) + cs)
  {
    var n := |cs| - 1;
    if n == 0 {
      assert cs == [cs[0]];
    } else {
      RecordingAfterSubmitResetsOnce(commands, t, swapIndex, cs[..n]);
      assert cs[..n] + [cs[n]] == cs;
      assert Prologue(t, swapIndex) + cs[..n] + [cs[n]] == Prologue(t, swapIndex) + cs;
    }
  }

  class Encoder {
    const listType: ListType
    var isReset: bool
    var commands: seq<Command>

    /** Encoder::Impl::initialize: is_reset starts false. */
    constructor (flags: nat)
      ensures listType == ListTypeFor(flags) && !isReset && commands == []
    {
      listType := ListTypeFor(flags);
      isReset := false;
      commands := [];
    }

    function State(): EncoderState
      reads this
    {
      EncoderState(isReset, commands)
    }

    /** Encoder::Impl::reset: asserts it has not been reset yet, resets the
        allocator and the list, and binds the frame's heaps on a direct list. */
    method Reset(swapIndex: nat)
      requires !isReset
      modifies this
      ensures isReset && commands == Prologue(listType, swapIndex)
    {
      commands := Prologue(listType, swapIndex);
      isReset := true;
    }

    /** Every recording method: the lazy-reset prologue, then its command. */
    method Record(swapIndex: nat, c: Command)
      modifies this
      ensures State() == AfterRecord(old(State()), listType, swapIndex, c)
    {
      if !isReset {
        Reset(swapIndex);
      }
      commands := commands + [c];
    }
  }

  /** One entry of the batch handed to ExecuteCommandLists. submit passes
      each encoder's command list; submit_after passes, cast to a command
      list pointer, the address of the i-th encoder's pointer holder. */
  datatype BatchEntry =
    | ListOf(commands: seq<Command>)
    | HolderOf(encoder: nat)

  /** The batch submit (byAddress false) or submit_after (byAddress true)
      builds from encoders whose lists are `lists`. */
  function Batch(lists: seq<seq<Command>>, byAddress: bool): (b: seq<BatchEntry>)
    ensures |b| == |lists|
    ensures forall i :: 0 <= i < |lists| ==> b[i] == if byAddress then HolderOf(i) else ListOf(lists[i])
  {
    seq(|lists|, i requires 0 <= i < |lists| => if byAddress then HolderOf(i) else ListOf(lists[i]))
  }

  /** For any non-empty run of encoders, submit and submit_after hand the
      queue different batches: no entry submit_after passes is a list. */
  lemma SubmitAfterPassesHolders(lists: seq<seq<Command>>)
    requires |lists| > 0
    ensures Batch(lists, true) != Batch(lists, false)
    ensures forall i :: 0 <= i < |lists| ==> !Batch(lists, true)[i].ListOf?
  {
    assert Batch(lists, true)[0] == HolderOf(0);
  }

  /** The encoders' command lists, in order. */
  function ListsOf(encoders: seq<Encoder>): (ls: seq<seq<Command>>)
    reads encoders
    ensures |ls| == |encoders| && forall i :: 0 <= i < |encoders| ==> ls[i] == encoders[i].commands
  {
    seq(|encoders|, i reads encoders requires 0 <= i < |encoders| => encoders[i].commands)
  }

  /** What the backend asks of a queue. */
  datatype QueueOp =
    | Execute(queue: nat, lists: seq<BatchEntry>)
    | Signal(queue: nat, value: Uint64)
    | GpuWait(queue: nat, fence: nat, value: Uint64)
    | HostWait(fence: nat, value: Uint64)

  /** The values signalled on queue q, in order. */
  function SignalsOn(log: seq<QueueOp>, q: nat): seq<Uint64>
  {
    if |log| == 0 then []
    else
      var op := log[|log| - 1];
      SignalsOn(log[..|log| - 1], q) + if op.Signal? && op.queue == q then [op.value] else []
  }

  lemma SignalsOnAppend(log: seq<QueueOp>, op: QueueOp, q: nat)
    ensures SignalsOn(log + [op], q) == SignalsOn(log, q) + if op.Signal? && op.queue == q then [op.value] else []
  {
    assert (log + [op])[..|log|] == log;
  }

  lemma SignalsOnOther(log: seq<QueueOp>, op: QueueOp, q: nat)
    requires !op.Signal? || op.queue != q
    ensures SignalsOn(log + [op], q) == SignalsOn(log, q)
  {
    SignalsOnAppend(log, op, q);
  }

  /** The first n values of a uint64 counter that starts at 0. */
  function Counted(n: nat): (r: seq<Uint64>)
    ensures |r| == n
  {
    if n == 0 then [] else Counted(n - 1) + [(n - 1) % U64]
  }

  /** The k-th value a counter hands out is k, modulo 2^64: on one queue the
      results are 0, 1, 2, ... */
  lemma {:induction false} CountedValues(n: nat)
    ensures forall k :: 0 <= k < n ==> Counted(n)[k] == k % U64
  {
    if n > 0 {
      CountedValues(n - 1);
    }
  }

  /** Before the counter wraps, the values handed out on a queue are distinct. */
  lemma CountedDistinct(n: nat, i: nat, j: nat)
    requires n <= U64 && i < j < n
    ensures Counted(n)[i] != Counted(n)[j]
  {
    CountedValues(n);
  }

  /** is_completed indexes the fence vector with the raw flag value rather
      than through get_queue_index: a graphics result is read from the copy
      queue's fence, a copy result from the compute queue's, and a compute
      result indexes past the three fences (None: undefined behaviour). */
  function IsCompleted(info: FenceResultInfo, completed: seq<nat>): (r: Option<bool>)
    requires |completed| == 3
    ensures r.Some? <==> info.flags < 3
    ensures info.flags == Graphics ==> r == Some(completed[1] >= info.value)
    ensures info.flags == Copy ==> r == Some(completed[2] >= info.value)
  {
    if info.flags < 3 then Some(completed[info.flags] >= info.value) else None
  }

  /** wait: it blocks exactly when the result's own queue has not completed
      the value. */
  function WaitBlocks(info: FenceResultInfo, completed: seq<nat>): (b: bool)
    requires |completed| == 3
    ensures b <==> completed[QueueIndex(info.flags)] < info.value
  {
    completed[QueueIndex(info.flags)] < info.value
  }

  /** For a graphics or copy result, is_completed and wait can disagree: with
      the result's queue behind and the next queue ahead, is_completed says
      yes while wait blocks. */
  lemma IsCompletedDisagreesWithWait(info: FenceResultInfo)
    requires info.flags == Graphics || info.flags == Copy
    requires info.value > 0
    ensures var completed := if info.flags == Graphics then [0, info.value, 0] else [0, 0, info.value];
      IsCompleted(info, completed) == Some(true) && WaitBlocks(info, completed)
  {
  }

  function Bit(flags: nat, bit: nat): bool
    requires bit > 0
  {
    (flags / bit) % 2 == 1
  }

  /** Every queue's counter is its hand-out count modulo 2^64, and the values
      signalled on it are exactly the values handed out, in order. */
  ghost predicate Counting(values: seq<Uint64>, counts: seq<nat>, log: seq<QueueOp>) {
    |values| == 3 && |counts| == 3 &&
    forall q :: 0 <= q < 3 ==> values[q] == counts[q] % U64 && SignalsOn(log, q) == Counted(counts[q])
  }

  /** Signalling a queue's counter and then incrementing it keeps the
      counting invariant. */
  lemma SignalKeepsCounting(values: seq<Uint64>, counts: seq<nat>, log: seq<QueueOp>, q: nat)
    requires Counting(values, counts, log) && q < 3
    ensures Counting(values[q := (values[q] + 1) % U64], counts[q := counts[q] + 1], log + [Signal(q, values[q])])
  {
    forall q' | 0 <= q' < 3
      ensures SignalsOn(log + [Signal(q, values[q])], q') == Counted(counts[q := counts[q] + 1][q'])
    {
      SignalsOnAppend(log, Signal(q, values[q]), q');
    }
  }

  class Backend {
    var fenceValues: seq<Uint64>
    var batches: seq<BatchEntry>
    var log: seq<QueueOp>
    /** How many values each queue's counter has handed out. */
    ghost var counts: seq<nat>

    /** Every queue's counter is its hand-out count modulo 2^64, and the
        values signalled on it are exactly the values handed out, in order. */
    ghost predicate Valid()
      reads this
    {
      Counting(fenceValues, counts, log)
    }

    /** fence_values.resize(3): every counter starts at 0. */
    constructor ()
      ensures Valid() && fenceValues == [0, 0, 0] && log == [] && batches == []
    {
      fenceValues := [0, 0, 0];
      batches := [];
      log := [];
      counts := [0, 0, 0];
    }

    /** Signal queue q with its counter, then increment the counter. */
    method SignalAndCount(q: nat) returns (value: Uint64)
      requires Valid() && q < 3
      modifies this
      ensures Valid() && batches == old(batches)
      ensures value == old(fenceValues[q])
      ensures fenceValues == old(fenceValues)[q := (value + 1) % U64]
      ensures counts == old(counts)[q := old(counts[q]) + 1]
      ensures log == old(log) + [Signal(q, value)]
    {
      value := fenceValues[q];
      SignalKeepsCounting(fenceValues, counts, log, q);
      log, fenceValues, counts := log + [Signal(q, value)], fenceValues[q := (value + 1) % U64], counts[q := counts[q] + 1];
    }

    /** Append a queue operation that is not a signal. */
    method Note(op: QueueOp)
      requires Valid() && !op.Signal?
      modifies this
      ensures Valid() && log == old(log) + [op]
      ensures fenceValues == old(fenceValues) && counts == old(counts) && batches == old(batches)
    {
      forall q | 0 <= q < 3 ensures SignalsOn(log + [op], q) == SignalsOn(log, q) {
        SignalsOnOther(log, op, q);
      }
      log := log + [op];
    }

    /** batches.clear(), then each encoder is closed, loses is_reset and
        adds to the batch its list, or with byAddress the address of the
        holder of its list. */
    method CloseEncoders(encoders: seq<Encoder>, byAddress: bool)
      modifies this, set i | 0 <= i < |encoders| :: encoders[i]
      ensures log == old(log) && fenceValues == old(fenceValues) && counts == old(counts)
      ensures forall i :: 0 <= i < |encoders| ==> !encoders[i].isReset && encoders[i].commands == old(encoders[i].commands)
      ensures batches == Batch(ListsOf(encoders), byAddress)
    {
      batches := [];
      var i := 0;
      while i < |encoders|
        invariant 0 <= i <= |encoders|
        invariant log == old(log) && fenceValues == old(fenceValues) && counts == old(counts)
        invariant |batches| == i
        invariant forall k :: 0 <= k < |encoders| ==> encoders[k].commands == old(encoders[k].commands)
        invariant forall k :: 0 <= k < i ==>
          !encoders[k].isReset && batches[k] == if byAddress then HolderOf(k) else ListOf(encoders[k].commands)
      {
        encoders[i].isReset := false;
        batches := batches + [if byAddress then HolderOf(i) else ListOf(encoders[i].commands)];
        i := i + 1;
      }
    }

    /** submit: execute the encoders' lists on the flags' queue and signal
        the queue's current counter, which is returned; then increment it. */
    method Submit(encoders: seq<Encoder>, flags: nat) returns (r: FenceResultInfo)
      requires Valid()
      modifies this, set i | 0 <= i < |encoders| :: encoders[i]
      ensures Valid()
      ensures r == FenceResultInfo(flags, old(fenceValues[QueueIndex(flags)]))
      ensures fenceValues == old(fenceValues)[QueueIndex(flags) := (r.value + 1) % U64]
      ensures forall i :: 0 <= i < |encoders| ==> !encoders[i].isReset && encoders[i].commands == old(encoders[i].commands)
      ensures batches == Batch(ListsOf(encoders), false)
      ensures log == old(log) + [Execute(QueueIndex(flags), batches), Signal(QueueIndex(flags), r.value)]
    {
      CloseEncoders(encoders, false);
      var q := QueueIndex(flags);
      Note(Execute(q, batches));
      var value := SignalAndCount(q);
      r := FenceResultInfo(flags, value);
    }

    /** submit_after: as submit, but first the queue waits on the fence of the
        earlier result's queue for the earlier value, and the batch holds the
        addresses of the encoders' list holders instead of the lists. */
    method SubmitAfter(encoders: seq<Encoder>, after: FenceResultInfo, flags: nat) returns (r: FenceResultInfo)
      requires Valid()
      modifies this, set i | 0 <= i < |encoders| :: encoders[i]
      ensures Valid()
      ensures r == FenceResultInfo(flags, old(fenceValues[QueueIndex(flags)]))
      ensures fenceValues == old(fenceValues)[QueueIndex(flags) := (r.value + 1) % U64]
      ensures forall i :: 0 <= i < |encoders| ==> !encoders[i].isReset && encoders[i].commands == old(encoders[i].commands)
      ensures batches == Batch(ListsOf(encoders), true)
      ensures log == old(log) + [GpuWait(QueueIndex(flags), QueueIndex(after.flags), after.value),
                                 Execute(QueueIndex(flags), batches), Signal(QueueIndex(flags), r.value)]
    {
      CloseEncoders(encoders, true);
      var q := QueueIndex(flags);
      Note(GpuWait(q, QueueIndex(after.flags), after.value));
      Note(Execute(q, batches));
      var value := SignalAndCount(q);
      r := FenceResultInfo(flags, value);
    }

    /** wait: the host waits on the result's queue only when that fence has
        not completed the value. */
    method Wait(info: FenceResultInfo, completed: seq<nat>)
      requires Valid() && |completed| == 3
      modifies this
      ensures Valid() && fenceValues == old(fenceValues) && batches == old(batches)
      ensures log == old(log) + if WaitBlocks(info, completed) then [HostWait(QueueIndex(info.flags), info.value)] else []
    {
      var q := QueueIndex(info.flags);
      if completed[q] < info.value {
        Note(HostWait(q, info.value));
      }
    }

    /** One flag of wait_for_idle: signal queue q, wait for that value on the
        host, then increment the counter. */
    method IdleQueue(c: bool, q: nat)
      requires Valid() && q < 3
      modifies this
      ensures Valid() && batches == old(batches)
      ensures fenceValues == IdleStep(old(fenceValues), c, q)
      ensures log == old(log) + IdleOps(old(fenceValues), c, q)
    {
      if c {
        var value := SignalAndCount(q);
        Note(HostWait(q, value));
      }
    }

    /** wait_for_idle: for each of graphics, copy and compute whose bit is in
        the flags, in that order, signal, wait and increment. */
    method WaitForIdle(flags: nat)
      requires Valid()
      modifies this
      ensures Valid() && batches == old(batches)
      ensures fenceValues == IdleValues(old(fenceValues), flags)
      ensures log == old(log) + IdleLog(old(fenceValues), flags)
    {
      ghost var v0 := fenceValues;
      IdleQueue(Bit(flags, Graphics), 0);
      ghost var v1 := fenceValues;
      IdleQueue(Bit(flags, Copy), 1);
      ghost var v2 := fenceValues;
      IdleQueue(Bit(flags, Compute), 2);
      IdleStepKeeps(v0, Bit(flags, Graphics), 0, 1);
      IdleStepKeeps(v0, Bit(flags, Graphics), 0, 2);
      IdleStepKeeps(v1, Bit(flags, Copy), 1, 2);
    }
  }

  /** One queue's part of wait_for_idle on the counters. */
  function IdleStep(values: seq<Uint64>, c: bool, q: nat): (r: seq<Uint64>)
    requires q < |values|
    ensures |r| == |values|
  {
    if c then values[q := (values[q] + 1) % U64] else values
  }

  /** The queue operations of one queue's part of wait_for_idle. */
  function IdleOps(values: seq<Uint64>, c: bool, q: nat): seq<QueueOp>
    requires q < |values|
  {
    if c then [Signal(q, values[q]), HostWait(q, values[q])] else []
  }

  lemma IdleStepKeeps(values: seq<Uint64>, c: bool, q: nat, p: nat)
    requires q < |values| && p < |values| && p != q
    ensures IdleStep(values, c, q)[p] == values[p]
  {
  }

  /** The counters after wait_for_idle. */
  function IdleValues(values: seq<Uint64>, flags: nat): (r: seq<Uint64>)
    requires |values| == 3
    ensures |r| == 3
  {
    IdleStep(IdleStep(IdleStep(values, Bit(flags, Graphics), 0), Bit(flags, Copy), 1), Bit(flags, Compute), 2)
  }

  /** The queue operations of wait_for_idle. */
  function IdleLog(values: seq<Uint64>, flags: nat): seq<QueueOp>
    requires |values| == 3
  {
    IdleOps(values, Bit(flags, Graphics), 0) + IdleOps(values, Bit(flags, Copy), 1) + IdleOps(values, Bit(flags, Compute), 2)
  }

  /** wait_for_idle raises exactly the counters of the queues whose bit is in
      the flags, by one, and for each of them, in queue order, signals the
      counter's old value and waits on the host for it. */
  lemma IdleTouchesFlaggedQueues(values: seq<Uint64>, flags: nat)
    requires |values| == 3
    ensures forall q :: 0 <= q < 3 ==> IdleValues(values, flags)[q] == if Bit(flags, Pow2(q)) then (values[q] + 1) % U64 else values[q]
    ensures IdleLog(values, flags) ==
      (if Bit(flags, Graphics) then [Signal(0, values[0]), HostWait(0, values[0])] else []) +
      (if Bit(flags, Copy) then [Signal(1, values[1]), HostWait(1, values[1])] else []) +
      (if Bit(flags, Compute) then [Signal(2, values[2]), HostWait(2, values[2])] else [])
  {
    var v1 := IdleStep(values, Bit(flags, Graphics), 0);
    var v2 := IdleStep(v1, Bit(flags, Copy), 1);
    IdleStepKeeps(values, Bit(flags, Graphics), 0, 1);
    IdleStepKeeps(values, Bit(flags, Graphics), 0, 2);
    IdleStepKeeps(v1, Bit(flags, Copy), 1, 2);
    IdleStepKeeps(v1, Bit(flags, Copy), 1, 0);
    IdleStepKeeps(v2, Bit(flags, Compute), 2, 0);
    IdleStepKeeps(v2, Bit(flags, Compute), 2, 1);
  }

  function Pow2(q: nat): (p: nat)
    requires q < 3
    ensures p > 0
    ensures q == 0 ==> p == Graphics
    ensures q == 1 ==> p == Copy
    ensures q == 2 ==> p == Compute
  {
    if q == 0 then 1 else if q == 1 then 2 else 4
  }
}
