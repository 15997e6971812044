/** Vertex strides of create_pipeline in both Direct3D 12 backends: each
    pipeline keeps sixteen uint32 strides, one per input slot, and every vertex
    input adds its stride to its slot's entry. The newer backend zero-fills the
    strides first; the older one declares them uninitialised, so its strides
    start from whatever the memory held, given here as a parameter. The
    newer backend's pipeline-cache decision is in ShaderCaches; the
    pipeline-state description itself is native and left out. */
module Pipelines {
  import opened Wrappers
  import opened ShaderCaches

  const SlotCount: nat := 16

  /** VertexInputDesc: the input slot and the stride it adds. */
  datatype VertexInput = VertexInput(slot: nat, stride: Uint32)

  predicate SlotsInRange(inputs: seq<VertexInput>) {
    forall i :: 0 <= i < |inputs| ==> inputs[i].slot < SlotCount
  }

  /** The unbounded sum of the strides the inputs give to slot s. */
  function SlotSum(inputs: seq<VertexInput>, s: nat): nat {
    if |inputs| == 0 then 0
    else SlotSum(inputs[..|inputs| - 1], s) + (if inputs[|inputs| - 1].slot == s then inputs[|inputs| - 1].stride else 0)
  }

  /** The stride of slot s: the slot's sum, as a uint32. */
  function Stride(inputs: seq<VertexInput>, s: nat): Uint32 {
    SlotSum(inputs, s) % U32
  }

  lemma SlotSumStep(inputs: seq<VertexInput>, i: nat, s: nat)
    requires i < |inputs|
    ensures SlotSum(inputs[..i + 1], s) == SlotSum(inputs[..i], s) + if inputs[i].slot == s then inputs[i].stride else 0
  {
    assert inputs[..i + 1][..i] == inputs[..i];
  }

  lemma AddModU32(a: nat, b: nat, c: nat)
    ensures ((a + b) % U32 + c) % U32 == (a + b + c) % U32
  {
  }

  /** The accumulation loop over the inputs, on strides that start at `initial`. */
  method Accumulate(strides: array<Uint32>, inputs: seq<VertexInput>, ghost initial: seq<Uint32>)
    requires strides.Length == SlotCount && strides[..] == initial && SlotsInRange(inputs)
    modifies strides
    ensures forall s :: 0 <= s < SlotCount ==> strides[s] == (initial[s] + SlotSum(inputs, s)) % U32
  {
    var i := 0;
    while i < |inputs|
      invariant 0 <= i <= |inputs|
      invariant forall s :: 0 <= s < SlotCount ==> strides[s] == (initial[s] + SlotSum(inputs[..i], s)) % U32
    {
      var input := inputs[i];
      forall s | 0 <= s < SlotCount
        ensures SlotSum(inputs[..i + 1], s) == SlotSum(inputs[..i], s) + if input.slot == s then input.stride else 0
      {
        SlotSumStep(inputs, i, s);
      }
      AddModU32(initial[input.slot], SlotSum(inputs[..i], input.slot), input.stride);
      strides[input.slot] := (strides[input.slot] + input.stride) % U32;
      i := i + 1;
    }
    assert inputs[..i] == inputs;
  }

  /** The newer backend: vertex_strides.fill(0), then the accumulation. */
  method VertexStrides(inputs: seq<VertexInput>) returns (strides: array<Uint32>)
    requires SlotsInRange(inputs)
    ensures fresh(strides) && strides.Length == SlotCount
    ensures forall s :: 0 <= s < SlotCount ==> strides[s] == Stride(inputs, s)
  {
    strides := new Uint32[SlotCount](_ => 0);
    Accumulate(strides, inputs, strides[..]);
  }

  /** The older backend: the accumulation on the uninitialised array. */
  method LegacyVertexStrides(inputs: seq<VertexInput>, garbage: seq<Uint32>) returns (strides: array<Uint32>)
    requires SlotsInRange(inputs) && |garbage| == SlotCount
    ensures fresh(strides) && strides.Length == SlotCount
    ensures forall s :: 0 <= s < SlotCount ==> strides[s] == (garbage[s] + SlotSum(inputs, s)) % U32
  {
    strides := new Uint32[SlotCount](i requires 0 <= i < SlotCount => garbage[i]);
    Accumulate(strides, inputs, garbage);
  }

  /** The older backend's strides are the sums exactly when the memory it
      started from held zeros in every slot. */
  lemma LegacyStridesNeedZeroedMemory(inputs: seq<VertexInput>, garbage: seq<Uint32>)
    requires |garbage| == SlotCount
    ensures (forall s :: 0 <= s < SlotCount ==> (garbage[s] + SlotSum(inputs, s)) % U32 == Stride(inputs, s))
        <==> (forall s :: 0 <= s < SlotCount ==> garbage[s] == 0)
  {
    if forall s :: 0 <= s < SlotCount ==> (garbage[s] + SlotSum(inputs, s)) % U32 == Stride(inputs, s) {
      forall s | 0 <= s < SlotCount ensures garbage[s] == 0 {
        ShiftModU32(garbage[s], SlotSum(inputs, s));
      }
    }
  }

  lemma ShiftModU32(a: Uint32, x: nat)
    requires (a + x) % U32 == x % U32
    ensures a == 0
  {
    var r := x % U32;
    AddModU32(0, x, a);
    assert (r + a) % U32 == r;
  }

  /** A slot no input names keeps stride 0. */
  lemma {:induction false} UnusedSlotHasZeroStride(inputs: seq<VertexInput>, s: nat)
    requires forall i :: 0 <= i < |inputs| ==> inputs[i].slot != s
    ensures SlotSum(inputs, s) == 0 && Stride(inputs, s) == 0
  {
    if |inputs| > 0 {
      UnusedSlotHasZeroStride(inputs[..|inputs| - 1], s);
    }
  }

  /** The sum of all input strides. */
  function StrideTotal(inputs: seq<VertexInput>): nat {
    if |inputs| == 0 then 0 else StrideTotal(inputs[..|inputs| - 1]) + inputs[|inputs| - 1].stride
  }

  /** The sums of slots 0 .. n - 1. */
  function SlotsTotal(inputs: seq<VertexInput>, n: nat): nat {
    if n == 0 then 0 else SlotsTotal(inputs, n - 1) + SlotSum(inputs, n - 1)
  }

  lemma {:induction false} SlotsTotalStep(inputs: seq<VertexInput>, e: VertexInput, n: nat)
    ensures SlotsTotal(inputs + [e], n) == SlotsTotal(inputs, n) + if e.slot < n then e.stride else 0
  {
    if n > 0 {
      SlotsTotalStep(inputs, e, n - 1);
      assert (inputs + [e])[..|inputs|] == inputs;
    }
  }

  lemma {:induction false} NoSlotsTotal(inputs: seq<VertexInput>, n: nat)
    requires |inputs| == 0
    ensures SlotsTotal(inputs, n) == 0
  {
    if n > 0 {
      NoSlotsTotal(inputs, n - 1);
    }
  }

  /** Every stride goes to exactly one slot: the slot sums add up to the sum of
      all strides. */
  lemma {:induction false} SlotSumsAddUp(inputs: seq<VertexInput>)
    requires SlotsInRange(inputs)
    ensures SlotsTotal(inputs, SlotCount) == StrideTotal(inputs)
  {
    if |inputs| == 0 {
      NoSlotsTotal(inputs, SlotCount);
    } else {
      var n := |inputs| - 1;
      SlotSumsAddUp(inputs[..n]);
      SlotsTotalStep(inputs[..n], inputs[n], SlotCount);
      assert inputs[..n] + [inputs[n]] == inputs;
      assert inputs[n].slot < SlotCount;
      assert SlotsTotal(inputs, SlotCount) == SlotsTotal(inputs[..n], SlotCount) + inputs[n].stride;
    }
  }

  /** A pipeline: its strides and the blob it was created from, if any. */
  datatype Pipeline = Pipeline(strides: seq<Uint32>, cachedPso: Option<Blob>)

  /** create_pipeline of the newer backend: strides, then the cache decision. */
  method CreatePipeline(cache: ShaderCache, inputs: seq<VertexInput>, key: Option<Uint32>, created: Blob) returns (p: Pipeline)
    requires SlotsInRange(inputs)
    modifies cache
    ensures |p.strides| == SlotCount && forall s :: 0 <= s < SlotCount ==> p.strides[s] == Stride(inputs, s)
    ensures p.cachedPso == Lookup(old(cache.entries), key)
    ensures cache.entries == AfterCreate(old(cache.entries), key, created)
  {
    var strides := VertexStrides(inputs);
    var pso := cache.Create(key, created);
    p := Pipeline(strides[..], pso);
  }

  /** Backend::create_pipeline, the public entry: it forwards every argument
      except the cache key, so the cache is neither read nor written. */
  method PublicCreatePipeline(cache: ShaderCache, inputs: seq<VertexInput>, key: Option<Uint32>, created: Blob) returns (p: Pipeline)
    requires SlotsInRange(inputs)
    modifies cache
    ensures p.cachedPso.None? && cache.entries == old(cache.entries)
    ensures |p.strides| == SlotCount && forall s :: 0 <= s < SlotCount ==> p.strides[s] == Stride(inputs, s)
  {
    p := CreatePipeline(cache, inputs, None, created);
  }
}
