/** create_descriptor_layout of both Direct3D 12 backends: each range of a
    layout becomes one descriptor table whose base shader register is the
    running total of NumDescriptors over the earlier ranges of the same D3D12
    range type. The per-type totals are uint32 counters that start at 0; the
    register index a caller writes into a range description is never read.
    Root-signature serialisation and creation are native calls and are left out. */
module DescriptorLayouts {

  const U32: nat := 0x1_0000_0000

  type Uint32 = x: int | 0 <= x < U32

  /** DescriptorRangeType of the renderer's API. */
  datatype RangeType = ShaderResource | ConstantBuffer | Sampler | UnorderedAccess

  /** D3D12_DESCRIPTOR_RANGE_TYPE. */
  datatype RangeKind = Srv | Cbv | Uav | SamplerKind

  datatype ShaderFlags = Vertex | Pixel | Geometry | Domain | Hull | All

  /** D3D12_SHADER_VISIBILITY. */
  datatype Visibility = VisibilityVertex | VisibilityPixel | VisibilityGeometry | VisibilityDomain | VisibilityHull | VisibilityAll

  /** DescriptorRangeDesc: the range type, the register index the caller
      intended, the descriptor count and the shader stages. */
  datatype RangeDesc = RangeDesc(rangeType: RangeType, index: Uint32, count: Uint32, flags: ShaderFlags)

  /** The D3D12_DESCRIPTOR_RANGE stored in the layout, with the visibility of
      the root parameter that points to it. */
  datatype Range = Range(kind: RangeKind, numDescriptors: Uint32, baseRegister: Uint32, visibility: Visibility)

  /** get_descriptor_range_type. */
  function KindOf(t: RangeType): (k: RangeKind)
    ensures k == Srv <==> t == ShaderResource
    ensures k == Cbv <==> t == ConstantBuffer
    ensures k == Uav <==> t == UnorderedAccess
    ensures k == SamplerKind <==> t == Sampler
  {
    match t
    case ShaderResource => Srv
    case ConstantBuffer => Cbv
    case Sampler => SamplerKind
    case UnorderedAccess => Uav
  }

  /** get_shader_visibility. */
  function VisibilityOf(f: ShaderFlags): (v: Visibility)
    ensures f == All <==> v == VisibilityAll
    ensures f == Vertex <==> v == VisibilityVertex
    ensures f == Pixel <==> v == VisibilityPixel
  {
    match f
    case Vertex => VisibilityVertex
    case Pixel => VisibilityPixel
    case Geometry => VisibilityGeometry
    case Domain => VisibilityDomain
    case Hull => VisibilityHull
    case All => VisibilityAll
  }

  /** The unbounded number of descriptors the ranges in `descs` declare for
      range kind `k`. */
  function Registers(descs: seq<RangeDesc>, k: RangeKind): nat {
    if |descs| == 0 then 0
    else Registers(descs[..|descs| - 1], k) + (if KindOf(descs[|descs| - 1].rangeType) == k then descs[|descs| - 1].count else 0)
  }

  /** The layout create_descriptor_layout builds: range i of kind k starts at
      the total of the earlier ranges of kind k, taken modulo 2^32. */
  function Layout(descs: seq<RangeDesc>): (r: seq<Range>)
    ensures |r| == |descs|
  {
    seq(|descs|, i requires 0 <= i < |descs| =>
      Range(KindOf(descs[i].rangeType), descs[i].count,
            Registers(descs[..i], KindOf(descs[i].rangeType)) % U32,
            VisibilityOf(descs[i].flags)))
  }

  lemma AddMod(a: nat, c: nat)
    ensures (a % U32 + c) % U32 == (a + c) % U32
  {
  }

  lemma RegistersStep(descs: seq<RangeDesc>, i: nat, k: RangeKind)
    requires i < |descs|
    ensures Registers(descs[..i + 1], k) == Registers(descs[..i], k) + if KindOf(descs[i].rangeType) == k then descs[i].count else 0
  {
    assert descs[..i + 1][..i] == descs[..i];
  }

  /** The four counters after range i has been added to its own. */
  function CountersStep(descs: seq<RangeDesc>, i: nat, counters: map<RangeKind, Uint32>): (r: map<RangeKind, Uint32>)
    requires i < |descs|
    requires counters.Keys == {Cbv, Srv, Uav, SamplerKind}
    requires forall k :: k in counters ==> counters[k] == Registers(descs[..i], k) % U32
    ensures r.Keys == {Cbv, Srv, Uav, SamplerKind}
    ensures forall k :: k in r ==> r[k] == Registers(descs[..i + 1], k) % U32
  {
    var kind := KindOf(descs[i].rangeType);
    var r := counters[kind := (counters[kind] + descs[i].count) % U32];
    assert forall k :: k in r ==> r[k] == Registers(descs[..i + 1], k) % U32 by {
      forall k | k in r
        ensures r[k] == Registers(descs[..i + 1], k) % U32
      {
        RegistersStep(descs, i, k);
        AddMod(Registers(descs[..i], k), descs[i].count);
      }
    }
    r
  }

  /** The register-assignment loop, with the four counters of index_ranges. */
  method AssignRegisters(descs: seq<RangeDesc>) returns (ranges: seq<Range>)
    ensures ranges == Layout(descs)
  {
    var counters: map<RangeKind, Uint32> := map[Cbv := 0, Srv := 0, Uav := 0, SamplerKind := 0];
    ranges := [];
    var i := 0;
    while i < |descs|
      invariant 0 <= i <= |descs| && |ranges| == i
      invariant counters.Keys == {Cbv, Srv, Uav, SamplerKind}
      invariant forall k :: k in counters ==> counters[k] == Registers(descs[..i], k) % U32
      invariant forall j :: 0 <= j < i ==> ranges[j] == Layout(descs)[j]
    {
      var d := descs[i];
      var kind := KindOf(d.rangeType);
      var r := Range(kind, d.count, counters[kind], VisibilityOf(d.flags));
      counters := CountersStep(descs, i, counters);
      ranges := ranges + [r];
      i := i + 1;
    }
  }

  /** Registers only grows along a longer prefix. */
  lemma {:induction false} RegistersMonotone(descs: seq<RangeDesc>, i: nat, j: nat, k: RangeKind)
    requires i <= j <= |descs|
    ensures Registers(descs[..i], k) <= Registers(descs[..j], k)
    decreases j - i
  {
    if i < j {
      RegistersMonotone(descs, i, j - 1, k);
      assert descs[..j][..j - 1] == descs[..j - 1];
    }
  }

  /** The count of range i is part of every total past it. */
  lemma {:induction false} RegistersCover(descs: seq<RangeDesc>, i: nat, j: nat)
    requires i < j <= |descs|
    ensures Registers(descs[..i], KindOf(descs[i].rangeType)) + descs[i].count <= Registers(descs[..j], KindOf(descs[i].rangeType))
  {
    assert descs[..i + 1][..i] == descs[..i];
    RegistersMonotone(descs, i + 1, j, KindOf(descs[i].rangeType));
  }

  /** While no counter wraps, two ranges of the same kind receive disjoint
      register intervals, in declaration order. */
  lemma {:induction false} SameKindRangesDoNotOverlap(descs: seq<RangeDesc>, i: nat, j: nat)
    requires i < j < |descs| && KindOf(descs[i].rangeType) == KindOf(descs[j].rangeType)
    requires Registers(descs, KindOf(descs[i].rangeType)) < U32
    ensures Layout(descs)[i].baseRegister + Layout(descs)[i].numDescriptors <= Layout(descs)[j].baseRegister
  {
    var k := KindOf(descs[i].rangeType);
    RegistersCover(descs, i, j);
    RegistersMonotone(descs, j, |descs|, k);
    assert descs[..|descs|] == descs;
    var ri := Registers(descs[..i], k);
    var rj := Registers(descs[..j], k);
    assert rj < U32;
    assert Layout(descs)[i].baseRegister == ri % U32 == ri;
    assert Layout(descs)[j].baseRegister == rj % U32 == rj;
  }

  /** The first range of each kind starts at register 0, whatever index its
      description names. */
  lemma {:induction false} FirstOfKindStartsAtZero(descs: seq<RangeDesc>, i: nat)
    requires i < |descs|
    requires forall j :: 0 <= j < i ==> KindOf(descs[j].rangeType) != KindOf(descs[i].rangeType)
    ensures Layout(descs)[i].baseRegister == 0
  {
    NoneOfKind(descs[..i], KindOf(descs[i].rangeType));
  }

  lemma {:induction false} NoneOfKind(descs: seq<RangeDesc>, k: RangeKind)
    requires forall j :: 0 <= j < |descs| ==> KindOf(descs[j].rangeType) != k
    ensures Registers(descs, k) == 0
  {
    if |descs| > 0 {
      NoneOfKind(descs[..|descs| - 1], k);
    }
  }

  /** The layout reads only each description's type, count and stages: two
      lists that differ only in their register indices give the same layout. */
  lemma {:induction false} LayoutIgnoresIndex(a: seq<RangeDesc>, b: seq<RangeDesc>)
    requires |a| == |b|
    requires forall i :: 0 <= i < |a| ==> a[i].rangeType == b[i].rangeType && a[i].count == b[i].count && a[i].flags == b[i].flags
    ensures Layout(a) == Layout(b)
  {
    forall i, k | 0 <= i < |a|
      ensures Registers(a[..i], k) == Registers(b[..i], k)
    {
      RegistersAgree(a[..i], b[..i], k);
    }
  }

  lemma {:induction false} RegistersAgree(a: seq<RangeDesc>, b: seq<RangeDesc>, k: RangeKind)
    requires |a| == |b|
    requires forall i :: 0 <= i < |a| ==> a[i].rangeType == b[i].rangeType && a[i].count == b[i].count
    ensures Registers(a, k) == Registers(b, k)
  {
    if |a| > 0 {
      RegistersAgree(a[..|a| - 1], b[..|b| - 1], k);
    }
  }

  /** The physically based rendering layout of the world renderer: two
      constant buffers, two and then one shader resources, one sampler,
      declared with indices 0, 2, 4, 5, is assigned b0, t0, t2 and s0. */
  lemma PbrLayoutRegisters()
    ensures var l := Layout([RangeDesc(ConstantBuffer, 0, 2, Vertex), RangeDesc(ShaderResource, 2, 2, Vertex),
                             RangeDesc(ShaderResource, 4, 1, Pixel), RangeDesc(Sampler, 5, 1, Pixel)]);
      l[0].baseRegister == 0 && l[1].baseRegister == 0 && l[2].baseRegister == 2 && l[3].baseRegister == 0
  {
    var d := [RangeDesc(ConstantBuffer, 0, 2, Vertex), RangeDesc(ShaderResource, 2, 2, Vertex),
              RangeDesc(ShaderResource, 4, 1, Pixel), RangeDesc(Sampler, 5, 1, Pixel)];
    RegistersStep(d, 0, Srv);
    RegistersStep(d, 1, Srv);
    RegistersStep(d, 0, SamplerKind);
    RegistersStep(d, 1, SamplerKind);
    RegistersStep(d, 2, SamplerKind);
    assert Registers(d[..0], Srv) == 0 && Registers(d[..0], SamplerKind) == 0;
    assert Registers(d[..2], Srv) == 2 && Registers(d[..3], SamplerKind) == 0;
  }

  // ---------------------------------------------------------------------
  // Sizes and offsets of a layout's descriptors

  /** The number of descriptors the ranges declare together, unbounded. */
  function TotalDescriptors(ranges: seq<Range>): nat {
    if |ranges| == 0 then 0 else TotalDescriptors(ranges[..|ranges| - 1]) + ranges[|ranges| - 1].numDescriptors
  }

  /** The first binding of table i: the descriptors of the tables before it. */
  function Offset(ranges: seq<Range>, i: nat): nat
    requires i <= |ranges|
  {
    TotalDescriptors(ranges[..i])
  }

  lemma OffsetStep(ranges: seq<Range>, i: nat)
    requires i < |ranges|
    ensures Offset(ranges, i + 1) == Offset(ranges, i) + ranges[i].numDescriptors
  {
    assert ranges[..i + 1][..i] == ranges[..i];
  }

  lemma {:induction false} OffsetMonotone(ranges: seq<Range>, i: nat, j: nat)
    requires i <= j <= |ranges|
    ensures Offset(ranges, i) <= Offset(ranges, j)
    decreases j - i
  {
    if i < j {
      OffsetMonotone(ranges, i, j - 1);
      OffsetStep(ranges, j - 1);
    }
  }

  /** A layout declares exactly the descriptors its descriptions count. */
  lemma {:induction false} LayoutTotal(descs: seq<RangeDesc>)
    ensures TotalDescriptors(Layout(descs)) == DescCount(descs)
  {
    if |descs| > 0 {
      var n := |descs| - 1;
      LayoutTotal(descs[..n]);
      assert Layout(descs)[..n] == Layout(descs[..n]) by {
        forall i | 0 <= i < n ensures Layout(descs)[i] == Layout(descs[..n])[i] {
          assert descs[..n][..i] == descs[..i];
        }
      }
    }
  }

  /** The sum of the counts of the descriptions. */
  function DescCount(descs: seq<RangeDesc>): nat {
    if |descs| == 0 then 0 else DescCount(descs[..|descs| - 1]) + descs[|descs| - 1].count
  }
}
