/** Descriptor and memory bookkeeping of the Direct3D 12 backend: the CPU
    descriptor pools, allocate_descriptor, and the create/delete pairs of
    textures and buffers. The pools' and the memory allocator's bodies are not
    part of this model; they are used through an assumed contract: a pool has
    a fixed capacity, space() is the capacity minus the records it has handed
    out, allocate returns a null record when space() is 0, and deallocate takes
    a record it handed out back (a null or already returned record changes
    nothing). Every deallocate call is also logged, so that what the backend
    asks the pools to release can be stated exactly. Records are abstract
    tokens; heap offsets and native views are left out. */
module BackendResources {
  import opened Wrappers
  import opened ResourceSets

  datatype HeapType = CbvSrvUav | Rtv | Dsv | Sampler

  /** The CPU pools: four CBV/SRV/UAV pools (the vector is resized to 4), and
      one RTV, one DSV and one sampler pool. */
  datatype PoolId = CbvPool(index: nat) | RtvPool | DsvPool | SamplerPool

  const CbvPoolCount: nat := 4

  predicate IsPool(p: PoolId) {
    p.CbvPool? ==> p.index < CbvPoolCount
  }

  function Capacity(p: PoolId): nat {
    match p
    case CbvPool(_) => 1024
    case RtvPool => 128
    case DsvPool => 2
    case SamplerPool => 1024
  }

  /** A record handed out by a pool. */
  datatype Descriptor = Descriptor(heap: HeapType, token: nat)

  /** DescriptorAllocInfo2: the record (None for the null record) and the index
      of the CBV/SRV/UAV pool it came from (0 for the other heaps). */
  datatype DescAlloc = DescAlloc(info: Option<Descriptor>, pool: nat)

  const NullDesc: DescAlloc := DescAlloc(None, 0)

  /** One deallocate call: the pool asked and the record given. */
  datatype Release = Release(pool: PoolId, info: Option<Descriptor>)

  datatype MemoryHeapType = DefaultHeap | UploadHeap | ReadbackHeap

  /** A record of the memory allocator. */
  datatype MemoryAlloc = MemoryAlloc(heap: MemoryHeapType, token: nat)

  // ---------------------------------------------------------------------
  // Pool selection

  type Pools = map<PoolId, set<nat>>

  ghost predicate PoolsWellFormed(live: Pools) {
    (forall p :: IsPool(p) ==> p in live) &&
    (forall p :: p in live ==> IsPool(p) && |live[p]| <= Capacity(p))
  }

  /** space() of a pool under the assumed contract. */
  function Space(live: Pools, p: PoolId): nat
    requires PoolsWellFormed(live) && IsPool(p)
  {
    Capacity(p) - |live[p]|
  }

  /** Every live token was issued before `next`. */
  ghost predicate TokensBelow(live: Pools, next: nat) {
    forall p, k :: p in live && k in live[p] ==> k < next
  }

  /** Handing out one more record from a pool with space keeps every pool
      within its capacity, and every token stays below the next one. */
  lemma TakeRecord(live: Pools, p: PoolId, token: nat)
    requires PoolsWellFormed(live) && IsPool(p) && Space(live, p) > 0
    requires TokensBelow(live, token)
    ensures PoolsWellFormed(live[p := live[p] + {token}]) && TokensBelow(live[p := live[p] + {token}], token + 1)
  {
    assert token !in live[p];
  }

  /** The lowest-indexed CBV/SRV/UAV pool at or after `from` with space left. */
  function FirstCbvWithSpace(live: Pools, from: nat): (r: Option<nat>)
    requires PoolsWellFormed(live) && from <= CbvPoolCount
    decreases CbvPoolCount - from
    ensures r.Some? ==> from <= r.value < CbvPoolCount && Space(live, CbvPool(r.value)) > 0
    ensures r.Some? ==> forall k :: from <= k < r.value ==> Space(live, CbvPool(k)) == 0
    ensures r.None? ==> forall k :: from <= k < CbvPoolCount ==> Space(live, CbvPool(k)) == 0
  {
    if from == CbvPoolCount then None
    else if Space(live, CbvPool(from)) > 0 then Some(from)
    else FirstCbvWithSpace(live, from + 1)
  }

  /** The single pool serving a non-CBV heap type. */
  function SinglePool(heap: HeapType): PoolId
    requires heap != CbvSrvUav
  {
    match heap
    case Rtv => RtvPool
    case Dsv => DsvPool
    case Sampler => SamplerPool
  }

  /** The pool allocate_descriptor takes a record from, or None when it throws. */
  function SelectPool(live: Pools, heap: HeapType): (r: Option<PoolId>)
    requires PoolsWellFormed(live)
    ensures r.Some? ==> IsPool(r.value) && Space(live, r.value) > 0
    ensures r.Some? && heap == CbvSrvUav ==>
      r.value.CbvPool? && forall k :: 0 <= k < r.value.index ==> Space(live, CbvPool(k)) == 0
    ensures r.None? && heap == CbvSrvUav ==> forall k :: 0 <= k < CbvPoolCount ==> Space(live, CbvPool(k)) == 0
    ensures heap != CbvSrvUav ==> (r.Some? <==> Space(live, SinglePool(heap)) > 0)
    ensures heap != CbvSrvUav && r.Some? ==> r.value == SinglePool(heap)
  {
    if heap == CbvSrvUav then
      match FirstCbvWithSpace(live, 0)
      case Some(i) => Some(CbvPool(i))
      case None => None
    else if Space(live, SinglePool(heap)) > 0 then Some(SinglePool(heap))
    else None
  }

  /** The pool index stored in DescriptorAllocInfo2. */
  function PoolIndex(p: PoolId): nat {
    if p.CbvPool? then p.index else 0
  }

  /** With both depth-stencil records taken, the next depth-stencil request
      throws, whatever else is free. */
  lemma DepthStencilPoolHoldsTwo(live: Pools)
    requires PoolsWellFormed(live) && |live[DsvPool]| == 2
    ensures SelectPool(live, Dsv).None?
  {
  }

  // ---------------------------------------------------------------------
  // Textures and buffers

  datatype TextureFlags = TextureFlags(renderTarget: bool, depthStencil: bool, shaderResource: bool, unorderedAccess: bool)

  /** The D3D12 resource flags create_texture sets, read back by delete_texture. */
  datatype ResourceFlags = ResourceFlags(allowDepthStencil: bool, allowRenderTarget: bool, allowUnorderedAccess: bool, denyShaderResource: bool)

  function ResourceFlagsFor(f: TextureFlags): ResourceFlags {
    ResourceFlags(f.depthStencil, f.renderTarget, f.unorderedAccess, !f.shaderResource)
  }

  /** A texture slot: the resource's flags (None while empty), its memory, and its
      per-heap view records. */
  datatype Texture = Texture(resource: Option<ResourceFlags>, memory: Option<MemoryAlloc>, views: map<HeapType, DescAlloc>)

  const EmptyTexture: Texture := Texture(None, None, map[])

  /** descriptor_alloc_infos[h]: a missing key reads as the null record. */
  function View(t: Texture, h: HeapType): DescAlloc {
    if h in t.views then t.views[h] else NullDesc
  }

  /** The deallocate calls delete_texture makes, in order: RTV if the resource
      allows render targets, DSV if it allows depth-stencil, the CBV/SRV/UAV
      record if it allows unordered access and once more if shader resources are
      not denied. */
  function TextureReleases(t: Texture): seq<Release>
    requires t.resource.Some?
  {
    var r := t.resource.value;
    var cbv := View(t, CbvSrvUav);
    ReleaseIf(r.allowRenderTarget, RtvPool, View(t, Rtv).info) +
    ReleaseIf(r.allowDepthStencil, DsvPool, View(t, Dsv).info) +
    ReleaseIf(r.allowUnorderedAccess, CbvPool(cbv.pool), cbv.info) +
    ReleaseIf(!r.denyShaderResource, CbvPool(cbv.pool), cbv.info)
  }

  lemma Regroup(x: seq<Release>, a: seq<Release>, b: seq<Release>, c: seq<Release>, d: seq<Release>)
    ensures x + a + b + c + d == x + (a + b + c + d)
  {
  }

  /** A deallocate call made only when `c` holds. */
  function ReleaseIf(c: bool, pool: PoolId, info: Option<Descriptor>): seq<Release> {
    if c then [Release(pool, info)] else []
  }

  /** The views create_texture makes for `f`: DSV, RTV and SRV records, each
      present exactly when its flag is set and never null (unordered access
      views are not created). */
  predicate CreatedFrom(t: Texture, f: TextureFlags) {
    t.resource == Some(ResourceFlagsFor(f)) && t.memory.Some? && ViewsFor(t.views, f)
  }

  predicate ViewsFor(views: map<HeapType, DescAlloc>, f: TextureFlags) {
    (Dsv in views <==> f.depthStencil) &&
    (Rtv in views <==> f.renderTarget) &&
    (CbvSrvUav in views <==> f.shaderResource) &&
    Sampler !in views &&
    (forall h :: h in views ==> views[h].info.Some? && views[h].info.value.heap == h)
  }

  /** One release per view the texture holds, RTV, DSV, SRV. */
  function ViewReleases(t: Texture): seq<Release> {
    (if Rtv in t.views then [Release(RtvPool, t.views[Rtv].info)] else []) +
    (if Dsv in t.views then [Release(DsvPool, t.views[Dsv].info)] else []) +
    (if CbvSrvUav in t.views then [Release(CbvPool(t.views[CbvSrvUav].pool), t.views[CbvSrvUav].info)] else [])
  }

  /** Deleting a texture created without unordered access releases each of its
      views exactly once. */
  lemma TextureReleasesEachViewOnce(t: Texture, f: TextureFlags)
    requires CreatedFrom(t, f) && !f.unorderedAccess
    ensures TextureReleases(t) == ViewReleases(t)
  {
    assert View(t, Rtv) == if f.renderTarget then t.views[Rtv] else NullDesc;
    assert View(t, Dsv) == if f.depthStencil then t.views[Dsv] else NullDesc;
  }

  /** A texture created for unordered access and shader reads has its SRV record
      released twice. */
  lemma UnorderedShaderTextureReleasesSrvTwice(t: Texture, f: TextureFlags)
    requires CreatedFrom(t, f) && f.unorderedAccess && f.shaderResource
    ensures var srv := Release(CbvPool(t.views[CbvSrvUav].pool), t.views[CbvSrvUav].info);
      multiset(TextureReleases(t))[srv] == 2
  {
    var r := t.resource.value;
    var cbv := View(t, CbvSrvUav);
    var srv := Release(CbvPool(cbv.pool), cbv.info);
    var a := ReleaseIf(r.allowRenderTarget, RtvPool, View(t, Rtv).info);
    var b := ReleaseIf(r.allowDepthStencil, DsvPool, View(t, Dsv).info);
    assert r.allowUnorderedAccess && !r.denyShaderResource;
    assert multiset(a)[srv] == 0 && multiset(b)[srv] == 0;
    assert TextureReleases(t) == a + b + [srv] + [srv];
  }

  /** A texture created for unordered access without shader reads hands the null
      record to CBV/SRV/UAV pool 0. */
  lemma UnorderedOnlyTextureReleasesNullRecord(t: Texture, f: TextureFlags)
    requires CreatedFrom(t, f) && f.unorderedAccess && !f.shaderResource
    ensures Release(CbvPool(0), None) in TextureReleases(t)
  {
    assert View(t, CbvSrvUav) == NullDesc;
  }

  /** The pool a view record of heap type h belongs to. */
  function ViewPool(h: HeapType, d: DescAlloc): PoolId {
    match h
    case CbvSrvUav => CbvPool(d.pool)
    case Rtv => RtvPool
    case Dsv => DsvPool
    case Sampler => SamplerPool
  }

  /** The pools once the record d of heap type h has been handed out. */
  function Taken(live: Pools, h: HeapType, d: DescAlloc): Pools {
    var p := ViewPool(h, d);
    if d.info.Some? && p in live then live[p := live[p] + {d.info.value.token}] else live
  }

  /** The pools after create_texture has taken the records of `views`, in its
      order: DSV, RTV, SRV. */
  function TakenViews(live: Pools, views: map<HeapType, DescAlloc>): Pools {
    var a := if Dsv in views then Taken(live, Dsv, views[Dsv]) else live;
    var b := if Rtv in views then Taken(a, Rtv, views[Rtv]) else a;
    if CbvSrvUav in views then Taken(b, CbvSrvUav, views[CbvSrvUav]) else b
  }

  /** The pools once one deallocate call has been served: a record the pool
      holds goes back; a null or already returned record changes nothing. */
  function Returned(live: Pools, r: Release): Pools {
    if r.info.Some? && r.pool in live then live[r.pool := live[r.pool] - {r.info.value.token}] else live
  }

  /** The pools after a sequence of deallocate calls, in order. */
  function AfterReleases(live: Pools, rs: seq<Release>): Pools
    decreases |rs|
  {
    if |rs| == 0 then live else AfterReleases(Returned(live, rs[0]), rs[1..])
  }

  lemma {:induction false} AfterReleasesAppend(live: Pools, a: seq<Release>, b: seq<Release>)
    ensures AfterReleases(live, a + b) == AfterReleases(AfterReleases(live, a), b)
    decreases |a|
  {
    if |a| == 0 {
      assert a + b == b;
    } else {
      assert (a + b)[0] == a[0] && (a + b)[1..] == a[1..] + b;
      AfterReleasesAppend(Returned(live, a[0]), a[1..], b);
    }
  }

  lemma AfterOneRelease(live: Pools, r: Release)
    ensures AfterReleases(live, [r]) == Returned(live, r)
  {
    assert [r][1..] == [];
  }

  /** The records of `views` come from real pools and were all handed out
      after every record `live` holds. */
  ghost predicate FreshViews(live: Pools, views: map<HeapType, DescAlloc>, n: nat) {
    TokensBelow(live, n) &&
    forall h :: h in views ==> IsPool(ViewPool(h, views[h])) && views[h].info.Some? && views[h].info.value.token >= n
  }

  /** The pools after the deallocate calls delete_texture makes for the
      views of `v`, in its order: RTV, DSV, then the shader view. */
  function ReturnedViews(live: Pools, v: map<HeapType, DescAlloc>): Pools {
    var r1 := if Rtv in v then Returned(live, Release(RtvPool, v[Rtv].info)) else live;
    var r2 := if Dsv in v then Returned(r1, Release(DsvPool, v[Dsv].info)) else r1;
    if CbvSrvUav in v then Returned(r2, Release(CbvPool(v[CbvSrvUav].pool), v[CbvSrvUav].info)) else r2
  }

  lemma ViewReleasesInTurn(live: Pools, t: Texture)
    ensures AfterReleases(live, ViewReleases(t)) == ReturnedViews(live, t.views)
  {
    var v := t.views;
    var rtv := if Rtv in v then [Release(RtvPool, v[Rtv].info)] else [];
    var dsv := if Dsv in v then [Release(DsvPool, v[Dsv].info)] else [];
    var srv := if CbvSrvUav in v then [Release(CbvPool(v[CbvSrvUav].pool), v[CbvSrvUav].info)] else [];
    assert ViewReleases(t) == rtv + dsv + srv;
    AfterReleasesAppend(live, rtv + dsv, srv);
    AfterReleasesAppend(live, rtv, dsv);
    if Rtv in v { AfterOneRelease(live, rtv[0]); }
    if Dsv in v { AfterOneRelease(AfterReleases(live, rtv), dsv[0]); }
    if CbvSrvUav in v { AfterOneRelease(AfterReleases(live, rtv + dsv), srv[0]); }
  }

  /** The tokens of the view records of `v` that belong to pool q. */
  function TokensAt(v: map<HeapType, DescAlloc>, q: PoolId): set<nat> {
    (if Dsv in v && q == DsvPool && v[Dsv].info.Some? then {v[Dsv].info.value.token} else {}) +
    (if Rtv in v && q == RtvPool && v[Rtv].info.Some? then {v[Rtv].info.value.token} else {}) +
    (if CbvSrvUav in v && q == CbvPool(v[CbvSrvUav].pool) && v[CbvSrvUav].info.Some?
     then {v[CbvSrvUav].info.value.token} else {})
  }

  lemma TakenAt(live: Pools, h: HeapType, d: DescAlloc, q: PoolId)
    ensures Taken(live, h, d).Keys == live.Keys
    ensures q in live ==> (Taken(live, h, d)[q] ==
      if q == ViewPool(h, d) && d.info.Some? then live[q] + {d.info.value.token} else live[q])
  {
  }

  lemma ReturnedAt(live: Pools, r: Release, q: PoolId)
    ensures Returned(live, r).Keys == live.Keys
    ensures q in live ==> (Returned(live, r)[q] ==
      if q == r.pool && r.info.Some? then live[q] - {r.info.value.token} else live[q])
  {
  }

  /** Creation adds to each pool exactly the tokens of its views there. */
  lemma TakenViewsAt(live: Pools, v: map<HeapType, DescAlloc>, q: PoolId)
    ensures TakenViews(live, v).Keys == live.Keys
    ensures q in live ==> TakenViews(live, v)[q] == live[q] + TokensAt(v, q)
  {
    var a := if Dsv in v then Taken(live, Dsv, v[Dsv]) else live;
    if Dsv in v { TakenAt(live, Dsv, v[Dsv], q); }
    var b := if Rtv in v then Taken(a, Rtv, v[Rtv]) else a;
    if Rtv in v { TakenAt(a, Rtv, v[Rtv], q); }
    if CbvSrvUav in v { TakenAt(b, CbvSrvUav, v[CbvSrvUav], q); }
  }

  /** Deletion removes from each pool exactly the tokens of its views there. */
  lemma ReturnedViewsAt(live: Pools, v: map<HeapType, DescAlloc>, q: PoolId)
    ensures ReturnedViews(live, v).Keys == live.Keys
    ensures q in live ==> ReturnedViews(live, v)[q] == live[q] - TokensAt(v, q)
  {
    var r1 := if Rtv in v then Returned(live, Release(RtvPool, v[Rtv].info)) else live;
    if Rtv in v { ReturnedAt(live, Release(RtvPool, v[Rtv].info), q); }
    var r2 := if Dsv in v then Returned(r1, Release(DsvPool, v[Dsv].info)) else r1;
    if Dsv in v { ReturnedAt(r1, Release(DsvPool, v[Dsv].info), q); }
    if CbvSrvUav in v { ReturnedAt(r2, Release(CbvPool(v[CbvSrvUav].pool), v[CbvSrvUav].info), q); }
  }

  /** Deleting a texture created without unordered access returns exactly the
      records its creation took, each once: the pools end as they were before
      the texture was created. */
  lemma DeleteReturnsWhatCreateTook(live: Pools, t: Texture, f: TextureFlags, n: nat)
    requires CreatedFrom(t, f) && !f.unorderedAccess
    requires FreshViews(live, t.views, n)
    ensures AfterReleases(TakenViews(live, t.views), TextureReleases(t)) == live
  {
    TextureReleasesEachViewOnce(t, f);
    var v := t.views;
    var c := TakenViews(live, v);
    ViewReleasesInTurn(c, t);
    TakenViewsAt(live, v, DsvPool);
    ReturnedViewsAt(c, v, DsvPool);
    forall q | q in live ensures ReturnedViews(c, v)[q] == live[q] {
      TakenViewsAt(live, v, q);
      ReturnedViewsAt(c, v, q);
      forall k | k in TokensAt(v, q) ensures k !in live[q] {
      }
      assert (live[q] + TokensAt(v, q)) - TokensAt(v, q) == live[q];
    }
  }

  /** The pools only gained records: none was returned. */
  ghost predicate Grown(live: Pools, live': Pools) {
    live'.Keys == live.Keys && forall p :: p in live ==> live[p] <= live'[p]
  }

  lemma GrownTrans(a: Pools, b: Pools, c: Pools)
    requires Grown(a, b) && Grown(b, c)
    ensures Grown(a, c)
  {
  }

  /** One optional view of create_texture: when c holds, the views gain a
      record for h from a real pool, numbered n, and that pool gains it. */
  ghost predicate ViewStep(c: bool, h: HeapType, live: Pools, v: map<HeapType, DescAlloc>, n: nat,
                           live': Pools, v': map<HeapType, DescAlloc>, n': nat) {
    if c then
      h in v' && v' == v[h := v'[h]] && v'[h].info == Some(Descriptor(h, n)) &&
      IsPool(ViewPool(h, v'[h])) && live' == Taken(live, h, v'[h]) && n' == n + 1
    else
      v' == v && live' == live && n' == n
  }

  /** When c holds, the record for h in v' comes from the pool SelectPool
      picks in `live`. */
  ghost predicate ViewFrom(c: bool, h: HeapType, live: Pools, v': map<HeapType, DescAlloc>) {
    c ==> h in v' && PoolsWellFormed(live) && SelectPool(live, h) == Some(ViewPool(h, v'[h]))
  }

  /** A texture's shader view, if it has one, comes from the CBV/SRV/UAV pool
      SelectPool picks in `live`. */
  ghost predicate ShaderViewFrom(live: Pools, views: map<HeapType, DescAlloc>) {
    CbvSrvUav in views ==> PoolsWellFormed(live) && SelectPool(live, CbvSrvUav) == Some(CbvPool(views[CbvSrvUav].pool))
  }

  /** create_texture has room for the views `f` asks for: the DSV pool if it
      asks for a depth-stencil view, the RTV pool if it asks for a render
      target view, and some CBV/SRV/UAV pool if it asks for a shader view. */
  ghost predicate RoomFor(live: Pools, f: TextureFlags)
    requires PoolsWellFormed(live)
  {
    (f.depthStencil ==> Space(live, DsvPool) > 0) &&
    (f.renderTarget ==> Space(live, RtvPool) > 0) &&
    (f.shaderResource ==> SelectPool(live, CbvSrvUav).Some?)
  }

  /** The pools of one heap type do not change when a record of another heap
      type is taken, so neither does the space the others have. */
  lemma ViewStepKeepsOtherHeaps(c: bool, h: HeapType, live: Pools, v: map<HeapType, DescAlloc>, n: nat,
                                live': Pools, v': map<HeapType, DescAlloc>, n': nat)
    requires ViewStep(c, h, live, v, n, live', v', n')
    requires PoolsWellFormed(live) && PoolsWellFormed(live')
    ensures h != Dsv ==> Space(live', DsvPool) == Space(live, DsvPool)
    ensures h != Rtv ==> Space(live', RtvPool) == Space(live, RtvPool)
    ensures h != CbvSrvUav ==> SelectPool(live', CbvSrvUav) == SelectPool(live, CbvSrvUav)
  {
    if c && h != CbvSrvUav {
      SameCbvPoolsSameChoice(live, live', 0);
    }
  }

  /** Two pool maps that agree on the CBV/SRV/UAV pools from `from` on pick
      the same one of them. */
  lemma {:induction false} SameCbvPoolsSameChoice(a: Pools, b: Pools, from: nat)
    requires PoolsWellFormed(a) && PoolsWellFormed(b) && from <= CbvPoolCount
    requires forall k :: from <= k < CbvPoolCount ==> a[CbvPool(k)] == b[CbvPool(k)]
    ensures FirstCbvWithSpace(a, from) == FirstCbvWithSpace(b, from)
    ensures from == 0 ==> SelectPool(a, CbvSrvUav) == SelectPool(b, CbvSrvUav)
    decreases CbvPoolCount - from
  {
    if from < CbvPoolCount {
      SameCbvPoolsSameChoice(a, b, from + 1);
    }
  }

  /** The three view steps succeed exactly when the pools had room, and the
      shader view comes from the CBV/SRV/UAV pool SelectPool picks at the
      start. */
  lemma ViewStepsRoom(f: TextureFlags, l0: Pools, n0: nat,
                      l1: Pools, v1: map<HeapType, DescAlloc>, n1: nat,
                      l2: Pools, v2: map<HeapType, DescAlloc>, n2: nat,
                      l3: Pools, v3: map<HeapType, DescAlloc>, n3: nat)
    requires ViewStep(f.depthStencil, Dsv, l0, map[], n0, l1, v1, n1)
    requires ViewStep(f.renderTarget, Rtv, l1, v1, n1, l2, v2, n2)
    requires ViewStep(f.shaderResource, CbvSrvUav, l2, v2, n2, l3, v3, n3)
    requires ViewFrom(f.depthStencil, Dsv, l0, v1) && ViewFrom(f.renderTarget, Rtv, l1, v2)
    requires ViewFrom(f.shaderResource, CbvSrvUav, l2, v3)
    requires PoolsWellFormed(l0) && PoolsWellFormed(l1) && PoolsWellFormed(l2)
    ensures RoomFor(l0, f)
    ensures f.shaderResource ==> CbvSrvUav in v3
    ensures ShaderViewFrom(l0, v3)
  {
    ViewStepKeepsOtherHeaps(f.depthStencil, Dsv, l0, map[], n0, l1, v1, n1);
    ViewStepKeepsOtherHeaps(f.renderTarget, Rtv, l1, v1, n1, l2, v2, n2);
  }

  /** The three optional views of create_texture, one after another, make
      TextureViews' records. */
  lemma ViewStepsCompose(f: TextureFlags, l0: Pools, n0: nat,
                         l1: Pools, v1: map<HeapType, DescAlloc>, n1: nat,
                         l2: Pools, v2: map<HeapType, DescAlloc>, n2: nat,
                         l3: Pools, v3: map<HeapType, DescAlloc>, n3: nat)
    requires TokensBelow(l0, n0)
    requires ViewStep(f.depthStencil, Dsv, l0, map[], n0, l1, v1, n1)
    requires ViewStep(f.renderTarget, Rtv, l1, v1, n1, l2, v2, n2)
    requires ViewStep(f.shaderResource, CbvSrvUav, l2, v2, n2, l3, v3, n3)
    ensures ViewsFor(v3, f) && l3 == TakenViews(l0, v3) && FreshViews(l0, v3, n0)
    ensures n3 >= n0 && forall h :: h in v3 ==> v3[h].info.Some? && v3[h].info.value.token < n3
  {
    assert Dsv in v3 ==> v3[Dsv] == v1[Dsv];
    assert Rtv in v3 ==> v3[Rtv] == v2[Rtv];
  }

  /** The dimension of a texture. */
  datatype Dimension = D1 | D2 | D3

  datatype BufferFlags = BufferFlags(hostWrite: bool, hostRead: bool, constantBuffer: bool, unorderedAccess: bool)

  /** UPLOAD for host-written buffers, else READBACK for host-read ones, else DEFAULT. */
  function BufferHeap(f: BufferFlags): MemoryHeapType {
    if f.hostWrite then UploadHeap else if f.hostRead then ReadbackHeap else DefaultHeap
  }

  datatype Buffer = Buffer(memory: Option<MemoryAlloc>, view: DescAlloc)

  const EmptyBuffer: Buffer := Buffer(None, NullDesc)

  /** delete_buffer always releases the buffer's one CBV/SRV/UAV record to the
      pool it names, whatever flags the buffer was created with. */
  function BufferRelease(b: Buffer): Release {
    Release(CbvPool(b.view.pool), b.view.info)
  }

  /** The number of view records create_buffer takes for `f`. */
  function BufferRecordCount(f: BufferFlags): nat {
    (if f.constantBuffer then 1 else 0) + (if f.unorderedAccess then 1 else 0)
  }

  /** The first CBV/SRV/UAV record create_buffer takes, numbered n, from the
      pool SelectPool picks (the null record when every pool is full). */
  function FirstBufferRecord(live: Pools, n: nat): DescAlloc
    requires PoolsWellFormed(live)
  {
    match SelectPool(live, CbvSrvUav)
    case Some(p) => DescAlloc(Some(Descriptor(CbvSrvUav, n)), PoolIndex(p))
    case None => NullDesc
  }

  /** What a successful create_buffer leaves behind for flags f, its first
      record numbered n: `view` is the record the buffer keeps and `live'` the
      pools. Neither flag: the null record, pools unchanged. One flag: the
      record FirstBufferRecord, taken. Both flags: FirstBufferRecord is taken
      for the constant buffer view, then the unordered access record n + 1,
      FirstBufferRecord of the pools as they are after the first, which is
      the one the buffer keeps. */
  ghost predicate BufferCreated(live: Pools, f: BufferFlags, n: nat, view: DescAlloc, live': Pools)
    requires PoolsWellFormed(live)
  {
    if !f.constantBuffer && !f.unorderedAccess then
      view == NullDesc && live' == live
    else if f.constantBuffer && f.unorderedAccess then
      var d0 := FirstBufferRecord(live, n);
      var mid := Taken(live, CbvSrvUav, d0);
      d0.info.Some? && IsPool(CbvPool(d0.pool)) && IsPool(CbvPool(view.pool)) &&
      PoolsWellFormed(mid) && view == FirstBufferRecord(mid, n + 1) && view.info.Some? &&
      live' == Taken(mid, CbvSrvUav, view)
    else
      view == FirstBufferRecord(live, n) && view.info.Some? && IsPool(CbvPool(view.pool)) &&
      live' == Taken(live, CbvSrvUav, view)
  }

  /** One optional record of create_buffer: when c holds, the record the
      buffer now names is FirstBufferRecord, numbered n, and its pool took it. */
  ghost predicate BufferStep(c: bool, live: Pools, view: DescAlloc, n: nat, live': Pools, view': DescAlloc, n': nat) {
    PoolsWellFormed(live) &&
    if c then
      view' == FirstBufferRecord(live, n) && view'.info.Some? && view'.pool < CbvPoolCount &&
      live' == Taken(live, CbvSrvUav, view') && n' == n + 1
    else
      view' == view && live' == live && n' == n
  }

  /** The constant buffer step and then the unordered access step make
      BufferCreated. */
  lemma BufferStepsCompose(f: BufferFlags, l0: Pools, n0: nat, l1: Pools, v1: DescAlloc, n1: nat,
                           l2: Pools, v2: DescAlloc, n2: nat)
    requires BufferStep(f.constantBuffer, l0, NullDesc, n0, l1, v1, n1)
    requires BufferStep(f.unorderedAccess, l1, v1, n1, l2, v2, n2)
    ensures BufferCreated(l0, f, n0, v2, l2) && n2 == n0 + BufferRecordCount(f)
  {
  }

  /** delete_buffer after create_buffer. A buffer with one view flag gives its
      record back and the pools end as they were. A buffer with both flags
      gives back only the record it keeps: the constant buffer record it took
      first stays taken for good. A buffer with neither flag asks pool 0 to
      release the null record, which changes nothing. */
  lemma DeleteBufferAfterCreate(live: Pools, f: BufferFlags, n: nat, view: DescAlloc, live': Pools, m: Option<MemoryAlloc>)
    requires PoolsWellFormed(live) && TokensBelow(live, n)
    requires BufferCreated(live, f, n, view, live')
    ensures var after := Returned(live', BufferRelease(Buffer(m, view)));
      (f.constantBuffer != f.unorderedAccess ==> after == live) &&
      (f.constantBuffer && f.unorderedAccess ==>
         var d0 := FirstBufferRecord(live, n);
         after == Taken(live, CbvSrvUav, d0) && n in after[CbvPool(d0.pool)] && after != live) &&
      (!f.constantBuffer && !f.unorderedAccess ==>
         BufferRelease(Buffer(m, view)) == Release(CbvPool(0), None) && after == live)
  {
    if f.constantBuffer && f.unorderedAccess {
      var d0 := FirstBufferRecord(live, n);
      var mid := Taken(live, CbvSrvUav, d0);
      var q := CbvPool(view.pool);
      TakenAt(live, CbvSrvUav, d0, q);
      ReturnTaken(mid, view);
      TakenAt(live, CbvSrvUav, d0, CbvPool(d0.pool));
    } else if f.constantBuffer || f.unorderedAccess {
      ReturnTaken(live, view);
    }
  }

  /** Returning a record its pool did not hold before it was taken gives the
      pools back as they were. */
  lemma ReturnTaken(live: Pools, d: DescAlloc)
    requires d.info.Some? && CbvPool(d.pool) in live && d.info.value.token !in live[CbvPool(d.pool)]
    ensures Returned(Taken(live, CbvSrvUav, d), Release(CbvPool(d.pool), d.info)) == live
  {
    var q := CbvPool(d.pool);
    var k := d.info.value.token;
    assert live[q] + {k} - {k} == live[q];
  }

  // ---------------------------------------------------------------------
  // Implementation

  class Backend {
    var live: Pools
    var nextToken: nat
    var releases: seq<Release>
    var memoryLive: set<nat>
    var memoryReleases: seq<Option<MemoryAlloc>>
    const textures: ResourceSet<Texture>
    const buffers: ResourceSet<Buffer>

    ghost predicate Valid()
      reads this, textures, buffers
    {
      PoolsWellFormed(live) &&
      TokensBelow(live, nextToken) &&
      (forall k :: k in memoryLive ==> k < nextToken) &&
      textures.Valid() && buffers.Valid() &&
      textures.empty == EmptyTexture && buffers.empty == EmptyBuffer
    }

    constructor (textureCount: nat, bufferCount: nat)
      ensures Valid() && fresh(textures) && fresh(buffers) && fresh(textures.data) && fresh(buffers.data)
      ensures live == map p | p in AllPools() :: {}
      ensures releases == [] && memoryLive == {} && memoryReleases == []
      ensures textures.State() == Fresh(textureCount, EmptyTexture)
      ensures buffers.State() == Fresh(bufferCount, EmptyBuffer)
    {
      live := map p | p in AllPools() :: {};
      nextToken := 0;
      releases := [];
      memoryLive := {};
      memoryReleases := [];
      textures := new ResourceSet(textureCount, EmptyTexture);
      buffers := new ResourceSet(bufferCount, EmptyBuffer);
      forall p | IsPool(p) ensures p in AllPools() {
        if p.CbvPool? {
          assert p.index == 0 || p.index == 1 || p.index == 2 || p.index == 3;
        }
      }
    }

    static function AllPools(): set<PoolId> {
      {CbvPool(0), CbvPool(1), CbvPool(2), CbvPool(3), RtvPool, DsvPool, SamplerPool}
    }

    /** allocate_descriptor: CBV/SRV/UAV requests take the lowest-indexed pool
        with space and return its index; RTV, DSV and sampler requests use their
        single pool and index 0; a null record throws. */
    method AllocateDescriptor(heap: HeapType) returns (r: Result<DescAlloc>)
      requires Valid()
      modifies this`live, this`nextToken
      ensures Valid()
      ensures r.Err? <==> SelectPool(old(live), heap).None?
      ensures r.Err? ==> r.message == "Backend: Out of memory" && live == old(live)
      ensures r.Ok? ==> var p := SelectPool(old(live), heap).value;
        r.value == DescAlloc(Some(Descriptor(heap, old(nextToken))), PoolIndex(p)) &&
        live == old(live)[p := old(live)[p] + {old(nextToken)}]
      ensures nextToken == if r.Ok? then old(nextToken) + 1 else old(nextToken)
    {
      var pool := FindPool(heap);
      if pool.None? {
        r := Err("Backend: Out of memory");
        return;
      }
      var p := pool.value;
      TakeRecord(live, p, nextToken);
      live := live[p := live[p] + {nextToken}];
      r := Ok(DescAlloc(Some(Descriptor(heap, nextToken)), PoolIndex(p)));
      nextToken := nextToken + 1;
    }

    /** The pool search of allocate_descriptor: the CBV/SRV/UAV pools in
        index order, or the heap type's single pool. */
    method FindPool(heap: HeapType) returns (pool: Option<PoolId>)
      requires PoolsWellFormed(live)
      ensures pool == SelectPool(live, heap)
    {
      pool := None;
      if heap == CbvSrvUav {
        var i := 0;
        while i < CbvPoolCount
          invariant 0 <= i <= CbvPoolCount
          invariant FirstCbvWithSpace(live, 0) == FirstCbvWithSpace(live, i)
        {
          if Capacity(CbvPool(i)) - |live[CbvPool(i)]| > 0 {
            pool := Some(CbvPool(i));
            break;
          }
          i := i + 1;
        }
      } else {
        var p := SinglePool(heap);
        if Capacity(p) - |live[p]| > 0 {
          pool := Some(p);
        }
      }
    }

    /** One deallocate call: logged, and a record the pool handed out is returned. */
    method Deallocate(pool: PoolId, info: Option<Descriptor>)
      requires Valid() && IsPool(pool)
      modifies this`live, this`releases
      ensures Valid()
      ensures releases == old(releases) + [Release(pool, info)]
      ensures live == if info.Some? then old(live)[pool := old(live)[pool] - {info.value.token}] else old(live)
      ensures live == Returned(old(live), Release(pool, info))
    {
      releases := releases + [Release(pool, info)];
      if info.Some? {
        live := live[pool := live[pool] - {info.value.token}];
      }
    }

    method AllocateMemory(heap: MemoryHeapType) returns (m: MemoryAlloc)
      requires Valid()
      modifies this`memoryLive, this`nextToken
      ensures Valid() && live == old(live)
      ensures m == MemoryAlloc(heap, old(nextToken)) && memoryLive == old(memoryLive) + {m.token}
      ensures nextToken == old(nextToken) + 1
    {
      m := MemoryAlloc(heap, nextToken);
      memoryLive := memoryLive + {nextToken};
      nextToken := nextToken + 1;
    }

    method DeallocateMemory(m: Option<MemoryAlloc>)
      requires Valid()
      modifies this`memoryLive, this`memoryReleases
      ensures Valid()
      ensures memoryReleases == old(memoryReleases) + [m]
      ensures memoryLive == if m.Some? then old(memoryLive) - {m.value.token} else old(memoryLive)
    {
      memoryReleases := memoryReleases + [m];
      if m.Some? {
        memoryLive := memoryLive - {m.value.token};
      }
    }

    /** One view of create_texture: allocate a record for `h` and store it. */
    method AddView(views: map<HeapType, DescAlloc>, h: HeapType) returns (r: Result<map<HeapType, DescAlloc>>)
      requires Valid()
      modifies this`live, this`nextToken
      ensures Valid()
      ensures r.Err? <==> SelectPool(old(live), h).None?
      ensures r.Err? ==> r.message == "Backend: Out of memory" && live == old(live) && nextToken == old(nextToken)
      ensures r.Ok? ==> r.value.Keys == views.Keys + {h}
      ensures r.Ok? ==> r.value[h].info.Some? && r.value[h].info.value.heap == h
      ensures r.Ok? ==> forall k :: k in views && k != h ==> r.value[k] == views[k]
      ensures r.Ok? ==> var p := SelectPool(old(live), h).value;
        r.value == views[h := DescAlloc(Some(Descriptor(h, old(nextToken))), PoolIndex(p))] &&
        ViewPool(h, r.value[h]) == p &&
        live == Taken(old(live), h, r.value[h]) && nextToken == old(nextToken) + 1
      ensures r.Ok? ==> ViewStep(true, h, old(live), views, old(nextToken), live, r.value, nextToken)
      ensures r.Ok? ==> ViewFrom(true, h, old(live), r.value)
      ensures Grown(old(live), live)
    {
      var d := AllocateDescriptor(h);
      if d.Err? {
        r := Err(d.message);
      } else {
        r := Ok(views[h := d.value]);
      }
    }

    /** create_texture: memory on the DEFAULT heap, then the view records of
        TextureViews, then a slot. An out-of-memory throw leaves the records
        already taken in their pools. */
    method CreateTexture(f: TextureFlags, dimension: Dimension) returns (r: Result<nat>)
      requires Valid() && |textures.ids| > 0
      modifies this, textures, textures.data
      ensures Valid() && releases == old(releases) && memoryReleases == old(memoryReleases)
      ensures memoryLive == old(memoryLive) + {old(nextToken)}
      ensures r.Ok? ==> r.value == old(textures.ids[0]) && CreatedFrom(textures.data[r.value], f)
      ensures r.Ok? ==> var t := textures.data[r.value];
        t.memory == Some(MemoryAlloc(DefaultHeap, old(nextToken))) &&
        live == TakenViews(old(live), t.views) &&
        FreshViews(old(live), t.views, old(nextToken) + 1) &&
        (forall h :: h in t.views ==> t.views[h].info.value.token < nextToken)
      ensures r.Ok? ==> textures.State() == AfterPush(old(textures.State()), textures.data[r.value]).0
      ensures r.Err? ==> textures.State() == old(textures.State())
      ensures r.Err? ==> if f.depthStencil && dimension == D3
        then r.message == "Depth stencil view dimension is unsupported" && live == old(live)
        else r.message == "Backend: Out of memory"
      ensures r.Err? ==> live.Keys == old(live).Keys && forall p :: p in old(live) ==> old(live)[p] <= live[p]
      ensures !(f.depthStencil && dimension == D3) ==> (r.Err? <==> !RoomFor(old(live), f))
      ensures r.Ok? ==> ShaderViewFrom(old(live), textures.data[r.value].views)
    {
      var mem := AllocateMemory(DefaultHeap);
      var views := TextureViews(f, dimension);
      if views.Err? { r := Err(views.message); return; }
      var t := Texture(Some(ResourceFlagsFor(f)), Some(mem), views.value);
      var id := textures.Push(t);
      r := Ok(id);
    }

    /** The DSV, RTV and SRV records of create_texture, for the flags that ask
        for them, in that order. A depth-stencil texture of three dimensions
        trips the assertion before any record is taken. */
    method TextureViews(f: TextureFlags, dimension: Dimension) returns (r: Result<map<HeapType, DescAlloc>>)
      requires Valid()
      modifies this`live, this`nextToken
      ensures Valid() && nextToken >= old(nextToken)
      ensures r.Err? ==> if f.depthStencil && dimension == D3
        then r.message == "Depth stencil view dimension is unsupported" && live == old(live)
        else r.message == "Backend: Out of memory"
      ensures r.Err? ==> Grown(old(live), live)
      ensures r.Ok? ==> ViewsFor(r.value, f) && !(f.depthStencil && dimension == D3)
      ensures r.Ok? ==> live == TakenViews(old(live), r.value) && FreshViews(old(live), r.value, old(nextToken))
      ensures r.Ok? ==> forall h :: h in r.value ==> r.value[h].info.value.token < nextToken
      ensures !(f.depthStencil && dimension == D3) ==> (r.Err? <==> !RoomFor(old(live), f))
      ensures r.Ok? ==> ShaderViewFrom(old(live), r.value)
    {
      if f.depthStencil && dimension == D3 {
        r := Err("Depth stencil view dimension is unsupported");
        return;
      }
      ghost var l0, n0 := live, nextToken;
      var v1: map<HeapType, DescAlloc> := map[];
      if f.depthStencil {
        var v := AddView(v1, Dsv);
        if v.Err? { r := Err(v.message); return; }
        v1 := v.value;
      }
      ghost var l1, n1 := live, nextToken;
      assert ViewStep(f.depthStencil, Dsv, l0, map[], n0, l1, v1, n1);
      assert ViewFrom(f.depthStencil, Dsv, l0, v1);
      var v2 := v1;
      if f.renderTarget {
        var v := AddView(v1, Rtv);
        if v.Err? {
          ViewStepKeepsOtherHeaps(f.depthStencil, Dsv, l0, map[], n0, l1, v1, n1);
          GrownTrans(l0, l1, live);
          r := Err(v.message);
          return;
        }
        v2 := v.value;
      }
      ghost var l2, n2 := live, nextToken;
      assert ViewStep(f.renderTarget, Rtv, l1, v1, n1, l2, v2, n2);
      assert ViewFrom(f.renderTarget, Rtv, l1, v2);
      GrownTrans(l0, l1, l2);
      var v3 := v2;
      if f.shaderResource {
        var v := AddView(v2, CbvSrvUav);
        if v.Err? {
          ViewStepKeepsOtherHeaps(f.depthStencil, Dsv, l0, map[], n0, l1, v1, n1);
          ViewStepKeepsOtherHeaps(f.renderTarget, Rtv, l1, v1, n1, l2, v2, n2);
          GrownTrans(l0, l2, live);
          r := Err(v.message);
          return;
        }
        v3 := v.value;
      }
      assert ViewStep(f.shaderResource, CbvSrvUav, l2, v2, n2, live, v3, nextToken);
      assert ViewFrom(f.shaderResource, CbvSrvUav, l2, v3);
      ViewStepsCompose(f, l0, n0, l1, v1, n1, l2, v2, n2, live, v3, nextToken);
      ViewStepsRoom(f, l0, n0, l1, v1, n1, l2, v2, n2, live, v3, nextToken);
      r := Ok(v3);
    }

    /** The deallocate calls of delete_texture, in TextureReleases order. */
    method ReleaseTextureViews(t: Texture)
      requires Valid() && t.resource.Some? && IsPool(CbvPool(View(t, CbvSrvUav).pool))
      modifies this`live, this`releases
      ensures Valid()
      ensures releases == old(releases) + TextureReleases(t)
      ensures live == AfterReleases(old(live), TextureReleases(t))
    {
      var flags := t.resource.value;
      var cbv := View(t, CbvSrvUav);
      ghost var before := releases;
      ghost var rtv := ReleaseIf(flags.allowRenderTarget, RtvPool, View(t, Rtv).info);
      ghost var dsv := ReleaseIf(flags.allowDepthStencil, DsvPool, View(t, Dsv).info);
      ghost var uav := ReleaseIf(flags.allowUnorderedAccess, CbvPool(cbv.pool), cbv.info);
      ghost var srv := ReleaseIf(!flags.denyShaderResource, CbvPool(cbv.pool), cbv.info);
      DeallocateTwice(flags.allowRenderTarget, RtvPool, View(t, Rtv).info,
        flags.allowDepthStencil, DsvPool, View(t, Dsv).info);
      DeallocateTwice(flags.allowUnorderedAccess, CbvPool(cbv.pool), cbv.info,
        !flags.denyShaderResource, CbvPool(cbv.pool), cbv.info);
      AfterReleasesAppend(old(live), rtv + dsv, uav + srv);
      assert TextureReleases(t) == (rtv + dsv) + (uav + srv);
      Regroup(before, rtv, dsv, uav, srv);
    }

    /** Two guarded deallocate calls in a row. */
    method DeallocateTwice(c: bool, pool: PoolId, info: Option<Descriptor>,
                           d: bool, pool': PoolId, info': Option<Descriptor>)
      requires Valid() && IsPool(pool) && IsPool(pool')
      modifies this`live, this`releases
      ensures Valid()
      ensures releases == old(releases) + ReleaseIf(c, pool, info) + ReleaseIf(d, pool', info')
      ensures live == AfterReleases(old(live), ReleaseIf(c, pool, info) + ReleaseIf(d, pool', info'))
    {
      DeallocateIf(c, pool, info);
      DeallocateIf(d, pool', info');
      AfterReleasesAppend(old(live), ReleaseIf(c, pool, info), ReleaseIf(d, pool', info'));
    }

    /** One guarded deallocate call of delete_texture. */
    method DeallocateIf(c: bool, pool: PoolId, info: Option<Descriptor>)
      requires Valid() && IsPool(pool)
      modifies this`live, this`releases
      ensures Valid()
      ensures releases == old(releases) + ReleaseIf(c, pool, info)
      ensures live == AfterReleases(old(live), ReleaseIf(c, pool, info))
    {
      if c {
        Deallocate(pool, info);
        AfterOneRelease(old(live), Release(pool, info));
      }
    }

    /** delete_texture: the releases of TextureReleases, then the memory, then the
        slot is erased. */
    method DeleteTexture(id: nat)
      requires Valid() && id < textures.data.Length && textures.data[id].resource.Some?
      requires IsPool(CbvPool(View(textures.data[id], CbvSrvUav).pool))
      modifies this, textures, textures.data
      ensures Valid()
      ensures releases == old(releases) + TextureReleases(old(textures.data[id]))
      ensures memoryReleases == old(memoryReleases) + [old(textures.data[id]).memory]
      ensures live == AfterReleases(old(live), TextureReleases(old(textures.data[id])))
      ensures memoryLive == if old(textures.data[id]).memory.Some?
        then old(memoryLive) - {old(textures.data[id]).memory.value.token} else old(memoryLive)
      ensures textures.State() == AfterErase(old(textures.State()), id, EmptyTexture)
    {
      var t := textures.Get(id);
      ReleaseTextureViews(t);
      DeallocateMemory(t.memory);
      textures.Erase(id);
    }

    /** The view records of create_buffer: a CBV record for a constant buffer,
        then a UAV record for unordered access that replaces it. */
    method BufferView(f: BufferFlags) returns (r: Result<DescAlloc>)
      requires Valid()
      modifies this`live, this`nextToken
      ensures Valid() && releases == old(releases)
      ensures r.Err? ==> r.message == "Backend: Out of memory" && (f.constantBuffer || f.unorderedAccess)
      ensures (f.constantBuffer || f.unorderedAccess) && SelectPool(old(live), CbvSrvUav).None? ==> r.Err?
      ensures r.Err? && SelectPool(old(live), CbvSrvUav).None? ==> live == old(live)
      ensures r.Err? && SelectPool(old(live), CbvSrvUav).Some? ==>
        f.constantBuffer && f.unorderedAccess &&
        live == Taken(old(live), CbvSrvUav, FirstBufferRecord(old(live), old(nextToken)))
      ensures r.Ok? ==> (r.value.info.Some? <==> f.constantBuffer || f.unorderedAccess)
      ensures r.Ok? ==> BufferCreated(old(live), f, old(nextToken), r.value, live)
      ensures r.Ok? ==> nextToken == old(nextToken) + BufferRecordCount(f)
      ensures r.Ok? && f.constantBuffer && f.unorderedAccess ==>
        old(nextToken) in LiveCbv(live) &&
        r.value.info == Some(Descriptor(CbvSrvUav, old(nextToken) + 1))
    {
      ghost var l0, n0 := live, nextToken;
      var view := NullDesc;
      if f.constantBuffer {
        var d := AllocateCbv();
        if d.Err? { r := Err(d.message); return; }
        view := d.value;
        InLiveCbv(live, view.pool, view.info.value.token);
      }
      ghost var l1, v1, n1 := live, view, nextToken;
      assert BufferStep(f.constantBuffer, l0, NullDesc, n0, l1, v1, n1);
      if f.unorderedAccess {
        var d := AllocateCbv();
        if d.Err? { r := Err(d.message); return; }
        LiveCbvGrows(l1, live);
        view := d.value;
      }
      assert BufferStep(f.unorderedAccess, l1, v1, n1, live, view, nextToken);
      BufferStepsCompose(f, l0, n0, l1, v1, n1, live, view, nextToken);
      r := Ok(view);
    }

    /** allocate_descriptor for the CBV/SRV/UAV heap, stated as the record
        FirstBufferRecord and the pools that took it. */
    method AllocateCbv() returns (r: Result<DescAlloc>)
      requires Valid()
      modifies this`live, this`nextToken
      ensures Valid()
      ensures r.Err? <==> SelectPool(old(live), CbvSrvUav).None?
      ensures r.Err? ==> r.message == "Backend: Out of memory" && live == old(live) && nextToken == old(nextToken)
      ensures r.Ok? ==> r.value == FirstBufferRecord(old(live), old(nextToken))
      ensures r.Ok? ==> r.value.info == Some(Descriptor(CbvSrvUav, old(nextToken))) && r.value.pool < CbvPoolCount
      ensures r.Ok? ==> live == Taken(old(live), CbvSrvUav, r.value) && nextToken == old(nextToken) + 1
      ensures r.Ok? ==> old(nextToken) in live[CbvPool(r.value.pool)]
      ensures Grown(old(live), live)
    {
      r := AllocateDescriptor(CbvSrvUav);
    }

    /** create_buffer: memory on the heap BufferHeap chooses, the view records of
        BufferView, then a slot. With both flags the first record stays taken and
        the buffer no longer names it, so delete_buffer can never return it. The
        memory is allocated before any record, so a throw leaves it allocated. */
    method CreateBuffer(f: BufferFlags) returns (r: Result<nat>)
      requires Valid() && |buffers.ids| > 0
      modifies this, buffers, buffers.data
      ensures Valid() && releases == old(releases) && memoryReleases == old(memoryReleases)
      ensures memoryLive == old(memoryLive) + {old(nextToken)}
      ensures r.Ok? ==> r.value == old(buffers.ids[0])
      ensures r.Ok? ==> var b := buffers.data[r.value];
        b.memory == Some(MemoryAlloc(BufferHeap(f), old(nextToken))) &&
        (b.view.info.Some? <==> f.constantBuffer || f.unorderedAccess) &&
        BufferCreated(old(live), f, old(nextToken) + 1, b.view, live) &&
        nextToken == old(nextToken) + 1 + BufferRecordCount(f) &&
        buffers.State() == AfterPush(old(buffers.State()), b).0
      ensures r.Ok? && f.constantBuffer && f.unorderedAccess ==>
        old(nextToken) + 1 in LiveCbv(live) &&
        buffers.data[r.value].view.info == Some(Descriptor(CbvSrvUav, old(nextToken) + 2))
      ensures r.Err? ==> r.message == "Backend: Out of memory" && buffers.State() == old(buffers.State())
      ensures r.Err? ==> (f.constantBuffer || f.unorderedAccess) && Grown(old(live), live)
      ensures r.Err? && SelectPool(old(live), CbvSrvUav).None? ==> live == old(live)
      ensures r.Err? && SelectPool(old(live), CbvSrvUav).Some? ==>
        f.constantBuffer && f.unorderedAccess &&
        live == Taken(old(live), CbvSrvUav, FirstBufferRecord(old(live), old(nextToken) + 1))
      ensures (f.constantBuffer || f.unorderedAccess) && SelectPool(old(live), CbvSrvUav).None? ==> r.Err?
    {
      var mem := AllocateMemory(BufferHeap(f));
      var view := BufferView(f);
      if view.Err? { r := Err(view.message); return; }
      var b := Buffer(Some(mem), view.value);
      var id := buffers.Push(b);
      r := Ok(id);
    }

    /** delete_buffer: BufferRelease, then the memory, then the slot is erased. */
    method DeleteBuffer(id: nat)
      requires Valid() && id < buffers.data.Length
      requires IsPool(CbvPool(buffers.data[id].view.pool))
      modifies this, buffers, buffers.data
      ensures Valid()
      ensures releases == old(releases) + [BufferRelease(old(buffers.data[id]))]
      ensures memoryReleases == old(memoryReleases) + [old(buffers.data[id]).memory]
      ensures live == Returned(old(live), BufferRelease(old(buffers.data[id])))
      ensures memoryLive == if old(buffers.data[id]).memory.Some?
        then old(memoryLive) - {old(buffers.data[id]).memory.value.token} else old(memoryLive)
      ensures buffers.State() == AfterErase(old(buffers.State()), id, EmptyBuffer)
    {
      var b := buffers.Get(id);
      Deallocate(CbvPool(b.view.pool), b.view.info);
      DeallocateMemory(b.memory);
      buffers.Erase(id);
    }
  }

  /** Every record held by one of the CBV/SRV/UAV pools. */
  ghost function LiveCbv(live: Pools): set<nat>
    requires PoolsWellFormed(live)
  {
    live[CbvPool(0)] + live[CbvPool(1)] + live[CbvPool(2)] + live[CbvPool(3)]
  }

  lemma InLiveCbv(live: Pools, i: nat, token: nat)
    requires PoolsWellFormed(live) && i < CbvPoolCount && token in live[CbvPool(i)]
    ensures token in LiveCbv(live)
  {
    assert i == 0 || i == 1 || i == 2 || i == 3;
  }

  lemma LiveCbvGrows(before: Pools, after: Pools)
    requires PoolsWellFormed(before) && PoolsWellFormed(after)
    requires forall p :: p in before ==> before[p] <= after[p]
    ensures LiveCbv(before) <= LiveCbv(after)
  {
  }

  /** A buffer created with neither constant-buffer nor unordered-access use still
      hands the null record to pool 0 when deleted. */
  lemma PlainBufferReleasesNullRecord(b: Buffer)
    requires b.view == NullDesc
    ensures BufferRelease(b) == Release(CbvPool(0), None)
  {
  }
}
