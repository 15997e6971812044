/** ShaderBinder: for the uniforms of a shader program it keeps the list of
    descriptor writes to issue and a map from each location to the position
    of its write in that list. The constructor fills both with the null
    resource of each uniform's kind; update_resource replaces the write of
    one location. The program's uniform container is taken in its iteration
    order, given as a sequence; the uniform index is taken to be a uint32
    (it is declared outside the modelled files, in renderer/shader_program.h),
    so index + 1 wraps. bind is a native call and is left out. */
module ShaderBinders {
  import opened Wrappers

  const U32: int := 0x1_0000_0000
  type Uint32 = x: int | 0 <= x < U32

  datatype Uniform =
    | Sampler2D(index: Uint32)
    | CBuffer(index: Uint32)
    | SBuffer(index: Uint32)
    | RWBuffer
    | RWTexture2D

  /** The resource a write points at: one of NullData's resources or a
      resource handle given to update_resource. */
  datatype Resource = NullTexture | NullSampler | NullCBuffer | NullSBuffer | Handle(token: nat)

  /** DescriptorWriteDesc: the location written and the resource. */
  datatype Write = Write(index: Uint32, data: Resource)

  predicate IsNull(r: Resource) {
    !r.Handle?
  }

  /** The writes one uniform contributes: texture then sampler for a
      Sampler2D, one write for a CBuffer or an SBuffer, none for RWBuffer and
      RWTexture2D. */
  function UniformWrites(u: Uniform): (ws: seq<Write>)
    ensures u.Sampler2D? ==> ws == [Write(u.index, NullTexture), Write((u.index + 1) % U32, NullSampler)]
    ensures u.CBuffer? ==> ws == [Write(u.index, NullCBuffer)]
    ensures u.SBuffer? ==> ws == [Write(u.index, NullSBuffer)]
    ensures u.RWBuffer? || u.RWTexture2D? ==> ws == []
  {
    match u
    case Sampler2D(i) => [Write(i, NullTexture), Write((i + 1) % U32, NullSampler)]
    case CBuffer(i) => [Write(i, NullCBuffer)]
    case SBuffer(i) => [Write(i, NullSBuffer)]
    case RWBuffer => []
    case RWTexture2D => []
  }

  /** The constructor's write list: each uniform's writes, in order. */
  function Writes(us: seq<Uniform>): seq<Write>
  {
    if |us| == 0 then [] else Writes(us[..|us| - 1]) + UniformWrites(us[|us| - 1])
  }

  /** map::insert: a key already present keeps its value. */
  function Insert(m: map<Uint32, nat>, k: Uint32, v: nat): (r: map<Uint32, nat>)
    ensures k in r && r[k] == if k in m then m[k] else v
    ensures forall j :: j in r ==> j == k || j in m
    ensures forall j :: j in m ==> j in r && r[j] == m[j]
  {
    if k in m then m else m[k := v]
  }

  /** The location map for a write list: each write's position is inserted
      under its index, in order. */
  function Positions(ws: seq<Write>): (r: map<Uint32, nat>)
    ensures forall loc :: loc in r ==> r[loc] < |ws|
  {
    if |ws| == 0 then map[] else Insert(Positions(ws[..|ws| - 1]), ws[|ws| - 1].index, |ws| - 1)
  }

  lemma PositionsAppend(ws: seq<Write>, w: Write)
    ensures Positions(ws + [w]) == Insert(Positions(ws), w.index, |ws|)
  {
    assert (ws + [w])[..|ws|] == ws;
  }

  /** A location is known exactly when some write has that index. */
  lemma {:induction false} PositionsKnowEveryIndex(ws: seq<Write>)
    ensures forall loc :: loc in Positions(ws) <==> exists k :: 0 <= k < |ws| && ws[k].index == loc
  {
    if |ws| > 0 {
      var n := |ws| - 1;
      var init := ws[..n];
      PositionsKnowEveryIndex(init);
      forall loc ensures loc in Positions(ws) <==> exists k :: 0 <= k < |ws| && ws[k].index == loc {
        if loc in Positions(ws) && loc != ws[n].index {
          assert loc in Positions(init);
          var k :| 0 <= k < |init| && init[k].index == loc;
          assert ws[k].index == loc;
        }
        if (exists k :: 0 <= k < |ws| && ws[k].index == loc) && loc != ws[n].index {
          var k :| 0 <= k < |ws| && ws[k].index == loc;
          assert init[k].index == loc;
        }
      }
    }
  }

  /** A known location's position is the first write with that index. */
  lemma {:induction false} PositionsAreFirstWrites(ws: seq<Write>, loc: Uint32)
    requires loc in Positions(ws)
    ensures ws[Positions(ws)[loc]].index == loc
    ensures forall k :: 0 <= k < Positions(ws)[loc] ==> ws[k].index != loc
  {
    var n := |ws| - 1;
    var init := ws[..n];
    if loc in Positions(init) {
      PositionsAreFirstWrites(init, loc);
      assert Positions(ws)[loc] == Positions(init)[loc];
    } else {
      assert loc == ws[n].index && Positions(ws)[loc] == n;
      PositionsKnowEveryIndex(init);
      forall k | 0 <= k < n ensures ws[k].index != loc {
        assert init[k] == ws[k];
      }
    }
  }

  lemma PositionsPointAtTheirWrites(ws: seq<Write>)
    ensures forall loc :: loc in Positions(ws) ==> ws[Positions(ws)[loc]].index == loc
  {
    forall loc | loc in Positions(ws) ensures ws[Positions(ws)[loc]].index == loc {
      PositionsAreFirstWrites(ws, loc);
    }
  }

  /** Every write of the constructor uses a null resource. */
  lemma {:induction false} WritesAreNull(us: seq<Uniform>)
    ensures forall k :: 0 <= k < |Writes(us)| ==> IsNull(Writes(us)[k].data)
  {
    if |us| > 0 {
      WritesAreNull(us[..|us| - 1]);
    }
  }

  /** The writes from one uniform list, counted: a Sampler2D gives two, a
      CBuffer or an SBuffer one, the others none. */
  function WriteCount(us: seq<Uniform>): nat
  {
    if |us| == 0 then 0
    else
      var u := us[|us| - 1];
      WriteCount(us[..|us| - 1]) + (if u.Sampler2D? then 2 else if u.CBuffer? || u.SBuffer? then 1 else 0)
  }

  lemma {:induction false} WritesCounted(us: seq<Uniform>)
    ensures |Writes(us)| == WriteCount(us)
  {
    if |us| > 0 {
      WritesCounted(us[..|us| - 1]);
    }
  }

  /** update_resource on values: the write of a known location is replaced by
      one with index = location; an unknown location makes map::at throw. */
  function Updated(ws: seq<Write>, positions: map<Uint32, nat>, location: Uint32, resource: Resource): (r: Result<seq<Write>>)
    requires forall loc :: loc in positions ==> positions[loc] < |ws|
    ensures r.Err? <==> location !in positions
    ensures r.Ok? ==> |r.value| == |ws| && r.value[positions[location]] == Write(location, resource)
    ensures r.Ok? ==> forall k :: 0 <= k < |ws| && k != positions[location] ==> r.value[k] == ws[k]
  {
    if location in positions then Ok(ws[positions[location] := Write(location, resource)])
    else Err("invalid map<K, T> key")
  }

  /** Updating a location of a Sampler2D uniform replaces its texture write
      only; the sampler write at index + 1 keeps the null sampler. */
  lemma UpdateLeavesSamplerWrite(i: Uint32, h: Resource)
    requires i + 1 < U32
    ensures var ws := Writes([Sampler2D(i)]);
      Updated(ws, Positions(ws), i, h) == Ok([Write(i, h), Write(i + 1, NullSampler)])
  {
    var ws := Writes([Sampler2D(i)]);
    assert [Sampler2D(i)][..0] == [];
    assert Writes([Sampler2D(i)]) == Writes([]) + UniformWrites(Sampler2D(i));
    assert ws == [Write(i, NullTexture)] + [Write(i + 1, NullSampler)];
    PositionsAppend([], Write(i, NullTexture));
    assert [] + [Write(i, NullTexture)] == [Write(i, NullTexture)];
    assert Positions([Write(i, NullTexture)]) == map[i := 0];
    PositionsAppend([Write(i, NullTexture)], Write(i + 1, NullSampler));
    assert Positions(ws) == map[i := 0, i + 1 := 1];
    assert ws[0 := Write(i, h)] == [Write(i, h), Write(i + 1, NullSampler)];
  }

  class ShaderBinder {
    var updates: seq<Write>
    var exist: map<Uint32, nat>

    ghost predicate Valid()
      reads this
    {
      forall loc :: loc in exist ==> exist[loc] < |updates| && updates[exist[loc]].index == loc
    }

    /** The constructor: for every uniform, the position of each of its writes
        is inserted under the write's index, then the write is appended. */
    constructor (uniforms: seq<Uniform>)
      ensures Valid()
      ensures updates == Writes(uniforms) && exist == Positions(updates)
    {
      updates := [];
      exist := map[];
      new;
      var i := 0;
      while i < |uniforms|
        invariant 0 <= i <= |uniforms|
        invariant updates == Writes(uniforms[..i]) && exist == Positions(updates)
      {
        assert uniforms[..i + 1][..i] == uniforms[..i];
        AppendWrites(UniformWrites(uniforms[i]));
        i := i + 1;
      }
      assert uniforms[..i] == uniforms;
      PositionsPointAtTheirWrites(updates);
    }

    /** The inner loop of the constructor, over one uniform's writes. */
    method AppendWrites(ws: seq<Write>)
      requires exist == Positions(updates)
      modifies this
      ensures updates == old(updates) + ws && exist == Positions(updates)
    {
      var us, ex := updates, exist;
      ghost var start := updates;
      var j := 0;
      while j < |ws|
        invariant 0 <= j <= |ws|
        invariant us == start + ws[..j] && ex == Positions(us)
      {
        var w := ws[j];
        PositionsAppend(us, w);
        ex := Insert(ex, w.index, |us|);
        assert ws[..j + 1] == ws[..j] + [w];
        assert us + [w] == start + ws[..j + 1];
        us := us + [w];
        j := j + 1;
      }
      assert ws[..j] == ws;
      updates, exist := us, ex;
    }

    /** update_resource: the write at the location's position becomes
        { index = location, data = resource }; an unknown location throws. */
    method UpdateResource(location: Uint32, resource: Resource) returns (r: Result<()>)
      requires Valid()
      modifies this
      ensures Valid() && exist == old(exist)
      ensures r.Err? <==> location !in exist
      ensures r.Ok? ==> updates == Updated(old(updates), exist, location, resource).value
      ensures r.Err? ==> updates == old(updates)
    {
      if location in exist {
        updates := updates[exist[location] := Write(location, resource)];
        r := Ok(());
      } else {
        r := Err("invalid map<K, T> key");
      }
    }
  }
}
