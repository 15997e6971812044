/** asset::Technique: built from a parsed technique document, it gives every
    uniform a register location (a running count per uniform type), records
    each uniform's data layout and visibility, and generates the HLSL code of
    every shader: the stage's input/output structs, then the code of each
    uniform visible to that stage, then the shader's own source.

    The document's enumerations are declared in asset/technique.h, which is
    not modelled: each is written with the values the code names and one
    case standing for every other value. The constructor and the
    loader can throw; the exceptions are Err results. */
module Techniques {
  import opened Wrappers

  const U32: int := 0x1_0000_0000
  type Uint32 = x: int | 0 <= x < U32

  // ---------------------------------------------------------------------
  // The document

  datatype UniformType = CBuffer | Sampler2D | UnlistedUniformType(ordinal: nat)

  datatype ShaderType = Vertex | Geometry | Domain | Hull | Pixel | Compute | UnlistedShaderType(value: int)

  datatype PropertyType = Float4x4 | Float4 | Float3 | Float2 | Float | UnlistedPropertyType(ordinal: nat)

  datatype StructProperty = StructProperty(name: string, propertyType: PropertyType, semantic: Option<string>)

  datatype UniformDefinition = UniformDefinition(
    name: string, uniformType: UniformType, properties: Option<seq<StructProperty>>, visibility: Option<ShaderType>)

  datatype ShaderDefinition = ShaderDefinition(
    shaderType: ShaderType, inputs: seq<StructProperty>, outputs: seq<StructProperty>, source: string)

  datatype TechniqueDefinition = TechniqueDefinition(
    name: string, uniforms: seq<UniformDefinition>, shaders: seq<ShaderDefinition>)

  // ---------------------------------------------------------------------
  // What the technique keeps

  datatype ShaderDataType = F32 | F32x2 | F32x3 | F32x4 | F32x4x4

  datatype ShaderFlags = VertexStage | GeometryStage | DomainStage | HullStage | PixelStage | ComputeStage | AllStages

  datatype UniformData = CBufferData(members: seq<(string, ShaderDataType)>) | Sampler2DData

  datatype ShaderUniform = ShaderUniform(name: string, data: UniformData, visibility: ShaderFlags)

  datatype ShaderData = ShaderData(code: string, flags: ShaderFlags)

  datatype TechniqueData = TechniqueData(name: string, uniforms: seq<ShaderUniform>, shaders: seq<ShaderData>)

  /** The exception texts: unordered_map::at on a missing key and
      optional::value on an empty optional. */
  const MissingKey: string := "invalid unordered_map<K, T> key"
  const BadOptionalAccess: string := "bad optional access"

  // ---------------------------------------------------------------------
  // The three switches

  /** get_shader_data_string. */
  function DataString(t: PropertyType): string {
    match t
    case Float4x4 => "float4x4"
    case Float4 => "float4"
    case Float3 => "float3"
    case Float2 => "float2"
    case Float => "float"
    case UnlistedPropertyType(_) => "float"
  }

  /** get_shader_data_type. */
  function DataType(t: PropertyType): ShaderDataType {
    match t
    case Float => F32
    case Float2 => F32x2
    case Float3 => F32x3
    case Float4 => F32x4
    case Float4x4 => F32x4x4
    case UnlistedPropertyType(_) => F32
  }

  /** get_shader_flags. */
  function FlagsOf(t: ShaderType): ShaderFlags {
    match t
    case Vertex => VertexStage
    case Geometry => GeometryStage
    case Domain => DomainStage
    case Hull => HullStage
    case Pixel => PixelStage
    case Compute => ComputeStage
    case UnlistedShaderType(_) => AllStages
  }

  /** The HLSL spelling of a data type. */
  function HlslName(d: ShaderDataType): string {
    match d
    case F32 => "float"
    case F32x2 => "float2"
    case F32x3 => "float3"
    case F32x4 => "float4"
    case F32x4x4 => "float4x4"
  }

  /** The string and the data type a property type maps to agree, and both
      default to float. */
  lemma DataStringMatchesDataType(t: PropertyType)
    ensures DataString(t) == HlslName(DataType(t))
    ensures t.UnlistedPropertyType? ==> DataType(t) == F32 && DataString(t) == "float"
  {
  }

  /** Different data types have different HLSL names, and the listed property
      types map one-to-one onto the data types. */
  lemma DataTypesOneToOne(a: PropertyType, b: PropertyType, c: ShaderDataType, d: ShaderDataType)
    ensures HlslName(c) == HlslName(d) ==> c == d
    ensures !a.UnlistedPropertyType? && !b.UnlistedPropertyType? && DataType(a) == DataType(b) ==> a == b
  {
    assert HlslName(F32x4x4) == "float4x4";
  }

  /** The listed shader types map one-to-one onto the stage flags; every
      other value, the absent visibility's -1 among them, maps to All. */
  lemma FlagsOneToOne(a: ShaderType, b: ShaderType)
    ensures FlagsOf(a) == AllStages <==> a.UnlistedShaderType?
    ensures !a.UnlistedShaderType? && FlagsOf(a) == FlagsOf(b) ==> a == b
  {
  }

  // ---------------------------------------------------------------------
  // Uniform entries and register locations

  /** The value the constructor reads for an absent visibility. */
  const NoVisibility: ShaderType := UnlistedShaderType(-1)

  /** The uniform entry the constructor appends: CBuffer data, one member per
      property, only when properties are given and the type is not
      sampler2D; Sampler2D data otherwise. */
  function Entry(u: UniformDefinition): (e: ShaderUniform)
    ensures e.name == u.name
    ensures e.data.CBufferData? <==> u.properties.Some? && u.uniformType != Sampler2D
    ensures e.data.CBufferData? ==> (|e.data.members| == |u.properties.value| &&
      forall i :: 0 <= i < |e.data.members| ==>
        e.data.members[i] == (u.properties.value[i].name, DataType(u.properties.value[i].propertyType)))
    ensures e.visibility == if u.visibility.Some? then FlagsOf(u.visibility.value) else AllStages
  {
    var data := if u.properties.Some? && u.uniformType != Sampler2D
      then CBufferData(seq(|u.properties.value|, i requires 0 <= i < |u.properties.value| =>
        (u.properties.value[i].name, DataType(u.properties.value[i].propertyType))))
      else Sampler2DData;
    ShaderUniform(u.name, data, FlagsOf(if u.visibility.Some? then u.visibility.value else NoVisibility))
  }

  predicate Registered(t: UniformType) {
    t == CBuffer || t == Sampler2D
  }

  /** registers_count: the uint32 counters of the two registered types. */
  datatype Counters = Counters(cbuffers: Uint32, samplers: Uint32)

  function Counter(c: Counters, t: UniformType): Uint32
    requires Registered(t)
  {
    if t == CBuffer then c.cbuffers else c.samplers
  }

  function Bump(c: Counters, t: UniformType): Counters
    requires Registered(t)
  {
    if t == CBuffer then c.(cbuffers := (c.cbuffers + 1) % U32) else c.(samplers := (c.samplers + 1) % U32)
  }

  /** unordered_map::insert: a name already present keeps its location. */
  function Insert(m: map<string, Uint32>, k: string, v: Uint32): map<string, Uint32> {
    if k in m then m else m[k := v]
  }

  /** The locations and counters after the first loop over the uniforms, or
      the exception of registers_count.at for an unregistered type. */
  function Scan(us: seq<UniformDefinition>): Result<(map<string, Uint32>, Counters)>
  {
    if |us| == 0 then Ok((map[], Counters(0, 0)))
    else
      var prev := Scan(us[..|us| - 1]);
      var u := us[|us| - 1];
      if prev.Err? then prev
      else if !Registered(u.uniformType) then Err(MissingKey)
      else
        var (locs, c) := prev.value;
        Ok((Insert(locs, u.name, Counter(c, u.uniformType)), Bump(c, u.uniformType)))
  }

  /** The number of uniforms of type t. */
  function CountOf(us: seq<UniformDefinition>, t: UniformType): nat {
    if |us| == 0 then 0
    else CountOf(us[..|us| - 1], t) + if us[|us| - 1].uniformType == t then 1 else 0
  }

  lemma CountOfAppend(us: seq<UniformDefinition>, u: UniformDefinition, t: UniformType)
    ensures CountOf(us + [u], t) == CountOf(us, t) + if u.uniformType == t then 1 else 0
  {
    assert (us + [u])[..|us|] == us;
  }

  lemma ScanAppend(us: seq<UniformDefinition>, u: UniformDefinition)
    ensures Scan(us + [u]) == if Scan(us).Err? then Scan(us)
      else if !Registered(u.uniformType) then Err(MissingKey)
      else Ok((Insert(Scan(us).value.0, u.name, Counter(Scan(us).value.1, u.uniformType)),
               Bump(Scan(us).value.1, u.uniformType)))
  {
    assert (us + [u])[..|us|] == us;
  }

  /** The first loop fails exactly when some uniform has a type other than
      cbuffer and sampler2D. */
  lemma {:induction false} ScanFailsIffUnregistered(us: seq<UniformDefinition>)
    ensures Scan(us).Err? <==> exists k :: 0 <= k < |us| && !Registered(us[k].uniformType)
    ensures Scan(us).Err? ==> Scan(us).message == MissingKey
  {
    if |us| > 0 {
      var init := us[..|us| - 1];
      ScanFailsIffUnregistered(init);
      if exists k :: 0 <= k < |init| && !Registered(init[k].uniformType) {
        var k :| 0 <= k < |init| && !Registered(init[k].uniformType);
        assert us[k] == init[k];
      }
      if exists k :: 0 <= k < |us| && !Registered(us[k].uniformType) {
        var k :| 0 <= k < |us| && !Registered(us[k].uniformType);
        if k < |init| {
          assert init[k] == us[k];
        }
      }
    }
  }

  /** Each counter holds the number of uniforms of its type, modulo 2^32. */
  lemma {:induction false} ScanCounts(us: seq<UniformDefinition>)
    requires Scan(us).Ok?
    ensures Scan(us).value.1 == Counters(CountOf(us, CBuffer) % U32, CountOf(us, Sampler2D) % U32)
  {
    if |us| > 0 {
      var n := |us| - 1;
      var init := us[..n];
      assert us == init + [us[n]];
      ScanAppend(init, us[n]);
      ScanCounts(init);
      CountOfAppend(init, us[n], CBuffer);
      CountOfAppend(init, us[n], Sampler2D);
      WrapSucc(CountOf(init, CBuffer));
      WrapSucc(CountOf(init, Sampler2D));
    }
  }

  lemma WrapSucc(x: nat)
    ensures (x % U32 + 1) % U32 == (x + 1) % U32
  {
  }

  /** A uniform's location is the number of uniforms of the same type before
      the first uniform with its name, modulo 2^32; later uniforms with the
      same name leave it as it is. Every name gets one. */
  lemma {:induction false} LocationsAreEarlierCounts(us: seq<UniformDefinition>, k: nat)
    requires Scan(us).Ok? && k < |us|
    requires forall j :: 0 <= j < k ==> us[j].name != us[k].name
    ensures us[k].name in Scan(us).value.0
    ensures Scan(us).value.0[us[k].name] == CountOf(us[..k], us[k].uniformType) % U32
  {
    var n := |us| - 1;
    var init := us[..n];
    assert us == init + [us[n]];
    ScanAppend(init, us[n]);
    if k < n {
      assert init[..k] == us[..k];
      LocationsAreEarlierCounts(init, k);
    } else {
      assert init == us[..k];
      ScanCounts(init);
      var locs := Scan(init).value.0;
      if us[k].name in locs {
        NamesInScan(init, us[k].name);
      }
    }
  }

  /** The names with a location are those of the uniforms. */
  lemma {:induction false} NamesInScan(us: seq<UniformDefinition>, name: string)
    requires Scan(us).Ok?
    ensures name in Scan(us).value.0 <==> exists j :: 0 <= j < |us| && us[j].name == name
  {
    if |us| > 0 {
      var n := |us| - 1;
      var init := us[..n];
      NamesInScan(init, name);
      if exists j :: 0 <= j < |init| && init[j].name == name {
        var j :| 0 <= j < |init| && init[j].name == name;
        assert us[j] == init[j];
      }
      if exists j :: 0 <= j < |us| && us[j].name == name {
        var j :| 0 <= j < |us| && us[j].name == name;
        if j < n {
          assert init[j] == us[j];
        }
      }
    }
  }

  /** The first for_each: one entry per uniform, and the locations. */
  method CollectUniforms(us: seq<UniformDefinition>) returns (r: Result<(seq<ShaderUniform>, map<string, Uint32>)>)
    ensures r.Ok? <==> Scan(us).Ok?
    ensures r.Err? ==> r.message == MissingKey
    ensures r.Ok? ==> (r.value.1 == Scan(us).value.0 &&
      |r.value.0| == |us| && forall i :: 0 <= i < |us| ==> r.value.0[i] == Entry(us[i]))
  {
    var entries: seq<ShaderUniform> := [];
    var locations: map<string, Uint32> := map[];
    var counters := Counters(0, 0);
    var i := 0;
    while i < |us|
      invariant 0 <= i <= |us|
      invariant Scan(us[..i]) == Ok((locations, counters))
      invariant |entries| == i && forall j :: 0 <= j < i ==> entries[j] == Entry(us[j])
    {
      var u := us[i];
      entries := entries + [Entry(u)];
      ScanAppend(us[..i], u);
      assert us[..i + 1] == us[..i] + [u];
      if !Registered(u.uniformType) {
        ScanStaysFailed(us, i + 1);
        return Err(MissingKey);
      }
      locations := Insert(locations, u.name, Counter(counters, u.uniformType));
      counters := Bump(counters, u.uniformType);
      i := i + 1;
    }
    assert us[..i] == us;
    r := Ok((entries, locations));
  }

  /** Once the scan has failed it stays failed. */
  lemma {:induction false} ScanStaysFailed(us: seq<UniformDefinition>, k: nat)
    requires k <= |us| && Scan(us[..k]).Err?
    ensures Scan(us) == Scan(us[..k])
    decreases |us| - k
  {
    if k < |us| {
      ScanAppend(us[..k], us[k]);
      assert us[..k + 1] == us[..k] + [us[k]];
      ScanStaysFailed(us, k + 1);
    } else {
      assert us[..k] == us;
    }
  }

  // ---------------------------------------------------------------------
  // Code generation

  /** std::format's decimal spelling of an unsigned number. */
  function Decimal(n: nat): (s: string)
    ensures |s| >= 1
    decreases n
  {
    if n < 10 then [Digit(n)] else Decimal(n / 10) + [Digit(n % 10)]
  }

  function Digit(d: nat): char
    requires d < 10
  {
    ('0' as int + d) as char
  }

  /** Reading a decimal string back. */
  function DecimalValue(s: string): nat {
    if |s| == 0 then 0 else 10 * DecimalValue(s[..|s| - 1]) + ((s[|s| - 1] as int - '0' as int) % 10)
  }

  /** The register number in the generated code reads back as the location,
      and it has no leading zero. */
  lemma {:induction false} DecimalRoundTrip(n: nat)
    ensures DecimalValue(Decimal(n)) == n
    ensures forall i :: 0 <= i < |Decimal(n)| ==> '0' <= Decimal(n)[i] <= '9'
    ensures Decimal(n)[0] == '0' ==> n == 0
    decreases n
  {
    if n >= 10 {
      DecimalRoundTrip(n / 10);
      var s := Decimal(n);
      assert s[..|s| - 1] == Decimal(n / 10);
    } else {
      assert Decimal(n)[..0] == [];
    }
  }

  /** One member of a generated struct: "T P : S; ". */
  function StructMember(p: StructProperty): string {
    DataString(p.propertyType) + " " + p.name + " : " + (if p.semantic.Some? then p.semantic.value else "") + "; "
  }

  function StructMembers(ps: seq<StructProperty>): string {
    if |ps| == 0 then "" else StructMembers(ps[..|ps| - 1]) + StructMember(ps[|ps| - 1])
  }

  lemma StructMembersStep(ps: seq<StructProperty>, i: nat)
    requires i < |ps|
    ensures StructMembers(ps[..i + 1]) == StructMembers(ps[..i]) + StructMember(ps[i])
  {
    assert ps[..i + 1][..i] == ps[..i];
  }

  lemma Concat(a: string, b: string, c: string)
    ensures a + b + c == a + (b + c)
  {
  }

  function StructHead(name: string): string {
    "struct" + " " + name + " { "
  }

  /** generate_struct_code: "struct N { " + the members + "};\n". */
  function StructCode(name: string, ps: seq<StructProperty>): string {
    StructHead(name) + StructMembers(ps) + "};\n"
  }

  method GenerateStructCode(name: string, ps: seq<StructProperty>) returns (code: string)
    ensures code == StructCode(name, ps)
  {
    code := StructHead(name);
    var i := 0;
    while i < |ps|
      invariant 0 <= i <= |ps|
      invariant code == StructHead(name) + StructMembers(ps[..i])
    {
      StructMembersStep(ps, i);
      Concat(StructHead(name), StructMembers(ps[..i]), StructMember(ps[i]));
      code := code + StructMember(ps[i]);
      i := i + 1;
    }
    assert ps[..i] == ps;
    code := code + "};\n";
  }

  /** One member of a generated cbuffer: "T P; ". */
  function BufferMember(p: StructProperty): string {
    DataString(p.propertyType) + " " + p.name + "; "
  }

  function BufferMembers(ps: seq<StructProperty>): string {
    if |ps| == 0 then "" else BufferMembers(ps[..|ps| - 1]) + BufferMember(ps[|ps| - 1])
  }

  lemma BufferMembersStep(ps: seq<StructProperty>, i: nat)
    requires i < |ps|
    ensures BufferMembers(ps[..i + 1]) == BufferMembers(ps[..i]) + BufferMember(ps[i])
  {
    assert ps[..i + 1][..i] == ps[..i];
  }

  function CBufferHead(name: string, location: Uint32): string {
    "cbuffer " + name + " : register(b" + Decimal(location) + ") { "
  }

  function SamplerCode(name: string, location: Uint32): string {
    "SamplerState " + name + "_sampler : register(s" + Decimal(location) + "); " +
    "Texture2D " + name + "_texture : register(t" + Decimal(location) + ");\n"
  }

  /** generate_uniform_code: a cbuffer needs its properties (optional::value
      throws without them); a sampler2D ignores them; any other type gives no
      code. */
  function UniformCode(name: string, t: UniformType, location: Uint32, props: Option<seq<StructProperty>>): (r: Result<string>)
    ensures r.Err? <==> t == CBuffer && props.None?
  {
    match t
    case CBuffer => if props.None? then Err(BadOptionalAccess) else Ok(CBufferHead(name, location) + BufferMembers(props.value) + "};\n")
    case Sampler2D => Ok(SamplerCode(name, location))
    case UnlistedUniformType(_) => Ok("")
  }

  /** The property loop of the cbuffer case. */
  method AppendBufferMembers(head: string, ps: seq<StructProperty>) returns (code: string)
    ensures code == head + BufferMembers(ps)
  {
    code := head;
    var i := 0;
    while i < |ps|
      invariant 0 <= i <= |ps|
      invariant code == head + BufferMembers(ps[..i])
    {
      BufferMembersStep(ps, i);
      Concat(head, BufferMembers(ps[..i]), BufferMember(ps[i]));
      code := code + BufferMember(ps[i]);
      i := i + 1;
    }
    assert ps[..i] == ps;
  }

  method GenerateUniformCode(name: string, t: UniformType, location: Uint32, props: Option<seq<StructProperty>>) returns (r: Result<string>)
    ensures r == UniformCode(name, t, location, props)
  {
    var code := "";
    match t {
      case CBuffer =>
        code := CBufferHead(name, location);
        if props.None? {
          return Err(BadOptionalAccess);
        }
        code := AppendBufferMembers(code, props.value);
        code := code + "};\n";
      case Sampler2D =>
        code := SamplerCode(name, location);
      case UnlistedUniformType(_) =>
    }
    r := Ok(code);
  }

  /** The stage structs: vertex and pixel shaders get their input and output
      structs, the other stages none. */
  function StageStructs(s: ShaderDefinition): string {
    match s.shaderType
    case Vertex => StructCode("vs_input", s.inputs) + StructCode("vs_output", s.outputs)
    case Pixel => StructCode("ps_input", s.inputs) + StructCode("ps_output", s.outputs)
    case _ => ""
  }

  /** A uniform without a visibility goes into every shader; one with a
      visibility only into shaders of that type. */
  predicate Visible(u: UniformDefinition, t: ShaderType) {
    u.visibility.None? || u.visibility.value == t
  }

  predicate Located(us: seq<UniformDefinition>, locs: map<string, Uint32>) {
    forall j :: 0 <= j < |us| ==> us[j].name in locs
  }

  /** The code of the uniforms visible to a shader of type t, in document
      order. */
  function UniformsCode(us: seq<UniformDefinition>, locs: map<string, Uint32>, t: ShaderType): Result<string>
    requires Located(us, locs)
  {
    if |us| == 0 then Ok("")
    else
      var prev := UniformsCode(us[..|us| - 1], locs, t);
      var u := us[|us| - 1];
      if prev.Err? then prev
      else if !Visible(u, t) then prev
      else
        var c := UniformCode(u.name, u.uniformType, locs[u.name], u.properties);
        if c.Err? then c else Ok(prev.value + c.value)
  }

  function Filter(us: seq<UniformDefinition>, t: ShaderType): (r: seq<UniformDefinition>)
    ensures forall j :: 0 <= j < |r| ==> Visible(r[j], t) && r[j] in us
  {
    if |us| == 0 then []
    else if Visible(us[|us| - 1], t) then Filter(us[..|us| - 1], t) + [us[|us| - 1]]
    else Filter(us[..|us| - 1], t)
  }

  /** Uniforms hidden from a stage contribute nothing to its code: taking
      only the visible ones first gives the same code. */
  lemma {:induction false} HiddenUniformsContributeNothing(us: seq<UniformDefinition>, locs: map<string, Uint32>, t: ShaderType)
    requires Located(us, locs)
    ensures Located(Filter(us, t), locs)
    ensures UniformsCode(Filter(us, t), locs, t) == UniformsCode(us, locs, t)
  {
    var f := Filter(us, t);
    forall j | 0 <= j < |f| ensures f[j].name in locs {
      var k :| 0 <= k < |us| && us[k] == f[j];
    }
    if |us| > 0 {
      var init := us[..|us| - 1];
      var u := us[|us| - 1];
      HiddenUniformsContributeNothing(init, locs, t);
      if Visible(u, t) {
        assert (Filter(init, t) + [u])[..|Filter(init, t)|] == Filter(init, t);
      }
    }
  }

  /** A shader's code, or the exception of a visible cbuffer without
      properties. */
  function ShaderCode(s: ShaderDefinition, us: seq<UniformDefinition>, locs: map<string, Uint32>): Result<ShaderData>
    requires Located(us, locs)
  {
    var uniforms := UniformsCode(us, locs, s.shaderType);
    if uniforms.Err? then Err(uniforms.message)
    else Ok(ShaderData(StageStructs(s) + uniforms.value + s.source, FlagsOf(s.shaderType)))
  }

  /** All shaders in document order, stopping at the first exception. */
  function Shaders(ss: seq<ShaderDefinition>, us: seq<UniformDefinition>, locs: map<string, Uint32>): (r: Result<seq<ShaderData>>)
    requires Located(us, locs)
    ensures r.Ok? ==> |r.value| == |ss| && forall i :: 0 <= i < |ss| ==> ShaderCode(ss[i], us, locs) == Ok(r.value[i])
    ensures r.Err? <==> exists i :: 0 <= i < |ss| && ShaderCode(ss[i], us, locs).Err?
  {
    if |ss| == 0 then Ok([])
    else
      var prev := Shaders(ss[..|ss| - 1], us, locs);
      if prev.Err? then prev
      else
        var s := ShaderCode(ss[|ss| - 1], us, locs);
        if s.Err? then Err(s.message) else Ok(prev.value + [s.value])
  }

  /** The inner loop of the second for_each. */
  method BuildShaderCode(s: ShaderDefinition, us: seq<UniformDefinition>, locs: map<string, Uint32>) returns (r: Result<ShaderData>)
    requires Located(us, locs)
    ensures r == ShaderCode(s, us, locs)
  {
    var code := "";
    match s.shaderType {
      case Vertex =>
        var a := GenerateStructCode("vs_input", s.inputs);
        var b := GenerateStructCode("vs_output", s.outputs);
        code := a + b;
      case Pixel =>
        var a := GenerateStructCode("ps_input", s.inputs);
        var b := GenerateStructCode("ps_output", s.outputs);
        code := a + b;
      case _ =>
    }
    assert code == StageStructs(s);
    var uniforms := "";
    var i := 0;
    while i < |us|
      invariant 0 <= i <= |us|
      invariant UniformsCode(us[..i], locs, s.shaderType) == Ok(uniforms)
    {
      var u := us[i];
      assert us[..i + 1][..i] == us[..i];
      if Visible(u, s.shaderType) {
        var c := GenerateUniformCode(u.name, u.uniformType, locs[u.name], u.properties);
        if c.Err? {
          assert UniformsCode(us[..i + 1], locs, s.shaderType) == c;
          UniformsStayFailed(us, locs, s.shaderType, i + 1);
          return Err(c.message);
        }
        uniforms := uniforms + c.value;
      }
      i := i + 1;
    }
    assert us[..i] == us;
    code := code + uniforms + s.source;
    r := Ok(ShaderData(code, FlagsOf(s.shaderType)));
  }

  lemma {:induction false} UniformsStayFailed(us: seq<UniformDefinition>, locs: map<string, Uint32>, t: ShaderType, k: nat)
    requires Located(us, locs) && k <= |us|
    requires UniformsCode(us[..k], locs, t).Err?
    ensures UniformsCode(us, locs, t) == UniformsCode(us[..k], locs, t)
    decreases |us| - k
  {
    if k < |us| {
      assert us[..k + 1][..k] == us[..k];
      UniformsStayFailed(us, locs, t, k + 1);
    } else {
      assert us[..k] == us;
    }
  }

  /** The constructor on values. */
  function Build(doc: TechniqueDefinition): (r: Result<TechniqueData>)
    ensures r.Err? <==> Scan(doc.uniforms).Err? || ShaderFails(doc)
    ensures r.Ok? ==>
      r.value.name == doc.name && |r.value.uniforms| == |doc.uniforms| &&
      (forall i :: 0 <= i < |doc.uniforms| ==> r.value.uniforms[i] == Entry(doc.uniforms[i]))
    ensures r.Ok? ==> ShadersBuilt(doc, r.value.shaders)
  {
    var scan := Scan(doc.uniforms);
    if scan.Err? then Err(scan.message)
    else
      var locs := scan.value.0;
      LocatedByScan(doc.uniforms);
      var shaders := Shaders(doc.shaders, doc.uniforms, locs);
      if shaders.Err? then Err(shaders.message)
      else Ok(TechniqueData(doc.name, seq(|doc.uniforms|, i requires 0 <= i < |doc.uniforms| => Entry(doc.uniforms[i])), shaders.value))
  }

  /** Once the uniforms are laid out, some shader of `doc` raises. */
  ghost predicate ShaderFails(doc: TechniqueDefinition) {
    Scan(doc.uniforms).Ok? &&
    (LocatedByScan(doc.uniforms);
     exists i :: 0 <= i < |doc.shaders| && ShaderCode(doc.shaders[i], doc.uniforms, Scan(doc.uniforms).value.0).Err?)
  }

  /** `shaders` holds the code of every shader of `doc`, in document order. */
  ghost predicate ShadersBuilt(doc: TechniqueDefinition, shaders: seq<ShaderData>) {
    Scan(doc.uniforms).Ok? &&
    (LocatedByScan(doc.uniforms);
     |shaders| == |doc.shaders| &&
     forall i :: 0 <= i < |doc.shaders| ==> ShaderCode(doc.shaders[i], doc.uniforms, Scan(doc.uniforms).value.0) == Ok(shaders[i]))
  }

  lemma LocatedByScan(us: seq<UniformDefinition>)
    requires Scan(us).Ok?
    ensures Located(us, Scan(us).value.0)
  {
    forall j | 0 <= j < |us| ensures us[j].name in Scan(us).value.0 {
      NamesInScan(us, us[j].name);
    }
  }

  /** The second for_each: one shader after the other. */
  method BuildShaders(ss: seq<ShaderDefinition>, us: seq<UniformDefinition>, locs: map<string, Uint32>) returns (r: Result<seq<ShaderData>>)
    requires Located(us, locs)
    ensures r == Shaders(ss, us, locs)
  {
    var shaders: seq<ShaderData> := [];
    var i := 0;
    while i < |ss|
      invariant 0 <= i <= |ss|
      invariant Shaders(ss[..i], us, locs) == Ok(shaders)
    {
      assert ss[..i + 1][..i] == ss[..i];
      var s := BuildShaderCode(ss[i], us, locs);
      if s.Err? {
        assert Shaders(ss[..i + 1], us, locs) == Err(s.message);
        ShadersStayFailed(ss, us, locs, i + 1);
        return Err(s.message);
      }
      shaders := shaders + [s.value];
      i := i + 1;
    }
    assert ss[..i] == ss;
    r := Ok(shaders);
  }

  /** Technique::Technique: the uniform loop, then the shader loop. */
  method Construct(doc: TechniqueDefinition) returns (r: Result<TechniqueData>)
    ensures r == Build(doc)
  {
    var collected := CollectUniforms(doc.uniforms);
    if collected.Err? {
      ScanFailsIffUnregistered(doc.uniforms);
      return Err(collected.message);
    }
    var (entries, locs) := collected.value;
    LocatedByScan(doc.uniforms);
    var shaders := BuildShaders(doc.shaders, doc.uniforms, locs);
    if shaders.Err? {
      return Err(shaders.message);
    }
    assert entries == seq(|doc.uniforms|, k requires 0 <= k < |doc.uniforms| => Entry(doc.uniforms[k]));
    r := Ok(TechniqueData(doc.name, entries, shaders.value));
  }

  lemma {:induction false} ShadersStayFailed(ss: seq<ShaderDefinition>, us: seq<UniformDefinition>, locs: map<string, Uint32>, k: nat)
    requires Located(us, locs) && k <= |ss|
    requires Shaders(ss[..k], us, locs).Err?
    ensures Shaders(ss, us, locs) == Shaders(ss[..k], us, locs)
    decreases |ss| - k
  {
    if k < |ss| {
      assert ss[..k + 1][..k] == ss[..k];
      ShadersStayFailed(ss, us, locs, k + 1);
    } else {
      assert ss[..k] == ss;
    }
  }

  /** Construction fails only through an unregistered uniform type, which
      gives the missing-key error, or, with every type registered, through a
      cbuffer without properties, which gives the bad optional access. */
  lemma BuildFailsOnlyForTheseReasons(doc: TechniqueDefinition)
    requires Build(doc).Err?
    ensures Build(doc).message == MissingKey || Build(doc).message == BadOptionalAccess
    ensures Build(doc).message == MissingKey <==>
      exists k :: 0 <= k < |doc.uniforms| && !Registered(doc.uniforms[k].uniformType)
    ensures Build(doc).message == BadOptionalAccess ==>
      exists k :: 0 <= k < |doc.uniforms| && doc.uniforms[k].uniformType == CBuffer && doc.uniforms[k].properties.None?
  {
    ScanFailsIffUnregistered(doc.uniforms);
    if Scan(doc.uniforms).Ok? {
      LocatedByScan(doc.uniforms);
      ShaderErrors(doc.shaders, doc.uniforms, Scan(doc.uniforms).value.0);
      if !exists k :: 0 <= k < |doc.uniforms| && doc.uniforms[k].uniformType == CBuffer && doc.uniforms[k].properties.None? {
        WellTypedDocumentsBuild(doc);
        assert false;
      }
    }
  }

  lemma {:induction false} ShaderErrors(ss: seq<ShaderDefinition>, us: seq<UniformDefinition>, locs: map<string, Uint32>)
    requires Located(us, locs)
    ensures Shaders(ss, us, locs).Err? ==> Shaders(ss, us, locs).message == BadOptionalAccess
  {
    if |ss| > 0 {
      ShaderErrors(ss[..|ss| - 1], us, locs);
      UniformErrors(us, locs, ss[|ss| - 1].shaderType);
    }
  }

  lemma {:induction false} UniformErrors(us: seq<UniformDefinition>, locs: map<string, Uint32>, t: ShaderType)
    requires Located(us, locs)
    ensures UniformsCode(us, locs, t).Err? ==> UniformsCode(us, locs, t).message == BadOptionalAccess
  {
    if |us| > 0 {
      UniformErrors(us[..|us| - 1], locs, t);
    }
  }

  /** A technique whose uniforms are all cbuffers with properties or
      sampler2Ds is always built. */
  lemma WellTypedDocumentsBuild(doc: TechniqueDefinition)
    requires forall k :: 0 <= k < |doc.uniforms| ==>
      doc.uniforms[k].uniformType == Sampler2D || (doc.uniforms[k].uniformType == CBuffer && doc.uniforms[k].properties.Some?)
    ensures Build(doc).Ok?
  {
    ScanFailsIffUnregistered(doc.uniforms);
    LocatedByScan(doc.uniforms);
    var locs := Scan(doc.uniforms).value.0;
    ShadersSucceed(doc.shaders, doc.uniforms, locs);
  }

  lemma {:induction false} ShadersSucceed(ss: seq<ShaderDefinition>, us: seq<UniformDefinition>, locs: map<string, Uint32>)
    requires Located(us, locs)
    requires forall k :: 0 <= k < |us| ==> us[k].uniformType == Sampler2D || (us[k].uniformType == CBuffer && us[k].properties.Some?)
    ensures Shaders(ss, us, locs).Ok?
  {
    if |ss| > 0 {
      ShadersSucceed(ss[..|ss| - 1], us, locs);
      UniformsSucceed(us, locs, ss[|ss| - 1].shaderType);
    }
  }

  lemma {:induction false} UniformsSucceed(us: seq<UniformDefinition>, locs: map<string, Uint32>, t: ShaderType)
    requires Located(us, locs)
    requires forall k :: 0 <= k < |us| ==> us[k].uniformType == Sampler2D || (us[k].uniformType == CBuffer && us[k].properties.Some?)
    ensures UniformsCode(us, locs, t).Ok?
  {
    if |us| > 0 {
      UniformsSucceed(us[..|us| - 1], locs, t);
    }
  }

  // ---------------------------------------------------------------------
  // Loading

  datatype JsonError = NoJsonError | CouldNotOpen | OtherJsonError(code: nat)

  datatype TechniqueError = IO | ParseError

  datatype Loaded =
    | Loaded(technique: TechniqueData)
    | LoadFailed(errc: TechniqueError, message: string)
    | Thrown(exception: string)

  /** load_from_file, given json5's result and the document it read: a file
      that cannot be opened is an IO error, any other json5 error a parse
      error; a document that parses is built, and the constructor's
      exceptions propagate. */
  function LoadFromFile(result: JsonError, doc: TechniqueDefinition): (r: Loaded)
    ensures r.LoadFailed? && r.errc == IO <==> result == CouldNotOpen
    ensures r.LoadFailed? && r.errc == ParseError <==> result.OtherJsonError?
    ensures r.LoadFailed? <==> result != NoJsonError
    ensures result == NoJsonError ==> (r.Loaded? <==> Build(doc).Ok?)
  {
    if result == CouldNotOpen then LoadFailed(IO, "Could not open a file")
    else if result != NoJsonError then LoadFailed(ParseError, "Parse file error")
    else
      var t := Build(doc);
      if t.Ok? then Loaded(t.value) else Thrown(t.message)
  }
}
