/** The value types of lgfx/types.h that carry behaviour: the single-bit
    buffer and texture flags, the render-pass descriptions with their
    defaults, and their operator<, which compares the fields as a std::tie
    tuple, that is lexicographically on the enumerators' ordinal values. */
module LgfxTypes {

  /** Format, by ordinal: kUnknown is 0, then the 39 formats in order. */
  const FormatCount: nat := 40
  type Format = x: nat | x < FormatCount
  const Unknown: Format := 0

  datatype LoadOp = Load | Clear | LoadDontCare
  datatype StoreOp = Store | StoreDontCare

  function LoadOrdinal(op: LoadOp): nat {
    match op
    case Load => 0
    case Clear => 1
    case LoadDontCare => 2
  }

  function StoreOrdinal(op: StoreOp): nat {
    match op
    case Store => 0
    case StoreDontCare => 1
  }

  lemma OrdinalsIdentify(a: LoadOp, b: LoadOp, c: StoreOp, d: StoreOp)
    ensures LoadOrdinal(a) == LoadOrdinal(b) ==> a == b
    ensures StoreOrdinal(c) == StoreOrdinal(d) ==> c == d
  {
  }

  // ---------------------------------------------------------------------
  // Lexicographic order on tuples of ordinals

  /** std::tuple's operator< on tuples of equal arity. */
  function LexLess(a: seq<nat>, b: seq<nat>): bool
    requires |a| == |b|
  {
    |a| > 0 && (a[0] < b[0] || (a[0] == b[0] && LexLess(a[1..], b[1..])))
  }

  lemma {:induction false} LexIrreflexive(a: seq<nat>)
    ensures !LexLess(a, a)
  {
    if |a| > 0 {
      LexIrreflexive(a[1..]);
    }
  }

  lemma {:induction false} LexTransitive(a: seq<nat>, b: seq<nat>, c: seq<nat>)
    requires |a| == |b| == |c|
    requires LexLess(a, b) && LexLess(b, c)
    ensures LexLess(a, c)
  {
    if a[0] == b[0] && b[0] == c[0] {
      LexTransitive(a[1..], b[1..], c[1..]);
    }
  }

  /** Distinct tuples are always ordered one way or the other, so the tuple
      order is total and equivalence (neither is less) is equality. */
  lemma {:induction false} LexTotal(a: seq<nat>, b: seq<nat>)
    requires |a| == |b|
    ensures a == b || LexLess(a, b) || LexLess(b, a)
  {
    if |a| > 0 && a[0] == b[0] {
      LexTotal(a[1..], b[1..]);
      if a[1..] == b[1..] {
        assert a == [a[0]] + a[1..] && b == [b[0]] + b[1..];
      }
    }
  }

  // ---------------------------------------------------------------------
  // Render-pass descriptions

  datatype RenderPassColorDesc = RenderPassColorDesc(format: Format, loadOp: LoadOp, storeOp: StoreOp)

  datatype RenderPassDepthStencilDesc = RenderPassDepthStencilDesc(
    format: Format, depthLoadOp: LoadOp, depthStoreOp: StoreOp,
    stencilLoadOp: LoadOp, stencilStoreOp: StoreOp)

  /** The default member initialisers: kUnknown and kDontCare throughout. */
  const DefaultColorDesc: RenderPassColorDesc := RenderPassColorDesc(Unknown, LoadDontCare, StoreDontCare)
  const DefaultDepthStencilDesc: RenderPassDepthStencilDesc :=
    RenderPassDepthStencilDesc(Unknown, LoadDontCare, StoreDontCare, LoadDontCare, StoreDontCare)

  function ColorKey(d: RenderPassColorDesc): (k: seq<nat>)
    ensures |k| == 3
  {
    [d.format, LoadOrdinal(d.loadOp), StoreOrdinal(d.storeOp)]
  }

  function DepthStencilKey(d: RenderPassDepthStencilDesc): (k: seq<nat>)
    ensures |k| == 5
  {
    [d.format, LoadOrdinal(d.depthLoadOp), StoreOrdinal(d.depthStoreOp),
     LoadOrdinal(d.stencilLoadOp), StoreOrdinal(d.stencilStoreOp)]
  }

  /** RenderPassColorDesc::operator<: (format, load_op, store_op) compared
      lexicographically. */
  predicate ColorLess(a: RenderPassColorDesc, b: RenderPassColorDesc) {
    LexLess(ColorKey(a), ColorKey(b))
  }

  /** RenderPassDepthStencilDesc::operator<: (format, depth_load_op,
      depth_store_op, stencil_load_op, stencil_store_op) compared
      lexicographically. */
  predicate DepthStencilLess(a: RenderPassDepthStencilDesc, b: RenderPassDepthStencilDesc) {
    LexLess(DepthStencilKey(a), DepthStencilKey(b))
  }

  lemma ColorKeyInjective(a: RenderPassColorDesc, b: RenderPassColorDesc)
    requires ColorKey(a) == ColorKey(b)
    ensures a == b
  {
    assert ColorKey(a)[1] == ColorKey(b)[1] && ColorKey(a)[2] == ColorKey(b)[2];
    OrdinalsIdentify(a.loadOp, b.loadOp, a.storeOp, b.storeOp);
  }

  lemma DepthStencilKeyInjective(a: RenderPassDepthStencilDesc, b: RenderPassDepthStencilDesc)
    requires DepthStencilKey(a) == DepthStencilKey(b)
    ensures a == b
  {
    var ka, kb := DepthStencilKey(a), DepthStencilKey(b);
    assert ka[1] == kb[1] && ka[2] == kb[2] && ka[3] == kb[3] && ka[4] == kb[4];
    OrdinalsIdentify(a.depthLoadOp, b.depthLoadOp, a.depthStoreOp, b.depthStoreOp);
    OrdinalsIdentify(a.stencilLoadOp, b.stencilLoadOp, a.stencilStoreOp, b.stencilStoreOp);
  }

  /** The colour order is a strict total order, hence a strict weak order:
      irreflexive, transitive, and any two different descriptions are
      ordered. */
  lemma ColorLessIsStrictTotalOrder(a: RenderPassColorDesc, b: RenderPassColorDesc, c: RenderPassColorDesc)
    ensures !ColorLess(a, a)
    ensures ColorLess(a, b) && ColorLess(b, c) ==> ColorLess(a, c)
    ensures a == b || ColorLess(a, b) || ColorLess(b, a)
  {
    LexIrreflexive(ColorKey(a));
    if ColorLess(a, b) && ColorLess(b, c) {
      LexTransitive(ColorKey(a), ColorKey(b), ColorKey(c));
    }
    LexTotal(ColorKey(a), ColorKey(b));
    if ColorKey(a) == ColorKey(b) {
      ColorKeyInjective(a, b);
    }
  }

  /** The same for depth-stencil descriptions. */
  lemma DepthStencilLessIsStrictTotalOrder(a: RenderPassDepthStencilDesc, b: RenderPassDepthStencilDesc, c: RenderPassDepthStencilDesc)
    ensures !DepthStencilLess(a, a)
    ensures DepthStencilLess(a, b) && DepthStencilLess(b, c) ==> DepthStencilLess(a, c)
    ensures a == b || DepthStencilLess(a, b) || DepthStencilLess(b, a)
  {
    LexIrreflexive(DepthStencilKey(a));
    if DepthStencilLess(a, b) && DepthStencilLess(b, c) {
      LexTransitive(DepthStencilKey(a), DepthStencilKey(b), DepthStencilKey(c));
    }
    LexTotal(DepthStencilKey(a), DepthStencilKey(b));
    if DepthStencilKey(a) == DepthStencilKey(b) {
      DepthStencilKeyInjective(a, b);
    }
  }

  /** The format decides first: a smaller format is less whatever the ops. */
  lemma FormatDecidesFirst(a: RenderPassColorDesc, b: RenderPassColorDesc)
    requires a.format < b.format
    ensures ColorLess(a, b) && !ColorLess(b, a)
  {
  }

  // ---------------------------------------------------------------------
  // Flags

  datatype BufferFlag = BufferUnorderedAccess | ConstantBuffer | IndexBuffer | VertexBuffer | CopyDest | CopySource
  datatype TextureFlag = RenderTarget | DepthStencil | ShaderResource | TextureUnorderedAccess

  /** BufferFlags: 1 << 0 .. 1 << 5 in declaration order. */
  function BufferBit(f: BufferFlag): bv32 {
    match f
    case BufferUnorderedAccess => 1 << 0
    case ConstantBuffer => 1 << 1
    case IndexBuffer => 1 << 2
    case VertexBuffer => 1 << 3
    case CopyDest => 1 << 4
    case CopySource => 1 << 5
  }

  /** TextureFlags: 1 << 0 .. 1 << 3 in declaration order. */
  function TextureBit(f: TextureFlag): bv32 {
    match f
    case RenderTarget => 1 << 0
    case DepthStencil => 1 << 1
    case ShaderResource => 1 << 2
    case TextureUnorderedAccess => 1 << 3
  }

  predicate SingleBit(x: bv32) {
    x != 0 && x & (x - 1) == 0
  }

  /** Each flag is one bit, and different flags share no bit, so the flags
      of a combination can be told apart. */
  lemma FlagsAreDistinctBits(f: BufferFlag, g: BufferFlag, t: TextureFlag, u: TextureFlag)
    ensures SingleBit(BufferBit(f)) && SingleBit(TextureBit(t))
    ensures f != g ==> BufferBit(f) & BufferBit(g) == 0
    ensures t != u ==> TextureBit(t) & TextureBit(u) == 0
  {
  }
}
