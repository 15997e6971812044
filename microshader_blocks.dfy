/** A field block as a shader author writes it parses back to its field: the
    searches of MicroShaders.Step land on the block's own lines. */
module MicroShaderBlocks {
  import opened Wrappers
  import opened MicroShaders


  predicate Plain(s: string, c: char) {
    forall i :: 0 <= i < |s| ==> s[i] != c
  }

  predicate Writable(f: Field) {
    Plain(f.name, '"') && Plain(f.name, '\n') && Plain(f.description, '"') && Plain(f.description, '\n') &&
    Plain(f.data, '\n')
  }

  /** The text of one field block, as a shader author writes it, built from
      the back: the marker line, the name line, the description line and the
      data line. */
  function DataTail(f: Field): string {
    f.data + "\n"
  }

  function DescriptionTail(f: Field): string {
    f.description + "\"\n" + DataTail(f)
  }

  function NameTail(f: Field): string {
    f.name + "\"\n" + DescriptionTag + "\"" + DescriptionTail(f)
  }

  function Block(f: Field): string {
    Marker + "\n" + NameTag + "\"" + NameTail(f)
  }

  lemma FixedText()
    ensures |Marker| == 18 && |NameTag| == 9 && |DescriptionTag| == 16
    ensures Plain(Marker, '\n') && Plain(NameTag, '"') && Plain(DescriptionTag, '"')
  {
  }

  /** TaggedValue reads a well-placed tag line: the next newline at nl, the
      tag right after it, then a quote, then the value up to a quote. */
  lemma TaggedValueReads(sd: string, tag: string, from: nat, nl: nat, v: string)
    requires |tag| > 0 && Plain(tag, '"') && Plain(v, '"')
    requires from <= nl && nl + |tag| + |v| + 3 <= |sd|
    requires sd[nl] == '\n' && forall i :: from <= i < nl ==> sd[i] != '\n'
    requires sd[nl + 1..nl + 1 + |tag|] == tag && sd[nl + 1 + |tag|] == '"'
    requires sd[nl + 2 + |tag|..nl + 2 + |tag| + |v|] == v && sd[nl + 2 + |tag| + |v|] == '"'
    ensures TaggedValue(sd, tag, from) == Some((v, nl + 2 + |tag|))
  {
    FindCharIsFirst(sd, '\n', from, nl);
    TagThenQuote(sd, nl + 1, tag);
    Quoted(sd, nl + 1 + |tag|, v);
  }

  /** The tag at q, followed by a quote. */
  lemma TagThenQuote(sd: string, q: nat, tag: string)
    requires |tag| > 0 && Plain(tag, '"') && q + |tag| < |sd|
    requires sd[q..q + |tag|] == tag && sd[q + |tag|] == '"'
    ensures Find(sd, tag, q) == Some(q) && FindChar(sd, '"', q) == Some(q + |tag|)
  {
    assert MatchAt(sd, tag, q);
    FindIsFirstMatch(sd, tag, q, q);
    PlainSlice(sd, q, tag, '"');
    FindCharIsFirst(sd, '"', q, q + |tag|);
  }

  /** A value between the quote at p and the next quote. */
  lemma Quoted(sd: string, p: nat, v: string)
    requires Plain(v, '"') && p + |v| + 1 < |sd|
    requires sd[p + 1..p + 1 + |v|] == v && sd[p + 1 + |v|] == '"'
    ensures FindChar(sd, '"', p + 1) == Some(p + 1 + |v|)
  {
    PlainSlice(sd, p + 1, v, '"');
    FindCharIsFirst(sd, '"', p + 1, p + 1 + |v|);
  }

  /** A piece placed at `start` without the character c leaves c out of
      those positions. */
  lemma PlainSlice(sd: string, start: nat, piece: string, c: char)
    requires start + |piece| <= |sd| && sd[start..start + |piece|] == piece && Plain(piece, c)
    ensures forall i :: start <= i < start + |piece| ==> sd[i] != c
  {
    forall i | start <= i < start + |piece| ensures sd[i] != c {
      assert sd[start..start + |piece|][i - start] == sd[i];
    }
  }

  /** Where the pieces of a block sit in a text sd. */
  predicate Layout(sd: string, f: Field) {
    var n := |f.name|;
    var d := |f.description|;
    |sd| == 51 + n + d + |f.data| &&
    sd[..18] == Marker && sd[18] == '\n' && sd[19..28] == NameTag && sd[28] == '"' &&
    sd[29..29 + n] == f.name && sd[29 + n] == '"' && sd[30 + n] == '\n' &&
    sd[31 + n..47 + n] == DescriptionTag && sd[47 + n] == '"' &&
    sd[48 + n..48 + n + d] == f.description && sd[48 + n + d] == '"' && sd[49 + n + d] == '\n' &&
    sd[50 + n + d..|sd| - 1] == f.data && sd[|sd| - 1] == '\n'
  }

  /** A piece followed by one character and the rest. */
  lemma Split(p: string, c: char, rest: string)
    ensures var s := p + [c] + rest;
      |s| == |p| + 1 + |rest| && s[..|p|] == p && s[|p|] == c && s[|p| + 1..] == rest
  {
  }

  lemma DescriptionTailLayout(f: Field)
    ensures var dt := DescriptionTail(f); var d := |f.description|;
      |dt| == d + 2 + |f.data| + 1 &&
      dt[..d] == f.description && dt[d] == '"' && dt[d + 1] == '\n' && dt[d + 2..] == DataTail(f)
  {
    var d := |f.description|;
    var dt := DescriptionTail(f);
    Split(f.description, '"', "\n" + DataTail(f));
    assert dt == f.description + ['"'] + ("\n" + DataTail(f));
    assert dt[d + 1..] == "\n" + DataTail(f);
  }

  lemma NameTailLayout(f: Field)
    ensures var nt := NameTail(f); var n := |f.name|;
      |nt| == n + 19 + |DescriptionTail(f)| &&
      nt[..n] == f.name && nt[n] == '"' && nt[n + 1] == '\n' &&
      nt[n + 2..n + 18] == DescriptionTag && nt[n + 18] == '"' && nt[n + 19..] == DescriptionTail(f)
  {
    var n := |f.name|;
    var nt := NameTail(f);
    var dt := DescriptionTail(f);
    FixedText();
    Split(f.name, '"', "\n" + DescriptionTag + "\"" + dt);
    assert nt == f.name + ['"'] + ("\n" + DescriptionTag + "\"" + dt);
    var rest := nt[n + 1..];
    assert rest == "\n" + DescriptionTag + "\"" + dt;
    Split(DescriptionTag, '"', dt);
    assert rest[1..] == DescriptionTag + ['"'] + dt;
  }

  lemma BlockHeadLayout(f: Field)
    ensures var b := Block(f);
      |b| == 29 + |NameTail(f)| &&
      b[..18] == Marker && b[18] == '\n' && b[19..28] == NameTag && b[28] == '"' && b[29..] == NameTail(f)
  {
    FixedText();
    Around(Marker, '\n', NameTag, '"', NameTail(f));
  }

  /** A piece, a character, a second piece, a second character and the rest. */
  lemma Around(p: string, c: char, q: string, e: char, rest: string)
    ensures var s := p + [c] + q + [e] + rest;
      |s| == |p| + |q| + 2 + |rest| && s[..|p|] == p && s[|p|] == c &&
      s[|p| + 1..|p| + 1 + |q|] == q && s[|p| + 1 + |q|] == e && s[|p| + 2 + |q|..] == rest
  {
    var s := p + [c] + q + [e] + rest;
    var s1 := p + [c] + q;
    Split(s1, e, rest);
    Split(p, c, q);
    assert s[..|p|] == s1[..|p|];
    assert s[|p| + 1..|p| + 1 + |q|] == s1[|p| + 1..];
  }

  lemma BlockLayout(f: Field)
    ensures Layout(Block(f), f)
  {
    BlockHeadLayout(f);
    NameTailLayout(f);
    DescriptionTailLayout(f);
    BlockPieces(Block(f), NameTail(f), DescriptionTail(f), f);
  }

  /** The slices of Layout from the tails' slices. */
  lemma BlockPieces(b: string, nt: string, dt: string, f: Field)
    requires |f.name| + 19 <= |nt| && |b| == 29 + |nt|
    requires b[..18] == Marker && b[18] == '\n' && b[19..28] == NameTag && b[28] == '"' && b[29..] == nt
    requires var n := |f.name|;
      nt[..n] == f.name && nt[n] == '"' && nt[n + 1] == '\n' &&
      nt[n + 2..n + 18] == DescriptionTag && nt[n + 18] == '"' && nt[n + 19..] == dt
    requires var d := |f.description|;
      |dt| == d + 3 + |f.data| &&
      dt[..d] == f.description && dt[d] == '"' && dt[d + 1] == '\n' && dt[d + 2..] == f.data + "\n"
    ensures Layout(b, f)
  {
    var n := |f.name|;
    var d := |f.description|;
    assert b[29..29 + n] == nt[..n];
    assert b[31 + n..47 + n] == nt[n + 2..n + 18];
    assert b[48 + n..48 + n + d] == dt[..d];
    assert b[50 + n + d..|b| - 1] == (f.data + "\n")[..|f.data|];
  }

  /** The name line of a block: the first newline ends the marker, and the
      name tag, the quoted name and the end of its line follow. */
  lemma NameLineReads(sd: string, f: Field)
    requires Writable(f) && Layout(sd, f)
    ensures TaggedValue(sd, NameTag, 0) == Some((f.name, 29))
  {
    FixedText();
    assert sd[0..18] == sd[..18];
    PlainSlice(sd, 0, Marker, '\n');
    TaggedValueReads(sd, NameTag, 0, 18, f.name);
  }

  /** The description line of a block, read from just past the name's
      opening quote. */
  lemma DescriptionLineReads(sd: string, f: Field, b: nat)
    requires Writable(f) && Layout(sd, f) && b == 48 + |f.name|
    ensures TaggedValue(sd, DescriptionTag, 29) == Some((f.description, b))
  {
    var n := |f.name|;
    FixedText();
    PlainSlice(sd, 29, f.name, '\n');
    TaggedValueReads(sd, DescriptionTag, 29, 30 + n, f.description);
  }

  /** The end of a block's description line is the first newline after the
      description's opening quote. */
  lemma DescriptionLineEnds(sd: string, f: Field, b: nat, e: nat)
    requires Writable(f) && Layout(sd, f) && b == 48 + |f.name| && e == b + 1 + |f.description|
    ensures FindChar(sd, '\n', b) == Some(e)
  {
    PlainSlice(sd, b, f.description, '\n');
    assert sd[e - 1] == '"';
    FindCharIsFirst(sd, '\n', b, e);
  }

  /** A piece without newlines at `start`, with a newline right after it: the
      first newline from `start` on is that one. */
  lemma LineEnds(sd: string, start: nat, piece: string)
    requires Plain(piece, '\n') && start + |piece| < |sd|
    requires sd[start..start + |piece|] == piece && sd[start + |piece|] == '\n'
    ensures FindChar(sd, '\n', start) == Some(start + |piece|)
  {
    PlainSlice(sd, start, piece, '\n');
    FindCharIsFirst(sd, '\n', start, start + |piece|);
  }

  /** The data line of a block runs from just after the newline at e to the
      block's last newline. */
  lemma DataLineEnds(sd: string, f: Field, e: nat, g: nat)
    requires Writable(f) && Layout(sd, f) && e == 49 + |f.name| + |f.description| && g == |sd| - 1
    ensures FindChar(sd, '\n', e + 1) == Some(g) && sd[e + 1..g] == f.data
  {
    assert |sd| - 1 == e + 1 + |f.data|;
    assert sd[e + 1..e + 1 + |f.data|] == f.data;
    LineEnds(sd, e + 1, f.data);
  }

  lemma StepAfterNameLine(sd: string, m: nat, name: string, a: nat)
    requires TaggedValue(sd, NameTag, m) == Some((name, a))
    ensures Step(sd, m) == StepFromName(sd, name, a)
  {
  }

  lemma StepAfterDescriptionLine(sd: string, name: string, a: nat, description: string, b: nat)
    requires TaggedValue(sd, DescriptionTag, a) == Some((description, b))
    ensures StepFromName(sd, name, a) == StepFromDescription(sd, name, description, b)
  {
  }

  lemma StepAfterLineEnds(sd: string, name: string, description: string, b: nat, e: nat, g: nat)
    requires FindChar(sd, '\n', b) == Some(e) && FindChar(sd, '\n', e + 1) == Some(g)
    ensures StepFromDescription(sd, name, description, b) == Some((Field(name, description, sd[e + 1..g]), e + 1))
  {
  }

  /** Step from the values of its four searches. */
  lemma StepFromLines(sd: string, m: nat, f: Field, a: nat, b: nat, e: nat, g: nat)
    requires TaggedValue(sd, NameTag, m) == Some((f.name, a))
    requires TaggedValue(sd, DescriptionTag, a) == Some((f.description, b))
    requires FindChar(sd, '\n', b) == Some(e) && FindChar(sd, '\n', e + 1) == Some(g)
    requires sd[e + 1..g] == f.data
    ensures Step(sd, m) == Some((f, e + 1))
  {
    StepAfterNameLine(sd, m, f.name, a);
    StepAfterDescriptionLine(sd, f.name, a, f.description, b);
    StepAfterLineEnds(sd, f.name, f.description, b, e, g);
  }

  /** The marker opens a block. */
  lemma LayoutMarker(sd: string, f: Field)
    requires Layout(sd, f)
    ensures Find(sd, Marker, 0) == Some(0)
  {
    FixedText();
    FindIsFirstMatch(sd, Marker, 0, 0);
  }

  /** One step over a text laid out as a block yields its field and continues
      at the start of its data line. */
  lemma StepReadsLayout(sd: string, f: Field)
    requires Writable(f) && Layout(sd, f)
    ensures Step(sd, 0) == Some((f, 50 + |f.name| + |f.description|))
  {
    var b := 48 + |f.name|;
    var e := b + 1 + |f.description|;
    var g := |sd| - 1;
    NameLineReads(sd, f);
    DescriptionLineReads(sd, f, b);
    DescriptionLineEnds(sd, f, b, e);
    DataLineEnds(sd, f, e, g);
    StepFromLines(sd, 0, f, 29, b, e, g);
  }

  /** FieldsFrom when one step is followed by no further marker. */
  lemma OneField(sd: string, o: nat, m: nat, f: Field, next: nat)
    requires Find(sd, Marker, o) == Some(m) && Step(sd, m) == Some((f, next))
    requires Find(sd, Marker, next).None?
    ensures FieldsFrom(sd, o) == Some([f])
  {
    FieldsFromUnfold(sd, o);
    FieldsFromUnfold(sd, next);
    assert [f] + [] == [f];
  }

  /** A struct body laid out as one block gives back that one field, provided
      the search for a further marker from the data line on finds none;
      BlockLayout says the text a shader author writes has that layout. */
  lemma SingleBlockRoundTrip(sd: string, f: Field)
    requires Writable(f) && Layout(sd, f)
    requires Find(sd, Marker, 50 + |f.name| + |f.description|).None?
    ensures FieldsFrom(sd, 0) == Some([f])
  {
    LayoutMarker(sd, f);
    StepReadsLayout(sd, f);
    OneField(sd, 0, 0, f, 50 + |f.name| + |f.description|);
  }
}
