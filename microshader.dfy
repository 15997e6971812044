/** MicroShader::parse_shader of the compositor: a shader file starts with a
    "// microshader: <name>" line, holds a `struct <name in lower case>_in_t`
    and, inside that struct, one block per serialised field:

        // serialize-field
        // name: "<name>"
        // description: "<description>"
        <data line>

    The parser prints what it finds; here the fields it would print are
    returned instead. string_view::find and find_first_of are first-match
    searches that answer None for npos. Where the code would build a
    string_view from the npos position (the name line or the struct has no
    end), the outcome is Undefined. A field block missing one of its tags or
    quotes is also Undefined: there the code's offset either stays npos, from
    which it builds a string_view, or wraps from npos + 1 to 0 and reads the
    body again from its start, possibly forever (MissingTagsLoopAsWritten).
    The file reading constructor is I/O and left out. */
module MicroShaders {
  import opened Wrappers

  // ---------------------------------------------------------------------
  // Searching

  predicate MatchAt(s: string, p: string, i: nat) {
    i + |p| <= |s| && s[i..i + |p|] == p
  }

  /** string_view::find(p, from) for a non-empty p: the first position at or
      after `from` where p occurs; FindIsFirst states that no earlier
      position matches. */
  function Find(s: string, p: string, from: nat): (r: Option<nat>)
    requires |p| > 0
    ensures r.Some? ==> from <= r.value && MatchAt(s, p, r.value)
    decreases |s| - from
  {
    if from + |p| > |s| then None
    else if s[from..from + |p|] == p then Some(from)
    else Find(s, p, from + 1)
  }

  /** find(c, from) and find_first_of(c, from) for one character;
      FindCharIsFirstOccurrence states that c does not occur earlier. */
  function FindChar(s: string, c: char, from: nat): (r: Option<nat>)
    ensures r.Some? ==> from <= r.value < |s| && s[r.value] == c
    decreases |s| - from
  {
    if from >= |s| then None
    else if s[from] == c then Some(from)
    else FindChar(s, c, from + 1)
  }

  /** Find answers the first match: nothing matches between `from` and its
      answer, and nothing at all from `from` on when it answers None. */
  lemma {:induction false} FindIsFirst(s: string, p: string, from: nat)
    requires |p| > 0
    ensures Find(s, p, from).Some? ==> forall i :: from <= i < Find(s, p, from).value ==> !MatchAt(s, p, i)
    ensures Find(s, p, from).None? ==> forall i :: from <= i ==> !MatchAt(s, p, i)
    decreases |s| - from
  {
    if from + |p| <= |s| && s[from..from + |p|] != p {
      FindIsFirst(s, p, from + 1);
    }
  }

  lemma {:induction false} FindCharIsFirstOccurrence(s: string, c: char, from: nat)
    ensures FindChar(s, c, from).Some? ==> forall i :: from <= i < FindChar(s, c, from).value ==> s[i] != c
    ensures FindChar(s, c, from).None? ==> forall i :: from <= i < |s| ==> s[i] != c
    decreases |s| - from
  {
    if from < |s| && s[from] != c {
      FindCharIsFirstOccurrence(s, c, from + 1);
    }
  }

  /** A match with none before it, from `from` on, is what Find answers. */
  lemma {:induction false} FindIsFirstMatch(s: string, p: string, from: nat, k: nat)
    requires |p| > 0 && from <= k && MatchAt(s, p, k)
    requires forall i :: from <= i < k ==> !MatchAt(s, p, i)
    ensures Find(s, p, from) == Some(k)
    decreases k - from
  {
    if from < k {
      assert !MatchAt(s, p, from);
      FindIsFirstMatch(s, p, from + 1, k);
    }
  }

  lemma {:induction false} FindCharIsFirst(s: string, c: char, from: nat, k: nat)
    requires from <= k < |s| && s[k] == c
    requires forall i :: from <= i < k ==> s[i] != c
    ensures FindChar(s, c, from) == Some(k)
    decreases k - from
  {
    if from < k {
      FindCharIsFirst(s, c, from + 1, k);
    }
  }

  // ---------------------------------------------------------------------
  // The parser

  const Header: string := "// microshader: "
  const Marker: string := "// serialize-field"
  const NameTag: string := "// name: "
  const DescriptionTag: string := "// description: "

  /** std::tolower in the "C" locale: ASCII capitals become small letters. */
  function Lower(s: string): (r: string)
    ensures |r| == |s|
    ensures forall i :: 0 <= i < |s| ==> r[i] == if 'A' <= s[i] <= 'Z' then (s[i] as int + 32) as char else s[i]
  {
    seq(|s|, i requires 0 <= i < |s| => if 'A' <= s[i] <= 'Z' then (s[i] as int + 32) as char else s[i])
  }

  /** One printed field. */
  datatype Field = Field(name: string, description: string, data: string)

  datatype Outcome =
    | Parsed(shaderName: string, fields: seq<Field>)
    | Failed(message: string)
    | Undefined

  /** The tagged line after the one at `from`: skip to the next line, find
      the tag, and read the text between the next two quotes. The offset the
      parser goes on from is just past the opening quote. */
  function TaggedValue(sd: string, tag: string, from: nat): (r: Option<(string, nat)>)
    requires |tag| > 0
    ensures r.Some? ==> from < r.value.1 <= |sd|
  {
    var a := FindChar(sd, '\n', from);
    if a.None? then None else
    var b := Find(sd, tag, a.value + 1);
    if b.None? then None else
    var q1 := FindChar(sd, '"', b.value);
    if q1.None? then None else
    var q2 := FindChar(sd, '"', q1.value + 1);
    if q2.None? then None else
    Some((sd[q1.value + 1..q2.value], q1.value + 1))
  }

  /** One field block found at marker position m: its name line, its
      description line and its data line, and the offset the loop continues
      from, the start of the data line. */
  function Step(sd: string, m: nat): (r: Option<(Field, nat)>)
    ensures r.Some? ==> m < r.value.1 <= |sd|
  {
    var name := TaggedValue(sd, NameTag, m);
    if name.None? then None else StepFromName(sd, name.value.0, name.value.1)
  }

  /** The rest of Step once the name line has been read up to offset a. */
  function StepFromName(sd: string, name: string, a: nat): (r: Option<(Field, nat)>)
    ensures r.Some? ==> a < r.value.1 <= |sd|
  {
    var description := TaggedValue(sd, DescriptionTag, a);
    if description.None? then None else StepFromDescription(sd, name, description.value.0, description.value.1)
  }

  /** The rest of Step once the description line has been read up to offset b:
      the end of that line, and the data line after it. */
  function StepFromDescription(sd: string, name: string, description: string, b: nat): (r: Option<(Field, nat)>)
    ensures r.Some? ==> b < r.value.1 <= |sd|
  {
    var e := FindChar(sd, '\n', b);
    if e.None? then None else
    var f := FindChar(sd, '\n', e.value + 1);
    if f.None? then None else
    Some((Field(name, description, sd[e.value + 1..f.value]), e.value + 1))
  }

  /** The fields of the struct body from offset o on, in order. */
  function FieldsFrom(sd: string, o: nat): Option<seq<Field>>
    decreases |sd| + 1 - o
  {
    var m := Find(sd, Marker, o);
    if m.None? then Some([])
    else
      var st := Step(sd, m.value);
      if st.None? then None
      else
        var rest := FieldsFrom(sd, st.value.1);
        if rest.None? then None else Some([st.value.0] + rest.value)
  }

  /** `found` followed by what is still to be parsed; None stays None. */
  function Prefixed(found: seq<Field>, rest: Option<seq<Field>>): Option<seq<Field>> {
    if rest.None? then None else Some(found + rest.value)
  }

  /** FieldsFrom one marker further on. */
  lemma FieldsFromUnfold(sd: string, o: nat)
    ensures Find(sd, Marker, o).None? ==> FieldsFrom(sd, o) == Some([])
    ensures Find(sd, Marker, o).Some? && Step(sd, Find(sd, Marker, o).value).None? ==> FieldsFrom(sd, o).None?
    ensures Find(sd, Marker, o).Some? && Step(sd, Find(sd, Marker, o).value).Some? ==>
      var st := Step(sd, Find(sd, Marker, o).value).value;
      FieldsFrom(sd, o) == Prefixed([st.0], FieldsFrom(sd, st.1))
  {
  }

  lemma PrefixedAssoc(found: seq<Field>, f: Field, rest: Option<seq<Field>>)
    ensures Prefixed(found, Prefixed([f], rest)) == Prefixed(found + [f], rest)
  {
    if rest.Some? {
      assert found + ([f] + rest.value) == found + [f] + rest.value;
    }
  }

  /** The while loop over serialize-field markers. */
  method ParseFields(sd: string) returns (r: Option<seq<Field>>)
    ensures r == FieldsFrom(sd, 0)
  {
    var fields: seq<Field> := [];
    var offset := 0;
    assert FieldsFrom(sd, 0).Some? ==> [] + FieldsFrom(sd, 0).value == FieldsFrom(sd, 0).value;
    while true
      invariant offset <= |sd| + 1
      invariant FieldsFrom(sd, 0) == Prefixed(fields, FieldsFrom(sd, offset))
      decreases |sd| + 1 - offset
    {
      FieldsFromUnfold(sd, offset);
      var m := Find(sd, Marker, offset);
      if m.None? {
        assert fields + [] == fields;
        return Some(fields);
      }
      var st := Step(sd, m.value);
      if st.None? {
        return None;
      }
      var (field, next) := st.value;
      PrefixedAssoc(fields, field, FieldsFrom(sd, next));
      fields := fields + [field];
      offset := next;
    }
  }

  // ---------------------------------------------------------------------
  // The loop's offsets as size_t arithmetic computes them

  /** string_view::npos, the largest size_t. */
  const Npos: nat := 0xFFFF_FFFF_FFFF_FFFF

  /** find as the code sees it: npos when nothing matches. */
  function RawFind(s: string, p: string, from: nat): (r: nat)
    requires |p| > 0
    ensures Find(s, p, from).None? ==> r == Npos
    ensures Find(s, p, from).Some? ==> r == Find(s, p, from).value && MatchAt(s, p, r)
  {
    match Find(s, p, from)
    case Some(k) => k
    case None => Npos
  }

  function RawFindChar(s: string, c: char, from: nat): (r: nat)
    ensures FindChar(s, c, from).None? ==> r == Npos
    ensures FindChar(s, c, from).Some? ==> r == FindChar(s, c, from).value && r < |s| && s[r] == c
  {
    match FindChar(s, c, from)
    case Some(k) => k
    case None => Npos
  }

  /** `+ 1` on a size_t: npos + 1 wraps to 0. */
  function Inc(x: nat): (r: nat)
    requires x <= Npos
    ensures r <= Npos && (r == 0 <==> x == Npos) && (x < Npos ==> r == x + 1)
  {
    if x == Npos then 0 else x + 1
  }

  /** The size_t offset after the name search of the pass for the marker at
      m: just past the opening quote of the name. */
  function NameOffsetAsWritten(sd: string, m: nat): nat
    requires |sd| < Npos
  {
    Inc(RawFindChar(sd, '"', RawFind(sd, NameTag, Inc(RawFindChar(sd, '\n', m)))))
  }

  /** The offset one pass of the while loop, as written, starts its next
      search from, for the marker at m: past the name's and the description's
      opening quotes and to the start of the data line, with npos + 1
      wrapping to 0 wherever a search fails. */
  function LoopOffsetAsWritten(sd: string, m: nat): nat
    requires |sd| < Npos
  {
    var nameText := NameOffsetAsWritten(sd, m);
    var descriptionLine := Inc(RawFindChar(sd, '\n', nameText));
    var descriptionText := Inc(RawFindChar(sd, '"', RawFind(sd, DescriptionTag, descriptionLine)));
    Inc(RawFindChar(sd, '\n', descriptionText))
  }

  /** A field block whose name tag is missing: the code's offset after the
      name search wraps to 0, so it reads from the start of the struct body
      again, while the model's step reports no field. */
  lemma MissingNameTagWrapsToStart(sd: string, m: nat)
    requires |sd| < Npos
    requires FindChar(sd, '\n', m).Some? && Find(sd, NameTag, FindChar(sd, '\n', m).value + 1).None?
    ensures NameOffsetAsWritten(sd, m) == 0
    ensures Step(sd, m).None?
  {
    var nl := FindChar(sd, '\n', m).value;
    assert Inc(RawFindChar(sd, '\n', m)) == nl + 1;
    assert RawFind(sd, NameTag, nl + 1) == Npos;
    assert FindChar(sd, '"', Npos).None?;
  }

  /** When, besides the missing name tag, the struct body starts with a line
      break and holds no description tag after it, every pass of the code's
      loop for the marker at m ends at offset 1; the marker search from 1
      finds m again, so the loop never ends. The model reports Undefined. */
  lemma MissingTagsLoopAsWritten(sd: string, m: nat)
    requires |sd| < Npos && |sd| > 0 && sd[0] == '\n'
    requires FindChar(sd, '\n', m).Some? && Find(sd, NameTag, FindChar(sd, '\n', m).value + 1).None?
    requires Find(sd, DescriptionTag, 1).None? && Find(sd, Marker, 1) == Some(m)
    ensures LoopOffsetAsWritten(sd, m) == 1 && Find(sd, Marker, LoopOffsetAsWritten(sd, m)) == Some(m)
    ensures Step(sd, m).None?
  {
    MissingNameTagWrapsToStart(sd, m);
    assert FindChar(sd, '\n', 0) == Some(0);
    assert RawFind(sd, DescriptionTag, 1) == Npos;
    assert FindChar(sd, '"', Npos).None?;
  }

  /** One differing character rules a match out. */
  lemma MismatchAt(s: string, p: string, k: nat, j: nat)
    requires j < |p| && k + |p| <= |s| && s[k + j] != p[j]
    ensures !MatchAt(s, p, k)
  {
  }

  /** An instance: a struct body holding one bare marker line and a line
      with a quote. The code prints the same empty field forever. */
  lemma BareMarkerLoopsAsWritten()
    ensures var sd := "\n" + Marker + "\n\"\n";
      LoopOffsetAsWritten(sd, 1) == 1 && Find(sd, Marker, 1) == Some(1) && Step(sd, 1).None?
  {
    var sd := "\n" + Marker + "\n\"\n";
    assert |sd| == 22;
    assert sd[1..19] == Marker;
    FindCharIsFirst(sd, '\n', 1, 19);
    forall k | 1 <= k ensures !MatchAt(sd, DescriptionTag, k) {
      if k + |DescriptionTag| <= |sd| {
        MismatchAt(sd, DescriptionTag, k, 3);
      }
    }
    FindIsFirst(sd, DescriptionTag, 1);
    MissingTagsLoopAsWritten(sd, 1);
  }

  const UnknownFormat: string := "MicroShader parse error (Unknown format)"
  const UnknownShaderName: string := "MicroShader parse error (Unknown shader name)"
  const UnknownInputData: string := "MicroShader parse error (Unknown input data)"

  /** The buffer starts with the header, followed by the non-empty `name`
      and the end of the first line. */
  predicate NamedLine(buffer: string, name: string) {
    Header <= buffer && name != [] && |Header| + |name| < |buffer| &&
    buffer[|Header|..|Header| + |name|] == name && buffer[|Header| + |name|] == '\n'
  }

  /** The buffer declares the input struct of the shader `name`. */
  predicate HasInputStruct(buffer: string, name: string) {
    exists k :: 0 <= k <= |buffer| && MatchAt(buffer, "struct " + Lower(name) + "_in_t ", k)
  }

  /** The first stage of parse_shader: the header and the shader name, the
      rest of the first line. Parsed carries the name and no fields yet. */
  function ReadName(buffer: string): (r: Outcome)
    ensures r.Parsed? ==> r.fields == [] && NamedLine(buffer, r.shaderName)
    ensures r.Failed? ==> r.message == UnknownFormat || r.message == UnknownShaderName
  {
    if Find(buffer, Header, 0) != Some(0) then Failed(UnknownFormat)
    else
      var nl := FindChar(buffer, '\n', |Header|);
      if nl.None? then Undefined
      else
        var name := buffer[|Header|..nl.value];
        if name == [] then Failed(UnknownShaderName) else Parsed(name, [])
  }

  /** The second stage: the input struct of the named shader and its fields.
      The body runs from just after the first '{' following the struct's
      declaration to the next '}'. */
  function ReadStruct(buffer: string, name: string): (r: Outcome)
    ensures r.Parsed? ==> r.shaderName == name && HasInputStruct(buffer, name)
    ensures r.Failed? <==> !HasInputStruct(buffer, name)
    ensures r.Failed? ==> r.message == UnknownInputData
  {
    var s := Find(buffer, "struct " + Lower(name) + "_in_t ", 0);
    FindIsFirst(buffer, "struct " + Lower(name) + "_in_t ", 0);
    if s.None? then Failed(UnknownInputData)
    else
      var open := FindChar(buffer, '{', s.value);
      // npos + 1 wraps to 0 in size_t when there is no '{'.
      var o := if open.None? then 0 else open.value + 1;
      var close := FindChar(buffer, '}', o);
      if close.None? then Undefined
      else
        var fields := FieldsFrom(buffer[o..close.value], 0);
        if fields.None? then Undefined else Parsed(name, fields.value)
  }

  /** parse_shader. */
  function Parse(buffer: string): (r: Outcome)
    ensures r.Parsed? ==> NamedLine(buffer, r.shaderName) && HasInputStruct(buffer, r.shaderName)
    ensures r.Failed? ==> r.message == UnknownFormat || r.message == UnknownShaderName || r.message == UnknownInputData
  {
    var r := ReadName(buffer);
    if r.Parsed? then ReadStruct(buffer, r.shaderName) else r
  }

  /** The format check fails exactly when the buffer does not start with the
      header. */
  lemma UnknownFormatIffNoHeader(buffer: string)
    ensures Parse(buffer) == Failed(UnknownFormat) <==> !(Header <= buffer)
  {
    if Header <= buffer {
      assert MatchAt(buffer, Header, 0);
      FindIsFirstMatch(buffer, Header, 0, 0);
    }
  }

  /** The name check fails exactly when the header is followed at once by
      the end of the line. */
  lemma UnknownShaderNameIffEmptyLine(buffer: string)
    ensures Parse(buffer) == Failed(UnknownShaderName) <==>
      Header <= buffer && |Header| < |buffer| && buffer[|Header|] == '\n'
  {
    if Header <= buffer {
      assert MatchAt(buffer, Header, 0);
      FindIsFirstMatch(buffer, Header, 0, 0);
      if |Header| < |buffer| && buffer[|Header|] == '\n' {
        FindCharIsFirst(buffer, '\n', |Header|, |Header|);
      }
    }
  }

  /** A parsed shader's name is the rest of the first line: non-empty, without
      a newline, right after the header. */
  lemma ParsedNameIsFirstLine(buffer: string)
    requires Parse(buffer).Parsed?
    ensures Header <= buffer
    ensures var name := Parse(buffer).shaderName;
      name != [] && |Header| + |name| < |buffer| && buffer[|Header|..|Header| + |name|] == name &&
      buffer[|Header| + |name|] == '\n' && forall i :: 0 <= i < |name| ==> name[i] != '\n'
  {
    assert ReadName(buffer).Parsed?;
    NameIsFirstLine(buffer);
  }

  /** The first stage alone: a name it reads is the rest of the header line. */
  lemma NameIsFirstLine(buffer: string)
    requires ReadName(buffer).Parsed?
    ensures Header <= buffer
    ensures var name := ReadName(buffer).shaderName;
      name != [] && |Header| + |name| < |buffer| && buffer[|Header|..|Header| + |name|] == name &&
      buffer[|Header| + |name|] == '\n' && forall i :: 0 <= i < |name| ==> name[i] != '\n'
  {
    assert MatchAt(buffer, Header, 0);
    FindCharIsFirstOccurrence(buffer, '\n', |Header|);
  }

  /** The input-data check fails exactly when the named shader's struct
      declaration, with the name in lower case, does not occur. */
  lemma UnknownInputDataIffNoStruct(buffer: string)
    requires ReadName(buffer).Parsed?
    ensures Parse(buffer) == Failed(UnknownInputData) <==>
      forall i :: !MatchAt(buffer, "struct " + Lower(ReadName(buffer).shaderName) + "_in_t ", i)
  {
    FindIsFirst(buffer, "struct " + Lower(ReadName(buffer).shaderName) + "_in_t ", 0);
  }
}
