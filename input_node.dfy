/** The shader-graph editor's Input node: its resource shader code declares a
    MaterialData constant buffer with one member per output socket, and its
    compute code is a fixed placeholder the graph compiler substitutes. The
    stream's std::endl writes "\n". */
module InputNodes {

  /** An output socket: its HLSL type and its name. */
  datatype Output = Output(socketType: string, socketName: string)

  const Opening: string := "struct MaterialData {\n"
  /** What follows the members. It is written in pieces because the verifier
      compares long string literals only piece by piece. */
  const Closing: string := "\n};\n\n" + "[[fx::shader_constant]] " + "MaterialData materialData;"

  /** The line one output contributes. */
  function Member(o: Output): string {
    "\t" + o.socketType + " " + o.socketName + ";"
  }

  function Members(outputs: seq<Output>): (r: seq<string>)
    ensures |r| == |outputs| && forall i :: 0 <= i < |outputs| ==> r[i] == Member(outputs[i])
  {
    if |outputs| == 0 then [] else [Member(outputs[0])] + Members(outputs[1..])
  }

  /** Lines joined with a newline between neighbours. */
  function Join(lines: seq<string>): string {
    if |lines| == 0 then ""
    else if |lines| == 1 then lines[0]
    else lines[0] + "\n" + Join(lines[1..])
  }

  /** The code generateResourceShaderCode returns. */
  function ResourceCode(outputs: seq<Output>): string {
    Opening + Join(Members(outputs)) + Closing
  }

  /** The stream loop: the newline goes before every output but the first. */
  method GenerateResourceShaderCode(outputs: seq<Output>) returns (code: string)
    ensures code == ResourceCode(outputs)
  {
    code := Opening;
    var isFirst := true;
    var i := 0;
    while i < |outputs|
      invariant 0 <= i <= |outputs|
      invariant isFirst <==> i == 0
      invariant code == Opening + Join(Members(outputs[..i]))
    {
      if !isFirst {
        code := code + "\n";
      }
      code := code + Member(outputs[i]);
      MembersStep(outputs, i);
      Append(Opening, Join(Members(outputs[..i])), if isFirst then "" else "\n", Member(outputs[i]));
      isFirst := false;
      i := i + 1;
    }
    assert outputs[..i] == outputs;
    code := code + Closing;
  }

  /** The lines of one more output. */
  lemma MembersStep(outputs: seq<Output>, i: nat)
    requires i < |outputs|
    ensures Join(Members(outputs[..i + 1])) ==
      if i == 0 then Member(outputs[i]) else Join(Members(outputs[..i])) + "\n" + Member(outputs[i])
  {
    JoinSnoc(Members(outputs[..i]), Member(outputs[i]));
    assert Members(outputs[..i + 1]) == Members(outputs[..i]) + [Member(outputs[i])];
  }

  lemma Append(a: string, b: string, sep: string, c: string)
    ensures a + b + sep + c == a + (b + sep + c)
  {
  }

  /** Appending one line to a non-empty list adds a newline and the line;
      appending to the empty list gives the line alone. */
  lemma {:induction false} JoinSnoc(lines: seq<string>, line: string)
    ensures Join(lines + [line]) == if |lines| == 0 then line else Join(lines) + "\n" + line
  {
    if |lines| == 0 {
      assert lines + [line] == [line];
    } else if |lines| == 1 {
      assert lines + [line] == [lines[0], line];
      assert [lines[0], line][1..] == [line];
    } else {
      assert (lines + [line])[1..] == lines[1..] + [line];
      JoinSnoc(lines[1..], line);
    }
  }

  /** generateComputeShaderCode. */
  function ComputeShaderCode(outputs: seq<Output>): string {
    "materialData.##__CONNECTION__##"
  }

  /** The compute code is the same placeholder for every node. */
  lemma ComputeCodeIgnoresNode(a: seq<Output>, b: seq<Output>)
    ensures ComputeShaderCode(a) == ComputeShaderCode(b) == "materialData.##__CONNECTION__##"
  {
  }

  /** A node without outputs gives the empty structure. */
  lemma NoOutputs()
    ensures ResourceCode([]) == "struct MaterialData {\n" + "\n};\n\n" + "[[fx::shader_constant]] " + "MaterialData materialData;"
  {
    assert Join(Members([])) == "";
    assert Opening + "" == Opening;
  }

  // ---------------------------------------------------------------------
  // The member lines can be read back

  predicate OneLine(s: string) {
    forall i :: 0 <= i < |s| ==> s[i] != '\n'
  }

  /** Splitting at every newline. */
  function SplitLines(s: string): (r: seq<string>)
    ensures |r| >= 1
  {
    if |s| == 0 then [""]
    else
      var rest := SplitLines(s[1..]);
      if s[0] == '\n' then [""] + rest else [[s[0]] + rest[0]] + rest[1..]
  }

  lemma {:induction false} SplitOneLine(s: string)
    requires OneLine(s)
    ensures SplitLines(s) == [s]
  {
    if |s| > 0 {
      SplitOneLine(s[1..]);
      assert [s[0]] + s[1..] == s;
    }
  }

  lemma {:induction false} SplitAfterLine(a: string, b: string)
    requires OneLine(a)
    ensures SplitLines(a + "\n" + b) == [a] + SplitLines(b)
  {
    if |a| == 0 {
      assert a + "\n" + b == "\n" + b;
      assert ("\n" + b)[1..] == b;
    } else {
      SplitAfterLine(a[1..], b);
      assert (a + "\n" + b)[1..] == a[1..] + "\n" + b;
      assert [a[0]] + a[1..] == a;
    }
  }

  /** Splitting undoes joining, for lines without newlines. */
  lemma {:induction false} SplitJoin(lines: seq<string>)
    requires |lines| >= 1 && forall i :: 0 <= i < |lines| ==> OneLine(lines[i])
    ensures SplitLines(Join(lines)) == lines
  {
    if |lines| == 1 {
      SplitOneLine(lines[0]);
    } else {
      SplitJoin(lines[1..]);
      SplitAfterLine(lines[0], Join(lines[1..]));
      assert [lines[0]] + lines[1..] == lines;
    }
  }

  /** Each output's member line sits between the opening and the closing, in
      order, one per line, as long as no socket type or name holds a newline;
      without outputs there is nothing between them. */
  lemma MembersReadBack(outputs: seq<Output>)
    requires forall i :: 0 <= i < |outputs| ==> OneLine(outputs[i].socketType) && OneLine(outputs[i].socketName)
    ensures var code := ResourceCode(outputs);
      |Opening| + |Closing| <= |code| && code[..|Opening|] == Opening && code[|code| - |Closing|..] == Closing &&
      var body := code[|Opening|..|code| - |Closing|];
      (|outputs| == 0 ==> body == "") && (|outputs| > 0 ==> SplitLines(body) == Members(outputs))
  {
    var ms := Members(outputs);
    var code := ResourceCode(outputs);
    var body := Join(ms);
    assert code == Opening + body + Closing;
    assert code[..|Opening|] == Opening;
    assert code[|Opening|..|code| - |Closing|] == body;
    assert code[|code| - |Closing|..] == Closing;
    if |outputs| > 0 {
      forall i | 0 <= i < |ms| ensures OneLine(ms[i]) {
        var o := outputs[i];
        assert ms[i] == "\t" + o.socketType + " " + o.socketName + ";";
        forall k | 0 <= k < |ms[i]| ensures ms[i][k] != '\n' {
          if 1 <= k < 1 + |o.socketType| {
            assert ms[i][k] == o.socketType[k - 1];
          } else if 2 + |o.socketType| <= k < 2 + |o.socketType| + |o.socketName| {
            assert ms[i][k] == o.socketName[k - 2 - |o.socketType|];
          }
        }
      }
      SplitJoin(ms);
    }
  }
}
