/**
 * A shader program's preprocessor defines and the rewrite of shader source
 * text done before compilation (CLC/CORE/ShaderProgram.cpp): a fixed
 * version line, one #define line per define, then the source's lines with
 * every line mentioning "#version" dropped.
 *
 * std::unordered_map iterates in an unspecified order; the order in which
 * the defines are written is a parameter that lists each name once.
 */
module ShaderPrograms {
  import opened Gl
  import opened Sequences

  const VersionHeader: string := "#version 460 core\n"
  const VersionToken: string := "#version"

  /** std::string::find(p) != npos. */
  predicate Contains(s: string, p: string)
    decreases |s|
  {
    |s| >= |p| && (s[..|p|] == p || Contains(s[1..], p))
  }

  /** std::getline on '\n': the text before the first newline (or all of it). */
  function FirstLine(s: string): (line: string)
    ensures |line| <= |s|
  {
    if s == [] || s[0] == '\n' then [] else [s[0]] + FirstLine(s[1..])
  }

  /** The first line is a newline-free prefix, ended by a newline or by the end of the text. */
  lemma {:induction false} FirstLineIsPrefix(s: string)
    ensures FirstLine(s) == s[..|FirstLine(s)|]
    ensures '\n' !in FirstLine(s)
    ensures |FirstLine(s)| < |s| ==> s[|FirstLine(s)|] == '\n'
  {
    if s != [] && s[0] != '\n' {
      FirstLineIsPrefix(s[1..]);
    }
  }

  /** What is left after getline consumed the first line and its newline. */
  function AfterFirstLine(s: string): (rest: string)
    requires s != []
    ensures |rest| < |s|
  {
    if |FirstLine(s)| < |s| then s[|FirstLine(s)| + 1..] else []
  }

  /**
   * The lines std::getline yields: none for "", and no empty line after a
   * final newline.
   */
  function Lines(s: string): seq<string>
    decreases |s|
  {
    if s == [] then [] else [FirstLine(s)] + Lines(AfterFirstLine(s))
  }

  /** Every line returned by getline is free of newlines. */
  lemma {:induction false} LinesHaveNoNewline(s: string)
    ensures forall l | l in Lines(s) :: '\n' !in l
    decreases |s|
  {
    if s != [] {
      FirstLineIsPrefix(s);
      LinesHaveNoNewline(AfterFirstLine(s));
    }
  }

  function DefineLine(name: string, value: string): string
  {
    "#define " + name + " " + value + "\n"
  }

  /** The define block for names written in the given order. */
  function DefineBlock(order: seq<string>, defines: map<string, string>): string
    requires forall n | n in order :: n in defines
  {
    if order == [] then ""
    else DefineBlock(order[..|order| - 1], defines) + DefineLine(order[|order| - 1], defines[order[|order| - 1]])
  }

  lemma DefineBlockSnoc(order: seq<string>, k: nat, defines: map<string, string>)
    requires k < |order| && forall n | n in order :: n in defines
    ensures DefineBlock(order[..k + 1], defines) == DefineBlock(order[..k], defines) + DefineLine(order[k], defines[order[k]])
  {
    assert order[..k + 1][..k] == order[..k];
  }

  /** The source lines that are kept: those that do not mention "#version", in order. */
  function Kept(lines: seq<string>, token: string): (kept: seq<string>)
    ensures |kept| <= |lines|
  {
    if lines == [] then []
    else (if Contains(lines[0], token) then [] else [lines[0]]) + Kept(lines[1..], token)
  }

  /** Kept drops exactly the lines that mention the token. */
  lemma {:induction false} KeptFilters(lines: seq<string>, token: string)
    ensures forall l | l in Kept(lines, token) :: l in lines && !Contains(l, token)
    ensures forall l | l in lines && !Contains(l, token) :: l in Kept(lines, token)
  {
    if lines != [] {
      KeptFilters(lines[1..], token);
      assert lines == [lines[0]] + lines[1..];
    }
  }

  /** Lines joined, each terminated by a newline. */
  function JoinLines(lines: seq<string>): string
  {
    if lines == [] then "" else lines[0] + "\n" + JoinLines(lines[1..])
  }

  /** The text the getline loop appends for source text s still to be read. */
  function KeptText(s: string, token: string): string
    decreases |s|
  {
    if s == [] then ""
    else
      var line := FirstLine(s);
      (if Contains(line, token) then "" else line + "\n") + KeptText(AfterFirstLine(s), token)
  }

  /** The loop's output is the kept lines, each newline-terminated. */
  lemma {:induction false} KeptTextIsKeptLines(s: string, token: string)
    ensures KeptText(s, token) == JoinLines(Kept(Lines(s), token))
    decreases |s|
  {
    if s != [] {
      var line := FirstLine(s);
      var after := AfterFirstLine(s);
      KeptTextIsKeptLines(after, token);
      assert Lines(s) == [line] + Lines(after);
      assert Lines(s)[1..] == Lines(after);
      assert KeptText(s, token) == (if Contains(line, token) then "" else line + "\n") + KeptText(after, token);
      if !Contains(line, token) {
        var k := [line] + Kept(Lines(after), token);
        assert Kept(Lines(s), token) == k;
        assert k[1..] == Kept(Lines(after), token);
        assert JoinLines(k) == line + "\n" + JoinLines(k[1..]);
      } else {
        assert Kept(Lines(s), token) == Kept(Lines(after), token);
      }
    }
  }

  /** The processed text, specified by its parts. */
  function Processed(source: string, defines: map<string, string>, order: seq<string>): string
    requires forall n | n in order :: n in defines
  {
    VersionHeader + DefineBlock(order, defines) + JoinLines(Kept(Lines(source), VersionToken))
  }

  /** The output's lines: the version line, one line per define, then the kept source lines. */
  function OutputLines(source: string, defines: map<string, string>, order: seq<string>): (ls: seq<string>)
    requires forall n | n in order :: n in defines
    ensures |ls| == 1 + |order| + |Kept(Lines(source), VersionToken)|
  {
    ["#version 460 core"]
      + seq(|order|, i requires 0 <= i < |order| => "#define " + order[i] + " " + defines[order[i]])
      + Kept(Lines(source), VersionToken)
  }

  lemma {:induction false} JoinLinesAppend(a: seq<string>, b: seq<string>)
    ensures JoinLines(a + b) == JoinLines(a) + JoinLines(b)
  {
    if a == [] {
      assert a + b == b;
    } else {
      assert (a + b)[1..] == a[1..] + b;
      JoinLinesAppend(a[1..], b);
    }
  }

  lemma {:induction false} DefineBlockIsJoin(order: seq<string>, defines: map<string, string>)
    requires forall n | n in order :: n in defines
    ensures DefineBlock(order, defines)
      == JoinLines(seq(|order|, i requires 0 <= i < |order| => "#define " + order[i] + " " + defines[order[i]]))
  {
    var ls := seq(|order|, i requires 0 <= i < |order| => "#define " + order[i] + " " + defines[order[i]]);
    if order != [] {
      var init := order[..|order| - 1];
      var initLines := seq(|init|, i requires 0 <= i < |init| => "#define " + init[i] + " " + defines[init[i]]);
      DefineBlockIsJoin(init, defines);
      assert ls == initLines + [ls[|ls| - 1]];
      JoinLinesAppend(initLines, [ls[|ls| - 1]]);
    }
  }

  /**
   * The processed text is exactly its output lines, each newline-terminated:
   * it starts with the version line and has 1 + |defines| + |kept| lines.
   */
  lemma ProcessedIsOutputLines(source: string, defines: map<string, string>, order: seq<string>)
    requires forall n | n in order :: n in defines
    ensures Processed(source, defines, order) == JoinLines(OutputLines(source, defines, order))
    ensures Processed(source, defines, order)[..|VersionHeader|] == VersionHeader
  {
    var ds := seq(|order|, i requires 0 <= i < |order| => "#define " + order[i] + " " + defines[order[i]]);
    DefineBlockIsJoin(order, defines);
    JoinLinesAppend(["#version 460 core"] + ds, Kept(Lines(source), VersionToken));
    JoinLinesAppend(["#version 460 core"], ds);
    assert JoinLines(["#version 460 core"]) == VersionHeader;
  }

  lemma AppendAssoc(a: string, b: string, c: string)
    ensures (a + b) + c == a + (b + c)
  {
  }

  /** The getline loop: each line not mentioning "#version" appended with its newline. */
  method AppendKeptLines(head: string, source: string, token: string) returns (out: string)
    ensures out == head + JoinLines(Kept(Lines(source), token))
  {
    out := head;
    var rest := source;
    while rest != []
      invariant out + KeptText(rest, token) == head + KeptText(source, token)
      decreases |rest|
    {
      var line := FirstLine(rest);
      ghost var after := AfterFirstLine(rest);
      if !Contains(line, token) {
        assert KeptText(rest, token) == (line + "\n") + KeptText(after, token);
        AppendAssoc(out, line + "\n", KeptText(after, token));
        out := out + (line + "\n");
      } else {
        assert KeptText(rest, token) == KeptText(after, token);
      }
      rest := AfterFirstLine(rest);
    }
    KeptTextIsKeptLines(source, token);
  }

  class ShaderProgram {
    /** The GL program name. */
    var program: nat
    var defines: map<string, string>

    /** ShaderProgram(): a new GL program and no defines. */
    constructor (created: nat)
      ensures program == created && defines == map[]
    {
      program := created;
      defines := map[];
    }

    /** addDefine: inserted, or the existing value of that name replaced. */
    method AddDefine(name: string, value: string)
      modifies this
      ensures defines == old(defines)[name := value] && program == old(program)
    {
      defines := defines[name := value];
    }

    function GetProgram(): (p: nat)
      reads this
      ensures p == program
    {
      program
    }

    function Use(): (call: GlCall)
      reads this
      ensures call == UseProgram(program)
    {
      UseProgram(program)
    }

    /** setInt, setMat4, setVec3: one uniform write on this program. */
    function SetInt(name: string, value: int): (call: GlCall)
      reads this
      ensures call == UniformInt(program, name, value)
    {
      UniformInt(program, name, value)
    }

    /**
     * loadFromFiles once both stages compiled: the existing program (if any)
     * is deleted and the freshly linked one takes its place; the defines stay.
     */
    method LoadFromFiles(linked: nat) returns (calls: seq<GlCall>)
      modifies this
      ensures program == linked && defines == old(defines)
      ensures calls == old(Destroy())
    {
      calls := Destroy();
      program := linked;
    }

    /** The destructor deletes the program only if it exists. */
    function Destroy(): (calls: seq<GlCall>)
      reads this
      ensures program == 0 <==> calls == []
      ensures program != 0 ==> calls == [DeleteProgram(program)]
    {
      if program != 0 then [DeleteProgram(program)] else []
    }

    /**
     * processShaderSource: the version line, the define lines in iteration
     * order, then each getline line of the source that does not mention
     * "#version", newline-terminated.
     */
    method ProcessShaderSource(source: string, order: seq<string>) returns (out: string)
      requires IsIterationOrder(order, defines)
      ensures out == Processed(source, defines, order)
    {
      out := VersionHeader;
      var k := 0;
      while k < |order|
        invariant 0 <= k <= |order|
        invariant out == VersionHeader + DefineBlock(order[..k], defines)
      {
        DefineBlockSnoc(order, k, defines);
        out := out + DefineLine(order[k], defines[order[k]]);
        k := k + 1;
      }
      assert order[..k] == order;
      out := AppendKeptLines(out, source, VersionToken);
    }
  }
}
