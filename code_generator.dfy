/** The C++ backend's text helpers: each builds one construct of the emitted program
    (call, prototype, definition, declaration, if/for/while, return, AI call), and
    bodies are indented line by line at the generator's indentation level. */
module CodeGenerator {

  import opened Utils

  /** std::string(n, ' '). */
  function Spaces(n: nat): (r: string)
    ensures |r| == n && forall i :: 0 <= i < n ==> r[i] == ' '
  {
    seq(n, _ => ' ')
  }

  /** Where the first line of `s` ends: its first newline, or its end. */
  function NewlineAt(s: string): (k: nat)
    ensures k <= |s| && (k < |s| ==> s[k] == '\n')
    ensures forall j :: 0 <= j < k ==> s[j] != '\n'
  {
    if s == "" || s[0] == '\n' then 0 else 1 + NewlineAt(s[1..])
  }

  lemma NewlineAtUnique(s: string, k: nat)
    requires k <= |s| && (k < |s| ==> s[k] == '\n')
    requires forall j :: 0 <= j < k ==> s[j] != '\n'
    ensures k == NewlineAt(s)
  {
  }

  /** The lines std::getline extracts: split at each newline; a last line without a
      newline still counts, and a final newline starts no further line. */
  function Lines(code: string): (r: seq<string>)
    ensures forall i :: 0 <= i < |r| ==> '\n' !in r[i]
    decreases |code|
  {
    if code == "" then []
    else
      var k := NewlineAt(code);
      if k == |code| then [code] else [code[..k]] + Lines(code[k + 1..])
  }

  /** indentLine: an empty line stays empty; any other gets four spaces per level. */
  function IndentLine(line: string, level: nat): (r: string)
    ensures line == "" ==> r == ""
    ensures line != "" ==> |r| == 4 * level + |line| && r[4 * level..] == line
    ensures forall i :: 0 <= i < |r| - |line| ==> r[i] == ' '
  {
    if line == "" then "" else Spaces(level * 4) + line
  }

  function IndentAll(lines: seq<string>, level: nat): string {
    if lines == [] then "" else IndentLine(lines[0], level) + "\n" + IndentAll(lines[1..], level)
  }

  /** indent: every line, indented, then a newline. */
  function Indented(code: string, level: nat): string {
    IndentAll(Lines(code), level)
  }

  /** One step of the getline loop: the first line of a non-empty text, indented, then
      the rest of the text after its newline. */
  lemma IndentedStep(code: string, pos: nat, k: nat, level: nat)
    requires pos < |code| && pos <= k <= |code| && (k < |code| ==> code[k] == '\n')
    requires forall j :: pos <= j < k ==> code[j] != '\n'
    ensures Indented(code[pos..], level)
      == IndentLine(code[pos..k], level) + "\n" + Indented(code[if k < |code| then k + 1 else k..], level)
  {
    var rest := code[pos..];
    FirstLineStep(rest, k - pos, level);
    assert rest[..k - pos] == code[pos..k];
    if k < |code| {
      assert rest[k - pos + 1..] == code[k + 1..];
    } else {
      assert rest[k - pos..] == code[k..];
    }
  }

  /** The same step at the start of a text. */
  lemma FirstLineStep(s: string, k: nat, level: nat)
    requires 0 < |s| && k <= |s| && (k < |s| ==> s[k] == '\n')
    requires forall j :: 0 <= j < k ==> s[j] != '\n'
    ensures Indented(s, level) == IndentLine(s[..k], level) + "\n" + Indented(s[if k < |s| then k + 1 else k..], level)
  {
    NewlineAtUnique(s, k);
    if k < |s| {
      assert Lines(s) == [s[..k]] + Lines(s[k + 1..]);
      assert Lines(s)[1..] == Lines(s[k + 1..]);
    } else {
      assert s[..k] == s;
      assert Lines(s) == [s];
      assert Lines(s)[1..] == [];
      assert s[k..] == "";
      assert Indented(s[k..], level) == "";
    }
  }

  /** The getline loop's invariant survives one step. */
  lemma IndentedAdvance(code: string, pos: nat, k: nat, level: nat, r: string)
    requires pos < |code| && pos <= k <= |code| && (k < |code| ==> code[k] == '\n')
    requires forall j :: pos <= j < k ==> code[j] != '\n'
    requires r + Indented(code[pos..], level) == Indented(code, level)
    ensures r + IndentLine(code[pos..k], level) + "\n" + Indented(code[if k < |code| then k + 1 else k..], level)
      == Indented(code, level)
  {
    IndentedStep(code, pos, k, level);
  }

  /** The code with a newline added when its last line has none. */
  function Terminated(code: string): string {
    code + if code == "" || code[|code| - 1] == '\n' then "" else "\n"
  }

  /** Splitting after a newline: the first line, the newline, then the rest terminated. */
  lemma TerminatedSplit(code: string, k: nat)
    requires k < |code| && code[k] == '\n'
    ensures code == code[..k] + "\n" + code[k + 1..]
    ensures Terminated(code) == code[..k] + "\n" + Terminated(code[k + 1..])
  {
    var rest := code[k + 1..];
    assert code == code[..k] + "\n" + rest;
    if rest != "" {
      assert code[|code| - 1] == rest[|rest| - 1];
    }
  }

  /** At level zero, indenting gives back the code, with a newline added when its last
      line has none. */
  lemma {:induction false} IndentAtLevelZero(code: string)
    ensures Indented(code, 0) == code + if code == "" || code[|code| - 1] == '\n' then "" else "\n"
    decreases |code|
  {
    if code != "" {
      var k := NewlineAt(code);
      assert code[0..] == code && code[0..k] == code[..k];
      IndentedStep(code, 0, k, 0);
      assert IndentLine(code[..k], 0) == code[..k];
      if k == |code| {
        assert code[k..] == "";
      } else {
        IndentAtLevelZero(code[k + 1..]);
        TerminatedSplit(code, k);
      }
    }
  }

  /** One parameter as printed: its type (the pair's second) before its name. */
  function Parameter(p: (string, string)): string {
    p.1 + " " + p.0
  }

  function Parameters(params: seq<(string, string)>): (r: seq<string>)
    ensures |r| == |params| && forall i :: 0 <= i < |params| ==> r[i] == Parameter(params[i])
  {
    seq(|params|, i requires 0 <= i < |params| => Parameter(params[i]))
  }

  /** "ret name(T1 n1, T2 n2" — the part a prototype and a definition share. */
  function Header(name: string, returnType: string, params: seq<(string, string)>): string {
    returnType + " " + name + "(" + Join(Parameters(params), ", ")
  }

  function FunctionDeclaration(name: string, returnType: string, params: seq<(string, string)>): string {
    Header(name, returnType, params) + ");\n"
  }

  function FunctionDefinition(name: string, returnType: string, params: seq<(string, string)>, body: string, level: nat): string {
    Header(name, returnType, params) + ") {\n" + Indented(body, level) + "}\n"
  }

  function FunctionCall(name: string, arguments: seq<string>): string {
    name + "(" + Join(arguments, ", ") + ")"
  }

  /** The parts of a joined list sit one after another, each starting where the
      previous ones and their separators end. */
  function JoinOffset(parts: seq<string>, sep: string, i: nat): nat
    requires i <= |parts|
  {
    if i == 0 then 0 else JoinOffset(parts, sep, i - 1) + |parts[i - 1]| + |sep|
  }

  lemma {:induction false} JoinHasPartsInOrder(parts: seq<string>, sep: string, i: nat)
    requires i < |parts|
    ensures JoinOffset(parts, sep, i) + |parts[i]| <= |Join(parts, sep)|
    ensures Join(parts, sep)[JoinOffset(parts, sep, i)..JoinOffset(parts, sep, i) + |parts[i]|] == parts[i]
    decreases |parts|
  {
    var n := |parts|;
    if n > 1 {
      var init := parts[..n - 1];
      assert Join(parts, sep) == Join(init, sep) + sep + parts[n - 1];
      JoinOffsetPrefix(parts, init, sep, i);
      if i < n - 1 {
        JoinHasPartsInOrder(init, sep, i);
        assert init[i] == parts[i];
      } else {
        JoinLength(init, sep);
        JoinOffsetPrefix(parts, init, sep, n - 1);
        assert JoinOffset(parts, sep, n - 1) == |Join(init, sep)| + |sep|;
      }
    }
  }

  lemma {:induction false} JoinOffsetPrefix(parts: seq<string>, init: seq<string>, sep: string, i: nat)
    requires |init| <= |parts| && i <= |init| && init == parts[..|init|]
    ensures JoinOffset(parts, sep, i) == JoinOffset(init, sep, i)
  {
    if i > 0 {
      JoinOffsetPrefix(parts, init, sep, i - 1);
    }
  }

  lemma {:induction false} JoinLength(parts: seq<string>, sep: string)
    requires |parts| > 0
    ensures JoinOffset(parts, sep, |parts| - 1) + |parts[|parts| - 1]| == |Join(parts, sep)|
    decreases |parts|
  {
    var n := |parts|;
    if n > 1 {
      var init := parts[..n - 1];
      JoinLength(init, sep);
      JoinOffsetPrefix(parts, init, sep, n - 1);
      JoinOffsetPrefix(parts, init, sep, n - 2);
    }
  }

  /** Every argument of a generated call appears in it, in order, after "name(". */
  lemma CallHasArguments(name: string, arguments: seq<string>, i: nat)
    requires i < |arguments|
    ensures var at := |name| + 1 + JoinOffset(arguments, ", ", i);
      at + |arguments[i]| <= |FunctionCall(name, arguments)|
      && FunctionCall(name, arguments)[at..at + |arguments[i]|] == arguments[i]
  {
    var o := JoinOffset(arguments, ", ", i);
    JoinHasPartsInOrder(arguments, ", ", i);
    var call := FunctionCall(name, arguments);
    var j := Join(arguments, ", ");
    var at := |name| + 1 + o;
    var len := |arguments[i]|;
    assert j[o..o + len] == arguments[i];
    assert call == name + "(" + j + ")";
    SliceOfMiddle(call, name + "(", j, ")", at, o, len);
    assert call[at..at + len] == j[o..o + len];
  }

  /** ", a1, a2": each argument of an AI call follows its own separator. */
  function EachAfterComma(arguments: seq<string>): string {
    if arguments == [] then "" else EachAfterComma(arguments[..|arguments| - 1]) + ", " + arguments[|arguments| - 1]
  }

  /** The model's string comes first among the call's arguments. */
  function ModelArgument(model: string): string {
    "createString(\"" + model + "\")"
  }

  function AIModelCall(model: string, arguments: seq<string>): string {
    "/* AI model call: " + model + " */\n" + "aiCall({" + ModelArgument(model) + EachAfterComma(arguments) + "})"
  }

  /** The AI call's list is the model's string followed by the arguments, joined by
      ", " — the same list a function call prints. */
  lemma {:induction false} AIArgumentsAreJoined(first: string, arguments: seq<string>)
    ensures first + EachAfterComma(arguments) == Join([first] + arguments, ", ")
    decreases |arguments|
  {
    var n := |arguments|;
    if n > 0 {
      var init := arguments[..n - 1];
      AIArgumentsAreJoined(first, init);
      assert ([first] + arguments)[..n] == [first] + init;
      assert ([first] + arguments)[n] == arguments[n - 1];
    }
  }

  /** The generator object: its indentation level starts at 0 and nothing changes it. */
  class Generator {
    const indentationLevel: nat

    constructor()
      ensures indentationLevel == 0
    {
      indentationLevel := 0;
    }

    /** indent's getline loop: scan to the next newline, emit that line indented. */
    method Indent(code: string) returns (r: string)
      ensures r == Indented(code, indentationLevel)
    {
      var level := indentationLevel;
      r := "";
      var pos := 0;
      while pos < |code|
        invariant 0 <= pos <= |code|
        invariant r + Indented(code[pos..], level) == Indented(code, level)
        decreases |code| - pos
      {
        var k := LineEnd(code, pos);
        IndentedAdvance(code, pos, k, level, r);
        r := r + IndentLine(code[pos..k], level) + "\n";
        pos := if k < |code| then k + 1 else k;
      }
      assert code[|code|..] == "";
    }

    /** std::getline's scan: the first newline at or after `pos`, or the end. */
    static method LineEnd(code: string, pos: nat) returns (k: nat)
      requires pos <= |code|
      ensures pos <= k <= |code| && (k < |code| ==> code[k] == '\n')
      ensures forall j :: pos <= j < k ==> code[j] != '\n'
    {
      k := pos;
      while k < |code| && code[k] != '\n'
        invariant pos <= k <= |code|
        invariant forall j :: pos <= j < k ==> code[j] != '\n'
      {
        k := k + 1;
      }
    }

    /** The parameter loop shared by prototypes and definitions. */
    method WriteHeader(name: string, returnType: string, params: seq<(string, string)>) returns (r: string)
      ensures r == Header(name, returnType, params)
    {
      var head := returnType + " " + name + "(";
      ghost var ps := Parameters(params);
      var joined := "";
      var i := 0;
      while i < |params|
        invariant 0 <= i <= |params|
        invariant joined == Join(ps[..i], ", ")
      {
        JoinStep(ps, i, joined, ", ");
        if i > 0 {
          joined := joined + ", ";
        }
        joined := joined + Parameter(params[i]);
        i := i + 1;
      }
      assert ps[..i] == ps;
      r := head + joined;
    }

    method GenerateFunctionDeclaration(name: string, returnType: string, params: seq<(string, string)>) returns (r: string)
      ensures r == FunctionDeclaration(name, returnType, params)
    {
      r := WriteHeader(name, returnType, params);
      r := r + ");\n";
    }

    method GenerateFunctionDefinition(name: string, returnType: string, params: seq<(string, string)>, body: string)
      returns (r: string)
      ensures r == FunctionDefinition(name, returnType, params, body, indentationLevel)
    {
      r := WriteHeader(name, returnType, params);
      var b := Indent(body);
      r := r + ") {\n" + b + "}\n";
    }

    /** generateVariableDeclaration: the " = init" part exactly when an initializer is given. */
    function VariableDeclaration(name: string, type_: string, initialValue: string): (r: string)
      ensures initialValue == "" ==> r == type_ + " " + name + ";\n"
      ensures initialValue != "" ==> r == type_ + " " + name + " = " + initialValue + ";\n"
    {
      type_ + " " + name + (if initialValue != "" then " = " + initialValue else "") + ";\n"
    }

    /** generateIfStatement: the else block is emitted only when there is one. */
    function IfStatement(condition: string, thenBranch: string, elseBranch: string): (r: string)
      ensures elseBranch == "" ==> r == "if (" + condition + ") {\n" + Indented(thenBranch, indentationLevel) + "}\n"
      ensures elseBranch != "" ==>
        r == "if (" + condition + ") {\n" + Indented(thenBranch, indentationLevel) + "}"
             + " else {\n" + Indented(elseBranch, indentationLevel) + "}\n"
    {
      "if (" + condition + ") {\n" + Indented(thenBranch, indentationLevel) + "}"
      + (if elseBranch != "" then " else {\n" + Indented(elseBranch, indentationLevel) + "}" else "")
      + "\n"
    }

    /** generateForLoop: the three clauses in the header, the body indented inside the
        braces. */
    function ForLoop(init: string, condition: string, update: string, body: string): (r: string)
      ensures var head := "for (" + init + "; " + condition + "; " + update + ") {\n";
        |r| == |head| + |Indented(body, indentationLevel)| + 2 && r[..|head|] == head
        && r[|head|..|r| - 2] == Indented(body, indentationLevel) && r[|r| - 2..] == "}\n"
    {
      var head := "for (" + init + "; " + condition + "; " + update + ") {\n";
      var r := head + Indented(body, indentationLevel) + "}\n";
      assert r[..|head|] == head && r[|head|..|r| - 2] == Indented(body, indentationLevel);
      r
    }

    /** generateWhileLoop: the condition in the header, the body indented inside the
        braces. */
    function WhileLoop(condition: string, body: string): (r: string)
      ensures var head := "while (" + condition + ") {\n";
        |r| == |head| + |Indented(body, indentationLevel)| + 2 && r[..|head|] == head
        && r[|head|..|r| - 2] == Indented(body, indentationLevel) && r[|r| - 2..] == "}\n"
    {
      var head := "while (" + condition + ") {\n";
      var r := head + Indented(body, indentationLevel) + "}\n";
      assert r[..|head|] == head && r[|head|..|r| - 2] == Indented(body, indentationLevel);
      r
    }

    /** generateReturnStatement: a bare return for an empty value. */
    function ReturnStatement(value: string): (r: string)
      ensures value == "" ==> r == "return;\n"
      ensures value != "" ==> r == "return " + value + ";\n"
    {
      if value == "" then "return;\n" else "return " + value + ";\n"
    }

    method GenerateFunctionCall(name: string, arguments: seq<string>) returns (r: string)
      ensures r == FunctionCall(name, arguments)
    {
      var joined := "";
      var i := 0;
      while i < |arguments|
        invariant 0 <= i <= |arguments|
        invariant joined == Join(arguments[..i], ", ")
      {
        JoinStep(arguments, i, joined, ", ");
        if i > 0 {
          joined := joined + ", ";
        }
        joined := joined + arguments[i];
        i := i + 1;
      }
      assert arguments[..i] == arguments;
      r := name + "(" + joined + ")";
    }

    method GenerateAIModelCall(model: string, arguments: seq<string>) returns (r: string)
      ensures r == AIModelCall(model, arguments)
    {
      r := "/* AI model call: " + model + " */\n" + "aiCall({" + ModelArgument(model);
      var i := 0;
      while i < |arguments|
        invariant 0 <= i <= |arguments|
        invariant r == "/* AI model call: " + model + " */\n" + "aiCall({" + ModelArgument(model) + EachAfterComma(arguments[..i])
      {
        assert arguments[..i + 1][..i] == arguments[..i];
        r := r + ", " + arguments[i];
        i := i + 1;
      }
      assert arguments[..i] == arguments;
      r := r + "})";
    }

    /** generateProgram: the four sections in order, each of the first three followed by
        a newline. */
    function Program(headerCode: string, declarations: string, definitions: string, mainCode: string): (r: string)
      ensures |r| == |headerCode| + |declarations| + |definitions| + |mainCode| + 3
      ensures r[..|headerCode|] == headerCode
      ensures r[|r| - |mainCode|..] == mainCode
      ensures r[|headerCode| + 1..|headerCode| + 1 + |declarations|] == declarations
      ensures r[|headerCode| + |declarations| + 2..|r| - |mainCode| - 1] == definitions
      ensures r[|headerCode|] == '\n' && r[|headerCode| + |declarations| + 1] == '\n' && r[|r| - |mainCode| - 1] == '\n'
    {
      var r := headerCode + "\n" + declarations + "\n" + definitions + "\n" + mainCode;
      assert r[|headerCode| + |declarations| + 2..|r| - |mainCode| - 1] == definitions;
      r
    }
  }

  /** generateStandardHeaders: the includes and using-directive every program starts with. */
  const StandardHeaders: string :=
    "#include <iostream>\n#include <vector>\n#include <string>\n#include <memory>\n#include <cmath>\n"
    + "#include <functional>\n#include <unordered_map>\n\n// ML Runtime Library\n#include \"runtime.h\"\n\n"
    + "using namespace ml_runtime;\n\n"

  /** A prototype and a definition begin with the same header; a definition at level 0
      carries its body as written, newline-terminated. */
  lemma DeclarationMatchesDefinition(name: string, returnType: string, params: seq<(string, string)>, body: string)
    ensures FunctionDeclaration(name, returnType, params) == Header(name, returnType, params) + ");\n"
    ensures FunctionDefinition(name, returnType, params, body, 0) == Header(name, returnType, params) + ") {\n"
      + body + (if body == "" || body[|body| - 1] == '\n' then "" else "\n") + "}\n"
  {
    IndentAtLevelZero(body);
  }

  /** The initialiser is present exactly when one is given (for names and types with no '='). */
  lemma InitializerOnlyWhenGiven(g: Generator, name: string, type_: string, initialValue: string)
    requires '=' !in name && '=' !in type_
    ensures '=' in g.VariableDeclaration(name, type_, initialValue) <==> initialValue != ""
  {
    var r := g.VariableDeclaration(name, type_, initialValue);
    if initialValue != "" {
      assert r[|type_ + " " + name| + 1] == '=';
    } else {
      assert r == type_ + " " + name + ";\n";
    }
  }
}
