/** The assistant screen's view model (`ui/viewmodels/AIAssistantViewModel.kt`):
    the chat transcript, the loading flag, the current model and
    configuration, and the code context handed to the service. A send and
    a quick action each run in two steps, the part before the service is
    asked and the part after it answers; the helpers that read the code
    context out of an editor buffer are functions. */
module Assistant {
  import opened Wrappers
  import opened Seqs
  import opened Strings
  import opened GeminiAI

  /** `ChatMessage` (its timestamp is not modelled). */
  datatype ChatMessage = ChatMessage(content: string, isUser: bool, suggestions: seq<string> := [],
                                     isError: bool := false)

  // ---------------------------------------------------------------------
  // Reading the code context out of the editor buffer

  /** The window of `extractSurroundingCode`: ten lines either side of
      `line`, clipped to the buffer. */
  function WindowStart(line: int): int {
    if line - 10 < 0 then 0 else line - 10
  }

  function WindowEnd(lineCount: nat, line: int): int {
    if lineCount < line + 10 then lineCount else line + 10
  }

  /** `extractSurroundingCode`: the lines of the window joined again; `subList`
      throws (None here) when the line lies more than ten lines outside the
      buffer. */
  function ExtractSurroundingCode(code: string, line: int): (r: Option<string>)
    ensures r.None? <==> line < -10 || line > |Split(code, "\n")| + 10
  {
    var lines := Split(code, "\n");
    var start, end := WindowStart(line), WindowEnd(|lines|, line);
    if start > end then None else Some(Join(lines[start..end], "\n"))
  }

  /** The surrounding code consists of the buffer's lines `start` to `end`,
      at most twenty of them, all within ten lines of `line`. */
  lemma SurroundingCodeLines(code: string, line: int)
    requires ExtractSurroundingCode(code, line).Some?
    ensures var lines := Split(code, "\n");
            var start, end := WindowStart(line), WindowEnd(|lines|, line);
            var r := ExtractSurroundingCode(code, line).value;
            0 <= start <= end <= |lines|
            && (start < end ==> Split(r, "\n") == lines[start..end])
            && (start == end ==> r == "")
            && end - start <= 20
            && line - 10 <= start && end <= line + 10
  {
    var lines := Split(code, "\n");
    var start, end := WindowStart(line), WindowEnd(|lines|, line);
    if start < end {
      SplitPiecesFree(code, '\n');
      SplitJoin(lines[start..end], '\n');
    }
  }

  /** A character `\s` matches in a Java regular expression. */
  predicate RegexSpace(c: char) {
    c == ' ' || c == '\t' || c == '\n' || c == '\U{000B}' || c == '\U{000C}' || c == '\r'
  }

  predicate IdentStart(c: char) {
    'a' <= c <= 'z' || 'A' <= c <= 'Z' || c == '_'
  }

  predicate IdentChar(c: char) {
    IdentStart(c) || '0' <= c <= '9'
  }

  /** A character of a dotted module path. */
  predicate ModuleChar(c: char) {
    IdentChar(c) || c == '.'
  }

  /** `[a-zA-Z_][a-zA-Z0-9_]*`. */
  predicate IsIdentifier(s: string) {
    s != [] && IdentStart(s[0]) && forall i :: 0 <= i < |s| ==> IdentChar(s[i])
  }

  /** `[a-zA-Z_][a-zA-Z0-9_.]*`. */
  predicate IsModulePath(s: string) {
    s != [] && IdentStart(s[0]) && forall i :: 0 <= i < |s| ==> ModuleChar(s[i])
  }

  predicate AllSpace(s: string) {
    forall i :: 0 <= i < |s| ==> RegexSpace(s[i])
  }

  /** The length of the longest prefix whose characters satisfy `p`: how
      far a greedy `p*` reaches. */
  function Span(s: string, p: char -> bool): (n: nat)
    ensures n <= |s|
    ensures forall i :: 0 <= i < n ==> p(s[i])
    ensures n < |s| ==> !p(s[n])
  {
    if s == [] || !p(s[0]) then 0 else 1 + Span(s[1..], p)
  }

  /** A greedy run stops exactly where a stretch of matching characters ends. */
  lemma SpanAppend(a: string, b: string, p: char -> bool)
    requires forall i :: 0 <= i < |a| ==> p(a[i])
    requires b == [] || !p(b[0])
    ensures Span(a + b, p) == |a|
  {
    assert forall i :: 0 <= i < |a| ==> (a + b)[i] == a[i];
    assert b != [] ==> (a + b)[|a|] == b[0];
  }

  /** The name a line assigns, as `^([a-zA-Z_][a-zA-Z0-9_]*)\s*=.*$` captures
      it on that line: a whole identifier, optional spaces, then `=`. */
  function VariableName(line: string): (r: Option<string>)
    ensures r.Some? ==> IsIdentifier(r.value) && StartsWith(line, r.value)
  {
    if line == [] || !IdentStart(line[0]) then None
    else
      var n := Span(line, IdentChar);
      var w := Span(line[n..], RegexSpace);
      if n + w < |line| && line[n + w] == '=' then Some(line[..n]) else None
  }

  /** An assignment `name = value` names `name`. */
  lemma VariableNameOfAssignment(name: string, spaces: string, value: string)
    requires IsIdentifier(name) && AllSpace(spaces)
    ensures VariableName(name + spaces + "=" + value) == Some(name)
  {
    var line := name + spaces + "=" + value;
    assert line == name + (spaces + "=" + value);
    assert (spaces + "=" + value)[0] == (if spaces == [] then '=' else spaces[0]);
    SpanAppend(name, spaces + "=" + value, IdentChar);
    assert line[|name|..] == spaces + ("=" + value);
    SpanAppend(spaces, "=" + value, RegexSpace);
    assert line[|name| + |spaces|] == '=';
    assert line[..|name|] == name;
  }

  /** `extractVariables`: the assigned names, each once, in the order of
      their first assignment. */
  function ExtractVariables(code: string): (r: seq<string>)
    ensures NoDup(r)
    ensures forall i :: 0 <= i < |r| ==> IsIdentifier(r[i])
    ensures forall i :: 0 <= i < |r| ==> r[i] in MapNotNull(Split(code, "\n"), VariableName)
    ensures forall k :: 0 <= k < |Split(code, "\n")| && VariableName(Split(code, "\n")[k]).Some? ==>
              VariableName(Split(code, "\n")[k]).value in r
  {
    var lines := Split(code, "\n");
    var names := MapNotNull(lines, VariableName);
    MapNotNullEvery(lines, VariableName, IsIdentifier);
    forall k | 0 <= k < |lines| && VariableName(lines[k]).Some?
      ensures VariableName(lines[k]).value in names
    {
      MapNotNullIncludes(lines, VariableName, k);
    }
    Distinct(names)
  }

  /** Two variables appear in the order their first assignments do. */
  lemma VariablesInFirstAssignmentOrder(code: string, i: nat, j: nat)
    requires i < j < |ExtractVariables(code)|
    ensures var names := MapNotNull(Split(code, "\n"), VariableName);
            var r := ExtractVariables(code);
            r[i] in names && r[j] in names && FirstIndex(names, r[i]) < FirstIndex(names, r[j])
  {
    DistinctOrder(MapNotNull(Split(code, "\n"), VariableName), i, j);
  }

  /** The name a line defines, as `^def\s+([a-zA-Z_][a-zA-Z0-9_]*)\s*\(.*\):.*$`
      captures it on that line. */
  function FunctionName(line: string): (r: Option<string>)
    ensures r.Some? ==> IsIdentifier(r.value) && StartsWith(line, "def")
  {
    if !StartsWith(line, "def") then None
    else
      var s1 := line[3..];
      var w := Span(s1, RegexSpace);
      var s2 := s1[w..];
      if w == 0 || s2 == [] || !IdentStart(s2[0]) then None
      else
        var n := Span(s2, IdentChar);
        var s3 := s2[n..];
        var s4 := s3[Span(s3, RegexSpace)..];
        if s4 != [] && s4[0] == '(' && Contains(s4[1..], "):") then Some(s2[..n]) else None
  }

  /** `def name(params):` defines `name`. */
  lemma FunctionNameOfDef(name: string, params: string, rest: string)
    requires IsIdentifier(name)
    ensures FunctionName("def " + name + "(" + params + "):" + rest) == Some(name)
  {
    var line := "def " + name + "(" + params + "):" + rest;
    var s1 := line[3..];
    assert s1 == " " + (name + ("(" + params + "):" + rest));
    SpanAppend(" ", name + ("(" + params + "):" + rest), RegexSpace);
    var s2 := s1[1..];
    assert s2 == name + ("(" + params + "):" + rest);
    SpanAppend(name, "(" + params + "):" + rest, IdentChar);
    var s3 := s2[|name|..];
    assert s3 == "(" + params + "):" + rest;
    assert Span(s3, RegexSpace) == 0;
    assert s3[1..] == params + "):" + rest;
    ContainsMiddle(params, "):", rest);
    assert s2[..|name|] == name;
  }

  /** `extractFunctions`: the defined names, in order; every line that
      defines a name gives it. */
  function ExtractFunctions(code: string): (r: seq<string>)
    ensures forall i :: 0 <= i < |r| ==> IsIdentifier(r[i])
    ensures forall k :: 0 <= k < |Split(code, "\n")| && FunctionName(Split(code, "\n")[k]).Some? ==>
              FunctionName(Split(code, "\n")[k]).value in r
  {
    var lines := Split(code, "\n");
    MapNotNullEvery(lines, FunctionName, IsIdentifier);
    forall k | 0 <= k < |lines| && FunctionName(lines[k]).Some?
      ensures FunctionName(lines[k]).value in MapNotNull(lines, FunctionName)
    {
      MapNotNullIncludes(lines, FunctionName, k);
    }
    MapNotNull(lines, FunctionName)
  }

  /** The line the `i`-th listed function is defined on. */
  function DefiningLine(code: string, i: nat): (k: nat)
    requires i < |ExtractFunctions(code)|
    ensures k < |Split(code, "\n")|
    ensures FunctionName(Split(code, "\n")[k]) == Some(ExtractFunctions(code)[i])
  {
    MapNotNullOrigin(Split(code, "\n"), FunctionName, i)
  }

  /** Functions are listed in the order of the lines that define them. */
  lemma FunctionsInLineOrder(code: string, i: nat, j: nat)
    requires i < j < |ExtractFunctions(code)|
    ensures DefiningLine(code, i) < DefiningLine(code, j)
  {
    MapNotNullOrder(Split(code, "\n"), FunctionName, i, j);
  }

  /** The length of ` as alias` at the start of `s`, or 0 when there is none. */
  function AliasLength(s: string): (k: nat)
    ensures k <= |s|
  {
    var w1 := Span(s, RegexSpace);
    var t := s[w1..];
    if w1 == 0 || !StartsWith(t, "as") then 0
    else
      var w2 := Span(t[2..], RegexSpace);
      var u := t[2 + w2..];
      if w2 == 0 || u == [] || !IdentStart(u[0]) then 0 else w1 + 2 + w2 + Span(u, IdentChar)
  }

  /** What may follow the captured name: spaces, then the end of the line or
      `import` and anything after it. */
  predicate ImportTail(t: string) {
    var u := t[Span(t, RegexSpace)..];
    u == [] || StartsWith(u, "import")
  }

  /** The module a line imports, as the import pattern captures it on that
      line: `import` or `from`, spaces, a dotted path with an optional
      ` as alias`, then the end of the line or the `import` of a `from`. */
  function ImportName(line: string): (r: Option<string>)
    ensures r.Some? ==> r.value != [] && IdentStart(r.value[0])
    ensures r.Some? ==> StartsWith(line, "import") || StartsWith(line, "from")
  {
    if StartsWith(line, "import") then ImportedAfterKeyword(line[6..])
    else if StartsWith(line, "from") then ImportedAfterKeyword(line[4..])
    else None
  }

  /** The capture of the import pattern on what follows its keyword. */
  function ImportedAfterKeyword(s1: string): (r: Option<string>)
    ensures r.Some? ==> r.value != [] && IdentStart(r.value[0])
  {
    var w := Span(s1, RegexSpace);
    var s2 := s1[w..];
    if w == 0 then None
    else match CaptureLength(s2)
      case None => None
      case Some(n) => Some(s2[..n])
  }

  /** How much of the text after the spaces the import pattern captures. */
  function CaptureLength(s2: string): (r: Option<nat>)
    ensures r.Some? ==> 0 < r.value <= |s2| && IdentStart(s2[0])
  {
    if s2 == [] || !IdentStart(s2[0]) then None
    else
      var n := Span(s2, ModuleChar);
      var s3 := s2[n..];
      var k := AliasLength(s3);
      if k > 0 && ImportTail(s3[k..]) then Some(n + k)
      else if ImportTail(s3) then Some(n)
      else None
  }

  /** A module path followed by a tail without an alias is captured whole. */
  lemma CapturePath(path: string, tail: string)
    requires IsModulePath(path)
    requires tail == [] || !ModuleChar(tail[0])
    requires AliasLength(tail) == 0 && ImportTail(tail)
    ensures CaptureLength(path + tail) == Some(|path|)
  {
    var s2 := path + tail;
    SpanAppend(path, tail, ModuleChar);
    assert s2[|path|..] == tail;
    assert s2[0] == path[0];
  }

  /** A space, a module path and a tail without an alias capture the path. */
  lemma ImportedPath(path: string, tail: string)
    requires IsModulePath(path)
    requires tail == [] || !ModuleChar(tail[0])
    requires AliasLength(tail) == 0 && ImportTail(tail)
    ensures ImportedAfterKeyword(" " + path + tail) == Some(path)
  {
    var s2 := path + tail;
    var s1 := " " + s2;
    assert " " + path + tail == s1;
    assert !RegexSpace(s2[0]) by { assert s2[0] == path[0]; }
    SpanAppend(" ", s2, RegexSpace);
    assert s1[1..] == s2;
    CapturePath(path, tail);
    assert s2[..|path|] == path;
  }

  /** `import path` imports `path`. */
  lemma ImportNameOfImport(path: string)
    requires IsModulePath(path)
    ensures ImportName("import " + path) == Some(path)
  {
    var line := "import " + path;
    assert StartsWith(line, "import");
    assert line[6..] == " " + path + [];
    ImportedPath(path, []);
  }

  /** `from path import names` imports `path`. */
  lemma ImportNameOfFrom(path: string, names: string)
    requires IsModulePath(path)
    ensures ImportName("from " + path + " import " + names) == Some(path)
  {
    var line := "from " + path + " import " + names;
    assert !StartsWith(line, "import") by { assert line[0] == 'f'; }
    assert StartsWith(line, "from");
    var tail := " import " + names;
    assert line[4..] == " " + path + tail;
    FromTail(names);
    ImportedPath(path, tail);
  }

  /** The ` import names` of a `from` line is no alias and may end the capture. */
  lemma FromTail(names: string)
    ensures AliasLength(" import " + names) == 0 && ImportTail(" import " + names)
  {
    var tail := " import " + names;
    SpanAppend(" ", "import " + names, RegexSpace);
    assert tail == " " + ("import " + names);
    assert tail[1..] == "import " + names;
    assert tail[1..][..2] == "im";
    assert tail[1..][..6] == "import";
  }

  /** `extractImports`, line by line: the imported modules, in order; every
      line that imports a module gives it. */
  function ExtractImports(code: string): (r: seq<string>)
    ensures forall k :: 0 <= k < |Split(code, "\n")| && ImportName(Split(code, "\n")[k]).Some? ==>
              ImportName(Split(code, "\n")[k]).value in r
    ensures |r| <= |Split(code, "\n")|
  {
    var lines := Split(code, "\n");
    forall k | 0 <= k < |lines| && ImportName(lines[k]).Some?
      ensures ImportName(lines[k]).value in MapNotNull(lines, ImportName)
    {
      MapNotNullIncludes(lines, ImportName, k);
    }
    MapNotNull(lines, ImportName)
  }

  /** The line the `i`-th listed module is imported on. */
  function ImportingLine(code: string, i: nat): (k: nat)
    requires i < |ExtractImports(code)|
    ensures k < |Split(code, "\n")|
    ensures ImportName(Split(code, "\n")[k]) == Some(ExtractImports(code)[i])
  {
    MapNotNullOrigin(Split(code, "\n"), ImportName, i)
  }

  /** Modules are listed in the order of the lines that import them. */
  lemma ImportsInLineOrder(code: string, i: nat, j: nat)
    requires i < j < |ExtractImports(code)|
    ensures ImportingLine(code, i) < ImportingLine(code, j)
  {
    MapNotNullOrder(Split(code, "\n"), ImportName, i, j);
  }

  /** The capture on `line` is followed on that line by `\s` only, so that
      the `\s*` after it goes on over the line break. */
  predicate OpenImport(line: string) {
    if StartsWith(line, "import") then OpenAfterKeyword(line[6..])
    else if StartsWith(line, "from") then OpenAfterKeyword(line[4..])
    else false
  }

  predicate OpenAfterKeyword(s1: string) {
    var w := Span(s1, RegexSpace);
    var s2 := s1[w..];
    w > 0 && match CaptureLength(s2)
      case None => false
      case Some(n) => AllSpace(s2[n..])
  }

  predicate HasText(line: string) {
    !AllSpace(line)
  }

  /** The imports `findAll` reports over the whole text, where `\s` also
      matches the line break. After an open capture, `\s*` runs on over
      blank lines and indentation; when the text it reaches starts with
      `import`, `(?:import.*)?` takes the rest of that line into the same
      match, and that line's own import is never reported. */
  function ImportsAcrossLines(lines: seq<string>): (r: seq<string>)
    ensures |r| <= |lines|
    ensures forall i :: 0 <= i < |r| ==> r[i] != [] && IdentStart(r[i][0])
    decreases |lines|
  {
    if lines == [] then []
    else match ImportName(lines[0])
      case None => ImportsAcrossLines(lines[1..])
      case Some(m) =>
        match FindIndex(lines[1..], HasText)
        case Some(k) =>
          var next := lines[k + 1];
          if OpenImport(lines[0]) && StartsWith(next[Span(next, RegexSpace)..], "import")
          then [m] + ImportsAcrossLines(lines[k + 2..])
          else [m] + ImportsAcrossLines(lines[1..])
        case None => [m] + ImportsAcrossLines(lines[1..])
  }

  /** `extractImports` as the pattern is written, applied to the whole text. */
  function ExtractImportsAsWritten(code: string): (r: seq<string>)
    ensures |r| <= |Split(code, "\n")|
  {
    ImportsAcrossLines(Split(code, "\n"))
  }

  /** Two consecutive import lines: as written, the first match swallows
      the second line and only the first module is reported; line by line,
      both are. */
  lemma ConsecutiveImports(a: string, b: string)
    requires IsModulePath(a) && IsModulePath(b)
    ensures ExtractImportsAsWritten(("import " + a) + "\n" + ("import " + b)) == [a]
    ensures ExtractImports(("import " + a) + "\n" + ("import " + b)) == [a, b]
  {
    var l1, l2 := "import " + a, "import " + b;
    PlainImportLine(a);
    PlainImportLine(b);
    TwoLines(l1, l2);
    SwallowedImport(a, b);
    ImportsLineByLine(a, b);
  }

  /** The smallest instance: `import os` then `import sys`. */
  lemma ConsecutiveImportsOsSys()
    ensures ExtractImportsAsWritten("import os\nimport sys") == ["os"]
    ensures ExtractImports("import os\nimport sys") == ["os", "sys"]
  {
    assert IsModulePath("os") && IsModulePath("sys");
    ConsecutiveImports("os", "sys");
    assert ("import " + "os") + "\n" + ("import " + "sys") == "import os\nimport sys";
  }

  lemma PlainImportLine(a: string)
    requires IsModulePath(a)
    ensures '\n' !in "import " + a
  {
    assert forall i :: 0 <= i < |a| ==> ModuleChar(a[i]);
  }

  lemma SwallowedImport(a: string, b: string)
    requires IsModulePath(a) && IsModulePath(b)
    ensures ImportsAcrossLines(["import " + a, "import " + b]) == [a]
  {
    var lines := ["import " + a, "import " + b];
    OpenImportPath(a);
    assert lines[1..] == ["import " + b];
    assert !RegexSpace(lines[1][0]);
    assert FindIndex(lines[1..], HasText) == Some(0);
    assert Span(lines[1], RegexSpace) == 0;
    assert lines[1][..6] == "import";
    assert lines[2..] == [];
  }

  lemma ImportsLineByLine(a: string, b: string)
    requires IsModulePath(a) && IsModulePath(b)
    ensures MapNotNull(["import " + a, "import " + b], ImportName) == [a, b]
  {
    var l1, l2 := "import " + a, "import " + b;
    ImportNameOfImport(a);
    ImportNameOfImport(b);
    MapNotNullOne(l1, ImportName);
    MapNotNullOne(l2, ImportName);
    MapNotNullAppend([l1], [l2], ImportName);
    assert [l1] + [l2] == [l1, l2];
  }

  lemma TwoLines(a: string, b: string)
    requires '\n' !in a && '\n' !in b
    ensures Split(a + "\n" + b, "\n") == [a, b]
  {
    assert Join([a, b], "\n") == a + "\n" + b;
    SplitJoin([a, b], '\n');
  }

  /** `import path` imports `path`, with nothing after it on the line. */
  lemma OpenImportPath(path: string)
    requires IsModulePath(path)
    ensures ImportName("import " + path) == Some(path) && OpenImport("import " + path)
  {
    var line := "import " + path;
    ImportNameOfImport(path);
    assert StartsWith(line, "import");
    assert line[6..] == " " + path;
    assert !RegexSpace(path[0]);
    SpanAppend(" ", path, RegexSpace);
    assert (" " + path)[1..] == path;
    CapturePath(path, []);
    assert path + [] == path;
  }

  // ---------------------------------------------------------------------
  // Messages

  /** The label in front of the model's name in the welcome message. */
  const CurrentModelLabel := "\U{1F916} **Current" + " Model**: "

  /** The lines of the welcome text (after `trimIndent`); the model's name
      is on the fourteenth. */
  function WelcomeLines(model: string): (lines: seq<string>)
    ensures |lines| == 16 && lines[13] == CurrentModelLabel + model
  {
    [ "\U{1F44B} **Welcome to" + " AI" + " Assistant!**",
      "",
      "I'm here to" + " help you with" + " your Python" + " code. I can:",
      "",
      "\U{2022} **Explain" + " code** - Help" + " you" + " understand" + " complex logic",
      "\U{2022} **Fix bugs**" + " - Debug and" + " suggest" + " solutions",
      "\U{2022} **Optimize" + " code** -" + " Improve" + " performance" + " and" + " readability  ",
      "\U{2022} **Generate" + " docs** -" + " Create" + " comprehensive" + " documentation",
      "\U{2022} **Review" + " code** - Best" + " practices and" + " suggestions",
      "\U{2022} **Answer" + " questions** -" + " General" + " Python and" + " programming" + " help",
      "",
      "\U{1F4A1} **Quick" + " Actions**:" + " Select any" + " code and use" + " the buttons" + " above for" + " instant help!",
      "",
      CurrentModelLabel + model,
      "",
      "Just ask me" + " anything" + " about your" + " Python code!" ]
  }

  /** `addWelcomeMessage`'s message: what the assistant offers and which
      model answers. */
  function WelcomeMessage(model: string): (m: ChatMessage)
    ensures !m.isUser && !m.isError && m.suggestions == []
    ensures Contains(m.content, CurrentModelLabel + model)
  {
    JoinContains(WelcomeLines(model), 13, "\n");
    ChatMessage(Join(WelcomeLines(model), "\n"), false)
  }

  /** What became of the service call in a coroutine: an answer, no service
      (`aiService` is null), or an exception caught around the call. */
  datatype Outcome = Answered(response: AIResponse) | NoService | Raised(detail: string)

  /** The call succeeded. */
  predicate Succeeded(outcome: Outcome) {
    outcome.Answered? && outcome.response.Success?
  }

  const ErrorLead := "\U{274C} **Error**: "

  const UnexpectedText := "\U{274C} **Unexpected" + " error" + " occurred**." + " Please try" + " again."

  /** The reply `sendMessage` posts: a success shows the answer and its
      suggestions; everything else is an error message that quotes what went
      wrong. */
  function SendReply(outcome: Outcome): (m: ChatMessage)
    ensures !m.isUser
    ensures m.isError <==> !Succeeded(outcome)
    ensures Succeeded(outcome) ==>
              m.content == outcome.response.content && m.suggestions == outcome.response.suggestions
    ensures !Succeeded(outcome) ==> m.suggestions == []
    ensures outcome.Answered? && outcome.response.Error? ==> Contains(m.content, outcome.response.message)
    ensures outcome.Raised? ==> Contains(m.content, outcome.detail)
  {
    match outcome
    case Answered(response) =>
      if response.Success? then ChatMessage(response.content, false, response.suggestions)
      else if response.Error? then
        var tail := "\n\nPlease check" + " your API key" + " in settings" + " or try again.";
        ContainsMiddle(ErrorLead, response.message, tail);
        ChatMessage(ErrorLead + response.message + tail, false, isError := true)
      else ChatMessage(UnexpectedText, false, isError := true)
    case NoService => ChatMessage(UnexpectedText, false, isError := true)
    case Raised(detail) =>
      var lead := "\U{274C} **Network" + " error**: ";
      var tail := "\n\nPlease check" + " your internet" + " connection" + " and try" + " again.";
      ContainsMiddle(lead, detail, tail);
      ChatMessage(lead + detail + tail, false, isError := true)
  }

  /** The reply `performQuickAction` posts: like `SendReply`, but no quick
      action reply is marked as an error. */
  function QuickReply(outcome: Outcome): (m: ChatMessage)
    ensures !m.isUser && !m.isError
    ensures Succeeded(outcome) ==>
              m.content == outcome.response.content && m.suggestions == outcome.response.suggestions
    ensures !Succeeded(outcome) ==> m.suggestions == []
    ensures outcome.Answered? && outcome.response.Error? ==> Contains(m.content, outcome.response.message)
    ensures outcome.Raised? ==> Contains(m.content, outcome.detail)
  {
    match outcome
    case Answered(response) =>
      if response.Success? then ChatMessage(response.content, false, response.suggestions)
      else if response.Error? then
        ContainsSelf(response.message);
        ContainsWithin(ErrorLead, response.message, response.message);
        ChatMessage(ErrorLead + response.message, false)
      else ChatMessage(UnexpectedText, false)
    case NoService => ChatMessage(UnexpectedText, false)
    case Raised(detail) =>
      ContainsSelf(detail);
      ContainsWithin(ErrorLead, detail, detail);
      ChatMessage(ErrorLead + detail, false)
  }

  /** The warning a quick action without a selection posts. */
  function NoSelectionMessage(): (m: ChatMessage)
    ensures !m.isUser && !m.isError && m.suggestions == []
  {
    ChatMessage("\U{26A0}\U{FE0F} **No code" + " selected**." + " Please select" + " some code"
                + " first to use" + " quick" + " actions.", false)
  }

  /** The user message of a quick action: the action's name, capitalised,
      and the selection quoted up to its first fifty characters, with `...`
      only when something was cut. */
  function QuickActionMessage(action: string, selected: string): (m: ChatMessage)
    ensures m.isUser && !m.isError && m.suggestions == []
    ensures StartsWith(m.content, "\U{1F527} **" + CapitalizeFirst(action) + "**: ")
    ensures |selected| <= 50 ==> EndsWith(m.content, "`" + selected + "`")
    ensures |selected| > 50 ==> EndsWith(m.content, "`" + selected[..50] + "..." + "`")
  {
    var head := "\U{1F527} **" + CapitalizeFirst(action) + "**: ";
    var quoted := "`" + Take(selected, 50) + (if |selected| > 50 then "..." else "") + "`";
    PrefixOfAppend(head, quoted);
    SuffixOfAppend(head, quoted);
    if |selected| <= 50 then
      assert Take(selected, 50) == selected;
      assert quoted == "`" + selected + "`";
      ChatMessage(head + quoted, true)
    else
      assert Take(selected, 50) == selected[..50];
      ChatMessage(head + quoted, true)
  }

  /** The request of a quick action, chosen by the action's lower-case
      name; every one of them carries the selection. */
  function QuickRequest(context: CodeContext, action: string, selected: string): (r: AIRequest)
    ensures r.context == context
    ensures Contains(r.payload, selected)
    ensures Lowercase(action) == "explain" ==> r.kind == CodeExplanation && r.payload == selected
    ensures Lowercase(action) == "fix" ==> r.kind == BugFix
    ensures Lowercase(action) == "optimize" ==> r.kind == CodeOptimization && r.payload == selected
    ensures Lowercase(action) == "review" ==> r.kind == CodeReview && r.payload == selected
    ensures Lowercase(action) == "document" ==> r.kind == GenerateDocstring && r.payload == selected
    ensures Lowercase(action) !in {"explain", "fix", "optimize", "review", "document"} ==> r.kind == CustomQuery
  {
    var name := Lowercase(action);
    ContainsSelf(selected);
    if name == "explain" then AIRequest(CodeExplanation, context, selected)
    else if name == "fix" then
      var lead := "Please analyze" + " this code for" + " potential" + " issues: ";
      ContainsWithin(lead, selected, selected);
      AIRequest(BugFix, context, lead + selected)
    else if name == "optimize" then AIRequest(CodeOptimization, context, selected)
    else if name == "review" then AIRequest(CodeReview, context, selected)
    else if name == "document" then AIRequest(GenerateDocstring, context, selected)
    else
      var lead := "Please help" + " with this" + " code: ";
      ContainsWithin(lead, selected, selected);
      AIRequest(CustomQuery, context, lead + selected)
  }

  function EnabledText(on: bool): string {
    if on then "Enabled" else "Disabled"
  }

  /** The confirmation `updateConfig` posts: one line for the model and one
      for each of the three switches. */
  function SettingsMessage(config: AIConfig): (m: ChatMessage)
    ensures !m.isUser && !m.isError && m.suggestions == []
    ensures Contains(m.content, "Model: " + config.model)
    ensures Contains(m.content, "Context Awareness: " + EnabledText(config.contextEnabled))
    ensures Contains(m.content, "Auto-completion: " + EnabledText(config.autoCompleteEnabled))
    ensures Contains(m.content, "Code Review: " + EnabledText(config.codeReviewEnabled))
  {
    var head := "\U{2705} **Settings" + " Updated**\n\n\U{2022} ";
    var bullet := "\n\U{2022} ";
    var l1 := "Model: " + config.model;
    var l2 := "Context Awareness: " + EnabledText(config.contextEnabled);
    var l3 := "Auto-completion: " + EnabledText(config.autoCompleteEnabled);
    var l4 := "Code Review: " + EnabledText(config.codeReviewEnabled);
    var t4 := bullet + l4;
    var t3 := l3 + t4;
    var u3 := bullet + t3;
    var t2 := l2 + u3;
    var u2 := bullet + t2;
    var t1 := l1 + u2;
    ContainsFront(l1, u2);
    ContainsWithin(head, t1, l1);
    ContainsFront(l2, u3);
    ContainsWithin(bullet, t2, l2);
    ContainsWithin(l1, u2, l2);
    ContainsWithin(head, t1, l2);
    ContainsFront(l3, t4);
    ContainsWithin(bullet, t3, l3);
    ContainsWithin(l2, u3, l3);
    ContainsWithin(bullet, t2, l3);
    ContainsWithin(l1, u2, l3);
    ContainsWithin(head, t1, l3);
    ContainsSelf(l4);
    ContainsWithin(bullet, l4, l4);
    ContainsWithin(l3, t4, l4);
    ContainsWithin(bullet, t3, l4);
    ContainsWithin(l2, u3, l4);
    ContainsWithin(bullet, t2, l4);
    ContainsWithin(l1, u2, l4);
    ContainsWithin(head, t1, l4);
    ChatMessage(head + t1, false)
  }

  /** The request `sendMessage` builds: `message` is the payload of a bug
      fix and of a custom query, `selectedCode` of the five others, and the
      arguments replace the context's surrounding code and selection. */
  function SendRequest(context: CodeContext, requestType: RequestKind, message: string,
                       codeContext: string, selectedCode: string): (r: AIRequest)
    ensures r.kind == requestType
    ensures r.context == context.(surroundingCode := codeContext, selectedText := selectedCode)
    ensures requestType == BugFix || requestType == CustomQuery ==> r.payload == message
    ensures requestType != BugFix && requestType != CustomQuery ==> r.payload == selectedCode
  {
    var c := context.(surroundingCode := codeContext, selectedText := selectedCode);
    match requestType
    case CodeCompletion => AIRequest(CodeCompletion, c, selectedCode)
    case CodeExplanation => AIRequest(CodeExplanation, c, selectedCode)
    case CodeReview => AIRequest(CodeReview, c, selectedCode)
    case BugFix => AIRequest(BugFix, c, message)
    case CodeOptimization => AIRequest(CodeOptimization, c, selectedCode)
    case GenerateDocstring => AIRequest(GenerateDocstring, c, selectedCode)
    case CustomQuery => AIRequest(CustomQuery, c, message)
  }

  /** `aiService?.processAIRequest(request)`. */
  function Ask(service: GeminiAIService?, request: AIRequest, send: Transport, matches: Matcher): (r: Outcome)
    reads service
    ensures r.NoService? <==> service == null
    ensures r.Answered? ==> !r.response.Loading?
  {
    if service == null then NoService else Answered(ProcessAIRequest(service.prefs, request, send, matches))
  }

  // ---------------------------------------------------------------------
  // The view model

  /** `AIAssistantViewModel`: the chat, the loading flag, the model and the
      configuration on show, the settings dialog switch and the code
      context, each a state flow the screen observes; `aiService` is the
      service object, shared with everything else that uses the store. */
  class AIAssistantViewModel {
    var aiService: GeminiAIService?
    var chatMessages: seq<ChatMessage>
    var isLoading: bool
    var currentModel: string
    var aiConfig: AIConfig
    var showSettingsDialog: bool
    var currentCodeContext: CodeContext

    /** The service, when there is one, keeps a well-typed store. */
    predicate Valid()
      reads this, aiService
    {
      aiService != null ==> aiService.Valid()
    }

    /** The initial state; `init` fetches the service at once. */
    constructor(service: GeminiAIService)
      requires service.Valid()
      ensures Valid() && aiService == service
      ensures chatMessages == [] && !isLoading && currentModel == ModelGeminiFlash
      ensures aiConfig == AIConfig() && !showSettingsDialog && currentCodeContext == CodeContext()
    {
      aiService := service;
      chatMessages := [];
      isLoading := false;
      currentModel := ModelGeminiFlash;
      aiConfig := AIConfig();
      showSettingsDialog := false;
      currentCodeContext := CodeContext();
    }

    /** `loadConfig`: the configuration and the model shown are the stored ones. */
    method LoadConfig()
      requires Valid()
      modifies this
      ensures Valid() && aiService == old(aiService)
      ensures aiService != null ==> aiConfig == GetConfig(aiService.prefs) && currentModel == aiConfig.model
      ensures aiService == null ==> aiConfig == old(aiConfig) && currentModel == old(currentModel)
      ensures chatMessages == old(chatMessages) && isLoading == old(isLoading)
      ensures showSettingsDialog == old(showSettingsDialog) && currentCodeContext == old(currentCodeContext)
    {
      if aiService != null {
        var config := GetConfig(aiService.prefs);
        aiConfig := config;
        currentModel := config.model;
      }
    }

    /** `addWelcomeMessage`: the chat becomes the welcome message alone. */
    method AddWelcomeMessage()
      modifies this
      ensures chatMessages == [WelcomeMessage(currentModel)]
      ensures aiService == old(aiService) && isLoading == old(isLoading) && currentModel == old(currentModel)
      ensures aiConfig == old(aiConfig) && showSettingsDialog == old(showSettingsDialog)
      ensures currentCodeContext == old(currentCodeContext)
    {
      chatMessages := [WelcomeMessage(currentModel)];
    }

    /** `initializeAIService`: only a view model without a service takes
        one, loads its configuration and greets the user. */
    method InitializeAIService(service: GeminiAIService)
      requires Valid() && service.Valid()
      modifies this
      ensures Valid()
      ensures old(aiService) != null ==>
                aiService == old(aiService) && chatMessages == old(chatMessages)
                && currentModel == old(currentModel) && aiConfig == old(aiConfig)
      ensures old(aiService) == null ==>
                aiService == service && aiConfig == GetConfig(service.prefs)
                && currentModel == aiConfig.model && chatMessages == [WelcomeMessage(currentModel)]
      ensures isLoading == old(isLoading) && showSettingsDialog == old(showSettingsDialog)
      ensures currentCodeContext == old(currentCodeContext)
    {
      if aiService == null {
        aiService := service;
        LoadConfig();
        AddWelcomeMessage();
      }
    }

    /** `updateCodeContext(currentCode, selectedText, currentFile,
        currentLine)`: the context takes the position, the selection, the
        surrounding lines and what the code imports and defines. A line so
        far outside the code that the window is empty-and-inverted makes
        `subList` throw: then `ok` is false and nothing changes. */
    method UpdateCodeContext(currentCode: string, selectedText: string, currentFile: string, currentLine: int)
      returns (ok: bool)
      modifies this
      ensures ok <==> ExtractSurroundingCode(currentCode, currentLine).Some?
      ensures ok ==> currentCodeContext == old(currentCodeContext).(
                       currentFile := currentFile, currentLine := currentLine, selectedText := selectedText,
                       surroundingCode := ExtractSurroundingCode(currentCode, currentLine).value,
                       imports := ExtractImports(currentCode), variables := ExtractVariables(currentCode),
                       functions := ExtractFunctions(currentCode))
      ensures !ok ==> currentCodeContext == old(currentCodeContext)
      ensures aiService == old(aiService) && chatMessages == old(chatMessages) && isLoading == old(isLoading)
      ensures currentModel == old(currentModel) && aiConfig == old(aiConfig)
      ensures showSettingsDialog == old(showSettingsDialog)
    {
      var surrounding := ExtractSurroundingCode(currentCode, currentLine);
      if surrounding.None? {
        return false;
      }
      currentCodeContext := currentCodeContext.(
        currentFile := currentFile, currentLine := currentLine, selectedText := selectedText,
        surroundingCode := surrounding.value, imports := ExtractImports(currentCode),
        variables := ExtractVariables(currentCode), functions := ExtractFunctions(currentCode));
      return true;
    }

    /** `updateCodeContext(context)`: the context is replaced as given. */
    method SetCodeContext(context: CodeContext)
      modifies this
      ensures currentCodeContext == context
      ensures aiService == old(aiService) && chatMessages == old(chatMessages) && isLoading == old(isLoading)
      ensures currentModel == old(currentModel) && aiConfig == old(aiConfig)
      ensures showSettingsDialog == old(showSettingsDialog)
    {
      currentCodeContext := context;
    }

    /** `sendMessage`, up to the `launch`: the user's message joins the
        chat and the assistant is busy. */
    method SendMessage(message: string)
      modifies this
      ensures chatMessages == old(chatMessages) + [ChatMessage(message, true)]
      ensures isLoading
      ensures aiService == old(aiService) && currentModel == old(currentModel) && aiConfig == old(aiConfig)
      ensures showSettingsDialog == old(showSettingsDialog) && currentCodeContext == old(currentCodeContext)
    {
      chatMessages := chatMessages + [ChatMessage(message, true)];
      isLoading := true;
    }

    /** The coroutine `sendMessage` launches, run to its end: the request
        is built from the context as it is when the coroutine runs, the
        reply joins the chat and the assistant is no longer busy. */
    method CompleteSend(message: string, requestType: RequestKind, codeContext: string, selectedCode: string,
                        send: Transport, matches: Matcher)
      modifies this
      ensures chatMessages == old(chatMessages) + [SendReply(Ask(aiService, SendRequest(currentCodeContext,
                requestType, message, codeContext, selectedCode), send, matches))]
      ensures !isLoading
      ensures aiService == old(aiService) && currentModel == old(currentModel) && aiConfig == old(aiConfig)
      ensures showSettingsDialog == old(showSettingsDialog) && currentCodeContext == old(currentCodeContext)
    {
      var request := SendRequest(currentCodeContext, requestType, message, codeContext, selectedCode);
      var reply := SendReply(Ask(aiService, request, send, matches));
      chatMessages := chatMessages + [reply];
      isLoading := false;
    }

    /** `performQuickAction`, up to the service call: a blank selection
        only posts a warning; otherwise the action joins the chat as the
        user's message, the assistant is busy, and `pending` is the request
        that the coroutine sends next. `fullCode` is not used. */
    method PerformQuickAction(action: string, selectedText: string, fullCode: string)
      returns (pending: Option<AIRequest>)
      modifies this
      ensures IsBlank(selectedText) ==>
                pending == None && chatMessages == old(chatMessages) + [NoSelectionMessage()]
                && isLoading == old(isLoading)
      ensures !IsBlank(selectedText) ==>
                pending == Some(QuickRequest(currentCodeContext, action, selectedText))
                && chatMessages == old(chatMessages) + [QuickActionMessage(action, selectedText)] && isLoading
      ensures aiService == old(aiService) && currentModel == old(currentModel) && aiConfig == old(aiConfig)
      ensures showSettingsDialog == old(showSettingsDialog) && currentCodeContext == old(currentCodeContext)
    {
      if IsBlank(selectedText) {
        chatMessages := chatMessages + [NoSelectionMessage()];
        return None;
      }
      chatMessages := chatMessages + [QuickActionMessage(action, selectedText)];
      isLoading := true;
      pending := Some(QuickRequest(currentCodeContext, action, selectedText));
    }

    /** The rest of `performQuickAction`'s coroutine: the reply joins the
        chat and the assistant is no longer busy. */
    method CompleteQuickAction(request: AIRequest, send: Transport, matches: Matcher)
      modifies this
      ensures chatMessages == old(chatMessages) + [QuickReply(Ask(aiService, request, send, matches))]
      ensures !isLoading
      ensures aiService == old(aiService) && currentModel == old(currentModel) && aiConfig == old(aiConfig)
      ensures showSettingsDialog == old(showSettingsDialog) && currentCodeContext == old(currentCodeContext)
    {
      chatMessages := chatMessages + [QuickReply(Ask(aiService, request, send, matches))];
      isLoading := false;
    }

    /** `updateConfig`: the service stores the configuration, the view
        shows it and the chat confirms it. */
    method UpdateConfig(config: AIConfig)
      requires Valid()
      modifies this, aiService
      ensures Valid() && aiService == old(aiService)
      ensures aiService != null ==> aiService.prefs == PutConfig(old(aiService.prefs), config)
      ensures aiService != null ==> GetConfig(aiService.prefs) == config.(maxTokens := DefaultMaxTokens)
      ensures aiConfig == config && currentModel == config.model
      ensures chatMessages == old(chatMessages) + [SettingsMessage(config)]
      ensures isLoading == old(isLoading) && showSettingsDialog == old(showSettingsDialog)
      ensures currentCodeContext == old(currentCodeContext)
    {
      if aiService != null {
        aiService.SaveConfig(config);
      }
      aiConfig := config;
      currentModel := config.model;
      chatMessages := chatMessages + [SettingsMessage(config)];
    }

    /** `showSettings`. */
    method ShowSettings()
      modifies this
      ensures showSettingsDialog
      ensures aiService == old(aiService) && chatMessages == old(chatMessages) && isLoading == old(isLoading)
      ensures currentModel == old(currentModel) && aiConfig == old(aiConfig)
      ensures currentCodeContext == old(currentCodeContext)
    {
      showSettingsDialog := true;
    }

    /** `hideSettings`. */
    method HideSettings()
      modifies this
      ensures !showSettingsDialog
      ensures aiService == old(aiService) && chatMessages == old(chatMessages) && isLoading == old(isLoading)
      ensures currentModel == old(currentModel) && aiConfig == old(aiConfig)
      ensures currentCodeContext == old(currentCodeContext)
    {
      showSettingsDialog := false;
    }

    /** `clearChat`: only the welcome message is left. */
    method ClearChat()
      modifies this
      ensures chatMessages == [WelcomeMessage(currentModel)]
      ensures aiService == old(aiService) && isLoading == old(isLoading) && currentModel == old(currentModel)
      ensures aiConfig == old(aiConfig) && showSettingsDialog == old(showSettingsDialog)
      ensures currentCodeContext == old(currentCodeContext)
    {
      chatMessages := [];
      AddWelcomeMessage();
    }

    /** `clearMessages`: the chat is emptied. */
    method ClearMessages()
      modifies this
      ensures chatMessages == []
      ensures aiService == old(aiService) && isLoading == old(isLoading) && currentModel == old(currentModel)
      ensures aiConfig == old(aiConfig) && showSettingsDialog == old(showSettingsDialog)
      ensures currentCodeContext == old(currentCodeContext)
    {
      chatMessages := [];
    }

    /** `getQuickCompletions`: the service's quick completions for the
        current context, three at most, and none without a service. */
    method GetQuickCompletions(partialCode: string, send: Transport, matches: Matcher) returns (r: seq<string>)
      ensures aiService == null ==> r == []
      ensures aiService != null ==>
                r == GetQuickCompletion(aiService.prefs, currentCodeContext, partialCode, 3, send, matches)
      ensures |r| <= 3
    {
      if aiService == null {
        return [];
      }
      r := GetQuickCompletion(aiService.prefs, currentCodeContext, partialCode, 3, send, matches);
    }

    /** `setSelectedModel`: the model shown changes at once, the service
        stores its configuration with the new model, and `aiConfig` is left
        as it was. */
    method SetSelectedModel(model: string)
      requires Valid()
      modifies this, aiService
      ensures Valid() && aiService == old(aiService) && currentModel == model
      ensures aiService != null ==>
                aiService.prefs == PutConfig(old(aiService.prefs), GetConfig(old(aiService.prefs)).(model := model))
      ensures aiService != null ==> GetConfig(aiService.prefs) == GetConfig(old(aiService.prefs)).(model := model)
      ensures aiService != null ==> GeminiAI.GetAPIKey(aiService.prefs) == GeminiAI.GetAPIKey(old(aiService.prefs))
      ensures chatMessages == old(chatMessages) && isLoading == old(isLoading) && aiConfig == old(aiConfig)
      ensures showSettingsDialog == old(showSettingsDialog) && currentCodeContext == old(currentCodeContext)
    {
      currentModel := model;
      if aiService != null {
        var config := GetConfig(aiService.prefs).(model := model);
        aiService.SaveConfig(config);
      }
    }

    /** `saveAPIKey`: passed on to the service, if there is one. */
    method SaveAPIKey(apiKey: string)
      requires Valid()
      modifies aiService
      ensures Valid()
      ensures aiService != null ==> aiService.prefs == PutAPIKey(old(aiService.prefs), apiKey)
      ensures aiService != null ==> GeminiAI.GetAPIKey(aiService.prefs) == Some(apiKey)
    {
      if aiService != null {
        aiService.SaveAPIKey(apiKey);
      }
    }

    /** `getAPIKey`: the service's key, absent without a service. */
    method GetAPIKey() returns (r: Option<string>)
      ensures aiService == null ==> r == None
      ensures aiService != null ==> r == GeminiAI.GetAPIKey(aiService.prefs)
    {
      if aiService == null {
        return None;
      }
      r := GeminiAI.GetAPIKey(aiService.prefs);
    }
  }

  /** Because `init` already fetches the service, an `initializeAIService`
      right after construction adds no welcome message and keeps the defaults. */
  method InitializedAtConstruction(service: GeminiAIService, other: GeminiAIService)
    returns (vm: AIAssistantViewModel)
    requires service.Valid() && other.Valid()
    ensures vm.aiService == service && vm.chatMessages == [] && !vm.isLoading
    ensures vm.currentModel == ModelGeminiFlash && vm.aiConfig == AIConfig()
  {
    vm := new AIAssistantViewModel(service);
    vm.InitializeAIService(other);
  }
}
