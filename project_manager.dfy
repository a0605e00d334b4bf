/** The project manager (`utils/ProjectManager.kt`): name validation, the
    `requirements.txt` and `pyproject.toml` readers, and project creation,
    loading and import over a file store that maps paths to contents. */
module ProjectManagement {
  import opened Wrappers
  import opened Seqs
  import opened Strings
  import opened Models
  import Commands

  const ProjectsDirName: string := "projects"
  const DefaultDescription: string := "Python project"

  // ---------------------------------------------------------------------------
  // Project names

  /** A character of the class `[a-zA-Z0-9_-]`. */
  predicate NameChar(c: char) {
    ('a' <= c <= 'z') || ('A' <= c <= 'Z') || ('0' <= c <= '9') || c == '_' || c == '-'
  }

  /** `name.matches(Regex("[a-zA-Z0-9_-]+"))`: the whole name is one or more
      such characters. */
  predicate MatchesNamePattern(name: string) {
    |name| >= 1 && forall i :: 0 <= i < |name| ==> NameChar(name[i])
  }

  /** `isValidProjectName`. */
  predicate IsValidProjectName(name: string) {
    !IsBlank(name) && MatchesNamePattern(name) && |name| <= 50
  }

  /** A name is valid exactly when it has 1 to 50 characters, all from
      `[a-zA-Z0-9_-]`; the blank test adds nothing to the pattern. */
  lemma ValidNameIff(name: string)
    ensures IsValidProjectName(name) <==>
            1 <= |name| <= 50 && forall i :: 0 <= i < |name| ==> NameChar(name[i])
  {
    if 1 <= |name| && forall i :: 0 <= i < |name| ==> NameChar(name[i]) {
      assert !IsWhitespace(name[0]);
    }
  }

  /** A valid name is a single path component and a single line. */
  lemma ValidNameIsPlain(name: string)
    requires IsValidProjectName(name)
    ensures '/' !in name && NoLineBreak(name)
  {
    assert forall i :: 0 <= i < |name| ==> name[i] != '/';
  }

  /** The banner of every project command names the project it runs. */
  lemma BannerNamesProject(projectsDir: string, name: string)
    requires IsValidProjectName(name)
    ensures Commands.FileName(PathIn(projectsDir, name)) == name
  {
    ValidNameIsPlain(name);
    Commands.FileNameOfChild(projectsDir, name);
  }

  // ---------------------------------------------------------------------------
  // requirements.txt

  /** The filter of `parseDependencies`, applied before trimming. */
  predicate Kept(line: string) {
    !IsBlank(line) && !StartsWith(line, "#")
  }

  /** The `mapNotNull` body of `parseDependencies` for one kept line. */
  function ParseLine(line: string): (r: Option<Dependency>)
    ensures r.Some? ==> r.value.isRequired && r.value.description == ""
    ensures !Contains(Trim(line), "==") ==> r == Some(Dependency(Trim(line)))
    ensures Contains(Trim(line), "==") && r.Some? ==>
              Trim(line) == r.value.name + "==" + r.value.version
              && !Contains(r.value.name, "==") && !Contains(r.value.version, "==")
    ensures Contains(Trim(line), "==") ==> (r.None? <==> |Split(Trim(line), "==")| != 2)
  {
    var trimmed := Trim(line);
    if Contains(trimmed, "==") then
      var parts := Split(trimmed, "==");
      if |parts| == 2 then
        SplitTwo(trimmed, "==");
        Some(Dependency(parts[0], parts[1]))
      else None
    else Some(Dependency(trimmed))
  }

  /** The dependencies of a list of lines read one at a time: each kept
      line that parses gives its dependency, in the order of the lines. */
  function ParsedLines(lines: seq<string>): (r: seq<Dependency>)
    ensures |r| <= |lines|
  {
    if lines == [] then []
    else (if Kept(lines[0]) && ParseLine(lines[0]).Some? then [ParseLine(lines[0]).value] else [])
         + ParsedLines(lines[1..])
  }

  /** `parseDependencies` on the text of an existing file: the lines that
      are neither blank nor comments, each parsed, in order. */
  function ParseRequirements(content: string): (r: seq<Dependency>)
    ensures r == ParsedLines(ReadLines(content))
    ensures |r| <= |ReadLines(content)|
  {
    FilterThenParse(ReadLines(content));
    MapNotNull(Filter(ReadLines(content), Kept), ParseLine)
  }

  /** Filtering then parsing, as `parseDependencies` chains them, is the
      same as deciding line by line. */
  lemma {:induction false} FilterThenParse(lines: seq<string>)
    ensures MapNotNull(Filter(lines, Kept), ParseLine) == ParsedLines(lines)
  {
    if lines != [] {
      var head := if Kept(lines[0]) then [lines[0]] else [];
      assert Filter(lines, Kept) == head + Filter(lines[1..], Kept);
      MapNotNullAppend(head, Filter(lines[1..], Kept), ParseLine);
      if Kept(lines[0]) {
        assert head[1..] == [];
      }
      FilterThenParse(lines[1..]);
    }
  }

  /** `parseDependencies`: no file, no dependencies. */
  function ParseDependencies(file: Option<string>): (r: seq<Dependency>)
    ensures file.None? ==> r == []
    ensures file.Some? ==> |r| <= |ReadLines(file.value)|
  {
    match file
    case None => []
    case Some(content) => ParseRequirements(content)
  }

  /** A dependency whose requirement line reads back as itself: the name,
      and the version unless it is absent, are made of letters, digits, '.',
      '-' and '_' (the characters of Python package names and versions), and
      the flags are the defaults parsing produces. */
  predicate Pinnable(d: Dependency) {
    Token(d.name) && (d.version == [] || Token(d.version)) && d.isRequired && d.description == ""
  }

  predicate PackageChar(c: char) {
    ('a' <= c <= 'z') || ('A' <= c <= 'Z') || ('0' <= c <= '9') || c == '.' || c == '-' || c == '_'
  }

  predicate Token(s: string) {
    s != [] && forall i :: 0 <= i < |s| ==> PackageChar(s[i])
  }

  /** `getDisplayName` of each dependency. */
  function DisplayNames(ds: seq<Dependency>): (r: seq<string>)
    ensures |r| == |ds|
    ensures forall i :: 0 <= i < |ds| ==> r[i] == ds[i].GetDisplayName()
  {
    if ds == [] then [] else [ds[0].GetDisplayName()] + DisplayNames(ds[1..])
  }

  lemma NoEqualsNoPair(s: string)
    requires forall i :: 0 <= i < |s| ==> s[i] != '='
    ensures !Contains(s, "==")
  {
    forall j | 0 <= j <= |s| ensures !OccursAt(s, "==", j) {
      assert j + 2 <= |s| ==> s[j..j + 2][0] == s[j];
    }
  }

  /** The requirement line of a pinnable dependency is one line of package
      characters and '='. */
  lemma DisplayNameChars(d: Dependency)
    requires Pinnable(d)
    ensures var s := d.GetDisplayName();
            s != [] && s[0] == d.name[0] && NoLineBreak(s)
            && forall j :: 0 <= j < |s| ==> PackageChar(s[j]) || s[j] == '='
  {
    var s := d.GetDisplayName();
    if d.version != [] {
      assert forall j :: 0 <= j < |s| ==>
        (j < |d.name| && s[j] == d.name[j]) || (|d.name| <= j < |d.name| + 2 && s[j] == '=')
        || (|d.name| + 2 <= j && s[j] == d.version[j - |d.name| - 2]);
    }
  }

  /** A bare package name is read as an unpinned dependency. */
  lemma BareLineRoundTrip(name: string)
    requires Token(name)
    ensures ParseLine(name) == Some(Dependency(name))
  {
    TrimNoOuterSpace(name);
    NoEqualsNoPair(name);
  }

  /** "name==version" is read as that name and version. */
  lemma PinnedLineRoundTrip(name: string, version: string)
    requires Token(name) && Token(version)
    ensures ParseLine(name + "==" + version) == Some(Dependency(name, version))
  {
    var s := name + "==" + version;
    assert s[0] == name[0] && s[|s| - 1] == version[|version| - 1];
    TrimNoOuterSpace(s);
    ContainsMiddle(name, "==", version);
    TokenNoPair(version);
    SplitNone(version, "==");
    TokenNoEarlierPair(name, version);
    SplitFirst(name, "==", version);
    assert Split(s, "==") == [name] + [version];
  }

  /** A token holds no '=' and so no "==". */
  lemma TokenNoPair(s: string)
    requires Token(s)
    ensures !Contains(s, "==")
  {
    forall i | 0 <= i < |s| ensures s[i] != '=' {
      assert PackageChar(s[i]);
    }
    NoEqualsNoPair(s);
  }

  /** In "name==version" the first "==" is the one after the name. */
  lemma TokenNoEarlierPair(name: string, version: string)
    requires Token(name)
    ensures forall j :: 0 <= j <= |name| ==> !OccursAt(name + "==" + version, "==", j) || j == |name|
  {
    var s := name + "==" + version;
    forall j | 0 <= j < |name| ensures !OccursAt(s, "==", j) {
      assert s[j] == name[j] && PackageChar(name[j]);
      assert j + 2 <= |s| ==> s[j..j + 2][0] == s[j];
    }
  }

  /** A pinnable dependency's requirement line is kept and parses back to it. */
  lemma RequirementLineRoundTrip(d: Dependency)
    requires Pinnable(d)
    ensures Kept(d.GetDisplayName()) && ParseLine(d.GetDisplayName()) == Some(d)
  {
    var s := d.GetDisplayName();
    DisplayNameChars(d);
    assert !IsWhitespace(s[0]) && s[0] != '#';
    assert s[..1] == [s[0]];
    if d.version == [] {
      BareLineRoundTrip(d.name);
    } else {
      PinnedLineRoundTrip(d.name, d.version);
    }
  }

  /** Reading back the requirement lines of pinnable dependencies, one per
      line, gives those dependencies in order. */
  lemma RequirementsRoundTrip(ds: seq<Dependency>)
    requires forall i :: 0 <= i < |ds| ==> Pinnable(ds[i])
    ensures ParseRequirements(Join(DisplayNames(ds), "\n")) == ds
  {
    var lines := DisplayNames(ds);
    forall i | 0 <= i < |lines|
      ensures lines[i] != [] && NoLineBreak(lines[i]) && Kept(lines[i]) && ParseLine(lines[i]) == Some(ds[i])
    {
      DisplayNameChars(ds[i]);
      RequirementLineRoundTrip(ds[i]);
    }
    ReadLinesJoin(lines);
    FilterAll(lines, Kept);
    MapNotNullAll(lines, ParseLine, ds);
  }

  /** The dependencies each template pins, as `Dependency` values. */
  function TemplateDependencies(t: ProjectTemplate): (r: seq<Dependency>)
    ensures forall i :: 0 <= i < |r| ==> Pinnable(r[i])
  {
    PackageNamesAreTokens();
    VersionsAreTokens();
    match t
    case Empty => []
    case FlaskApi => [Dependency("flask", "2.3.3")]
    case DataAnalysis => [Dependency("pandas", "2.1.3"), Dependency("matplotlib", "3.8.2"),
                          Dependency("numpy", "1.25.2")]
    case MachineLearning => [Dependency("scikit-learn", "1.3.2"), Dependency("pandas", "2.1.3"),
                             Dependency("numpy", "1.25.2"), Dependency("joblib", "1.3.2")]
  }

  lemma PackageNamesAreTokens()
    ensures Token("flask") && Token("pandas") && Token("matplotlib")
    ensures Token("numpy") && Token("scikit-learn") && Token("joblib")
  {
  }

  lemma VersionsAreTokens()
    ensures Token("2.3.3") && Token("2.1.3") && Token("3.8.2")
    ensures Token("1.25.2") && Token("1.3.2")
  {
  }

  /** Parsing a template's `getRequirementsContent` gives one
      `Dependency(name, version)` per "name==version" entry, in order. */
  lemma TemplateRequirementsRoundTrip(t: ProjectTemplate)
    ensures DisplayNames(TemplateDependencies(t)) == t.Dependencies()
    ensures ParseRequirements(t.RequirementsContent()) == TemplateDependencies(t)
  {
    TemplateDisplayNames(t);
    RequirementsRoundTrip(TemplateDependencies(t));
  }

  /** Each template's `Dependency` values display as its requirement strings. */
  lemma TemplateDisplayNames(t: ProjectTemplate)
    ensures DisplayNames(TemplateDependencies(t)) == t.Dependencies()
  {
    match t {
    case Empty =>
    case FlaskApi => FlaskDisplayNames();
    case DataAnalysis => DataDisplayNames();
    case MachineLearning => LearningDisplayNames();
    }
  }

  lemma FlaskDisplayNames()
    ensures DisplayNames(TemplateDependencies(FlaskApi)) == FlaskApi.Dependencies()
  {
    var ds := TemplateDependencies(FlaskApi);
    assert ds[0].GetDisplayName() == "flask==2.3.3";
  }

  lemma DataDisplayNames()
    ensures DisplayNames(TemplateDependencies(DataAnalysis)) == DataAnalysis.Dependencies()
  {
    var ds := TemplateDependencies(DataAnalysis);
    PinnedDisplay("pandas", "2.1.3", "pandas==2.1.3");
    PinnedDisplay("matplotlib", "3.8.2", "matplotlib==3.8.2");
    PinnedDisplay("numpy", "1.25.2", "numpy==1.25.2");
    assert DisplayNames(ds) == DataAnalysis.Dependencies();
  }

  lemma LearningDisplayNames()
    ensures DisplayNames(TemplateDependencies(MachineLearning)) == MachineLearning.Dependencies()
  {
    var ds := TemplateDependencies(MachineLearning);
    PinnedDisplay("scikit-learn", "1.3.2", "scikit-learn==1.3.2");
    PinnedDisplay("pandas", "2.1.3", "pandas==2.1.3");
    PinnedDisplay("numpy", "1.25.2", "numpy==1.25.2");
    PinnedDisplay("joblib", "1.3.2", "joblib==1.3.2");
    assert DisplayNames(ds) == MachineLearning.Dependencies();
  }

  /** The display name of a pinned dependency, checked against its text. */
  lemma PinnedDisplay(name: string, version: string, text: string)
    requires version != [] && text == name + "==" + version
    ensures Dependency(name, version).GetDisplayName() == text
  {
  }

  // ---------------------------------------------------------------------------
  // pyproject.toml

  /** The line `parsePyprojectDescription` looks for. */
  predicate IsDescriptionLine(line: string) {
    StartsWith(Trim(line), "description")
  }

  /** Line `k` is the first description line. */
  predicate FirstDescriptionLine(lines: seq<string>, k: int) {
    0 <= k < |lines| && IsDescriptionLine(lines[k]) && forall j :: 0 <= j < k ==> !IsDescriptionLine(lines[j])
  }

  /** The value of a description line: what follows its first '=' (or the
      whole line when it has none), trimmed, then without surrounding quotes. */
  function DescriptionValue(line: string): string {
    RemoveSurrounding(Trim(SubstringAfter(line, "=")), "\"")
  }

  /** `parsePyprojectDescription` on the text of the file: the value of the
      first description line, or nothing when no line is one. */
  function ParsePyprojectDescription(content: string): (r: Option<string>)
    ensures r.None? <==>
            forall i :: 0 <= i < |ReadLines(content)| ==> !IsDescriptionLine(ReadLines(content)[i])
  {
    match FindIndex(ReadLines(content), IsDescriptionLine)
    case None => None
    case Some(k) => Some(DescriptionValue(ReadLines(content)[k]))
  }

  /** The description read is the value of the first description line. */
  lemma DescriptionFromFirstLine(content: string, k: int)
    requires FirstDescriptionLine(ReadLines(content), k)
    ensures ParsePyprojectDescription(content) == Some(DescriptionValue(ReadLines(content)[k]))
  {
    FindIndexFirst(ReadLines(content), IsDescriptionLine, k);
  }

  /** The description `loadProject` gives a project, from its pyproject file. */
  function LoadDescription(pyproject: Option<string>): (r: string)
    ensures pyproject.None? ==> r == DefaultDescription
  {
    match pyproject
    case None => DefaultDescription
    case Some(content) => ParsePyprojectDescription(content).GetOr(DefaultDescription)
  }

  /** A line starting with neither whitespace nor 'd' is not a description line. */
  lemma NotDescriptionLine(s: string)
    requires s == [] || (!IsWhitespace(s[0]) && s[0] != 'd')
    ensures !IsDescriptionLine(s)
  {
    if s != [] {
      assert TrimStart(s) == s;
      var t := Trim(s);
      assert t == [] || t[0] == s[0];
    }
  }

  /** Reading the description line of a pyproject file. */
  lemma DescriptionLineValue(desc: string)
    ensures IsDescriptionLine(Setting("description", Quoted(desc)))
    ensures RemoveSurrounding(Trim(SubstringAfter(Setting("description", Quoted(desc)), "=")), "\"") == desc
  {
    QuotedSettingValue("description", desc);
  }

  /** A `key = "value"` line, for a key without '=' or leading whitespace,
      starts with its key and its quoted value reads back. */
  lemma QuotedSettingValue(key: string, v: string)
    requires key != [] && !IsWhitespace(key[0]) && '=' !in key
    ensures StartsWith(Trim(Setting(key, Quoted(v))), key)
    ensures RemoveSurrounding(Trim(SubstringAfter(Setting(key, Quoted(v)), "=")), "\"") == v
  {
    SettingStartsWithKey(key, Quoted(v));
    SettingValue(key, Quoted(v));
    TrimLeadingSpace(Quoted(v));
    UnquoteQuoted(v);
  }

  lemma UnquoteQuoted(v: string)
    ensures RemoveSurrounding(Quoted(v), "\"") == v
  {
    var q := Quoted(v);
    assert q[..1] == "\"" && q[|q| - 1..] == "\"";
  }

  lemma SettingStartsWithKey(key: string, q: string)
    requires key != [] && !IsWhitespace(key[0]) && q != [] && !IsWhitespace(q[|q| - 1])
    ensures StartsWith(Trim(Setting(key, q)), key)
  {
    var line := Setting(key, q);
    assert line[0] == key[0] && line[|line| - 1] == q[|q| - 1];
    TrimNoOuterSpace(line);
    PrefixOfAppend(key, " = " + q);
  }

  /** The value part of a `key = value` line, when the key holds no '='. */
  lemma SettingValue(key: string, v: string)
    requires '=' !in key
    ensures SubstringAfter(Setting(key, v), "=") == " " + v
  {
    assert key + " = " + v == (key + " ") + ['='] + (" " + v);
    assert '=' !in key + " ";
    SubstringAfterSplit(key + " ", '=', " " + v);
  }

  /** Reading back `getPyprojectContent(n)` gives the template's description,
      whatever description the user typed in when creating the project. */
  lemma PyprojectDescriptionIsTemplate(t: ProjectTemplate, projectName: string)
    requires NoLineBreak(projectName)
    ensures ParsePyprojectDescription(t.PyprojectContent(projectName)) == Some(t.Description())
  {
    var head := PyprojectHead(projectName);
    var dl := Setting("description", Quoted(t.Description()));
    var tail := PyprojectTail(projectName, t.Dependencies());
    assert t.PyprojectLines(projectName) == head + ([dl] + tail);
    JoinAppend(head, [dl] + tail, "\n");
    JoinAppend([dl], tail, "\n");
    HeadLinesPlain(projectName);
    DescriptionLinePlain(t);
    ReadLinesPrefix(head, dl + "\n" + Join(tail, "\n"));
    ReadLinesCons(dl, Join(tail, "\n"));
    DescriptionLineValue(t.Description());
    DescriptionAfterHead(t.PyprojectContent(projectName), head, dl, ReadLines(Join(tail, "\n")));
  }

  /** Lines that are not description lines, then one that is: the
      description is the value of that line. */
  lemma DescriptionAfterHead(content: string, head: seq<string>, dl: string, rest: seq<string>)
    requires ReadLines(content) == head + ([dl] + rest)
    requires forall j :: 0 <= j < |head| ==> !IsDescriptionLine(head[j])
    requires IsDescriptionLine(dl)
    ensures ParsePyprojectDescription(content) == Some(DescriptionValue(dl))
  {
    var lines := head + ([dl] + rest);
    assert lines[|head|] == dl;
    assert forall j :: 0 <= j < |head| ==> lines[j] == head[j];
    assert FirstDescriptionLine(lines, |head|);
    DescriptionFromFirstLine(content, |head|);
  }

  /** The lines before the description are single lines, none of which is
      a description line. */
  lemma HeadLinesPlain(projectName: string)
    requires NoLineBreak(projectName)
    ensures forall i :: 0 <= i < |PyprojectHead(projectName)| ==>
              NoLineBreak(PyprojectHead(projectName)[i]) && !IsDescriptionLine(PyprojectHead(projectName)[i])
  {
    var head := PyprojectHead(projectName);
    HeadLiteralsPlain();
    RequiresLinePlain();
    BackendLinePlain();
    QuotedNoLineBreak(projectName);
    NoLineBreakAppend("name = ", Quoted(projectName));
    forall i | 0 <= i < |head| ensures NoLineBreak(head[i]) {
      if i == 0 {
      } else if i == 1 {
      } else if i == 2 {
      } else if i == 3 {
      } else if i == 4 {
      } else if i == 5 {
      } else {
      }
    }
    HeadNotDescription(projectName);
  }

  lemma RequiresLinePlain()
    ensures NoLineBreak(PyprojectHead("")[1])
  {
    PiecesNoLineBreak(PyprojectHead("")[1], "requires = ", "[\"setuptools>=45\", ", "\"wheel\"]");
  }

  lemma BackendLinePlain()
    ensures NoLineBreak(PyprojectHead("")[2])
  {
    PiecesNoLineBreak(PyprojectHead("")[2], "build-backend = ", "\"setuptools.", "build_meta\"");
  }

  lemma HeadLiteralsPlain()
    ensures NoLineBreak("[build-system]") && NoLineBreak("[project]") && NoLineBreak("version = \"0.1.0\"")
  {
    NoLineBreakChars("[build-system]");
    NoLineBreakChars("[project]");
    NoLineBreakChars("version = \"0.1.0\"");
  }

  lemma HeadNotDescription(projectName: string)
    ensures forall i :: 0 <= i < |PyprojectHead(projectName)| ==> !IsDescriptionLine(PyprojectHead(projectName)[i])
  {
    var head := PyprojectHead(projectName);
    assert head[5][0] == 'n';
    forall i | 0 <= i < |head| ensures !IsDescriptionLine(head[i]) {
      NotDescriptionLine(head[i]);
    }
  }

  lemma QuotedNoLineBreak(v: string)
    requires NoLineBreak(v)
    ensures NoLineBreak(Quoted(v))
  {
    NoLineBreakAppend("\"" + v, "\"");
    NoLineBreakAppend("\"", v);
  }

  /** A template's description line is one line. */
  lemma DescriptionLinePlain(t: ProjectTemplate)
    ensures NoLineBreak(Setting("description", Quoted(t.Description())))
  {
    var d := t.Description();
    match t {
      case Empty => EmptyDescriptionPlain();
      case FlaskApi => FlaskDescriptionPlain();
      case DataAnalysis => DataDescriptionPlain();
      case MachineLearning => LearningDescriptionPlain();
    }
    QuotedNoLineBreak(d);
    NoLineBreakAppend("description = ", Quoted(d));
  }

  lemma EmptyDescriptionPlain()
    ensures NoLineBreak(Empty.Description())
  {
    PiecesNoLineBreak(Empty.Description(), "A minimal ", "Python project ", "structure");
  }

  lemma FlaskDescriptionPlain()
    ensures NoLineBreak(FlaskApi.Description())
  {
    PiecesNoLineBreak(FlaskApi.Description(), "A starter RESTful ", "API using Flask ", "framework");
  }

  lemma DataDescriptionPlain()
    ensures NoLineBreak(DataAnalysis.Description())
  {
    PiecesNoLineBreak(DataAnalysis.Description(), "Data analysis ", "project with pandas ", "and matplotlib");
  }

  lemma LearningDescriptionPlain()
    ensures NoLineBreak(MachineLearning.Description())
  {
    PiecesNoLineBreak(MachineLearning.Description(), "ML project ", "template with ", "scikit-learn");
  }

  lemma PiecesNoLineBreak(d: string, a: string, b: string, c: string)
    requires d == a + b + c
    requires '\n' !in a && '\r' !in a && '\n' !in b && '\r' !in b && '\n' !in c && '\r' !in c
    ensures NoLineBreak(d)
  {
    NoLineBreakPieces(a, b, c);
  }

  // ---------------------------------------------------------------------------
  // The file store

  /** `File(parent, child).parentFile`: the path before the last '/'. */
  function ParentDir(p: string): (r: Option<string>)
    ensures r.Some? ==> |r.value| < |p| && p[|r.value|] == '/' && r.value == p[..|r.value|]
  {
    match LastIndexOf(p, '/')
    case None => None
    case Some(i) => Some(p[..i])
  }

  /** The parent of `dir/name` is `dir` when `name` is a single component. */
  lemma ParentOfPathIn(dir: string, name: string)
    requires '/' !in name
    ensures ParentDir(PathIn(dir, name)) == Some(dir)
  {
    LastIndexOfSplit(dir, '/', name);
    assert (dir + "/" + name)[..|dir|] == dir;
  }

  /** The files `createProject` always writes sit directly in the project directory. */
  lemma CoreNamesPlain()
    ensures '/' !in "main.py" && '/' !in "__init__.py"
    ensures '/' !in "requirements.txt" && '/' !in "pyproject.toml"
  {
  }

  /** Every file's parent directory exists. */
  predicate ParentsExist(files: map<string, string>, dirs: set<string>) {
    forall p :: p in files && ParentDir(p).Some? ==> ParentDir(p).value in dirs
  }

  /** Making directories keeps every parent present. */
  lemma ParentsExistMore(files: map<string, string>, dirs: set<string>, more: set<string>)
    requires ParentsExist(files, dirs)
    ensures ParentsExist(files, dirs + more)
  {
  }

  /** `file.exists()` / `readText()` for a regular file. */
  function Lookup(files: map<string, string>, p: string): (r: Option<string>)
    ensures r.Some? <==> p in files
    ensures r.Some? ==> r.value == files[p]
  {
    if p in files then Some(files[p]) else None
  }

  /** Distinct paths inside a directory name distinct files. */
  lemma PathInInjective(dir: string, a: string, b: string)
    ensures PathIn(dir, a) == PathIn(dir, b) ==> a == b
  {
    if PathIn(dir, a) == PathIn(dir, b) {
      assert PathIn(dir, a)[|dir| + 1..] == a;
      assert PathIn(dir, b)[|dir| + 1..] == b;
    }
  }

  /** The paths written by `ws` inside `dir`. */
  function WrittenPaths(dir: string, ws: seq<(string, string)>): (r: set<string>)
    ensures forall i :: 0 <= i < |ws| ==> PathIn(dir, ws[i].0) in r
    decreases |ws|
  {
    if ws == [] then {}
    else
      var init := ws[..|ws| - 1];
      assert forall i :: 0 <= i < |init| ==> init[i] == ws[i];
      WrittenPaths(dir, init) + {PathIn(dir, ws[|ws| - 1].0)}
  }

  /** `File(dir, path).writeText(content)` for each entry, in order. */
  function WriteAll(files: map<string, string>, dir: string, ws: seq<(string, string)>): (r: map<string, string>)
    ensures r.Keys == files.Keys + WrittenPaths(dir, ws)
    ensures forall p :: p in files && p !in WrittenPaths(dir, ws) ==> r[p] == files[p]
    ensures ws != [] ==> r[PathIn(dir, ws[|ws| - 1].0)] == ws[|ws| - 1].1
    decreases |ws|
  {
    if ws == [] then files
    else WriteAll(files, dir, ws[..|ws| - 1])[PathIn(dir, ws[|ws| - 1].0) := ws[|ws| - 1].1]
  }

  /** The directories `parentFile?.mkdirs()` creates for the entries of `ws`. */
  function MadeDirs(dir: string, ws: seq<(string, string)>): set<string>
    decreases |ws|
  {
    if ws == [] then {}
    else
      var p := ParentDir(PathIn(dir, ws[|ws| - 1].0));
      MadeDirs(dir, ws[..|ws| - 1]) + (if p.Some? then {p.value} else {})
  }

  lemma WriteSnoc(files: map<string, string>, dir: string, ws: seq<(string, string)>, w: (string, string))
    ensures WriteAll(files, dir, ws + [w]) == WriteAll(files, dir, ws)[PathIn(dir, w.0) := w.1]
    ensures MadeDirs(dir, ws + [w]) == MadeDirs(dir, ws)
              + (if ParentDir(PathIn(dir, w.0)).Some? then {ParentDir(PathIn(dir, w.0)).value} else {})
  {
    assert (ws + [w])[..|ws|] == ws;
  }

  /** Writing `a` then `b` is writing `a + b`. */
  lemma {:induction false} WriteAllAppend(files: map<string, string>, dir: string,
                                          a: seq<(string, string)>, b: seq<(string, string)>)
    ensures WriteAll(files, dir, a + b) == WriteAll(WriteAll(files, dir, a), dir, b)
    ensures MadeDirs(dir, a + b) == MadeDirs(dir, a) + MadeDirs(dir, b)
    decreases |b|
  {
    if b == [] {
      assert a + b == a;
    } else {
      var b0, w := b[..|b| - 1], b[|b| - 1];
      assert b == b0 + [w];
      assert a + b == (a + b0) + [w];
      WriteAllAppend(files, dir, a, b0);
      WriteSnoc(files, dir, a + b0, w);
      WriteSnoc(WriteAll(files, dir, a), dir, b0, w);
    }
  }

  /** No two writes share a path. */
  predicate DistinctPaths(ws: seq<(string, string)>) {
    forall i, j :: 0 <= i < j < |ws| ==> ws[i].0 != ws[j].0
  }

  /** A path none of whose writes targets it keeps its old state. */
  lemma {:induction false} NotWritten(dir: string, ws: seq<(string, string)>, name: string)
    requires name !in PathsOf(ws)
    ensures PathIn(dir, name) !in WrittenPaths(dir, ws)
  {
    if ws != [] {
      assert PathsOf(ws[..|ws| - 1]) == PathsOf(ws)[..|ws| - 1];
      NotWritten(dir, ws[..|ws| - 1], name);
      PathInInjective(dir, ws[|ws| - 1].0, name);
    }
  }

  /** The files `createProject` writes into the project directory, in the
      order it writes them. */
  function CoreWrites(projectName: string, t: ProjectTemplate): seq<(string, string)> {
    CoreWritesOf(t.MainFileContent(), t.InitFileContent(),
                 if t.Dependencies() != [] then Some(t.RequirementsContent()) else None,
                 t.PyprojectContent(projectName))
  }

  /** The core writes for given contents; the requirements file is written
      only when there is something to write. */
  function CoreWritesOf(main: string, init: string, requirements: Option<string>, pyproject: string)
    : seq<(string, string)>
  {
    [("main.py", main), ("__init__.py", init)]
    + (if requirements.Some? then [("requirements.txt", requirements.value)] else [])
    + [("pyproject.toml", pyproject)]
  }

  lemma ProjectWritesOf(projectName: string, t: ProjectTemplate)
    ensures ProjectWrites(projectName, t)
            == CoreWritesOf(t.MainFileContent(), t.InitFileContent(),
                            if t.Dependencies() != [] then Some(t.RequirementsContent()) else None,
                            t.PyprojectContent(projectName))
               + t.AdditionalFiles()
  {
  }

  /** The core writes as successive updates of the store. */
  lemma CoreWritesOfStore(files: map<string, string>, dir: string, main: string, init: string,
                          requirements: Option<string>, pyproject: string)
    ensures var f1 := files[PathIn(dir, "main.py") := main][PathIn(dir, "__init__.py") := init];
            var f2 := if requirements.Some? then f1[PathIn(dir, "requirements.txt") := requirements.value] else f1;
            WriteAll(files, dir, CoreWritesOf(main, init, requirements, pyproject))
            == f2[PathIn(dir, "pyproject.toml") := pyproject]
  {
    var w1, w2, w4 := ("main.py", main), ("__init__.py", init), ("pyproject.toml", pyproject);
    TwoWrites(files, dir, w1, w2);
    if requirements.Some? {
      var w3 := ("requirements.txt", requirements.value);
      assert CoreWritesOf(main, init, requirements, pyproject) == [w1, w2, w3] + [w4];
      ThirdWrite(files, dir, w1, w2, w3);
      WriteSnoc(files, dir, [w1, w2, w3], w4);
    } else {
      assert CoreWritesOf(main, init, requirements, pyproject) == [w1, w2] + [w4];
      WriteSnoc(files, dir, [w1, w2], w4);
    }
  }

  lemma TwoWrites(files: map<string, string>, dir: string, w1: (string, string), w2: (string, string))
    ensures WriteAll(files, dir, [w1, w2]) == files[PathIn(dir, w1.0) := w1.1][PathIn(dir, w2.0) := w2.1]
  {
    WriteSnoc(files, dir, [], w1);
    assert [] + [w1] == [w1];
    WriteSnoc(files, dir, [w1], w2);
    assert [w1] + [w2] == [w1, w2];
  }

  lemma ThirdWrite(files: map<string, string>, dir: string, w1: (string, string), w2: (string, string),
                   w3: (string, string))
    ensures WriteAll(files, dir, [w1, w2, w3]) == WriteAll(files, dir, [w1, w2])[PathIn(dir, w3.0) := w3.1]
  {
    WriteSnoc(files, dir, [w1, w2], w3);
    assert [w1, w2] + [w3] == [w1, w2, w3];
  }

  function ProjectWrites(projectName: string, t: ProjectTemplate): seq<(string, string)> {
    CoreWrites(projectName, t) + t.AdditionalFiles()
  }

  /** The paths of a new project's writes are the core paths then the
      template's extra paths, and no two coincide. */
  lemma ProjectWritesDistinct(projectName: string, t: ProjectTemplate)
    ensures PathsOf(ProjectWrites(projectName, t)) == CorePaths(t) + ExtraPaths(t)
    ensures DistinctPaths(ProjectWrites(projectName, t))
  {
    var core := CoreWrites(projectName, t);
    var extra := t.AdditionalFiles();
    PathsOfAppend(core, extra);
    TemplateFilePaths(t);
    CorePathsOf(projectName, t);
    ProjectPathsDistinct(t);
    DistinctPathsOf(core + extra);
  }

  lemma CorePathsOf(projectName: string, t: ProjectTemplate)
    ensures PathsOf(CoreWrites(projectName, t)) == CorePaths(t)
  {
    CoreWritesOfPaths(t.MainFileContent(), t.InitFileContent(),
                      if t.Dependencies() != [] then Some(t.RequirementsContent()) else None,
                      t.PyprojectContent(projectName));
  }

  lemma CoreWritesOfPaths(main: string, init: string, requirements: Option<string>, pyproject: string)
    ensures PathsOf(CoreWritesOf(main, init, requirements, pyproject))
            == ["main.py", "__init__.py"] + (if requirements.Some? then ["requirements.txt"] else []) + ["pyproject.toml"]
  {
    if requirements.Some? {
      assert PathsOf(CoreWritesOf(main, init, requirements, pyproject))
             == ["main.py", "__init__.py", "requirements.txt", "pyproject.toml"];
    } else {
      assert PathsOf(CoreWritesOf(main, init, requirements, pyproject))
             == ["main.py", "__init__.py", "pyproject.toml"];
    }
  }

  lemma DistinctPathsOf(ws: seq<(string, string)>)
    requires NoDup(PathsOf(ws))
    ensures DistinctPaths(ws)
  {
    var ps := PathsOf(ws);
    assert forall i :: 0 <= i < |ws| ==> ws[i].0 == ps[i];
  }

  /** What `createProject` leaves in the store: `main.py`, `__init__.py` and
      `pyproject.toml` with the template's texts, `requirements.txt` exactly
      when the template has dependencies, every additional file, and nothing
      else new. */
  lemma CreatedLayout(files: map<string, string>, dir: string, projectName: string, t: ProjectTemplate)
    ensures var r := WriteAll(files, dir, ProjectWrites(projectName, t));
      && Lookup(r, PathIn(dir, "main.py")) == Some(t.MainFileContent())
      && Lookup(r, PathIn(dir, "__init__.py")) == Some(t.InitFileContent())
      && Lookup(r, PathIn(dir, "pyproject.toml")) == Some(t.PyprojectContent(projectName))
      && (t.Dependencies() != [] ==> Lookup(r, PathIn(dir, "requirements.txt")) == Some(t.RequirementsContent()))
      && (t.Dependencies() == [] ==> Lookup(r, PathIn(dir, "requirements.txt")) == Lookup(files, PathIn(dir, "requirements.txt")))
      && (forall i :: 0 <= i < |t.AdditionalFiles()| ==>
            Lookup(r, PathIn(dir, t.AdditionalFiles()[i].0)) == Some(t.AdditionalFiles()[i].1))
      && r.Keys == files.Keys + WrittenPaths(dir, ProjectWrites(projectName, t))
  {
    var req := if t.Dependencies() != [] then Some(t.RequirementsContent()) else None;
    LayoutPreconditions(projectName, t);
    LayoutOf(files, dir, t.MainFileContent(), t.InitFileContent(), req, t.PyprojectContent(projectName),
             t.AdditionalFiles());
  }

  /** The facts about a template's writes that the layout rests on. */
  lemma LayoutPreconditions(projectName: string, t: ProjectTemplate)
    ensures var req := if t.Dependencies() != [] then Some(t.RequirementsContent()) else None;
      DistinctPaths(CoreWritesOf(t.MainFileContent(), t.InitFileContent(), req, t.PyprojectContent(projectName))
                    + t.AdditionalFiles())
    ensures t.Dependencies() == [] ==> "requirements.txt" !in PathsOf(t.AdditionalFiles())
  {
    ProjectWritesDistinct(projectName, t);
    if t.Dependencies() == [] {
      OnlyEmptyHasNoDependencies(t);
      TemplateFilePaths(t);
    }
  }

  /** Only the empty template comes without a requirements file. */
  lemma OnlyEmptyHasNoDependencies(t: ProjectTemplate)
    ensures t.Dependencies() == [] <==> t.Empty?
  {
    match t {
      case Empty =>
      case FlaskApi => assert |t.Dependencies()| == 1;
      case DataAnalysis => assert |t.Dependencies()| == 3;
      case MachineLearning => assert |t.Dependencies()| == 4;
    }
  }

  /** The layout after the core writes and the extra files, for any contents. */
  lemma LayoutOf(files: map<string, string>, dir: string, main: string, init: string,
                 requirements: Option<string>, pyproject: string, extra: seq<(string, string)>)
    requires DistinctPaths(CoreWritesOf(main, init, requirements, pyproject) + extra)
    requires requirements.None? ==> "requirements.txt" !in PathsOf(extra)
    ensures var r := WriteAll(files, dir, CoreWritesOf(main, init, requirements, pyproject) + extra);
      && Lookup(r, PathIn(dir, "main.py")) == Some(main)
      && Lookup(r, PathIn(dir, "__init__.py")) == Some(init)
      && Lookup(r, PathIn(dir, "pyproject.toml")) == Some(pyproject)
      && (requirements.Some? ==> Lookup(r, PathIn(dir, "requirements.txt")) == Some(requirements.value))
      && (requirements.None? ==> Lookup(r, PathIn(dir, "requirements.txt")) == Lookup(files, PathIn(dir, "requirements.txt")))
      && (forall i :: 0 <= i < |extra| ==> Lookup(r, PathIn(dir, extra[i].0)) == Some(extra[i].1))
  {
    var core := CoreWritesOf(main, init, requirements, pyproject);
    LayoutCore(files, dir, core, extra, main, init, pyproject);
    LayoutRequirements(files, dir, main, init, requirements, pyproject, extra);
    LayoutExtra(files, dir, core, extra);
  }

  lemma LayoutCore(files: map<string, string>, dir: string, core: seq<(string, string)>,
                   extra: seq<(string, string)>, main: string, init: string, pyproject: string)
    requires DistinctPaths(core + extra) && |core| >= 3
    requires core[0] == ("main.py", main) && core[1] == ("__init__.py", init)
    requires core[|core| - 1] == ("pyproject.toml", pyproject)
    ensures var r := WriteAll(files, dir, core + extra);
      && Lookup(r, PathIn(dir, "main.py")) == Some(main)
      && Lookup(r, PathIn(dir, "__init__.py")) == Some(init)
      && Lookup(r, PathIn(dir, "pyproject.toml")) == Some(pyproject)
  {
    var ws := core + extra;
    assert ws[0] == core[0] && ws[1] == core[1] && ws[|core| - 1] == core[|core| - 1];
    WrittenAt(files, dir, ws, 0);
    WrittenAt(files, dir, ws, 1);
    WrittenAt(files, dir, ws, |core| - 1);
  }

  lemma LayoutRequirements(files: map<string, string>, dir: string, main: string, init: string,
                           requirements: Option<string>, pyproject: string, extra: seq<(string, string)>)
    requires DistinctPaths(CoreWritesOf(main, init, requirements, pyproject) + extra)
    requires requirements.None? ==> "requirements.txt" !in PathsOf(extra)
    ensures var r := WriteAll(files, dir, CoreWritesOf(main, init, requirements, pyproject) + extra);
      && (requirements.Some? ==> Lookup(r, PathIn(dir, "requirements.txt")) == Some(requirements.value))
      && (requirements.None? ==> Lookup(r, PathIn(dir, "requirements.txt")) == Lookup(files, PathIn(dir, "requirements.txt")))
  {
    var core := CoreWritesOf(main, init, requirements, pyproject);
    var ws := core + extra;
    if requirements.Some? {
      assert ws[2] == ("requirements.txt", requirements.value);
      WrittenAt(files, dir, ws, 2);
    } else {
      PathsOfAppend(core, extra);
      CoreWritesOfPaths(main, init, requirements, pyproject);
      assert "requirements.txt" !in PathsOf(core);
      UnwrittenKeeps(files, dir, ws, "requirements.txt");
    }
  }

  lemma LayoutExtra(files: map<string, string>, dir: string, core: seq<(string, string)>, extra: seq<(string, string)>)
    requires DistinctPaths(core + extra)
    ensures forall i :: 0 <= i < |extra| ==>
              Lookup(WriteAll(files, dir, core + extra), PathIn(dir, extra[i].0)) == Some(extra[i].1)
  {
    var ws := core + extra;
    forall i | 0 <= i < |extra| ensures Lookup(WriteAll(files, dir, ws), PathIn(dir, extra[i].0)) == Some(extra[i].1) {
      assert ws[|core| + i] == extra[i];
      WrittenAt(files, dir, ws, |core| + i);
    }
  }

  /** The last write wins: when no later entry targets the same path, the
      entry at `k` is what its path holds at the end. */
  lemma {:induction false} WrittenAt(files: map<string, string>, dir: string, ws: seq<(string, string)>, k: int)
    requires 0 <= k < |ws|
    requires forall j :: k < j < |ws| ==> ws[j].0 != ws[k].0
    ensures Lookup(WriteAll(files, dir, ws), PathIn(dir, ws[k].0)) == Some(ws[k].1)
    decreases |ws|
  {
    var init, last := ws[..|ws| - 1], ws[|ws| - 1];
    if k < |ws| - 1 {
      assert init[k] == ws[k];
      forall j | k < j < |init| ensures init[j].0 != init[k].0 {
        assert init[j] == ws[j];
      }
      WrittenAt(files, dir, init, k);
      PathInInjective(dir, ws[k].0, last.0);
    }
  }

  /** A path no entry targets keeps what it held. */
  lemma UnwrittenKeeps(files: map<string, string>, dir: string, ws: seq<(string, string)>, name: string)
    requires name !in PathsOf(ws)
    ensures Lookup(WriteAll(files, dir, ws), PathIn(dir, name)) == Lookup(files, PathIn(dir, name))
  {
    NotWritten(dir, ws, name);
  }

  /** A fresh project's dependencies, read from the store `createProject`
      leaves, are the template's pinned dependencies. */
  lemma CreatedDependencies(files: map<string, string>, dirs: set<string>, dir: string,
                            projectName: string, t: ProjectTemplate)
    requires ParentsExist(files, dirs) && dir !in dirs
    ensures ParseDependencies(Lookup(WriteAll(files, dir, ProjectWrites(projectName, t)),
                                     PathIn(dir, "requirements.txt"))) == TemplateDependencies(t)
  {
    var req := if t.Dependencies() != [] then Some(t.RequirementsContent()) else None;
    var core := CoreWritesOf(t.MainFileContent(), t.InitFileContent(), req, t.PyprojectContent(projectName));
    assert ProjectWrites(projectName, t) == core + t.AdditionalFiles();
    LayoutPreconditions(projectName, t);
    LayoutRequirements(files, dir, t.MainFileContent(), t.InitFileContent(), req, t.PyprojectContent(projectName),
                       t.AdditionalFiles());
    if t.Dependencies() == [] {
      OnlyEmptyHasNoDependencies(t);
      CoreNamesPlain();
      ParentOfPathIn(dir, "requirements.txt");
      assert PathIn(dir, "requirements.txt") !in files;
    } else {
      TemplateRequirementsRoundTrip(t);
    }
  }

  /** Loading a freshly created project gives back the template's description. */
  lemma CreatedDescription(files: map<string, string>, dir: string, projectName: string, t: ProjectTemplate)
    requires IsValidProjectName(projectName)
    ensures LoadDescription(Lookup(WriteAll(files, dir, ProjectWrites(projectName, t)),
                                   PathIn(dir, "pyproject.toml"))) == t.Description()
  {
    CreatedLayout(files, dir, projectName, t);
    ValidNameIsPlain(projectName);
    PyprojectDescriptionIsTemplate(t, projectName);
  }

  /** One entry of a ZIP archive. */
  datatype ZipEntry = ZipEntry(name: string, isDirectory: bool, content: string := "")

  /** The files after extracting `entries` into `dir`. */
  function ExtractFiles(files: map<string, string>, dir: string, entries: seq<ZipEntry>): map<string, string>
    decreases |entries|
  {
    if entries == [] then files
    else
      var e := entries[|entries| - 1];
      var m := ExtractFiles(files, dir, entries[..|entries| - 1]);
      if e.isDirectory then m else m[PathIn(dir, e.name) := e.content]
  }

  /** The directories after extracting `entries` into `dir`. */
  function ExtractDirs(dirs: set<string>, dir: string, entries: seq<ZipEntry>): set<string>
    decreases |entries|
  {
    if entries == [] then dirs
    else
      var e := entries[|entries| - 1];
      var ds := ExtractDirs(dirs, dir, entries[..|entries| - 1]);
      var file := PathIn(dir, e.name);
      if e.isDirectory then ds + {file}
      else ds + (if ParentDir(file).Some? then {ParentDir(file).value} else {})
  }

  lemma ExtractSnoc(files: map<string, string>, dirs: set<string>, dir: string, entries: seq<ZipEntry>, e: ZipEntry)
    ensures ExtractFiles(files, dir, entries + [e])
            == (if e.isDirectory then ExtractFiles(files, dir, entries)
                else ExtractFiles(files, dir, entries)[PathIn(dir, e.name) := e.content])
    ensures ExtractDirs(dirs, dir, entries + [e])
            == ExtractDirs(dirs, dir, entries)
               + (if e.isDirectory then {PathIn(dir, e.name)}
                  else if ParentDir(PathIn(dir, e.name)).Some? then {ParentDir(PathIn(dir, e.name)).value}
                  else {})
  {
    assert (entries + [e])[..|entries|] == entries;
  }

  /** `ProjectManager`: the projects directory and the store under it. */
  class ProjectManager {
    const projectsDir: string
    var files: map<string, string>
    var dirs: set<string>

    /** The store as found on disk; `projectsDirectory` is created when missing. */
    constructor(filesDir: string, files: map<string, string>, dirs: set<string>)
      requires ParentsExist(files, dirs)
      ensures projectsDir == PathIn(filesDir, ProjectsDirName)
      ensures this.files == files && this.dirs == dirs + {projectsDir}
      ensures Valid()
    {
      projectsDir := PathIn(filesDir, ProjectsDirName);
      this.files := files;
      this.dirs := dirs + {PathIn(filesDir, ProjectsDirName)};
    }

    predicate Valid()
      reads this
    {
      ParentsExist(files, dirs)
    }

    /** `File(p).exists()`. */
    predicate Exists(p: string)
      reads this
    {
      p in files || p in dirs
    }

    /** `File(projectsDirectory, name)`. */
    function ProjectDir(name: string): (r: string)
      ensures StartsWith(r, projectsDir + "/")
    {
      PathIn(projectsDir, name)
    }

    /** `createProject`: the name is validated before the directory is looked
        at, nothing is written when either check fails, and otherwise the
        template's files are written one after another. `scanned` stands for
        `scanProjectFiles` of the new directory. */
    method CreateProject(name: string, description: string, template: ProjectTemplate,
                         scanned: seq<ProjectFile>) returns (r: Result<Project>)
      requires Valid()
      modifies this
      ensures Valid()
      ensures !IsValidProjectName(name) ==> r == Failure("Invalid project name")
      ensures IsValidProjectName(name) && old(Exists(ProjectDir(name))) ==> r == Failure("Project already exists")
      ensures r.Failure? ==> files == old(files) && dirs == old(dirs)
      ensures IsValidProjectName(name) && !old(Exists(ProjectDir(name))) ==>
                r.Success? && fresh(r.value)
                && files == WriteAll(old(files), ProjectDir(name), ProjectWrites(name, template))
                && dirs == old(dirs) + {ProjectDir(name)} + MadeDirs(ProjectDir(name), template.AdditionalFiles())
                && r.value.name == name && r.value.description == description
                && r.value.path == ProjectDir(name) && r.value.mainFile == "main.py"
                && r.value.template == Some(template) && r.value.files == scanned
                && r.value.dependencies == TemplateDependencies(template)
    {
      if !IsValidProjectName(name) {
        return Failure("Invalid project name");
      }
      var projectDir := ProjectDir(name);
      if projectDir in files || projectDir in dirs {
        return Failure("Project already exists");
      }
      ValidNameIsPlain(name);
      CreatedDependencies(files, dirs, projectDir, name, template);
      var requirements := if template.Dependencies() != [] then Some(template.RequirementsContent()) else None;
      ProjectWritesOf(name, template);
      WriteProject(projectDir, template.MainFileContent(), template.InitFileContent(), requirements,
                   template.PyprojectContent(name), template.AdditionalFiles());
      var project := new Project(name, description, projectDir, "main.py",
                                 ParseDependencies(Lookup(files, PathIn(projectDir, "requirements.txt"))),
                                 scanned, Some(template));
      r := Success(project);
    }

    /** `projectDir.mkdirs()` and the writes of `createProject`, in order. */
    method WriteProject(projectDir: string, main: string, init: string, requirements: Option<string>,
                        pyproject: string, extra: seq<(string, string)>)
      requires Valid()
      modifies this
      ensures Valid()
      ensures files == WriteAll(old(files), projectDir, CoreWritesOf(main, init, requirements, pyproject) + extra)
      ensures dirs == old(dirs) + {projectDir} + MadeDirs(projectDir, extra)
    {
      ParentsExistMore(files, dirs, {projectDir});
      dirs := dirs + {projectDir};
      WriteAllAppend(old(files), projectDir, CoreWritesOf(main, init, requirements, pyproject), extra);
      WriteCoreFiles(projectDir, main, init, requirements, pyproject);
      WriteAdditionalFiles(projectDir, extra);
    }

    /** `File(p).writeText(content)`: the parent directory must exist. */
    method WriteText(p: string, content: string)
      requires Valid() && (ParentDir(p).Some? ==> ParentDir(p).value in dirs)
      modifies this
      ensures Valid()
      ensures files == old(files)[p := content] && dirs == old(dirs)
    {
      files := files[p := content];
    }

    /** The four writes `createProject` makes into the new directory; the
        requirements file only when there is one to write. */
    method WriteCoreFiles(dir: string, main: string, init: string, requirements: Option<string>, pyproject: string)
      requires Valid() && dir in dirs
      modifies this
      ensures Valid()
      ensures files == WriteAll(old(files), dir, CoreWritesOf(main, init, requirements, pyproject))
      ensures dirs == old(dirs)
    {
      CoreNamesPlain();
      CoreWritesOfStore(files, dir, main, init, requirements, pyproject);
      ParentOfPathIn(dir, "main.py");
      WriteText(PathIn(dir, "main.py"), main);
      ParentOfPathIn(dir, "__init__.py");
      WriteText(PathIn(dir, "__init__.py"), init);
      if requirements.Some? {
        ParentOfPathIn(dir, "requirements.txt");
        WriteText(PathIn(dir, "requirements.txt"), requirements.value);
      }
      ParentOfPathIn(dir, "pyproject.toml");
      WriteText(PathIn(dir, "pyproject.toml"), pyproject);
    }

    /** `additionalFiles.forEach`: each file's parent directories are made,
        then its text is written. */
    method WriteAdditionalFiles(dir: string, extra: seq<(string, string)>)
      requires Valid()
      modifies this
      ensures Valid()
      ensures files == WriteAll(old(files), dir, extra)
      ensures dirs == old(dirs) + MadeDirs(dir, extra)
    {
      var i := 0;
      while i < |extra|
        invariant 0 <= i <= |extra|
        invariant Valid()
        invariant files == WriteAll(old(files), dir, extra[..i])
        invariant dirs == old(dirs) + MadeDirs(dir, extra[..i])
      {
        var (path, content) := extra[i];
        assert extra[..i + 1] == extra[..i] + [extra[i]];
        WriteSnoc(old(files), dir, extra[..i], extra[i]);
        WriteAdditionalFile(dir, path, content);
        i := i + 1;
      }
      assert extra[..|extra|] == extra;
    }

    /** One additional file: `file.parentFile?.mkdirs()`, then `writeText`. */
    method WriteAdditionalFile(dir: string, path: string, content: string)
      requires Valid()
      modifies this
      ensures Valid()
      ensures var file := PathIn(dir, path);
        && files == old(files)[file := content]
        && dirs == old(dirs) + (if ParentDir(file).Some? then {ParentDir(file).value} else {})
    {
      var file := PathIn(dir, path);
      var parent := ParentDir(file);
      if parent.Some? {
        ParentsExistMore(files, dirs, {parent.value});
        dirs := dirs + {parent.value};
      }
      WriteText(file, content);
    }

    /** `loadProject`: nothing unless the directory exists; the description
        comes from the pyproject file or falls back to "Python project".
        `scanned` stands for `scanProjectFiles`. */
    method LoadProject(projectName: string, scanned: seq<ProjectFile>) returns (r: Option<Project>)
      ensures ProjectDir(projectName) !in dirs ==> r.None?
      ensures ProjectDir(projectName) in dirs ==>
                r.Some? && fresh(r.value) && r.value.name == projectName
                && r.value.description == LoadDescription(Lookup(files, PathIn(ProjectDir(projectName), "pyproject.toml")))
                && r.value.path == ProjectDir(projectName) && r.value.mainFile == "main.py"
                && r.value.dependencies == ParseDependencies(Lookup(files, PathIn(ProjectDir(projectName), "requirements.txt")))
                && r.value.files == scanned && r.value.template == None
    {
      var projectDir := ProjectDir(projectName);
      if projectDir !in dirs {
        return None;
      }
      var description := LoadDescription(Lookup(files, PathIn(projectDir, "pyproject.toml")));
      var dependencies := ParseDependencies(Lookup(files, PathIn(projectDir, "requirements.txt")));
      var project := new Project(projectName, description, projectDir, "main.py", dependencies, scanned);
      r := Some(project);
    }

    /** `importProject`: an existing target is refused before anything is
        written; otherwise the entries are extracted in order and the project
        is loaded from the new directory. */
    method ImportProject(entries: seq<ZipEntry>, projectName: string, scanned: seq<ProjectFile>)
      returns (r: Result<Project>)
      requires Valid()
      modifies this
      ensures Valid()
      ensures old(Exists(ProjectDir(projectName))) ==>
                r == Failure("Project already exists") && files == old(files) && dirs == old(dirs)
      ensures !old(Exists(ProjectDir(projectName))) ==>
                files == ExtractFiles(old(files), ProjectDir(projectName), entries)
                && dirs == ExtractDirs(old(dirs) + {ProjectDir(projectName)}, ProjectDir(projectName), entries)
                && r.Success? && fresh(r.value) && r.value.name == projectName
                && r.value.path == ProjectDir(projectName) && r.value.files == scanned
                && r.value.description == LoadDescription(Lookup(files, PathIn(ProjectDir(projectName), "pyproject.toml")))
                && r.value.dependencies == ParseDependencies(Lookup(files, PathIn(ProjectDir(projectName), "requirements.txt")))
    {
      var projectDir := ProjectDir(projectName);
      if projectDir in files || projectDir in dirs {
        return Failure("Project already exists");
      }
      ParentsExistMore(files, dirs, {projectDir});
      dirs := dirs + {projectDir};
      ExtractEntries(projectDir, entries);
      var loaded := LoadProject(projectName, scanned);
      if loaded.Some? {
        r := Success(loaded.value);
      } else {
        r := Failure("Failed to load imported project");
      }
    }

    /** The `nextEntry` loop: every entry is extracted into `dir` in order. */
    method ExtractEntries(dir: string, entries: seq<ZipEntry>)
      requires Valid()
      modifies this
      ensures Valid()
      ensures files == ExtractFiles(old(files), dir, entries)
      ensures dirs == ExtractDirs(old(dirs), dir, entries)
      ensures old(dirs) <= dirs
    {
      var i := 0;
      while i < |entries|
        invariant 0 <= i <= |entries|
        invariant Valid()
        invariant files == ExtractFiles(old(files), dir, entries[..i])
        invariant dirs == ExtractDirs(old(dirs), dir, entries[..i])
        invariant old(dirs) <= dirs
      {
        assert entries[..i + 1] == entries[..i] + [entries[i]];
        ExtractSnoc(old(files), old(dirs), dir, entries[..i], entries[i]);
        ExtractEntry(dir, entries[i]);
        i := i + 1;
      }
      assert entries[..|entries|] == entries;
    }

    /** One entry: a directory entry is made; a file entry gets its parent
        made and its bytes copied. */
    method ExtractEntry(dir: string, entry: ZipEntry)
      requires Valid()
      modifies this
      ensures Valid()
      ensures var file := PathIn(dir, entry.name);
        && files == (if entry.isDirectory then old(files) else old(files)[file := entry.content])
        && dirs == old(dirs)
                   + (if entry.isDirectory then {file}
                      else if ParentDir(file).Some? then {ParentDir(file).value}
                      else {})
    {
      var file := PathIn(dir, entry.name);
      if entry.isDirectory {
        ParentsExistMore(files, dirs, {file});
        dirs := dirs + {file};
      } else {
        var parent := ParentDir(file);
        if parent.Some? {
          ParentsExistMore(files, dirs, {parent.value});
          dirs := dirs + {parent.value};
        }
        WriteText(file, entry.content);
      }
    }

    /** `installDependencies`: without a requirements file there is nothing to
        install; otherwise the pip command for `-r` and that file. */
    function InstallDependencies(env: Commands.Env, project: Project): (r: Result<string>)
      reads this
      ensures !Exists(project.GetRequirementsPath()) ==> r == Success("No dependencies to install")
      ensures Exists(project.GetRequirementsPath()) ==>
                r.Success?
                && r.value == Commands.Command(Commands.EnhancedPipInstallSteps(env, "-r " + project.GetRequirementsPath()))
                && Commands.PythonExec + " -m pip install --user --upgrade -r " + project.GetRequirementsPath()
                   in Commands.EnhancedPipInstallSteps(env, "-r " + project.GetRequirementsPath())
    {
      var requirementsFile := project.GetRequirementsPath();
      if !Exists(requirementsFile) then Success("No dependencies to install")
      else
        assert Commands.PythonExec + " -m pip install --user --upgrade " + ("-r " + requirementsFile)
               == Commands.PythonExec + " -m pip install --user --upgrade -r " + requirementsFile;
        Success(Commands.EnhancedPipInstallCommand(env, "-r " + requirementsFile))
    }
  }
}
