/** The project data model (`models/Project.kt`): dependencies, project files,
    the four project templates and the `Project` whose dependency and file
    lists are changed in place. */
module Models {
  import opened Wrappers
  import opened Seqs
  import opened Strings

  /** `Dependency`: a package with an optional pinned version. */
  datatype Dependency = Dependency(name: string, version: string := "", isRequired: bool := true,
                                   description: string := "")
  {
    /** `getDisplayName` (and `toRequirementString`, which returns it). */
    function GetDisplayName(): (r: string)
      ensures |version| > 0 ==> r == name + "==" + version
      ensures |version| == 0 ==> r == name
    {
      if |version| > 0 then name + "==" + version else name
    }
  }

  /** `ProjectFile`; `size` is a Kotlin `Long` and `lastModified` a clock
      reading in milliseconds, both taken as given. */
  datatype ProjectFile = ProjectFile(name: string, path: string, relativePath: string,
                                     isDirectory: bool := false, size: int := 0,
                                     lastModified: int := 0)
  {
    /** `getExtension`: the text after the last '.', or "" without a dot. */
    function GetExtension(): (r: string)
      ensures '.' !in r
      ensures '.' !in name ==> r == ""
      ensures '.' in name ==> EndsWith(name, "." + r)
    {
      if '.' in name then SubstringAfterLast(name, '.') else ""
    }

    /** `isPythonFile`. */
    predicate IsPythonFile() {
      GetExtension() == "py"
    }

    /** `isConfigFile`. */
    predicate IsConfigFile() {
      name in ["requirements.txt", "pyproject.toml", "__init__.py"]
    }

    /** `getDisplaySize`: whole bytes, kibibytes or mebibytes, rounded down. */
    function GetDisplaySize(): string {
      if size < 1024 then IntToString(size) + "B"
      else if size < 1024 * 1024 then IntToString(size / 1024) + "KB"
      else IntToString(size / (1024 * 1024)) + "MB"
    }
  }

  /** The scale of the unit `getDisplaySize` picks for a size, in bytes. */
  function UnitScale(size: int): nat {
    if size < 1024 then 1 else if size < 1024 * 1024 then 1024 else 1024 * 1024
  }

  /** The unit `getDisplaySize` writes for a size. */
  function UnitName(size: int): string {
    if size < 1024 then "B" else if size < 1024 * 1024 then "KB" else "MB"
  }

  /** The displayed text of a non-negative size is a decimal number followed
      by its unit, and that number times the unit's scale is the size rounded
      down to a whole unit: kilobytes and megabytes show at least 1, bytes and
      kilobytes show less than 1024. */
  lemma DisplaySizeReadsBack(f: ProjectFile) returns (n: nat)
    requires f.size >= 0
    ensures f.GetDisplaySize() == NatToString(n) + UnitName(f.size)
    ensures DigitsValue(NatToString(n)) == n
    ensures UnitScale(f.size) * n <= f.size < UnitScale(f.size) * (n + 1)
    ensures UnitScale(f.size) > 1 ==> n >= 1
    ensures n < 1024 || UnitScale(f.size) == 1024 * 1024
  {
    var size := f.size;
    if size < 1024 {
      n := size;
    } else if size < 1024 * 1024 {
      n := size / 1024;
      assert 1024 * n <= size < 1024 * (n + 1);
    } else {
      n := size / (1024 * 1024);
      assert 1048576 * n <= size < 1048576 * (n + 1);
    }
    NatToStringValue(n);
  }

  /** A file counts as a Python file exactly when its name ends with ".py". */
  lemma PythonFileIffSuffix(f: ProjectFile)
    ensures f.IsPythonFile() <==> EndsWith(f.name, ".py")
  {
    var s := f.name;
    if EndsWith(s, ".py") {
      var pre := s[..|s| - 3];
      assert s == pre + ['.'] + "py";
      assert s[|s| - 3] in s;
      SubstringAfterLastSplit(pre, '.', "py");
    }
  }

  /** `dependencies.contains(d)` / `add(d)`: append unless already present. */
  function AddIfAbsent<T(==)>(xs: seq<T>, x: T): (r: seq<T>)
    ensures xs <= r && |r| <= |xs| + 1
    ensures x in r
    ensures forall i :: 0 <= i < |r| ==> r[i] in xs || r[i] == x
  {
    if x in xs then xs else xs + [x]
  }

  /** Adding never creates a duplicate. */
  lemma AddIfAbsentNoDup<T>(xs: seq<T>, x: T)
    ensures NoDup(xs) ==> NoDup(AddIfAbsent(xs, x))
  {
    if NoDup(xs) && x !in xs {
      var r := xs + [x];
      forall i, j | 0 <= i < j < |r| ensures r[i] != r[j] {
        if j == |xs| {
          assert r[i] == xs[i];
        }
      }
    }
  }

  /** Adding the same element twice is adding it once. */
  lemma AddIfAbsentIdempotent<T>(xs: seq<T>, x: T)
    ensures AddIfAbsent(AddIfAbsent(xs, x), x) == AddIfAbsent(xs, x)
  {
  }

  /** An absent element is appended, a present one changes nothing. */
  lemma AddIfAbsentAppends<T>(xs: seq<T>, x: T)
    ensures x !in xs ==> AddIfAbsent(xs, x) == xs + [x]
    ensures x in xs ==> AddIfAbsent(xs, x) == xs
  {
  }

  /** `dependencies.removeIf { it.name == packageName }`. */
  function RemoveDependencyNamed(deps: seq<Dependency>, packageName: string): (r: seq<Dependency>)
    ensures forall i :: 0 <= i < |r| ==> r[i].name != packageName && r[i] in deps
    ensures forall i :: 0 <= i < |deps| && deps[i].name != packageName ==> deps[i] in r
  {
    Filter(deps, (d: Dependency) => d.name != packageName)
  }

  /** Removal keeps the others in their original order: removing from a
      concatenation removes from each part. Removing a name no dependency has
      changes nothing, and removing twice is removing once. */
  lemma RemoveDependencyOrder(a: seq<Dependency>, b: seq<Dependency>, packageName: string)
    ensures RemoveDependencyNamed(a + b, packageName)
            == RemoveDependencyNamed(a, packageName) + RemoveDependencyNamed(b, packageName)
    ensures (forall i :: 0 <= i < |a| ==> a[i].name != packageName) ==> RemoveDependencyNamed(a, packageName) == a
    ensures RemoveDependencyNamed(RemoveDependencyNamed(a, packageName), packageName)
            == RemoveDependencyNamed(a, packageName)
  {
    var p := (d: Dependency) => d.name != packageName;
    FilterAppend(a, b, p);
    if forall i :: 0 <= i < |a| ==> a[i].name != packageName {
      FilterAll(a, p);
    }
    var r := Filter(a, p);
    FilterAll(r, p);
  }

  /** `files.removeIf { it.path == filePath }`. */
  function RemoveFileAt(files: seq<ProjectFile>, filePath: string): (r: seq<ProjectFile>)
    ensures forall i :: 0 <= i < |r| ==> r[i].path != filePath && r[i] in files
    ensures forall i :: 0 <= i < |files| && files[i].path != filePath ==> files[i] in r
  {
    Filter(files, (f: ProjectFile) => f.path != filePath)
  }

  /** Removal keeps the other files in their original order and number:
      removing from a concatenation removes from each part, and a single
      file stays exactly when its path differs. */
  lemma RemoveFileOrder(a: seq<ProjectFile>, b: seq<ProjectFile>, filePath: string)
    ensures RemoveFileAt(a + b, filePath) == RemoveFileAt(a, filePath) + RemoveFileAt(b, filePath)
    ensures forall f: ProjectFile :: RemoveFileAt([f], filePath) == if f.path != filePath then [f] else []
    ensures RemoveFileAt([], filePath) == []
  {
    FilterAppend(a, b, (f: ProjectFile) => f.path != filePath);
    forall f: ProjectFile
      ensures RemoveFileAt([f], filePath) == if f.path != filePath then [f] else []
    {
      assert [f][1..] == [];
    }
  }

  predicate HasPyPath(f: ProjectFile) {
    EndsWith(f.path, ".py")
  }

  /** The files with a ".py" path, in order. */
  function PythonFiles(files: seq<ProjectFile>): (r: seq<ProjectFile>)
    ensures |r| <= |files|
    ensures forall i :: 0 <= i < |r| ==> r[i] in files && EndsWith(r[i].path, ".py")
    ensures forall i :: 0 <= i < |files| && EndsWith(files[i].path, ".py") ==> files[i] in r
  {
    Filter(files, HasPyPath)
  }

  /** The Python files keep their order and number: those of a
      concatenation are those of each part, and a single file is kept
      exactly when its path ends with ".py". */
  lemma PythonFilesOrder(a: seq<ProjectFile>, b: seq<ProjectFile>)
    ensures PythonFiles(a + b) == PythonFiles(a) + PythonFiles(b)
    ensures forall f: ProjectFile :: PythonFiles([f]) == if EndsWith(f.path, ".py") then [f] else []
    ensures PythonFiles([]) == []
  {
    FilterAppend(a, b, HasPyPath);
    forall f: ProjectFile
      ensures PythonFiles([f]) == if EndsWith(f.path, ".py") then [f] else []
    {
      assert [f][1..] == [];
    }
  }

  /** `ProjectTemplate`. */
  datatype ProjectTemplate = Empty | FlaskApi | DataAnalysis | MachineLearning
  {
    function DisplayName(): string {
      match this
      case Empty => "Empty Project"
      case FlaskApi => "Flask API"
      case DataAnalysis => "Data Analysis"
      case MachineLearning => "Machine Learning"
    }

    /** The template's description (each text is written in three pieces,
        which the proofs about its characters take one at a time). */
    function Description(): string {
      match this
      case Empty => "A minimal " + "Python project " + "structure"
      case FlaskApi => "A starter RESTful " + "API using Flask " + "framework"
      case DataAnalysis => "Data analysis " + "project with pandas " + "and matplotlib"
      case MachineLearning => "ML project " + "template with " + "scikit-learn"
    }

    function MainFileContent(): string {
      match this
      case Empty => EmptyMain
      case FlaskApi => FlaskMain
      case DataAnalysis => DataAnalysisMain
      case MachineLearning => MachineLearningMain
    }

    /** The pinned requirements, in the order they are written. */
    function Dependencies(): seq<string> {
      match this
      case Empty => []
      case FlaskApi => ["flask==2.3.3"]
      case DataAnalysis => ["pandas==2.1.3", "matplotlib==3.8.2", "numpy==1.25.2"]
      case MachineLearning => ["scikit-learn==1.3.2", "pandas==2.1.3", "numpy==1.25.2", "joblib==1.3.2"]
    }

    /** `additionalFiles`: relative path and content, in the map's insertion order. */
    function AdditionalFiles(): seq<(string, string)> {
      match this
      case Empty => []
      case FlaskApi => [
        ("api/__init__.py", ""),
        ("api/routes.py", "# API routes module\n"),
        ("config.py", "# Configuration settings\nDEBUG = True\nPORT = 5000\n")]
      case DataAnalysis => [
        ("data/__init__.py", ""),
        ("data/loader.py", "# Data loading utilities\n"),
        ("analysis/__init__.py", ""),
        ("analysis/statistics.py", "# Statistical analysis functions\n")]
      case MachineLearning => [
        ("models/__init__.py", ""),
        ("models/train.py", "# Model training utilities\n"),
        ("models/evaluate.py", "# Model evaluation utilities\n"),
        ("data/__init__.py", ""),
        ("utils/__init__.py", ""),
        ("utils/preprocessing.py", "# Data preprocessing utilities\n")]
    }

    /** `getInitFileContent`: a one-line comment naming the template. */
    function InitFileContent(): (r: string)
      ensures StartsWith(r, "# " + DisplayName())
      ensures EndsWith(r, " - Generated by Python Pocket IDE\n")
    {
      PrefixOfAppend("# " + DisplayName(), " - Generated by Python Pocket IDE\n");
      SuffixOfAppend("# " + DisplayName(), " - Generated by Python Pocket IDE\n");
      "# " + DisplayName() + " - Generated by Python Pocket IDE\n"
    }

    /** The lines of `getPyprojectContent(projectName)`: the dependency list is
        one piece holding its entries joined by ",\n", and the content ends
        with a newline, so the last piece is empty. */
    function PyprojectLines(projectName: string): seq<string> {
      PyprojectHead(projectName) + [Setting("description", Quoted(Description()))]
      + PyprojectTail(projectName, Dependencies())
    }

    /** `getPyprojectContent(projectName)`. */
    function PyprojectContent(projectName: string): string {
      Join(PyprojectLines(projectName), "\n")
    }

    /** `getRequirementsContent`: one requirement per line, no final newline. */
    function RequirementsContent(): string {
      Join(Dependencies(), "\n")
    }
  }

  /** The pyproject lines before the description: the build system, the
      project name and its version. */
  function PyprojectHead(projectName: string): seq<string> {
    ["[build-system]",
     "requires = " + "[\"setuptools>=45\", " + "\"wheel\"]",
     "build-backend = " + "\"setuptools." + "build_meta\"",
     "",
     "[project]",
     Setting("name", Quoted(projectName)),
     "version = \"0.1.0\""]
  }

  /** The pyproject lines after the description: authors, dependencies,
      the Python requirement and the console script. */
  function PyprojectTail(projectName: string, deps: seq<string>): seq<string> {
    ["authors = [",
     "    {name = \"Python Pocket IDE User\", email = \"user@example.com\"},",
     "]",
     "dependencies = [",
     Join(QuotedDependencies(deps), ",\n"),
     "]",
     "requires-python = \">=3.8\"",
     "",
     "[project.scripts]",
     Setting(projectName, Quoted(projectName + ".main:main")),
     ""]
  }

  /** A TOML string value: the text between double quotes. */
  function Quoted(v: string): (r: string)
    ensures |r| == |v| + 2 && r[0] == '"' && r[|r| - 1] == '"' && r[1..|r| - 1] == v
  {
    "\"" + v + "\""
  }

  /** A TOML `key = value` line. */
  function Setting(key: string, value: string): (r: string)
    ensures |r| == |key| + 3 + |value|
    ensures r[..|key|] == key && r[|key|..|key| + 3] == " = " && r[|key| + 3..] == value
  {
    key + " = " + value
  }

  /** Each requirement as the pyproject list writes it: indented and quoted. */
  function QuotedDependencies(deps: seq<string>): (r: seq<string>)
    ensures |r| == |deps|
    ensures forall i :: 0 <= i < |deps| ==> r[i] == "    \"" + deps[i] + "\""
  {
    if deps == [] then [] else ["    \"" + deps[0] + "\""] + QuotedDependencies(deps[1..])
  }

  /** The paths of a list of (path, content) entries. */
  function PathsOf(ws: seq<(string, string)>): (r: seq<string>)
    ensures |r| == |ws| && forall i :: 0 <= i < |ws| ==> r[i] == ws[i].0
  {
    if ws == [] then [] else [ws[0].0] + PathsOf(ws[1..])
  }

  lemma PathsOfAppend(a: seq<(string, string)>, b: seq<(string, string)>)
    ensures PathsOf(a + b) == PathsOf(a) + PathsOf(b)
  {
    assert forall i :: 0 <= i < |b| ==> (a + b)[|a| + i] == b[i];
  }

  /** The paths of a template's extra files, in order. */
  function ExtraPaths(t: ProjectTemplate): seq<string> {
    match t
    case Empty => []
    case FlaskApi => ["api/__init__.py", "api/routes.py", "config.py"]
    case DataAnalysis => ["data/__init__.py", "data/loader.py", "analysis/__init__.py", "analysis/statistics.py"]
    case MachineLearning => ["models/__init__.py", "models/train.py", "models/evaluate.py",
                             "data/__init__.py", "utils/__init__.py", "utils/preprocessing.py"]
  }

  lemma TemplateFilePaths(t: ProjectTemplate)
    ensures PathsOf(t.AdditionalFiles()) == ExtraPaths(t)
  {
    match t {
      case Empty =>
      case FlaskApi => FlaskFilePaths();
      case DataAnalysis => DataFilePaths();
      case MachineLearning => LearningFilePaths();
    }
  }

  lemma FlaskFilePaths()
    ensures PathsOf(FlaskApi.AdditionalFiles()) == ExtraPaths(FlaskApi)
  {
  }

  lemma DataFilePaths()
    ensures PathsOf(DataAnalysis.AdditionalFiles()) == ExtraPaths(DataAnalysis)
  {
  }

  lemma LearningFilePaths()
    ensures PathsOf(MachineLearning.AdditionalFiles()) == ExtraPaths(MachineLearning)
  {
  }

  /** The paths every project gets, in the order `createProject` writes them:
      `requirements.txt` only when the template has dependencies. */
  function CorePaths(t: ProjectTemplate): seq<string> {
    ["main.py", "__init__.py"] + (if t.Dependencies() != [] then ["requirements.txt"] else []) + ["pyproject.toml"]
  }

  /** Of the files every project gets, all but the main file count as
      configuration files. */
  lemma CoreFilesAreConfig(t: ProjectTemplate, f: ProjectFile)
    requires f.name in CorePaths(t)
    ensures f.IsConfigFile() <==> f.name != "main.py"
  {
  }

  /** No two files a new project gets share a path: the extra files of a
      template are distinct and never overwrite the main file, the package
      marker, the requirements or the pyproject file. */
  lemma ProjectPathsDistinct(t: ProjectTemplate)
    ensures NoDup(CorePaths(t) + ExtraPaths(t))
  {
    match t {
      case Empty =>
      case FlaskApi => FlaskPathsDistinct();
      case DataAnalysis => DataPathsDistinct();
      case MachineLearning => LearningPathsDistinct();
    }
  }

  lemma FlaskPathsDistinct()
    ensures NoDup(CorePaths(FlaskApi) + ExtraPaths(FlaskApi))
  {
    assert CorePaths(FlaskApi) + ExtraPaths(FlaskApi) == ["main.py", "__init__.py", "requirements.txt", "pyproject.toml",
      "api/__init__.py", "api/routes.py", "config.py"];
  }

  lemma DataPathsDistinct()
    ensures NoDup(CorePaths(DataAnalysis) + ExtraPaths(DataAnalysis))
  {
    assert CorePaths(DataAnalysis) + ExtraPaths(DataAnalysis) == ["main.py", "__init__.py", "requirements.txt",
      "pyproject.toml", "data/__init__.py", "data/loader.py", "analysis/__init__.py", "analysis/statistics.py"];
  }

  lemma LearningPathsDistinct()
    ensures NoDup(CorePaths(MachineLearning) + ExtraPaths(MachineLearning))
  {
    assert CorePaths(MachineLearning) + ExtraPaths(MachineLearning) == ["main.py", "__init__.py", "requirements.txt",
      "pyproject.toml", "models/__init__.py", "models/train.py", "models/evaluate.py",
      "data/__init__.py", "utils/__init__.py", "utils/preprocessing.py"];
  }

  /** The project: its fixed identity and the two lists the app edits in place. */
  class Project {
    const name: string
    const description: string
    const path: string
    const mainFile: string
    const template: Option<ProjectTemplate>
    var dependencies: seq<Dependency>
    var files: seq<ProjectFile>

    constructor(name: string, description: string, path: string, mainFile: string := "main.py",
                dependencies: seq<Dependency> := [], files: seq<ProjectFile> := [],
                template: Option<ProjectTemplate> := None)
      ensures this.name == name && this.description == description && this.path == path
      ensures this.mainFile == mainFile && this.template == template
      ensures this.dependencies == dependencies && this.files == files
    {
      this.name := name;
      this.description := description;
      this.path := path;
      this.mainFile := mainFile;
      this.template := template;
      this.dependencies := dependencies;
      this.files := files;
    }

    /** `getMainFilePath`: the main file inside the project directory. */
    function GetMainFilePath(): (r: string)
      ensures StartsWith(r, path + "/")
      ensures '/' !in mainFile ==> SubstringAfterLast(r, '/') == mainFile
    {
      PathIn(path, mainFile)
    }

    /** `getRequirementsPath`. */
    function GetRequirementsPath(): (r: string)
      ensures StartsWith(r, path + "/") && SubstringAfterLast(r, '/') == "requirements.txt"
    {
      PathIn(path, "requirements.txt")
    }

    /** `getPyprojectPath`. */
    function GetPyprojectPath(): (r: string)
      ensures StartsWith(r, path + "/") && SubstringAfterLast(r, '/') == "pyproject.toml"
    {
      PathIn(path, "pyproject.toml")
    }

    /** `addDependency`: appends unless an equal dependency is already listed. */
    method AddDependency(dependency: Dependency)
      modifies this
      ensures dependencies == AddIfAbsent(old(dependencies), dependency)
      ensures NoDup(old(dependencies)) ==> NoDup(dependencies)
      ensures files == old(files)
    {
      if dependency !in dependencies {
        dependencies := dependencies + [dependency];
      }
      AddIfAbsentNoDup(old(dependencies), dependency);
    }

    /** `removeDependency`: drops every dependency with that package name. */
    method RemoveDependency(packageName: string)
      modifies this
      ensures dependencies == RemoveDependencyNamed(old(dependencies), packageName)
      ensures files == old(files)
    {
      dependencies := RemoveDependencyNamed(dependencies, packageName);
    }

    /** `addFile`: appends unless an equal file is already listed. */
    method AddFile(file: ProjectFile)
      modifies this
      ensures files == AddIfAbsent(old(files), file)
      ensures NoDup(old(files)) ==> NoDup(files)
      ensures dependencies == old(dependencies)
    {
      if file !in files {
        files := files + [file];
      }
      AddIfAbsentNoDup(old(files), file);
    }

    /** `removeFile`: drops every file at that path. */
    method RemoveFile(filePath: string)
      modifies this
      ensures files == RemoveFileAt(old(files), filePath)
      ensures dependencies == old(dependencies)
    {
      files := RemoveFileAt(files, filePath);
    }

    /** `getAllPythonFiles`: the files whose path ends with ".py", in order. */
    function GetAllPythonFiles(): (r: seq<ProjectFile>)
      reads this
      ensures r == PythonFiles(files)
      ensures |r| <= |files|
      ensures forall i :: 0 <= i < |r| ==> r[i] in files && EndsWith(r[i].path, ".py")
      ensures forall i :: 0 <= i < |files| && EndsWith(files[i].path, ".py") ==> files[i] in r
    {
      PythonFiles(files)
    }

    function GetFileCount(): (n: nat)
      reads this
      ensures n == |files|
    {
      |files|
    }

    function GetDependencyCount(): (n: nat)
      reads this
      ensures n == |dependencies|
    {
      |dependencies|
    }
  }

  /** `"$dir${File.separator}$name"`. */
  function PathIn(dir: string, name: string): (r: string)
    ensures StartsWith(r, dir + "/")
    ensures '/' !in name ==> SubstringAfterLast(r, '/') == name
  {
    PathInLast(dir, name);
    PrefixOfAppend(dir + "/", name);
    dir + "/" + name
  }

  lemma PathInLast(dir: string, name: string)
    ensures '/' !in name ==> SubstringAfterLast(dir + "/" + name, '/') == name
  {
    if '/' !in name {
      SubstringAfterLastSplit(dir, '/', name);
    }
  }

  /** `mainFileContent` of the template. */
  const EmptyMain: string := @"# Main entry point for your Python project
print(""Hello, Python Pocket IDE!"")

def main():
    '''
    Main function - implement your logic here
    '''
    pass

if __name__ == ""__main__"":
    main()
"

  /** `mainFileContent` of the template. */
  const FlaskMain: string := @"from flask import Flask, jsonify, request

app = Flask(__name__)

# Sample data
users = [
    {""id"": 1, ""name"": ""Alice"", ""email"": ""alice@example.com""},
    {""id"": 2, ""name"": ""Bob"", ""email"": ""bob@example.com""}
]

@app.route('/')
def home():
    return jsonify({""message"": ""Welcome to Flask API!"", ""version"": ""1.0""})

@app.route('/users', methods=['GET'])
def get_users():
    return jsonify(users)

@app.route('/users/<int:user_id>', methods=['GET'])
def get_user(user_id):
    user = next((u for u in users if u[""id""] == user_id), None)
    if user:
        return jsonify(user)
    return jsonify({""error"": ""User not found""}), 404

@app.route('/users', methods=['POST'])
def create_user():
    data = request.get_json()
    new_user = {
        ""id"": len(users) + 1,
        ""name"": data.get(""name""),
        ""email"": data.get(""email"")
    }
    users.append(new_user)
    return jsonify(new_user), 201

if __name__ == ""__main__"":
    app.run(debug=True, host='0.0.0.0', port=5000)
"

  /** `mainFileContent` of the template. */
  const DataAnalysisMain: string := @"import pandas as pd
import matplotlib.pyplot as plt
import numpy as np

def load_sample_data():
    '''Create sample dataset for analysis'''
    np.random.seed(42)
    data = {
        'name': [f'Item_{i}' for i in range(100)],
        'value': np.random.normal(50, 15, 100),
        'category': np.random.choice(['A', 'B', 'C'], 100),
        'date': pd.date_range('2024-01-01', periods=100, freq='D')
    }
    return pd.DataFrame(data)

def analyze_data(df):
    '''Perform basic data analysis'''
    print(""Dataset Overview:"")
    print(f""Shape: {df.shape}"")
    print(f""Columns: {list(df.columns)}"")
    print(""\nBasic Statistics:"")
    print(df.describe())
    
    return df

def create_visualizations(df):
    '''Create data visualizations'''
    fig, axes = plt.subplots(2, 2, figsize=(12, 8))
    
    # Value distribution
    axes[0, 0].hist(df['value'], bins=20, alpha=0.7)
    axes[0, 0].set_title('Value Distribution')
    axes[0, 0].set_xlabel('Value')
    axes[0, 0].set_ylabel('Frequency')
    
    # Category counts
    df['category'].value_counts().plot(kind='bar', ax=axes[0, 1])
    axes[0, 1].set_title('Category Distribution')
    axes[0, 1].set_xlabel('Category')
    axes[0, 1].set_ylabel('Count')
    
    # Time series
    daily_avg = df.groupby('date')['value'].mean()
    axes[1, 0].plot(daily_avg.index, daily_avg.values)
    axes[1, 0].set_title('Daily Average Values')
    axes[1, 0].set_xlabel('Date')
    axes[1, 0].set_ylabel('Average Value')
    
    # Box plot by category
    categories = df['category'].unique()
    category_data = [df[df['category'] == cat]['value'] for cat in categories]
    axes[1, 1].boxplot(category_data, labels=categories)
    axes[1, 1].set_title('Value Distribution by Category')
    axes[1, 1].set_xlabel('Category')
    axes[1, 1].set_ylabel('Value')
    
    plt.tight_layout()
    plt.savefig('analysis_results.png', dpi=300, bbox_inches='tight')
    print(""Visualizations saved as 'analysis_results.png'"")

def main():
    '''Main analysis workflow'''
    print(""Starting Data Analysis..."")
    
    # Load and analyze data
    df = load_sample_data()
    df = analyze_data(df)
    
    # Create visualizations
    create_visualizations(df)
    
    print(""\\nAnalysis complete!"")

if __name__ == ""__main__"":
    main()
"

  /** `mainFileContent` of the template. */
  const MachineLearningMain: string := @"import numpy as np
import pandas as pd
from sklearn.model_selection import train_test_split
from sklearn.ensemble import RandomForestClassifier
from sklearn.metrics import accuracy_score, classification_report
from sklearn.datasets import make_classification
import joblib

def create_sample_dataset():
    '''Generate sample classification dataset'''
    X, y = make_classification(
        n_samples=1000,
        n_features=10,
        n_informative=5,
        n_redundant=3,
        n_classes=3,
        random_state=42
    )
    
    feature_names = [f'feature_{i}' for i in range(X.shape[1])]
    df = pd.DataFrame(X, columns=feature_names)
    df['target'] = y
    
    return df

def preprocess_data(df):
    '''Preprocess the dataset'''
    print(""Preprocessing data..."")
    
    # Separate features and target
    X = df.drop('target', axis=1)
    y = df['target']
    
    # Split into train and test sets
    X_train, X_test, y_train, y_test = train_test_split(
        X, y, test_size=0.2, random_state=42, stratify=y
    )
    
    print(f""Training set: {X_train.shape[0]} samples"")
    print(f""Test set: {X_test.shape[0]} samples"")
    
    return X_train, X_test, y_train, y_test

def train_model(X_train, y_train):
    '''Train a Random Forest classifier'''
    print(""Training Random Forest model..."")
    
    model = RandomForestClassifier(
        n_estimators=100,
        max_depth=10,
        random_state=42
    )
    
    model.fit(X_train, y_train)
    
    print(""Model training completed!"")
    return model

def evaluate_model(model, X_test, y_test):
    '''Evaluate the trained model'''
    print(""Evaluating model..."")
    
    # Make predictions
    y_pred = model.predict(X_test)
    
    # Calculate accuracy
    accuracy = accuracy_score(y_test, y_pred)
    print(f""Accuracy: {accuracy:.4f}"")
    
    # Detailed classification report
    report = classification_report(y_test, y_pred)
    print(""Classification Report:"")
    print(report)
    
    return accuracy

def save_model(model, filename='model.pkl'):
    '''Save the trained model'''
    joblib.dump(model, filename)
    print(f""Model saved as '{filename}'"")

def main():
    '''Main ML workflow'''
    print(""Starting Machine Learning Pipeline..."")
    
    # Create and preprocess data
    df = create_sample_dataset()
    X_train, X_test, y_train, y_test = preprocess_data(df)
    
    # Train and evaluate model
    model = train_model(X_train, y_train)
    accuracy = evaluate_model(model, X_test, y_test)
    
    # Save the model
    save_model(model)
    
    print(f""\\nML Pipeline completed! Final accuracy: {accuracy:.4f}"")

if __name__ == ""__main__"":
    main()
"
}
