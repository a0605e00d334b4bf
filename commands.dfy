/** The shell command lines the terminal screens run (`Commands`). Every
    builder in the source is a string template whose parts are shell steps
    chained with ` && `; here each builder lists those steps (`...Steps`) and
    the command is their join, which is the same string. The two values read
    from the Android `Context`, the native library directory and the files
    directory, are passed in as `Env`. The builders repeat their environment
    set-up inline, as the source does, and the lemmas prove that the copies
    agree. */
module Commands {
  import opened Strings

  /** `context.applicationInfo.nativeLibraryDir` and `context.filesDir.absolutePath`. */
  datatype Env = Env(nativeLibDir: string, filesDir: string)

  const PythonExec: string := "libpython3.so"

  /** `File.separator` on Android. */
  const Separator: string := "/"

  /** Default of `getProjectMainCommand`'s `mainFile` parameter. */
  const DefaultMainFile: string := "main.py"

  /** Steps chained with the shell's `&&`. */
  function Command(steps: seq<string>): string {
    Join(steps, " && ")
  }

  /** A command splits, at any step boundary, into the command of the steps
      before and the command of the steps after. */
  lemma CommandParts(steps: seq<string>, k: nat)
    requires 0 < k < |steps|
    ensures Command(steps) == Command(steps[..k]) + " && " + Command(steps[k..])
    ensures StartsWith(Command(steps), Command(steps[..k]) + " && ")
    ensures EndsWith(Command(steps), " && " + Command(steps[k..]))
  {
    assert steps[..k] + steps[k..] == steps;
    JoinAppend(steps[..k], steps[k..], " && ");
    var a, b := Command(steps[..k]), Command(steps[k..]);
    PrefixOfAppend(a + " && ", b);
    assert a + " && " + b == a + (" && " + b);
    SuffixOfAppend(a, " && " + b);
  }

  lemma CommandTwo(a: string, b: string)
    ensures Command([a, b]) == a + " && " + b
  {
    assert [a, b][0] == a;
    assert [a, b][1..] == [b];
    assert Command([b]) == b;
  }

  /** `pythonBuildDirPath` of every builder. */
  function PythonHome(env: Env): (r: string)
    ensures StartsWith(r, env.filesDir) && EndsWith(r, "/files/usr")
  {
    env.filesDir + "/files/usr"
  }

  /** `pythonLibDirPath` of every builder. */
  function PythonLib(env: Env): (r: string)
    ensures StartsWith(r, PythonHome(env)) && EndsWith(r, "/lib")
  {
    PythonHome(env) + "/lib"
  }

  /** The path without its trailing '/' characters, as `java.io.File`
      normalises it. */
  function DropTrailingSlashes(path: string): string
    decreases |path|
  {
    if path != [] && path[|path| - 1] == '/' then DropTrailingSlashes(path[..|path| - 1]) else path
  }

  /** Dropping trailing '/' characters leaves a prefix that does not end
      with '/', and what is dropped is all '/'. */
  lemma {:induction false} DroppedAreSlashes(path: string)
    ensures DropTrailingSlashes(path) <= path
    ensures DropTrailingSlashes(path) == [] || DropTrailingSlashes(path)[|DropTrailingSlashes(path)| - 1] != '/'
    ensures forall i :: |DropTrailingSlashes(path)| <= i < |path| ==> path[i] == '/'
    decreases |path|
  {
    if path != [] && path[|path| - 1] == '/' {
      DroppedAreSlashes(path[..|path| - 1]);
    }
  }

  /** `File(path).name`: the last component of the path once its trailing
      '/' characters are dropped. */
  function FileName(path: string): (r: string)
    ensures '/' !in r
  {
    SubstringAfterLast(DropTrailingSlashes(path), '/')
  }

  /** The name is all that follows the last '/' of the path once its
      trailing '/' characters are dropped: the whole of it when it has no
      other '/', and empty for the root. */
  lemma FileNameIsLastComponent(path: string)
    ensures var p := DropTrailingSlashes(path);
            p <= path && (p == [] || p[|p| - 1] != '/') &&
            (forall i :: |p| <= i < |path| ==> path[i] == '/')
    ensures var p := DropTrailingSlashes(path);
            var r := FileName(path);
            EndsWith(p, r) &&
            ('/' in p ==> |r| < |p| && p[|p| - |r| - 1] == '/') &&
            ('/' !in p ==> r == p)
  {
    DroppedAreSlashes(path);
  }

  /** A trailing '/' does not change the name. */
  lemma {:induction false} FileNameTrailingSlash(path: string)
    ensures FileName(path + "/") == FileName(path)
  {
    var p := path + "/";
    assert p[..|p| - 1] == path;
  }

  /** The name of `dir/name` is `name`, for a single non-empty component. */
  lemma FileNameOfChild(dir: string, name: string)
    requires name != [] && '/' !in name
    ensures FileName(dir + "/" + name) == name
  {
    var p := dir + "/" + name;
    assert p[|p| - 1] == name[|name| - 1];
    assert DropTrailingSlashes(p) == p;
    assert p == dir + ['/'] + name;
    SubstringAfterLastSplit(dir, '/', name);
  }

  /** The two steps every builder starts with: `PATH` extended by the native
      library directory, and `PYTHONHOME` set to the Python home. */
  function HomeSteps(env: Env): seq<string> {
    ["export PATH=$PATH:" + env.nativeLibDir, "export PYTHONHOME=" + PythonHome(env)]
  }

  /** `getBasicCommand`. */
  function BasicSteps(env: Env): (r: seq<string>)
    ensures |r| > 2 && r[..2] == HomeSteps(env)
    ensures r[|r| - 1] == "clear"
  {
    var appLibDirPath := env.nativeLibDir;
    var pythonBuildDirPath := env.filesDir + "/files/usr";
    var pythonLibDirPath := pythonBuildDirPath + "/lib";
    var pythonExecName := PythonExec;
    var aliasCommand := "alias python=\"" + pythonExecName + "\" && alias pip=\"" + pythonExecName + " -m pip \"";
    ["export PATH=$PATH:" + appLibDirPath, "export PYTHONHOME=" + pythonBuildDirPath,
     "export PYTHONPATH=" + appLibDirPath, "export LD_LIBRARY_PATH=\"$LD_LIBRARY_PATH:\"",
     "export LD_LIBRARY_PATH=\"$LD_LIBRARY_PATH" + pythonLibDirPath + "\"", aliasCommand, "clear"]
  }

  /** `getInterpreterCommand`. */
  function InterpreterSteps(env: Env, filePath: string): (r: seq<string>)
    ensures |r| > 2 && r[..2] == HomeSteps(env)
    ensures PythonExec + " " + filePath in r
    ensures r[|r| - 2..] == ["read junk", "exit"]
  {
    var appLibDirPath := env.nativeLibDir;
    var pythonBuildDirPath := env.filesDir + "/files/usr";
    var pythonLibDirPath := pythonBuildDirPath + "/lib";
    var pythonExecName := PythonExec;
    ["export PATH=$PATH:" + appLibDirPath, "export PYTHONHOME=" + pythonBuildDirPath,
     "export LD_LIBRARY_PATH=\"$LD_LIBRARY_PATH:\"",
     "export LD_LIBRARY_PATH=\"$LD_LIBRARY_PATH" + pythonLibDirPath + "\"", "clear",
     pythonExecName + " " + filePath, "echo '[Enter to Exit]'", "read junk", "exit"]
  }

  /** `getPythonShellCommand`. */
  function PythonShellSteps(env: Env): (r: seq<string>)
    ensures |r| > 2 && r[..2] == HomeSteps(env)
    ensures PythonExec in r
    ensures r[|r| - 2..] == ["read junk", "exit"]
  {
    var appLibDirPath := env.nativeLibDir;
    var pythonBuildDirPath := env.filesDir + "/files/usr";
    var pythonLibDirPath := pythonBuildDirPath + "/lib";
    ["export PATH=$PATH:" + appLibDirPath, "export PYTHONHOME=" + pythonBuildDirPath,
     "export PYTHONPATH=" + appLibDirPath, "export LD_LIBRARY_PATH=\"$LD_LIBRARY_PATH:\"",
     "export LD_LIBRARY_PATH=\"$LD_LIBRARY_PATH" + pythonLibDirPath + "\"", "clear",
     "libpython3.so", "echo '[Enter to Exit]'", "read junk", "exit"]
  }

  /** The `envSetup` value that the four enhanced builders each compute. */
  function EnhancedSetupSteps(env: Env): (r: seq<string>)
    ensures |r| == 4 && r[..2] == HomeSteps(env)
    ensures r[2] == "export PYTHONPATH=" + env.nativeLibDir + ":" + PythonLib(env)
  {
    var appLibDirPath := env.nativeLibDir;
    var pythonBuildDirPath := env.filesDir + "/files/usr";
    var pythonLibDirPath := pythonBuildDirPath + "/lib";
    ["export PATH=$PATH:" + appLibDirPath, "export PYTHONHOME=" + pythonBuildDirPath,
     "export PYTHONPATH=" + appLibDirPath + ":" + pythonLibDirPath,
     "export LD_LIBRARY_PATH=\"$LD_LIBRARY_PATH:" + pythonLibDirPath + "\""]
  }

  /** The project terminal spells its aliases in three pieces; the text is the
      enhanced terminal's. */
  lemma AliasSpellings()
    ensures "alias python=\"" + PythonExec + "\" && " + "alias pip=\"" + PythonExec + " -m pip\" && "
            + "alias python3=\"" + PythonExec + "\"" == EnhancedAliases()
  {
  }

  /** The aliases of the enhanced terminal and the project terminal. */
  function EnhancedAliases(): string {
    var pythonExecName := PythonExec;
    "alias python=\"" + pythonExecName + "\" && alias pip=\"" + pythonExecName
      + " -m pip\" && alias python3=\"" + pythonExecName + "\""
  }

  /** `getEnhancedBasicCommand`. */
  function EnhancedBasicSteps(env: Env): (r: seq<string>)
    ensures |r| > 5 && r[..4] == EnhancedSetupSteps(env) && r[4] == EnhancedAliases() && r[5] == "clear"
    ensures r[|r| - 1] == "echo 'Python 3.11.5 ready - type python to start'"
  {
    var appLibDirPath := env.nativeLibDir;
    var pythonBuildDirPath := env.filesDir + "/files/usr";
    var pythonLibDirPath := pythonBuildDirPath + "/lib";
    var pythonExecName := PythonExec;
    var aliasCommand := "alias python=\"" + pythonExecName + "\" && alias pip=\"" + pythonExecName
      + " -m pip\" && alias python3=\"" + pythonExecName + "\"";
    var envSetup := ["export PATH=$PATH:" + appLibDirPath, "export PYTHONHOME=" + pythonBuildDirPath,
      "export PYTHONPATH=" + appLibDirPath + ":" + pythonLibDirPath,
      "export LD_LIBRARY_PATH=\"$LD_LIBRARY_PATH:" + pythonLibDirPath + "\""];
    envSetup + [aliasCommand, "clear", "echo 'Python Pocket IDE Terminal'",
                "echo 'Python 3.11.5 ready - type python to start'"]
  }

  /** `getEnhancedInterpreterCommand`. */
  function EnhancedInterpreterSteps(env: Env, filePath: string): (r: seq<string>)
    ensures |r| > 4 && r[..4] == EnhancedSetupSteps(env) && r[4] == "clear"
    ensures "echo 'Running: " + filePath + "'" in r && PythonExec + " " + filePath in r
    ensures r[|r| - 2..] == ["read junk", "exit"]
  {
    var appLibDirPath := env.nativeLibDir;
    var pythonBuildDirPath := env.filesDir + "/files/usr";
    var pythonLibDirPath := pythonBuildDirPath + "/lib";
    var pythonExecName := PythonExec;
    var envSetup := ["export PATH=$PATH:" + appLibDirPath, "export PYTHONHOME=" + pythonBuildDirPath,
      "export PYTHONPATH=" + appLibDirPath + ":" + pythonLibDirPath,
      "export LD_LIBRARY_PATH=\"$LD_LIBRARY_PATH:" + pythonLibDirPath + "\""];
    envSetup + ["clear", "echo 'Running: " + filePath + "'", pythonExecName + " " + filePath,
                "echo ''", "echo '[Execution completed - Enter to exit]'", "read junk", "exit"]
  }

  /** `getEnhancedPythonShellCommand`. */
  function EnhancedPythonShellSteps(env: Env): (r: seq<string>)
    ensures |r| > 4 && r[..4] == EnhancedSetupSteps(env) && r[4] == "clear"
    ensures PythonExec in r
    ensures r[|r| - 2..] == ["read junk", "exit"]
  {
    var appLibDirPath := env.nativeLibDir;
    var pythonBuildDirPath := env.filesDir + "/files/usr";
    var pythonLibDirPath := pythonBuildDirPath + "/lib";
    var pythonExecName := PythonExec;
    var envSetup := ["export PATH=$PATH:" + appLibDirPath, "export PYTHONHOME=" + pythonBuildDirPath,
      "export PYTHONPATH=" + appLibDirPath + ":" + pythonLibDirPath,
      "export LD_LIBRARY_PATH=\"$LD_LIBRARY_PATH:" + pythonLibDirPath + "\""];
    envSetup + ["clear", "echo 'Python 3.11.5 Interactive Shell'", "echo 'Type exit() to quit'",
                pythonExecName, "echo '[Enter to Exit]'", "read junk", "exit"]
  }

  /** `getEnhancedPipInstallCommand`: `packageName` is echoed and handed to pip verbatim. */
  function EnhancedPipInstallSteps(env: Env, packageName: string): (r: seq<string>)
    ensures |r| > 4 && r[..4] == EnhancedSetupSteps(env) && r[4] == "clear"
    ensures "echo 'Installing package: " + packageName + "'" in r
    ensures PythonExec + " -m pip install --user --upgrade " + packageName in r
    ensures r[|r| - 2..] == ["read junk", "exit"]
  {
    var appLibDirPath := env.nativeLibDir;
    var pythonBuildDirPath := env.filesDir + "/files/usr";
    var pythonLibDirPath := pythonBuildDirPath + "/lib";
    var pythonExecName := PythonExec;
    var envSetup := ["export PATH=$PATH:" + appLibDirPath, "export PYTHONHOME=" + pythonBuildDirPath,
      "export PYTHONPATH=" + appLibDirPath + ":" + pythonLibDirPath,
      "export LD_LIBRARY_PATH=\"$LD_LIBRARY_PATH:" + pythonLibDirPath + "\""];
    envSetup + ["clear", "echo 'Installing package: " + packageName + "'",
                pythonExecName + " -m pip install --user --upgrade " + packageName,
                "echo ''", "echo '[Installation completed - Enter to exit]'", "read junk", "exit"]
  }

  /** `getProjectEnvironmentSetup` (a private helper the builders do not call:
      each repeats its text). `PYTHONPATH` lists the project first. */
  function ProjectSetupSteps(env: Env, projectPath: string): (r: seq<string>)
    ensures |r| == 4 && r[..2] == HomeSteps(env)
    ensures r[2] == "export PYTHONPATH=\"" + projectPath + ":" + env.nativeLibDir + ":" + PythonLib(env) + "\""
  {
    var appLibDirPath := env.nativeLibDir;
    var pythonBuildDirPath := env.filesDir + "/files/usr";
    var pythonLibDirPath := pythonBuildDirPath + "/lib";
    ["export PATH=$PATH:" + appLibDirPath,
     "export PYTHONHOME=" + pythonBuildDirPath,
     "export PYTHONPATH=\"" + projectPath + ":" + appLibDirPath + ":" + pythonLibDirPath + "\"",
     "export LD_LIBRARY_PATH=\"$LD_LIBRARY_PATH:" + pythonLibDirPath + "\""]
  }

  /** The steps the project file, shell, install and module commands start
      with: the project set-up, then `cd "projectPath"` and `clear`. */
  function ProjectPreludeSteps(env: Env, projectPath: string): seq<string> {
    ProjectSetupSteps(env, projectPath) + ["cd \"" + projectPath + "\"", "clear"]
  }

  /** `getProjectFileCommand`. */
  function ProjectFileSteps(env: Env, projectPath: string, filePath: string): (r: seq<string>)
    ensures |r| > 6 && r[..6] == ProjectPreludeSteps(env, projectPath)
    ensures "echo 'Running: " + FileName(filePath) + " (Project: " + FileName(projectPath) + ")'" in r
    ensures PythonExec + " \"" + filePath + "\"" in r
    ensures r[|r| - 2..] == ["read junk", "exit"]
  {
    var appLibDirPath := env.nativeLibDir;
    var pythonBuildDirPath := env.filesDir + "/files/usr";
    var pythonLibDirPath := pythonBuildDirPath + "/lib";
    var pythonExecName := PythonExec;
    var envSetup := ["export PATH=$PATH:" + appLibDirPath,
      "export PYTHONHOME=" + pythonBuildDirPath,
      "export PYTHONPATH=\"" + projectPath + ":" + appLibDirPath + ":" + pythonLibDirPath + "\"",
      "export LD_LIBRARY_PATH=\"$LD_LIBRARY_PATH:" + pythonLibDirPath + "\""];
    envSetup + ["cd \"" + projectPath + "\"", "clear",
                "echo 'Running: " + FileName(filePath) + " (Project: " + FileName(projectPath) + ")'",
                pythonExecName + " \"" + filePath + "\"", "echo ''",
                "echo '[Execution completed - Enter to exit]'", "read junk", "exit"]
  }

  /** `getProjectShellCommand`. */
  function ProjectShellSteps(env: Env, projectPath: string): (r: seq<string>)
    ensures |r| > 6 && r[..6] == ProjectPreludeSteps(env, projectPath)
    ensures "echo 'Python 3.11.5 Shell - Project: " + FileName(projectPath) + "'" in r
    ensures PythonExec in r
    ensures r[|r| - 2..] == ["read junk", "exit"]
  {
    var appLibDirPath := env.nativeLibDir;
    var pythonBuildDirPath := env.filesDir + "/files/usr";
    var pythonLibDirPath := pythonBuildDirPath + "/lib";
    var pythonExecName := PythonExec;
    var envSetup := ["export PATH=$PATH:" + appLibDirPath,
      "export PYTHONHOME=" + pythonBuildDirPath,
      "export PYTHONPATH=\"" + projectPath + ":" + appLibDirPath + ":" + pythonLibDirPath + "\"",
      "export LD_LIBRARY_PATH=\"$LD_LIBRARY_PATH:" + pythonLibDirPath + "\""];
    envSetup + ["cd \"" + projectPath + "\"", "clear",
                "echo 'Python 3.11.5 Shell - Project: " + FileName(projectPath) + "'",
                "echo 'Project modules are available for import'",
                pythonExecName, "echo '[Enter to Exit]'", "read junk", "exit"]
  }

  /** `getProjectDependencyInstallCommand`: installs `requirements.txt` of the
      project directory when the shell finds it (the `requirementsFile` value
      the source computes is not used). */
  function ProjectDependencyInstallSteps(env: Env, projectPath: string): (r: seq<string>)
    ensures |r| > 6 && r[..6] == ProjectPreludeSteps(env, projectPath)
    ensures "echo 'Installing dependencies for project: " + FileName(projectPath) + "'" in r
    ensures "if [ -f \"requirements.txt\" ]; then " + PythonExec + " -m pip install --user -r requirements.txt; "
            + "else echo 'No requirements.txt found'; fi" in r
    ensures r[|r| - 2..] == ["read junk", "exit"]
  {
    var appLibDirPath := env.nativeLibDir;
    var pythonBuildDirPath := env.filesDir + "/files/usr";
    var pythonLibDirPath := pythonBuildDirPath + "/lib";
    var pythonExecName := PythonExec;
    var envSetup := ["export PATH=$PATH:" + appLibDirPath,
      "export PYTHONHOME=" + pythonBuildDirPath,
      "export PYTHONPATH=\"" + projectPath + ":" + appLibDirPath + ":" + pythonLibDirPath + "\"",
      "export LD_LIBRARY_PATH=\"$LD_LIBRARY_PATH:" + pythonLibDirPath + "\""];
    envSetup + ["cd \"" + projectPath + "\"", "clear",
                "echo 'Installing dependencies for project: " + FileName(projectPath) + "'",
                "if [ -f \"requirements.txt\" ]; then "
                + pythonExecName + " -m pip install --user -r requirements.txt; "
                + "else echo 'No requirements.txt found'; fi",
                "echo ''", "echo '[Installation completed - Enter to exit]'", "read junk", "exit"]
  }

  /** `getProjectTerminalCommand`: the aliases come between the set-up and
      the `cd`, and the last step is an `echo`. */
  function ProjectTerminalSteps(env: Env, projectPath: string): (r: seq<string>)
    ensures |r| > 7 && r[..4] == ProjectSetupSteps(env, projectPath)
    ensures r[4] == EnhancedAliases() && r[5] == "cd \"" + projectPath + "\"" && r[6] == "clear"
    ensures "echo 'Project: " + FileName(projectPath) + "'" in r
    ensures "echo 'Working directory: " + projectPath + "'" in r
    ensures r[|r| - 1] == "echo 'Python 3.11.5 ready - project modules available for import'"
  {
    var appLibDirPath := env.nativeLibDir;
    var pythonBuildDirPath := env.filesDir + "/files/usr";
    var pythonLibDirPath := pythonBuildDirPath + "/lib";
    var pythonExecName := PythonExec;
    var aliasCommand := "alias python=\"" + pythonExecName + "\" && "
      + "alias pip=\"" + pythonExecName + " -m pip\" && "
      + "alias python3=\"" + pythonExecName + "\"";
    AliasSpellings();
    var envSetup := ["export PATH=$PATH:" + appLibDirPath,
      "export PYTHONHOME=" + pythonBuildDirPath,
      "export PYTHONPATH=\"" + projectPath + ":" + appLibDirPath + ":" + pythonLibDirPath + "\"",
      "export LD_LIBRARY_PATH=\"$LD_LIBRARY_PATH:" + pythonLibDirPath + "\""];
    envSetup + [aliasCommand, "cd \"" + projectPath + "\"", "clear",
                "echo 'Python Pocket IDE - Project Terminal'",
                "echo 'Project: " + FileName(projectPath) + "'",
                "echo 'Working directory: " + projectPath + "'",
                "echo 'Python 3.11.5 ready - project modules available for import'"]
  }

  /** `getProjectModuleCommand`: runs `python -m moduleName` in the project. */
  function ProjectModuleSteps(env: Env, projectPath: string, moduleName: string): (r: seq<string>)
    ensures |r| > 6 && r[..6] == ProjectPreludeSteps(env, projectPath)
    ensures "echo 'Running module: " + moduleName + " (Project: " + FileName(projectPath) + ")'" in r
    ensures PythonExec + " -m " + moduleName in r
    ensures r[|r| - 2..] == ["read junk", "exit"]
  {
    var appLibDirPath := env.nativeLibDir;
    var pythonBuildDirPath := env.filesDir + "/files/usr";
    var pythonLibDirPath := pythonBuildDirPath + "/lib";
    var pythonExecName := PythonExec;
    var envSetup := ["export PATH=$PATH:" + appLibDirPath,
      "export PYTHONHOME=" + pythonBuildDirPath,
      "export PYTHONPATH=\"" + projectPath + ":" + appLibDirPath + ":" + pythonLibDirPath + "\"",
      "export LD_LIBRARY_PATH=\"$LD_LIBRARY_PATH:" + pythonLibDirPath + "\""];
    envSetup + ["cd \"" + projectPath + "\"", "clear",
                "echo 'Running module: " + moduleName + " (Project: " + FileName(projectPath) + ")'",
                pythonExecName + " -m " + moduleName, "echo ''",
                "echo '[Execution completed - Enter to exit]'", "read junk", "exit"]
  }

  // The command strings.

  function BasicCommand(env: Env): string { Command(BasicSteps(env)) }
  function InterpreterCommand(env: Env, filePath: string): string { Command(InterpreterSteps(env, filePath)) }
  function PythonShellCommand(env: Env): string { Command(PythonShellSteps(env)) }
  function EnhancedBasicCommand(env: Env): string { Command(EnhancedBasicSteps(env)) }
  function EnhancedInterpreterCommand(env: Env, filePath: string): string {
    Command(EnhancedInterpreterSteps(env, filePath))
  }
  function EnhancedPythonShellCommand(env: Env): string { Command(EnhancedPythonShellSteps(env)) }
  function EnhancedPipInstallCommand(env: Env, packageName: string): string {
    Command(EnhancedPipInstallSteps(env, packageName))
  }
  function ProjectEnvironmentSetup(env: Env, projectPath: string): string {
    Command(ProjectSetupSteps(env, projectPath))
  }
  function ProjectFileCommand(env: Env, projectPath: string, filePath: string): string {
    Command(ProjectFileSteps(env, projectPath, filePath))
  }
  /** `getProjectMainCommand`: delegates to the file command for `projectPath/mainFile`. */
  function ProjectMainCommand(env: Env, projectPath: string, mainFile: string := DefaultMainFile): string {
    var mainFilePath := projectPath + Separator + mainFile;
    ProjectFileCommand(env, projectPath, mainFilePath)
  }
  function ProjectShellCommand(env: Env, projectPath: string): string {
    Command(ProjectShellSteps(env, projectPath))
  }
  function ProjectDependencyInstallCommand(env: Env, projectPath: string): string {
    Command(ProjectDependencyInstallSteps(env, projectPath))
  }
  function ProjectTerminalCommand(env: Env, projectPath: string): string {
    Command(ProjectTerminalSteps(env, projectPath))
  }
  function ProjectModuleCommand(env: Env, projectPath: string, moduleName: string): string {
    Command(ProjectModuleSteps(env, projectPath, moduleName))
  }

  /** The text every builder starts with. */
  function HomePrefix(env: Env): string {
    "export PATH=$PATH:" + env.nativeLibDir + " && export PYTHONHOME=" + env.filesDir + "/files/usr && "
  }

  lemma HomePrefixIsHomeSteps(env: Env)
    ensures Command(HomeSteps(env)) + " && " == HomePrefix(env)
  {
    var h := HomeSteps(env);
    CommandTwo(h[0], h[1]);
    assert h == [h[0], h[1]];
  }

  /** A command whose first two steps are the home steps starts with `HomePrefix`. */
  lemma StartsWithHome(steps: seq<string>, env: Env)
    requires |steps| > 2 && steps[0] == HomeSteps(env)[0] && steps[1] == HomeSteps(env)[1]
    ensures StartsWith(Command(steps), HomePrefix(env))
  {
    assert steps[..2] == HomeSteps(env);
    CommandParts(steps, 2);
    HomePrefixIsHomeSteps(env);
  }

  /** Every builder, old, enhanced or project-aware, starts by extending `PATH`
      with the native library directory and setting `PYTHONHOME` to
      `filesDir + "/files/usr"`. */
  lemma OldCommandsStartWithHome(env: Env, f: string)
    ensures StartsWith(BasicCommand(env), HomePrefix(env))
    ensures StartsWith(InterpreterCommand(env, f), HomePrefix(env))
    ensures StartsWith(PythonShellCommand(env), HomePrefix(env))
  {
    var s := BasicSteps(env);
    assert s[0] == s[..2][0] && s[1] == s[..2][1];
    StartsWithHome(s, env);
    s := InterpreterSteps(env, f);
    assert s[0] == s[..2][0] && s[1] == s[..2][1];
    StartsWithHome(s, env);
    s := PythonShellSteps(env);
    assert s[0] == s[..2][0] && s[1] == s[..2][1];
    StartsWithHome(s, env);
  }

  /** A list that starts with `t` agrees with `t` on its first `k` elements. */
  lemma {:induction false} SharedHead(s: seq<string>, t: seq<string>, k: nat)
    requires |t| <= |s| && s[..|t|] == t && k < |t|
    ensures s[k] == t[k]
  {
    assert s[..|t|][k] == s[k];
  }

  /** A command whose steps extend `t`, where `t` begins with the two home
      steps, starts with the home prefix. */
  lemma ExtendsHome(s: seq<string>, t: seq<string>, env: Env)
    requires 2 < |t| <= |s| && s[..|t|] == t
    requires t[0] == HomeSteps(env)[0] && t[1] == HomeSteps(env)[1]
    ensures StartsWith(Command(s), HomePrefix(env))
  {
    SharedHead(s, t, 0);
    SharedHead(s, t, 1);
    StartsWithHome(s, env);
  }

  lemma EnhancedSetupHome(env: Env)
    ensures |EnhancedSetupSteps(env)| > 2
    ensures EnhancedSetupSteps(env)[0] == HomeSteps(env)[0] && EnhancedSetupSteps(env)[1] == HomeSteps(env)[1]
  {
    var e := EnhancedSetupSteps(env);
    SharedHead(e, HomeSteps(env), 0);
    SharedHead(e, HomeSteps(env), 1);
  }

  lemma EnhancedCommandsStartWithHome(env: Env, f: string, pkg: string)
    ensures StartsWith(EnhancedBasicCommand(env), HomePrefix(env))
    ensures StartsWith(EnhancedInterpreterCommand(env, f), HomePrefix(env))
    ensures StartsWith(EnhancedPythonShellCommand(env), HomePrefix(env))
    ensures StartsWith(EnhancedPipInstallCommand(env, pkg), HomePrefix(env))
  {
    var e := EnhancedSetupSteps(env);
    EnhancedSetupHome(env);
    ExtendsHome(EnhancedBasicSteps(env), e, env);
    ExtendsHome(EnhancedInterpreterSteps(env, f), e, env);
    ExtendsHome(EnhancedPythonShellSteps(env), e, env);
    ExtendsHome(EnhancedPipInstallSteps(env, pkg), e, env);
  }

  lemma ProjectSetupHome(env: Env, p: string)
    ensures |ProjectSetupSteps(env, p)| > 2 && |ProjectPreludeSteps(env, p)| > 2
    ensures ProjectSetupSteps(env, p)[0] == HomeSteps(env)[0] && ProjectSetupSteps(env, p)[1] == HomeSteps(env)[1]
    ensures ProjectPreludeSteps(env, p)[0] == HomeSteps(env)[0] && ProjectPreludeSteps(env, p)[1] == HomeSteps(env)[1]
  {
    var e := ProjectSetupSteps(env, p);
    SharedHead(e, HomeSteps(env), 0);
    SharedHead(e, HomeSteps(env), 1);
    var pre := ProjectPreludeSteps(env, p);
    SharedHead(pre, e, 0);
    SharedHead(pre, e, 1);
  }

  lemma ProjectCommandsStartWithHome(env: Env, p: string, f: string, m: string)
    ensures StartsWith(ProjectFileCommand(env, p, f), HomePrefix(env))
    ensures StartsWith(ProjectShellCommand(env, p), HomePrefix(env))
    ensures StartsWith(ProjectDependencyInstallCommand(env, p), HomePrefix(env))
    ensures StartsWith(ProjectTerminalCommand(env, p), HomePrefix(env))
    ensures StartsWith(ProjectModuleCommand(env, p, m), HomePrefix(env))
  {
    ProjectSetupHome(env, p);
    ProjectFileHome(env, p, f);
    ProjectShellHome(env, p);
    ProjectInstallHome(env, p);
    ExtendsHome(ProjectTerminalSteps(env, p), ProjectSetupSteps(env, p), env);
    ProjectModuleHome(env, p, m);
  }

  lemma ProjectFileHome(env: Env, p: string, f: string)
    ensures StartsWith(ProjectFileCommand(env, p, f), HomePrefix(env))
  {
    ProjectSetupHome(env, p);
    ExtendsHome(ProjectFileSteps(env, p, f), ProjectPreludeSteps(env, p), env);
  }

  lemma ProjectShellHome(env: Env, p: string)
    ensures StartsWith(ProjectShellCommand(env, p), HomePrefix(env))
  {
    ProjectSetupHome(env, p);
    ExtendsHome(ProjectShellSteps(env, p), ProjectPreludeSteps(env, p), env);
  }

  lemma ProjectInstallHome(env: Env, p: string)
    ensures StartsWith(ProjectDependencyInstallCommand(env, p), HomePrefix(env))
  {
    ProjectSetupHome(env, p);
    ExtendsHome(ProjectDependencyInstallSteps(env, p), ProjectPreludeSteps(env, p), env);
  }

  lemma ProjectModuleHome(env: Env, p: string, m: string)
    ensures StartsWith(ProjectModuleCommand(env, p, m), HomePrefix(env))
  {
    ProjectSetupHome(env, p);
    ExtendsHome(ProjectModuleSteps(env, p, m), ProjectPreludeSteps(env, p), env);
  }

  /** The text the project file, shell, install and module commands start with. */
  function ProjectPrelude(env: Env, projectPath: string): string {
    ProjectEnvironmentSetup(env, projectPath) + " && cd \"" + projectPath + "\" && clear && "
  }

  /** A command whose first six steps are the project prelude steps starts with
      the project set-up text followed by `cd "projectPath"`; the same then holds
      for getProjectEnvironmentSetup's text alone. */
  lemma StartsWithPrelude(steps: seq<string>, env: Env, p: string)
    requires |steps| > 6 && steps[..6] == ProjectPreludeSteps(env, p)
    ensures StartsWith(Command(steps), ProjectPrelude(env, p))
    ensures StartsWith(Command(steps), ProjectEnvironmentSetup(env, p) + " && ")
  {
    CommandParts(steps, 6);
    var pre := steps[..6];
    CommandParts(pre, 4);
    assert pre[..4] == ProjectSetupSteps(env, p);
    assert pre[4..] == ["cd \"" + p + "\"", "clear"];
    var cd := "cd \"" + p + "\"";
    CommandTwo(cd, "clear");
    var a := ProjectEnvironmentSetup(env, p);
    assert Command(pre) == a + " && " + (cd + " && " + "clear");
    PreludeText(a, p);
    PrefixOfAppend(a + " && ", "cd \"" + p + "\" && clear && ");
  }

  lemma PreludeText(a: string, p: string)
    ensures a + " && " + ("cd \"" + p + "\"" + " && " + "clear") + " && "
            == a + " && cd \"" + p + "\" && clear && "
    ensures a + " && cd \"" + p + "\" && clear && " == (a + " && ") + ("cd \"" + p + "\" && clear && ")
  {
  }

  lemma ExitText()
    ensures " && " + ("read junk" + " && " + "exit") == " && read junk && exit"
  {
  }

  /** A command whose last two steps are `read junk` and `exit` waits for
      Enter, then exits. */
  lemma EndsWithExit(steps: seq<string>)
    requires |steps| > 2 && steps[|steps| - 2..] == ["read junk", "exit"]
    ensures EndsWith(Command(steps), " && read junk && exit")
  {
    CommandParts(steps, |steps| - 2);
    CommandTwo("read junk", "exit");
    ExitText();
  }

  /** The project file, shell, install and module commands start with exactly
      the text `getProjectEnvironmentSetup` returns, then `cd "projectPath"`,
      and end with `read junk && exit`. The main command delegates, so the same
      holds for it; the terminal shares the set-up text only. */
  lemma ProjectCommandsShape(env: Env, p: string, f: string, m: string, mod: string)
    ensures StartsWith(ProjectFileCommand(env, p, f), ProjectPrelude(env, p))
    ensures StartsWith(ProjectMainCommand(env, p, m), ProjectPrelude(env, p))
    ensures StartsWith(ProjectShellCommand(env, p), ProjectPrelude(env, p))
    ensures StartsWith(ProjectDependencyInstallCommand(env, p), ProjectPrelude(env, p))
    ensures StartsWith(ProjectModuleCommand(env, p, mod), ProjectPrelude(env, p))
    ensures StartsWith(ProjectTerminalCommand(env, p), ProjectEnvironmentSetup(env, p) + " && ")
    ensures EndsWith(ProjectFileCommand(env, p, f), " && read junk && exit")
    ensures EndsWith(ProjectMainCommand(env, p, m), " && read junk && exit")
    ensures EndsWith(ProjectShellCommand(env, p), " && read junk && exit")
    ensures EndsWith(ProjectDependencyInstallCommand(env, p), " && read junk && exit")
    ensures EndsWith(ProjectModuleCommand(env, p, mod), " && read junk && exit")
  {
    FileCommandShape(env, p, f);
    FileCommandShape(env, p, p + Separator + m);
    ShellCommandShape(env, p);
    InstallCommandShape(env, p);
    ModuleCommandShape(env, p, mod);
    TerminalCommandShape(env, p);
  }

  lemma FileCommandShape(env: Env, p: string, f: string)
    ensures StartsWith(ProjectFileCommand(env, p, f), ProjectPrelude(env, p))
    ensures EndsWith(ProjectFileCommand(env, p, f), " && read junk && exit")
  {
    StartsWithPrelude(ProjectFileSteps(env, p, f), env, p);
    EndsWithExit(ProjectFileSteps(env, p, f));
  }

  lemma ShellCommandShape(env: Env, p: string)
    ensures StartsWith(ProjectShellCommand(env, p), ProjectPrelude(env, p))
    ensures EndsWith(ProjectShellCommand(env, p), " && read junk && exit")
  {
    StartsWithPrelude(ProjectShellSteps(env, p), env, p);
    EndsWithExit(ProjectShellSteps(env, p));
  }

  lemma InstallCommandShape(env: Env, p: string)
    ensures StartsWith(ProjectDependencyInstallCommand(env, p), ProjectPrelude(env, p))
    ensures EndsWith(ProjectDependencyInstallCommand(env, p), " && read junk && exit")
  {
    StartsWithPrelude(ProjectDependencyInstallSteps(env, p), env, p);
    EndsWithExit(ProjectDependencyInstallSteps(env, p));
  }

  lemma ModuleCommandShape(env: Env, p: string, mod: string)
    ensures StartsWith(ProjectModuleCommand(env, p, mod), ProjectPrelude(env, p))
    ensures EndsWith(ProjectModuleCommand(env, p, mod), " && read junk && exit")
  {
    StartsWithPrelude(ProjectModuleSteps(env, p, mod), env, p);
    EndsWithExit(ProjectModuleSteps(env, p, mod));
  }

  lemma TerminalCommandShape(env: Env, p: string)
    ensures StartsWith(ProjectTerminalCommand(env, p), ProjectEnvironmentSetup(env, p) + " && ")
  {
    CommandParts(ProjectTerminalSteps(env, p), 4);
  }

  /** The old and enhanced commands that run something also end by waiting for
      Enter and exiting. */
  lemma RunCommandsExit(env: Env, f: string, pkg: string)
    ensures EndsWith(InterpreterCommand(env, f), " && read junk && exit")
    ensures EndsWith(PythonShellCommand(env), " && read junk && exit")
    ensures EndsWith(EnhancedInterpreterCommand(env, f), " && read junk && exit")
    ensures EndsWith(EnhancedPythonShellCommand(env), " && read junk && exit")
    ensures EndsWith(EnhancedPipInstallCommand(env, pkg), " && read junk && exit")
  {
    EndsWithExit(InterpreterSteps(env, f));
    EndsWithExit(PythonShellSteps(env));
    EndsWithExit(EnhancedInterpreterSteps(env, f));
    EndsWithExit(EnhancedPythonShellSteps(env));
    EndsWithExit(EnhancedPipInstallSteps(env, pkg));
  }

  /** Text ending in a quote does not end with `exit`. */
  lemma EndsInQuote(s: string)
    requires s != [] && s[|s| - 1] == '\''
    ensures !EndsWith(s, "exit")
  {
    assert |s| < 4 || s[|s| - 4..][3] == '\'';
  }

  /** A command ends with its last step. */
  lemma EndsWithLastStep(steps: seq<string>)
    requires |steps| > 1
    ensures EndsWith(Command(steps), steps[|steps| - 1])
  {
    CommandParts(steps, |steps| - 1);
    assert steps[|steps| - 1..] == [steps[|steps| - 1]];
    SuffixOfAppend(Command(steps[..|steps| - 1]) + " && ", steps[|steps| - 1]);
  }

  /** The two terminal commands keep the shell open: their last step is an
      `echo`, so they do not end with `exit`. */
  lemma TerminalsDoNotExit(env: Env, p: string)
    ensures !EndsWith(EnhancedBasicCommand(env), "exit")
    ensures !EndsWith(ProjectTerminalCommand(env, p), "exit")
  {
    var a := EnhancedBasicSteps(env);
    EndsWithLastStep(a);
    var x := Command(a);
    assert x[|x| - 1] == a[|a| - 1][|a[|a| - 1]| - 1];
    EndsInQuote(x);
    var b := ProjectTerminalSteps(env, p);
    EndsWithLastStep(b);
    var y := Command(b);
    assert y[|y| - 1] == b[|b| - 1][|b[|b| - 1]| - 1];
    EndsInQuote(y);
  }

  /** `getProjectMainCommand(p, m)` is `getProjectFileCommand(p, p/m)`; with no
      `mainFile` it runs `p/main.py`. */
  lemma MainDelegates(env: Env, p: string, m: string)
    ensures ProjectMainCommand(env, p, m) == ProjectFileCommand(env, p, p + "/" + m)
    ensures ProjectMainCommand(env, p) == ProjectFileCommand(env, p, p + "/main.py")
    ensures PythonExec + " \"" + p + "/main.py\"" in ProjectFileSteps(env, p, p + "/main.py")
  {
    assert p + Separator + DefaultMainFile == p + "/main.py";
    assert PythonExec + " \"" + (p + "/main.py") + "\"" == PythonExec + " \"" + p + "/main.py\"";
  }
}
