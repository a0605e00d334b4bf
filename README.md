# Python Pocket IDE: a verified model of its core

Python Pocket IDE is an Android app for writing and running Python on the
phone. This project models six of its parts in Dafny and proves what each
of them promises:

- **The AI service** (`GeminiAI`, `gemini.dfy`). It keeps the API key and
  the assistant configuration in a preference store. It refuses to call
  the Gemini API without a usable key. It builds a four-block prompt for
  each of the seven request kinds and reads the API's JSON answer through
  a fixed decision table. It also pulls at most five list items out of the
  answer as suggestions.
- **The assistant view model** (`Assistant`, `assistant.dfy`). This is a
  class holding the chat transcript, the loading flag, the model shown,
  the configuration, the settings dialog flag and the code context. The
  chat operations append to the transcript. `sendMessage` and
  `performQuickAction` each run in two phases: a synchronous step, then a
  completion that posts exactly one reply. The code-context helpers find
  the surrounding lines, imports, variables and functions of the editor
  buffer.
- **The project data model** (`Models`, `project.dfy`). This covers
  dependencies, project files and the four project templates with their
  generated `requirements.txt`, `pyproject.toml` and `__init__.py` texts.
  It also has a `Project` class whose dependency and file lists are edited
  in place.
- **The project manager** (`ProjectManagement`, `project_manager.dfy`).
  This covers project-name validation and the `requirements.txt` and
  `pyproject.toml` readers, which are proved to read back what the
  templates write. It also covers `createProject`, `loadProject`,
  `importProject` and `installDependencies` over a store that maps paths to
  file contents.
- **The shell commands** (`Commands`, `commands.dfy`). These are the
  `&&`-chained command lines the terminal screens run. There are old,
  enhanced and project-aware variants, and their shared prefixes and
  endings are proved.
- **HTML escaping** (`HtmlEscape`, `html_escape.dfy`). This is
  `escape_html` of the PDF generator script: five chained replacements.

`wrappers.dfy` (Option, Result), `seqs.dfy` (list helpers) and
`strings.dfy` hold helpers. `strings.dfy` models the Kotlin string
functions the source relies on: `trim`, `split`, `lines`, `startsWith`,
`substringAfter`, `removeSurrounding` and decimal `toString`.

The model takes these things as parameters:

- The HTTP call is a `Transport` function from the outgoing request to a
  response or an exception message.
- The regular-expression engine of the suggestion filter is a `Matcher`
  function giving the group-1 captures of each pattern.
- The Android `Context` is an `Env` holding the native library directory
  and the files directory.
- The file system is a map from path to content plus a set of directories.
  The result of `scanProjectFiles` is a `scanned` parameter.
- The `GeminiAIService` singleton is handed to the view model's
  constructor.

## Model

Source paths are relative to the repository root.

| member | source | states |
|---|---|---|
| HtmlEscape.EscapeChar | generate_project_pdf.py:277-283 | every character becomes a non-empty text: its entity, or itself |
| HtmlEscape.ReplaceCharAppend | generate_project_pdf.py:279-283 | one `str.replace` of a single character distributes over concatenation |
| HtmlEscape.ReplaceCharAbsent | generate_project_pdf.py:279-283 | replacing a character that does not occur changes nothing |
| HtmlEscape.LaterStagesKeep | generate_project_pdf.py:279-283 | an entity without `<`, `>`, `"`, `'` survives the later replacement stages unchanged |
| HtmlEscape.EscapeLt | generate_project_pdf.py:280 | `<` becomes `&lt;` through the whole chain |
| HtmlEscape.EscapeGt | generate_project_pdf.py:281 | `>` becomes `&gt;` through the whole chain |
| HtmlEscape.EscapeQuot | generate_project_pdf.py:282 | `"` becomes `&quot;` through the whole chain |
| HtmlEscape.EscapeOther | generate_project_pdf.py:279-283 | a character that is not special comes back as itself |
| HtmlEscape.EscapeHtmlChar | generate_project_pdf.py:279-283 | on one character the chain gives exactly that character's entity |
| HtmlEscape.EscapeHtmlAppend | generate_project_pdf.py:279-283 | escape(a + b) == escape(a) + escape(b) |
| HtmlEscape.EscapeHtmlIsPerChar | generate_project_pdf.py:279-283 | because '&' goes first, the chain equals the reference per-character escape |
| HtmlEscape.EscapeHtmlNoMarkup | generate_project_pdf.py:277-283 | the output holds none of `<`, `>`, `"`, `'` |
| HtmlEscape.EscapeHtmlEntities | generate_project_pdf.py:279 | every '&' of the output begins one of the five entities |
| HtmlEscape.EscapeHtmlPlain | generate_project_pdf.py:279-283 | text with none of the five special characters comes back unchanged |
| HtmlEscape.EscapeHtmlLength | generate_project_pdf.py:279-283 | output length is input length + 4·#& + 3·#< + 3·#> + 5·#" + 5·#' |
| HtmlEscape.EscapeEachLength | generate_project_pdf.py:279-283 | the same length law for the reference escape, by induction |
| HtmlEscape.EscapeEachNoMarkup | generate_project_pdf.py:277-283 | the reference escape writes no markup character |
| HtmlEscape.EscapeEachEntities | generate_project_pdf.py:279 | the reference escape writes '&' only as the start of an entity |
| HtmlEscape.EscapeEachPlain | generate_project_pdf.py:279-283 | the reference escape is the identity on plain text |
| HtmlEscape.Count | generate_project_pdf.py:279-283 | a character occurs at most as often as the text is long |
| Commands.PythonHome | app/src/main/java/com/ankit/pythonpocketide/utils/Commands.kt:10 | the Python home is the files directory followed by `/files/usr` |
| Commands.PythonLib | app/src/main/java/com/ankit/pythonpocketide/utils/Commands.kt:11 | the library directory is the Python home followed by `/lib` |
| Commands.FileName | app/src/main/java/com/ankit/pythonpocketide/utils/Commands.kt:94 | `File(path).name` has no '/' in it |
| Commands.FileNameIsLastComponent | app/src/main/java/com/ankit/pythonpocketide/utils/Commands.kt:94 | once the trailing '/' characters are dropped (and only they), the name is all that follows the last '/': the whole path when it has no other '/', empty for the root |
| Commands.FileNameTrailingSlash | app/src/main/java/com/ankit/pythonpocketide/utils/Commands.kt:94 | a trailing '/' does not change the name, so `File("/p/demo/").name` is `demo` |
| Commands.FileNameOfChild | app/src/main/java/com/ankit/pythonpocketide/utils/Commands.kt:94 | the name of `dir/name` is `name` for a non-empty component without '/' |
| Commands.CommandParts | app/src/main/java/com/ankit/pythonpocketide/utils/Commands.kt:34-43 | a chain of steps splits at any step boundary into its two sub-chains joined by ` && ` |
| Commands.BasicSteps | app/src/main/java/com/ankit/pythonpocketide/utils/Commands.kt:7-15 | `getBasicCommand` starts with the two home steps and ends with `clear` |
| Commands.InterpreterSteps | app/src/main/java/com/ankit/pythonpocketide/utils/Commands.kt:16-23 | `getInterpreterCommand` runs the interpreter on the file, then waits and exits |
| Commands.PythonShellSteps | app/src/main/java/com/ankit/pythonpocketide/utils/Commands.kt:25-31 | `getPythonShellCommand` starts the interpreter, then waits and exits |
| Commands.EnhancedSetupSteps | app/src/main/java/com/ankit/pythonpocketide/utils/Commands.kt:41 | the enhanced set-up is four steps: the home steps, then PYTHONPATH of the native and library directories |
| Commands.EnhancedBasicSteps | app/src/main/java/com/ankit/pythonpocketide/utils/Commands.kt:34-43 | the enhanced terminal sets up, defines the aliases, clears, and ends with the ready banner |
| Commands.EnhancedInterpreterSteps | app/src/main/java/com/ankit/pythonpocketide/utils/Commands.kt:45-53 | it echoes and runs the file verbatim, then waits and exits |
| Commands.EnhancedPythonShellSteps | app/src/main/java/com/ankit/pythonpocketide/utils/Commands.kt:55-63 | it starts the interpreter after the enhanced set-up, then waits and exits |
| Commands.EnhancedPipInstallSteps | app/src/main/java/com/ankit/pythonpocketide/utils/Commands.kt:65-73 | the package name is echoed and handed verbatim to `pip install --user --upgrade` |
| Commands.AliasSpellings | app/src/main/java/com/ankit/pythonpocketide/utils/Commands.kt:162-164 | the project terminal's three alias pieces spell the enhanced terminal's aliases |
| Commands.ProjectSetupSteps | app/src/main/java/com/ankit/pythonpocketide/utils/Commands.kt:202-212 | PYTHONPATH puts the project path first, then the native and library directories |
| Commands.ProjectFileSteps | app/src/main/java/com/ankit/pythonpocketide/utils/Commands.kt:80-97 | it sets up and `cd`s into the project, names file and project, runs the quoted file, then waits and exits |
| Commands.ProjectShellSteps | app/src/main/java/com/ankit/pythonpocketide/utils/Commands.kt:110-126 | its banner names the project's last path component; it starts the interpreter, waits and exits |
| Commands.ProjectDependencyInstallSteps | app/src/main/java/com/ankit/pythonpocketide/utils/Commands.kt:131-150 | it installs `requirements.txt` when present and says so otherwise, then waits and exits |
| Commands.ProjectTerminalSteps | app/src/main/java/com/ankit/pythonpocketide/utils/Commands.kt:155-176 | set-up, aliases, `cd` and `clear` come first; the project and directory are echoed; it ends on the ready banner |
| Commands.ProjectModuleSteps | app/src/main/java/com/ankit/pythonpocketide/utils/Commands.kt:181-197 | it runs `python -m module` inside the project, then waits and exits |
| Commands.OldCommandsStartWithHome | app/src/main/java/com/ankit/pythonpocketide/utils/Commands.kt:7-31 | the three old builders start by extending PATH and entering the Python home |
| Commands.EnhancedCommandsStartWithHome | app/src/main/java/com/ankit/pythonpocketide/utils/Commands.kt:34-73 | so do the four enhanced builders |
| Commands.ProjectCommandsStartWithHome | app/src/main/java/com/ankit/pythonpocketide/utils/Commands.kt:80-197 | so do the five project-aware builders |
| Commands.ProjectCommandsShape | app/src/main/java/com/ankit/pythonpocketide/utils/Commands.kt:80-212 | project commands start with exactly what `getProjectEnvironmentSetup` returns; the file, main, shell, install and module commands then `cd` into the project and end with `read junk && exit` |
| Commands.RunCommandsExit | app/src/main/java/com/ankit/pythonpocketide/utils/Commands.kt:16-73 | the old and enhanced run, shell and pip commands end with `read junk && exit` |
| Commands.TerminalsDoNotExit | app/src/main/java/com/ankit/pythonpocketide/utils/Commands.kt:42 | the enhanced terminal and the project terminal do not end with `exit` |
| Commands.MainDelegates | app/src/main/java/com/ankit/pythonpocketide/utils/Commands.kt:102-105 | the main command is the file command for `projectPath/mainFile`, with `main.py` by default |
| Models.Dependency.GetDisplayName | app/src/main/java/com/ankit/pythonpocketide/models/Project.kt:80-82 | `name==version` for a non-empty version, the bare name otherwise |
| Models.ProjectFile.GetExtension | app/src/main/java/com/ankit/pythonpocketide/models/Project.kt:96 | the text after the last '.', with no '.' in it; "" when the name has no dot |
| Models.PythonFileIffSuffix | app/src/main/java/com/ankit/pythonpocketide/models/Project.kt:98 | a file is a Python file exactly when its name ends with `.py` |
| Models.CoreFilesAreConfig | app/src/main/java/com/ankit/pythonpocketide/models/Project.kt:100 | of the files every project gets, all but `main.py` are configuration files |
| Models.DisplaySizeReadsBack | app/src/main/java/com/ankit/pythonpocketide/models/Project.kt:102-108 | the shown size is a decimal n and a unit, with unit·n ≤ size < unit·(n+1); the unit is B below 1024, KB below 1024², MB above |
| Models.AddIfAbsent | app/src/main/java/com/ankit/pythonpocketide/models/Project.kt:43-47 | the list grows by at most the new element and keeps the old ones as a prefix |
| Models.AddIfAbsentNoDup | app/src/main/java/com/ankit/pythonpocketide/models/Project.kt:43-47 | adding never creates a duplicate |
| Models.AddIfAbsentIdempotent | app/src/main/java/com/ankit/pythonpocketide/models/Project.kt:43-47 | adding twice is adding once |
| Models.AddIfAbsentAppends | app/src/main/java/com/ankit/pythonpocketide/models/Project.kt:43-47 | an absent element goes at the end; a present one changes nothing |
| Models.RemoveDependencyNamed | app/src/main/java/com/ankit/pythonpocketide/models/Project.kt:49-51 | exactly the dependencies with other names are kept |
| Models.RemoveDependencyOrder | app/src/main/java/com/ankit/pythonpocketide/models/Project.kt:49-51 | removal distributes over concatenation, keeps a list without that name as it is, and is idempotent |
| Models.RemoveFileAt | app/src/main/java/com/ankit/pythonpocketide/models/Project.kt:59-61 | exactly the files at other paths are kept |
| Models.RemoveFileOrder | app/src/main/java/com/ankit/pythonpocketide/models/Project.kt:59-61 | removal distributes over concatenation and keeps a single file exactly when its path differs, so the other files stay in their order and number |
| Models.Project.constructor | app/src/main/java/com/ankit/pythonpocketide/models/Project.kt:17-27 | the fields are what was passed, `main.py` by default |
| Models.Project.GetMainFilePath | app/src/main/java/com/ankit/pythonpocketide/models/Project.kt:31 | the path starts with `path/` and its last component is the main file |
| Models.Project.GetRequirementsPath | app/src/main/java/com/ankit/pythonpocketide/models/Project.kt:33 | `path/requirements.txt` |
| Models.Project.GetPyprojectPath | app/src/main/java/com/ankit/pythonpocketide/models/Project.kt:35 | `path/pyproject.toml` |
| Models.Project.AddDependency | app/src/main/java/com/ankit/pythonpocketide/models/Project.kt:43-47 | the dependency list becomes AddIfAbsent of the old one and stays duplicate-free; the files are untouched |
| Models.Project.RemoveDependency | app/src/main/java/com/ankit/pythonpocketide/models/Project.kt:49-51 | the dependency list loses exactly that name; the files are untouched |
| Models.Project.AddFile | app/src/main/java/com/ankit/pythonpocketide/models/Project.kt:53-57 | the file list becomes AddIfAbsent of the old one and stays duplicate-free; the dependencies are untouched |
| Models.Project.RemoveFile | app/src/main/java/com/ankit/pythonpocketide/models/Project.kt:59-61 | the file list loses exactly the files at that path; the dependencies are untouched |
| Models.PythonFiles | app/src/main/java/com/ankit/pythonpocketide/models/Project.kt:63-64 | exactly the files whose path ends with `.py`, so no more than the file count |
| Models.PythonFilesOrder | app/src/main/java/com/ankit/pythonpocketide/models/Project.kt:63-64 | selection distributes over concatenation and keeps a single file exactly when its path ends with `.py`, so the Python files stay in their order and number |
| Models.Project.GetAllPythonFiles | app/src/main/java/com/ankit/pythonpocketide/models/Project.kt:63-64 | the Python files of the project's list, in order (`PythonFiles` of the files) |
| Models.Project.GetFileCount | app/src/main/java/com/ankit/pythonpocketide/models/Project.kt:66 | the number of files listed |
| Models.Project.GetDependencyCount | app/src/main/java/com/ankit/pythonpocketide/models/Project.kt:68 | the number of dependencies listed |
| Models.ProjectTemplate.InitFileContent | app/src/main/java/com/ankit/pythonpocketide/models/Project.kt:397 | a comment naming the template and ending with the generator line |
| Models.Quoted | app/src/main/java/com/ankit/pythonpocketide/models/Project.kt:399-417 | a TOML string: the value between two double quotes |
| Models.Setting | app/src/main/java/com/ankit/pythonpocketide/models/Project.kt:399-417 | a `key = value` line: the key, ` = `, then the value |
| Models.QuotedDependencies | app/src/main/java/com/ankit/pythonpocketide/models/Project.kt:410-412 | each requirement indented and quoted, one per dependency |
| Models.TemplateFilePaths | app/src/main/java/com/ankit/pythonpocketide/models/Project.kt:182-387 | the paths of each template's additional files, in order |
| Models.ProjectPathsDistinct | app/src/main/java/com/ankit/pythonpocketide/models/Project.kt:121-387 | no two files a new project gets share a path |
| Models.PathIn | app/src/main/java/com/ankit/pythonpocketide/models/Project.kt:31 | `dir/name` starts with `dir/` and its last component is `name` |
| ProjectManagement.ValidNameIff | app/src/main/java/com/ankit/pythonpocketide/utils/ProjectManager.kt:319-323 | a name is valid exactly when it has 1 to 50 characters, all from `[a-zA-Z0-9_-]` |
| ProjectManagement.ValidNameIsPlain | app/src/main/java/com/ankit/pythonpocketide/utils/ProjectManager.kt:319-323 | a valid name is one path component on one line |
| ProjectManagement.BannerNamesProject | app/src/main/java/com/ankit/pythonpocketide/utils/Commands.kt:94 | for a project created under a valid name, the banner names the project |
| ProjectManagement.ParseLine | app/src/main/java/com/ankit/pythonpocketide/utils/ProjectManager.kt:357-367 | a trimmed line with `==` gives name and version when it splits in exactly two, and nothing otherwise; any other line is a bare dependency |
| ProjectManagement.ParsedLines | app/src/main/java/com/ankit/pythonpocketide/utils/ProjectManager.kt:355-369 | one pass over the lines, at most one dependency per line |
| ProjectManagement.ParseRequirements | app/src/main/java/com/ankit/pythonpocketide/utils/ProjectManager.kt:355-369 | the lines that are neither blank nor start with `#`, each parsed, in the order of the lines (`ParsedLines` of the file's lines) |
| ProjectManagement.FilterThenParse | app/src/main/java/com/ankit/pythonpocketide/utils/ProjectManager.kt:355-368 | filtering the lines and then parsing the kept ones gives the same dependencies as deciding line by line |
| ProjectManagement.ParseDependencies | app/src/main/java/com/ankit/pythonpocketide/utils/ProjectManager.kt:352-370 | a missing file gives no dependencies |
| ProjectManagement.BareLineRoundTrip | app/src/main/java/com/ankit/pythonpocketide/utils/ProjectManager.kt:366 | a bare package name reads as an unpinned dependency |
| ProjectManagement.PinnedLineRoundTrip | app/src/main/java/com/ankit/pythonpocketide/utils/ProjectManager.kt:359-364 | `name==version` reads as that name and version |
| ProjectManagement.RequirementLineRoundTrip | app/src/main/java/com/ankit/pythonpocketide/utils/ProjectManager.kt:352-370 | a pinnable dependency's requirement line is kept and reads back as the dependency |
| ProjectManagement.RequirementsRoundTrip | app/src/main/java/com/ankit/pythonpocketide/utils/ProjectManager.kt:352-370 | reading back the joined lines of pinnable dependencies gives the same list |
| ProjectManagement.TemplateDependencies | app/src/main/java/com/ankit/pythonpocketide/utils/ProjectManager.kt:130 | each template's dependencies are pinnable |
| ProjectManagement.TemplateRequirementsRoundTrip | app/src/main/java/com/ankit/pythonpocketide/models/Project.kt:419 | reading a template's `getRequirementsContent` gives one `Dependency(name, version)` per entry, in order |
| ProjectManagement.ParsePyprojectDescription | app/src/main/java/com/ankit/pythonpocketide/utils/ProjectManager.kt:372-382 | nothing exactly when no line's trimmed form starts with `description` |
| ProjectManagement.DescriptionFromFirstLine | app/src/main/java/com/ankit/pythonpocketide/utils/ProjectManager.kt:374-378 | with a first description line, the description is that line's text after its first '=', trimmed, then stripped of surrounding quotes |
| ProjectManagement.DescriptionAfterHead | app/src/main/java/com/ankit/pythonpocketide/utils/ProjectManager.kt:374-378 | lines that are not description lines followed by one that is: the description is the value of that line |
| ProjectManagement.LoadDescription | app/src/main/java/com/ankit/pythonpocketide/utils/ProjectManager.kt:150-155 | without a pyproject file the description is `Python project` |
| ProjectManagement.DescriptionLineValue | app/src/main/java/com/ankit/pythonpocketide/utils/ProjectManager.kt:375-379 | a written description line is found and reads back as its value |
| ProjectManagement.PyprojectDescriptionIsTemplate | app/src/main/java/com/ankit/pythonpocketide/models/Project.kt:399-406 | reading back `getPyprojectContent(n)` gives the template's description, not the user's |
| ProjectManagement.Lookup | app/src/main/java/com/ankit/pythonpocketide/utils/ProjectManager.kt:150-151 | a file exists exactly when the store holds its path, and reads as what is stored |
| ProjectManagement.WriteAll | app/src/main/java/com/ankit/pythonpocketide/utils/ProjectManager.kt:103-125 | the written paths are added, the others kept, and the last entry's content is stored |
| ProjectManagement.WrittenAt | app/src/main/java/com/ankit/pythonpocketide/utils/ProjectManager.kt:103-125 | the last write to a path wins |
| ProjectManagement.UnwrittenKeeps | app/src/main/java/com/ankit/pythonpocketide/utils/ProjectManager.kt:103-125 | a path no entry targets keeps what it held |
| ProjectManagement.ProjectWritesDistinct | app/src/main/java/com/ankit/pythonpocketide/utils/ProjectManager.kt:103-125 | a new project writes the core paths then the template's extra paths, all distinct |
| ProjectManagement.CreatedLayout | app/src/main/java/com/ankit/pythonpocketide/utils/ProjectManager.kt:103-125 | after creation `main.py`, `__init__.py` and `pyproject.toml` hold the template's texts, `requirements.txt` exactly when there are dependencies, and every extra file its content |
| ProjectManagement.OnlyEmptyHasNoDependencies | app/src/main/java/com/ankit/pythonpocketide/models/Project.kt:121-381 | only the empty template has no dependencies |
| ProjectManagement.CreatedDependencies | app/src/main/java/com/ankit/pythonpocketide/utils/ProjectManager.kt:111-130 | a fresh project's requirements file reads back as the template's dependencies |
| ProjectManagement.CreatedDescription | app/src/main/java/com/ankit/pythonpocketide/utils/ProjectManager.kt:116-119 | loading a fresh project gives the template's description |
| ProjectManagement.ExtractSnoc | app/src/main/java/com/ankit/pythonpocketide/utils/ProjectManager.kt:258-272 | extracting one more entry makes its directory, or writes its file after making the parent |
| ProjectManagement.ProjectManager.constructor | app/src/main/java/com/ankit/pythonpocketide/utils/ProjectManager.kt:44-48 | the projects directory is `filesDir/projects` and is created when missing |
| ProjectManagement.ProjectManager.CreateProject | app/src/main/java/com/ankit/pythonpocketide/utils/ProjectManager.kt:75-138 | an invalid name fails first, an existing directory next, and neither writes; otherwise the directory and the template's files are written and the project carries the template's dependencies |
| ProjectManagement.ProjectManager.WriteProject | app/src/main/java/com/ankit/pythonpocketide/utils/ProjectManager.kt:91-125 | the directory is made, then the core files and the extra files are written in order |
| ProjectManagement.ProjectManager.WriteCoreFiles | app/src/main/java/com/ankit/pythonpocketide/utils/ProjectManager.kt:103-119 | the four core files are written in order, requirements only when given |
| ProjectManagement.ProjectManager.WriteAdditionalFiles | app/src/main/java/com/ankit/pythonpocketide/utils/ProjectManager.kt:121-125 | every extra file is written after its parent directories are made |
| ProjectManagement.ProjectManager.WriteAdditionalFile | app/src/main/java/com/ankit/pythonpocketide/utils/ProjectManager.kt:122-124 | one extra file: parent made, then written |
| ProjectManagement.ProjectManager.LoadProject | app/src/main/java/com/ankit/pythonpocketide/utils/ProjectManager.kt:143-175 | nothing without the directory; otherwise the name, the description read from `pyproject.toml` (or the default), and the dependencies read from `requirements.txt` |
| ProjectManagement.ProjectManager.ImportProject | app/src/main/java/com/ankit/pythonpocketide/utils/ProjectManager.kt:249-281 | an existing target fails before anything is written; otherwise every entry is extracted and the project loaded |
| ProjectManagement.ProjectManager.ExtractEntries | app/src/main/java/com/ankit/pythonpocketide/utils/ProjectManager.kt:258-272 | the entries are extracted one after another into the directory |
| ProjectManagement.ProjectManager.ExtractEntry | app/src/main/java/com/ankit/pythonpocketide/utils/ProjectManager.kt:261-269 | a directory entry is made; a file entry is written after its parent |
| ProjectManagement.ProjectManager.InstallDependencies | app/src/main/java/com/ankit/pythonpocketide/utils/ProjectManager.kt:302-315 | `No dependencies to install` without a requirements file; otherwise the enhanced pip command for `-r path` |
| GeminiAI.GetString | app/src/main/java/com/ankit/pythonpocketide/ai/GeminiAIService.kt:99 | an absent key gives the default; a stored text gives itself |
| GeminiAI.GetBoolean | app/src/main/java/com/ankit/pythonpocketide/ai/GeminiAIService.kt:110-117 | an absent key gives the default; a stored flag gives itself |
| GeminiAI.GetAPIKey | app/src/main/java/com/ankit/pythonpocketide/ai/GeminiAIService.kt:99 | no key before one is saved |
| GeminiAI.GetConfig | app/src/main/java/com/ankit/pythonpocketide/ai/GeminiAIService.kt:110-117 | absent keys give `gemini-1.5-flash` and `true`; `maxTokens` is always its default |
| GeminiAI.PutAPIKey | app/src/main/java/com/ankit/pythonpocketide/ai/GeminiAIService.kt:95-97 | after saving, the key reads back and the configuration is unchanged |
| GeminiAI.PutConfig | app/src/main/java/com/ankit/pythonpocketide/ai/GeminiAIService.kt:101-108 | after saving, the model and the three flags read back, `maxTokens` as its default, and the key is unchanged |
| GeminiAI.FreshStore | app/src/main/java/com/ankit/pythonpocketide/ai/GeminiAIService.kt:55-62 | an empty store gives no key and the default configuration |
| GeminiAI.GeminiAIService.constructor | app/src/main/java/com/ankit/pythonpocketide/ai/GeminiAIService.kt:45 | the service holds the store found on the device |
| GeminiAI.GeminiAIService.SaveAPIKey | app/src/main/java/com/ankit/pythonpocketide/ai/GeminiAIService.kt:95-97 | the store becomes PutAPIKey of the old one: the key reads back, the configuration unchanged |
| GeminiAI.GeminiAIService.SaveConfig | app/src/main/java/com/ankit/pythonpocketide/ai/GeminiAIService.kt:101-108 | the store becomes PutConfig of the old one: the configuration reads back, the key unchanged |
| GeminiAI.BuildContextPrompt | app/src/main/java/com/ankit/pythonpocketide/ai/GeminiAIService.kt:181-213 | empty when context is off; otherwise it starts with the file and ends with the selection in a fence |
| GeminiAI.BuildTaskPrompt | app/src/main/java/com/ankit/pythonpocketide/ai/GeminiAIService.kt:215-333 | for each of the seven kinds, the block is headed by its title and holds the payload verbatim |
| GeminiAI.AssemblePrompt | app/src/main/java/com/ankit/pythonpocketide/ai/GeminiAIService.kt:138-152 | the system block opens the prompt, the context block follows it, the task block and the closing instruction end it, and nothing else is in it: its length is that of the four blocks and the three blank-line breaks |
| GeminiAI.ContextBlockIffEnabled | app/src/main/java/com/ankit/pythonpocketide/ai/GeminiAIService.kt:140 | the context block is empty exactly when context is disabled |
| GeminiAI.ObjectField | app/src/main/java/com/ankit/pythonpocketide/ai/GeminiAIService.kt:395-405 | `getJSONObject` succeeds exactly on an object value |
| GeminiAI.ArrayField | app/src/main/java/com/ankit/pythonpocketide/ai/GeminiAIService.kt:399-406 | `getJSONArray` succeeds exactly on an array value |
| GeminiAI.StringField | app/src/main/java/com/ankit/pythonpocketide/ai/GeminiAIService.kt:396-412 | `getString` succeeds exactly on a string value |
| GeminiAI.FirstObject | app/src/main/java/com/ankit/pythonpocketide/ai/GeminiAIService.kt:404-412 | `getJSONObject(0)` succeeds exactly on a non-empty array starting with an object |
| GeminiAI.ParseFailure | app/src/main/java/com/ankit/pythonpocketide/ai/GeminiAIService.kt:419-421 | a caught exception is an error starting with `Failed to parse response: ` |
| GeminiAI.ParseBody | app/src/main/java/com/ankit/pythonpocketide/ai/GeminiAIService.kt:389-421 | a body never parses to the loading state |
| GeminiAI.ParseGeminiResponse | app/src/main/java/com/ankit/pythonpocketide/ai/GeminiAIService.kt:384-422 | a failed status gives `API request failed: code message`; a missing body `Empty response`; otherwise the body's table |
| GeminiAI.ParseBodyTable | app/src/main/java/com/ankit/pythonpocketide/ai/GeminiAIService.kt:390-418 | an error object gives `API Error: …`, empty candidates `No response generated`, empty parts `Empty content in response`; success exactly when the first part has a text, with its suggestions; any other shape is a parse failure |
| GeminiAI.ParseErrorTable | app/src/main/java/com/ankit/pythonpocketide/ai/GeminiAIService.kt:394-397 | the rows for a root with an `error` key |
| GeminiAI.ParseReplyTable | app/src/main/java/com/ankit/pythonpocketide/ai/GeminiAIService.kt:399-417 | the rows for a root without an `error` key |
| GeminiAI.KeptOne | app/src/main/java/com/ankit/pythonpocketide/ai/GeminiAIService.kt:434-438 | a capture is kept, trimmed, exactly when its trimmed form is non-blank and shorter than 200 |
| GeminiAI.KeptSound | app/src/main/java/com/ankit/pythonpocketide/ai/GeminiAIService.kt:434-438 | every kept capture is trimmed, non-blank and short |
| GeminiAI.KeptComplete | app/src/main/java/com/ankit/pythonpocketide/ai/GeminiAIService.kt:434-438 | every acceptable capture is kept |
| GeminiAI.CollectedSound | app/src/main/java/com/ankit/pythonpocketide/ai/GeminiAIService.kt:432-440 | every capture collected over the patterns is trimmed, non-blank and short |
| GeminiAI.SuggestionsOf | app/src/main/java/com/ankit/pythonpocketide/ai/GeminiAIService.kt:424-445 | at most 5 items, a prefix of the filtered captures in pattern order, shorter only when there are fewer; each trimmed, non-blank and under 200 characters |
| GeminiAI.ExtractSuggestions | app/src/main/java/com/ankit/pythonpocketide/ai/GeminiAIService.kt:424-445 | the nested loops compute SuggestionsOf |
| GeminiAI.Endpoint | app/src/main/java/com/ankit/pythonpocketide/ai/GeminiAIService.kt:376 | the `generateContent` URL of the model, ending with the key |
| GeminiAI.Planned | app/src/main/java/com/ankit/pythonpocketide/ai/GeminiAIService.kt:127-130 | the request carries the key in its URL, the prompt from the stored configuration, and the default token limit |
| GeminiAI.Dispatch | app/src/main/java/com/ankit/pythonpocketide/ai/GeminiAIService.kt:130-135 | a failed call is `AI request failed: …`; an answer is parsed |
| GeminiAI.ProcessAIRequest | app/src/main/java/com/ankit/pythonpocketide/ai/GeminiAIService.kt:120-136 | a missing or blank key gives `API key not configured…`; otherwise the planned request is dispatched |
| GeminiAI.KeyGuardSendsNothing | app/src/main/java/com/ankit/pythonpocketide/ai/GeminiAIService.kt:122-125 | without a usable key the transport is never consulted |
| GeminiAI.GetQuickCompletion | app/src/main/java/com/ankit/pythonpocketide/ai/GeminiAIService.kt:448-464 | nothing when completion is off, the count is negative or the answer fails; else the first `maxSuggestions` suggestions |
| GeminiAI.QuickCompletionBounded | app/src/main/java/com/ankit/pythonpocketide/ai/GeminiAIService.kt:448-464 | quick completions never exceed five |
| GeminiAI.ProcessSuggestionsBounded | app/src/main/java/com/ankit/pythonpocketide/ai/GeminiAIService.kt:120-136 | an answer carries at most five suggestions |
| Assistant.ExtractSurroundingCode | app/src/main/java/com/ankit/pythonpocketide/ui/viewmodels/AIAssistantViewModel.kt:116-121 | it fails (subList throws) exactly when the window is inverted, below -10 or beyond the end + 10 |
| Assistant.SurroundingCodeLines | app/src/main/java/com/ankit/pythonpocketide/ui/viewmodels/AIAssistantViewModel.kt:116-121 | the result is lines `[max(0,l-10), min(n,l+10))`, at most 20 contiguous lines |
| Assistant.VariableName | app/src/main/java/com/ankit/pythonpocketide/ui/viewmodels/AIAssistantViewModel.kt:129 | a captured name is an identifier at the start of the line |
| Assistant.VariableNameOfAssignment | app/src/main/java/com/ankit/pythonpocketide/ui/viewmodels/AIAssistantViewModel.kt:129 | `name = value` captures `name` |
| Assistant.ExtractVariables | app/src/main/java/com/ankit/pythonpocketide/ui/viewmodels/AIAssistantViewModel.kt:128-131 | distinct identifiers; exactly the names some line assigns |
| Assistant.VariablesInFirstAssignmentOrder | app/src/main/java/com/ankit/pythonpocketide/ui/viewmodels/AIAssistantViewModel.kt:128-131 | names appear in the order of their first assignments |
| Assistant.FunctionName | app/src/main/java/com/ankit/pythonpocketide/ui/viewmodels/AIAssistantViewModel.kt:134 | a captured name is an identifier on a `def` line |
| Assistant.FunctionNameOfDef | app/src/main/java/com/ankit/pythonpocketide/ui/viewmodels/AIAssistantViewModel.kt:134 | `def name(params):` captures `name` |
| Assistant.ExtractFunctions | app/src/main/java/com/ankit/pythonpocketide/ui/viewmodels/AIAssistantViewModel.kt:133-136 | identifiers; every name a line defines is listed |
| Assistant.DefiningLine | app/src/main/java/com/ankit/pythonpocketide/ui/viewmodels/AIAssistantViewModel.kt:133-136 | each listed function comes from a line that defines it |
| Assistant.FunctionsInLineOrder | app/src/main/java/com/ankit/pythonpocketide/ui/viewmodels/AIAssistantViewModel.kt:133-136 | functions are listed in the order of the lines that define them |
| Assistant.ImportName | app/src/main/java/com/ankit/pythonpocketide/ui/viewmodels/AIAssistantViewModel.kt:124 | a captured module starts with an identifier character on an `import` or `from` line |
| Assistant.ImportNameOfImport | app/src/main/java/com/ankit/pythonpocketide/ui/viewmodels/AIAssistantViewModel.kt:124 | `import path` captures `path` |
| Assistant.ImportNameOfFrom | app/src/main/java/com/ankit/pythonpocketide/ui/viewmodels/AIAssistantViewModel.kt:124 | `from path import names` captures `path` |
| Assistant.ExtractImports | app/src/main/java/com/ankit/pythonpocketide/ui/viewmodels/AIAssistantViewModel.kt:123-126 | line by line, every module a line imports is listed, at most one per line; the source's matching over the whole text drops some of them (see Findings) |
| Assistant.ImportingLine | app/src/main/java/com/ankit/pythonpocketide/ui/viewmodels/AIAssistantViewModel.kt:123-126 | each listed module comes from a line that imports it |
| Assistant.ImportsInLineOrder | app/src/main/java/com/ankit/pythonpocketide/ui/viewmodels/AIAssistantViewModel.kt:123-126 | modules are listed in the order of the lines that import them |
| Assistant.ImportsAcrossLines | app/src/main/java/com/ankit/pythonpocketide/ui/viewmodels/AIAssistantViewModel.kt:124-125 | the regex as written over the whole text, where `\s*` runs over line breaks: at most one module per line, each a dotted-name capture |
| Assistant.ExtractImportsAsWritten | app/src/main/java/com/ankit/pythonpocketide/ui/viewmodels/AIAssistantViewModel.kt:123-126 | `extractImports` as written, at most one module per line |
| Assistant.ConsecutiveImports | app/src/main/java/com/ankit/pythonpocketide/ui/viewmodels/AIAssistantViewModel.kt:124-125 | for two consecutive `import` lines, as written only the first module is reported; line by line both are |
| Assistant.ConsecutiveImportsOsSys | app/src/main/java/com/ankit/pythonpocketide/ui/viewmodels/AIAssistantViewModel.kt:124-125 | `import os\nimport sys` gives `[os]` as written and `[os, sys]` line by line |
| Assistant.WelcomeLines | app/src/main/java/com/ankit/pythonpocketide/ui/viewmodels/AIAssistantViewModel.kt:75-90 | sixteen lines, the fourteenth naming the current model |
| Assistant.WelcomeMessage | app/src/main/java/com/ankit/pythonpocketide/ui/viewmodels/AIAssistantViewModel.kt:72-96 | an assistant message, not an error, without suggestions, naming the current model |
| Assistant.SendReply | app/src/main/java/com/ankit/pythonpocketide/ui/viewmodels/AIAssistantViewModel.kt:174-212 | an assistant message; an error exactly when the call did not succeed; a success copies the content and suggestions; errors quote their message |
| Assistant.QuickReply | app/src/main/java/com/ankit/pythonpocketide/ui/viewmodels/AIAssistantViewModel.kt:269-298 | like SendReply, but never marked as an error |
| Assistant.NoSelectionMessage | app/src/main/java/com/ankit/pythonpocketide/ui/viewmodels/AIAssistantViewModel.kt:222-226 | an assistant warning, not an error |
| Assistant.QuickActionMessage | app/src/main/java/com/ankit/pythonpocketide/ui/viewmodels/AIAssistantViewModel.kt:231-235 | a user message naming the capitalised action and quoting the first 50 characters, with `...` only beyond 50 |
| Assistant.QuickRequest | app/src/main/java/com/ankit/pythonpocketide/ui/viewmodels/AIAssistantViewModel.kt:240-265 | the action picks the kind (explain, fix, optimize, review, document, else custom); the payload holds the selection |
| Assistant.SettingsMessage | app/src/main/java/com/ankit/pythonpocketide/ui/viewmodels/AIAssistantViewModel.kt:311-315 | the confirmation lists the model and the three flags |
| Assistant.SendRequest | app/src/main/java/com/ankit/pythonpocketide/ui/viewmodels/AIAssistantViewModel.kt:157-170 | the payload is the message for bug fix and custom query, the selection otherwise; surrounding code and selection are replaced |
| Assistant.Ask | app/src/main/java/com/ankit/pythonpocketide/ui/viewmodels/AIAssistantViewModel.kt:172 | no service exactly when there is none; an answer is never the loading state |
| Assistant.AIAssistantViewModel.constructor | app/src/main/java/com/ankit/pythonpocketide/ui/viewmodels/AIAssistantViewModel.kt:30-54 | empty chat, not loading, flash model, default configuration, and the service set by `init` |
| Assistant.AIAssistantViewModel.LoadConfig | app/src/main/java/com/ankit/pythonpocketide/ui/viewmodels/AIAssistantViewModel.kt:64-70 | the configuration and model shown become the stored ones |
| Assistant.AIAssistantViewModel.AddWelcomeMessage | app/src/main/java/com/ankit/pythonpocketide/ui/viewmodels/AIAssistantViewModel.kt:72-96 | the chat becomes the welcome message alone |
| Assistant.AIAssistantViewModel.InitializeAIService | app/src/main/java/com/ankit/pythonpocketide/ui/viewmodels/AIAssistantViewModel.kt:56-62 | with a service nothing changes; without one the service is taken, the configuration loaded, and the welcome message posted |
| Assistant.AIAssistantViewModel.UpdateCodeContext | app/src/main/java/com/ankit/pythonpocketide/ui/viewmodels/AIAssistantViewModel.kt:98-114 | when the window exists the context gets the file, line, selection, surrounding code, imports, variables and functions; otherwise it is unchanged |
| Assistant.AIAssistantViewModel.SetCodeContext | app/src/main/java/com/ankit/pythonpocketide/ui/viewmodels/AIAssistantViewModel.kt:352-354 | the context is replaced as given |
| Assistant.AIAssistantViewModel.SendMessage | app/src/main/java/com/ankit/pythonpocketide/ui/viewmodels/AIAssistantViewModel.kt:144-153 | exactly the user message is appended and loading is set |
| Assistant.AIAssistantViewModel.CompleteSend | app/src/main/java/com/ankit/pythonpocketide/ui/viewmodels/AIAssistantViewModel.kt:155-216 | exactly one reply is appended and loading is cleared, whatever the outcome |
| Assistant.AIAssistantViewModel.PerformQuickAction | app/src/main/java/com/ankit/pythonpocketide/ui/viewmodels/AIAssistantViewModel.kt:219-265 | a blank selection posts the warning, sends nothing and leaves loading alone; otherwise the action message is posted, loading set, and the request built |
| Assistant.AIAssistantViewModel.CompleteQuickAction | app/src/main/java/com/ankit/pythonpocketide/ui/viewmodels/AIAssistantViewModel.kt:267-302 | exactly one reply is appended and loading is cleared |
| Assistant.AIAssistantViewModel.UpdateConfig | app/src/main/java/com/ankit/pythonpocketide/ui/viewmodels/AIAssistantViewModel.kt:305-316 | the service stores the configuration, the view shows it, and the confirmation is appended |
| Assistant.AIAssistantViewModel.ShowSettings | app/src/main/java/com/ankit/pythonpocketide/ui/viewmodels/AIAssistantViewModel.kt:318-320 | the settings dialog is shown; nothing else changes |
| Assistant.AIAssistantViewModel.HideSettings | app/src/main/java/com/ankit/pythonpocketide/ui/viewmodels/AIAssistantViewModel.kt:322-324 | the settings dialog is hidden; nothing else changes |
| Assistant.AIAssistantViewModel.ClearChat | app/src/main/java/com/ankit/pythonpocketide/ui/viewmodels/AIAssistantViewModel.kt:326-329 | only the welcome message is left |
| Assistant.AIAssistantViewModel.ClearMessages | app/src/main/java/com/ankit/pythonpocketide/ui/viewmodels/AIAssistantViewModel.kt:356-358 | the chat is emptied |
| Assistant.AIAssistantViewModel.GetQuickCompletions | app/src/main/java/com/ankit/pythonpocketide/ui/viewmodels/AIAssistantViewModel.kt:332-342 | the service's quick completions for three suggestions, none without a service |
| Assistant.AIAssistantViewModel.SetSelectedModel | app/src/main/java/com/ankit/pythonpocketide/ui/viewmodels/AIAssistantViewModel.kt:344-350 | the model shown changes, the stored configuration changes only in its model, the key is kept, and the view's configuration is not touched |
| Assistant.AIAssistantViewModel.SaveAPIKey | app/src/main/java/com/ankit/pythonpocketide/ui/viewmodels/AIAssistantViewModel.kt:360-362 | the key is passed on to the service and reads back |
| Assistant.AIAssistantViewModel.GetAPIKey | app/src/main/java/com/ankit/pythonpocketide/ui/viewmodels/AIAssistantViewModel.kt:364 | the service's key, none without a service |
| Assistant.InitializedAtConstruction | app/src/main/java/com/ankit/pythonpocketide/ui/viewmodels/AIAssistantViewModel.kt:52-62 | because `init` fetches the service, `initializeAIService` right after construction posts no welcome message |

## Left out

- Temperature (a float) and the timestamps of chat messages are not modelled; `AIConfig` has no temperature field.
- Prompt texts are concatenated blocks; the exact whitespace `trimIndent` leaves in the prompts is not reproduced.
- `makeGeminiRequest`'s HTTP call, the OkHttp client and its timeouts are a `Transport` parameter; the `org.json` library is a small `Json` datatype. `GeminiAI.StringField` treats a non-string value as an error where Android would coerce it, and the exception messages are the model's own texts, not `org.json`'s.
- The suggestion regexes are a `Matcher` parameter. The import, variable and function regexes are per-line predicates over the text split at '\n'. A `\r` left at a line end is kept rather than treated as a line break.
- Assistant.ExtractVariables, Assistant.ExtractFunctions: in the source `\s` also matches '\n', so a match may run over a line break: `x\n= 1` lists `x` (AIAssistantViewModel.kt:129) and `def\nfoo():` lists `foo` (line 134). The model takes each line on its own and lists neither; such matches only add names.
- Assistant.ExtractImports: the alias form `import x as y` is not proved to capture `x`, and backtracking from a longer dotted name into a shorter one ending right before an `import` keyword is not modelled. The model takes each line on its own. In the source, `\s*` after the capture runs over line breaks, blank lines and indentation, and `(?:import.*)?` then takes a following line that starts with `import` into the same match, so `import os\nimport sys` gives only `os` (see Findings; `ExtractImportsAsWritten` models this). A keyword at a line end with its module on the next line, and an ` as` alias on the next line, are not modelled either.
- Lower-casing and capitalisation are ASCII-only. String lengths count Unicode scalars, where Kotlin counts UTF-16 units; the 50-character and 200-character limits differ only for characters outside the Basic Multilingual Plane.
- Coroutines are not modelled. Each coroutine is a completion method run to its end, and only one request is outstanding at a time.
- Assistant.SendReply: the `Raised` outcome models the `catch` handlers of `sendMessage` and `performQuickAction`. `ProcessAIRequest` never throws, so it is unreachable from the model's service.
- Assistant.AIAssistantViewModel.SetSelectedModel leaves `aiConfig` unchanged, as the source does, even though the stored configuration changes.
- `performQuickAction`'s `fullCode` parameter is unused in the source and has no effect in the model.
- `onCleared`/`cleanup` and the `getInstance` singletons are not modelled; the service is handed to the view model's constructor.
- `scanProjectFiles` is a `scanned` parameter, and ZIP archives are sequences of entries. `deleteProject`, `exportProject`, `zipDirectory`, `getAllProjects`, `getLegacyFiles`, `convertFileToProject` and the modification times are file-system work and are not modelled. I/O exceptions inside `createProject`, `loadProject` and `importProject` are not modelled.
- ProjectManagement.ProjectManager.ImportProject, ProjectManagement.ProjectManager.ExtractEntry: entry names are taken as plain relative paths, without `.`, `..` or empty segments, and joined to the target directory as they are; for a file entry only its immediate parent directory is created, where `mkdirs` creates every missing ancestor.
- `ProjectFile`'s `size` is an unbounded integer rather than a `Long`.
- The Compose UI files, the other activities and view models, and the build scripts (apart from `escape_html`) are not part of this model.

## Findings

| source | as written | input that shows it | evidently intended | confidence | as-written member | corrected member |
|---|---|---|---|---|---|---|
| app/src/main/java/com/ankit/pythonpocketide/ui/viewmodels/AIAssistantViewModel.kt:124-125 | after a capture that ends its line, `\s*` matches the line break and `(?:import.*)?` takes the next line when it starts with `import`, so that line's module is never reported | `import os\nimport sys` gives `[os]` | every import line gives its module: `[os, sys]` | not executed | Assistant.ExtractImportsAsWritten | Assistant.ExtractImports |
