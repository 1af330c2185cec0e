# cursor-extend, modelled in Dafny

This project models the core of `mcp-extend`. `mcp-extend` is an MCP server that helps an editor build and register small
FastMCP tools. The core modelled here has two parts.

* `ToolGenerator`, in `src/mcp_extend/generator.py`. It derives a directory/script name and a class name from a tool's
  display name. It then creates `<output_dir>/<sanitised name>` and writes `server.py`, `pyproject.toml`, `README.md` and
  `.gitignore` into it. The first three are rendered from templates.
* The server operations, in `src/mcp_extend/server.py`:
  * the saved-command registry in `.cursor/commands.json`: `remember_command`, `list_remembered_commands` and
    `forget_command`;
  * the one-time note that `_update_cursorrules_for_commands` appends to `.cursorrules`;
  * the upsert of a server entry into `~/.cursor/mcp.json` (`_add_tool_to_cursor_config_impl`);
  * the tool validator (`_validate_mcp_tool_impl`);
  * how the tool guide (`_get_mcp_tool_guide_impl`) chooses where a tool goes and which files it lists.

The modules follow the program's structure.

| module | file | models |
|---|---|---|
| `Wrappers` | `wrappers.dfy` | `Option` |
| `Strings` | `strings.dfy` | `str.lower`, `str.strip`, `str.split`, `"".join`, substring tests on ASCII text |
| `Names` | `names.dfy` | `_sanitize_name`, `_to_script_name`, `_to_class_name` |
| `Paths` | `paths.dfy` | `pathlib` POSIX paths, `/`, `expanduser`, `Path.home()`, `os.path.expanduser`, `os.path.join` |
| `Disk` | `disk.dfy` | the files and directories the tools touch: a `Store` snapshot, and the `FileSystem` class the operations change in place |
| `Documents` | `documents.dfy` | JSON values, `json.load`/`json.dump` as a parameter, `len`, `dict.get` |
| `Generator` | `generator.dfy` | `ToolGenerator` and `generate_tool` |
| `CursorRules` | `rules.dfy` | `_update_cursorrules_for_commands` |
| `CommandRegistry` | `registry.dfy` | `remember_command`, `list_remembered_commands`, `forget_command` |
| `CursorConfig` | `config.dfy` | `_add_tool_to_cursor_config_impl` |
| `Validator` | `validator.dfy` | `_validate_mcp_tool_impl` |
| `ToolGuide` | `guide.dfy` | `_get_mcp_tool_guide_impl`, `_get_patterns_for_type` |

Each operation that changes files is written twice.

* A function on a `Store` (for example `CommandRegistry.Remember`) returns an `Effect`: the new store and the result.
  The failures the model covers become explicit failure values in that result: a read that fails, a JSON document of
  the wrong shape, a missing template, and a home directory that cannot be determined.
* A method on the `FileSystem` class (for example `CommandRegistry.Registry.RememberCommand`) does the steps in the
  source's order. Its `ensures` says that the new state and result are the function's.

The lemmas then state what the source promises about those functions. Results include the sanitised name's shape, that
it is idempotent, the registry's upsert/list/delete laws, the frame of every write, and the end-to-end fact that
validating a freshly generated project finds all four files.

Some things the environment supplies become parameters:

* the home directory and the working directory;
* template lookup and rendering (`Generator.Jinja`);
* `json.load`/`json.dump` (`Documents.JsonCodec`); the registry and config laws assume only that loading what was
  dumped gives the document back (`RoundTrips`);
* `py_compile` (the validator's `compiles`).

Details of the code the model follows as written:

* `_sanitize_name` does not reject an empty result, and it keeps underscores. `_to_script_name` is the same slug: its
  hyphens are not turned into underscores, and no `_` prefix is added.
* No recognised set of template types is checked. An unknown type fails only because its template is missing
  (`TemplateNotFound`).
* `remember_command` has no source-tree or temp-directory guard. Its entry records the working directory, printed as an absolute path, as `created`
  and a fixed date as `updated`.
* The validator's follow-up checks, and the whole call, fail outright (`ValidationFailed`) when `server.py` or
  `pyproject.toml` exists but is not a regular file.

Three details of the code are kept as written:

* `forget_command` rewrites the file before it reads the removed entry's `command`. An entry without one is therefore
  removed, even though the call reports an error (`CommandRegistry.ForgetPresent`).
* The project branch of the guide tests whether the path ends with the tool name, but picks the same directory either
  way.
* The guide renders its templates with a context of only `tool_name` and `description`.

## Model

| member | source | states |
|---|---|---|
| `Strings.LowerStr` | src/mcp_extend/generator.py:130 | `str.lower` keeps the length and lower-cases each character |
| `Strings.StripEnds` | src/mcp_extend/generator.py:132 | `strip` returns the contiguous middle of the input, starting after the leading run, and neither end of the result is a stripped character |
| `Strings.FlattenTokens` | src/mcp_extend/generator.py:140 | joining the words of `split()` gives back the text with its whitespace removed |
| `Strings.TokensOfJoin` | src/mcp_extend/generator.py:140 | splitting words joined by a separator gives back the words |
| `Names.Collapse` | src/mcp_extend/generator.py:131 | each run of hyphens and whitespace becomes one hyphen; its shape is `CollapseShape`, and it keeps the word characters in order (`CollapseKeepsWordChars`) |
| `Names.Sanitize` | src/mcp_extend/generator.py:127-132 | lower-case, drop punctuation, collapse runs, strip hyphens; the result is a slug (`SanitizeIsSlug`), sanitising is idempotent (`SanitizeIdempotent`), and its fixed points are exactly the slugs (`SanitizeFixedPoints`) |
| `Names.SanitizeIsSlug` | src/mcp_extend/generator.py:127-132 | every sanitised name uses only lower-case letters, digits, `_` and `-`; never has two `-` in a row; and never starts or ends with `-` |
| `Names.CollapseShape` | src/mcp_extend/generator.py:131 | after the run-collapsing substitution no whitespace is left and no two hyphens touch |
| `Names.StripShape` | src/mcp_extend/generator.py:132 | stripping hyphens from collapsed text leaves no hyphen at either end |
| `Names.SanitizeSlug` | src/mcp_extend/generator.py:127-132 | a string that is already a slug sanitises to itself |
| `Names.SanitizeFixedPoints` | src/mcp_extend/generator.py:127-132 | the names sanitisation leaves unchanged are exactly the slugs |
| `Names.SanitizeIdempotent` | src/mcp_extend/generator.py:127-132 | sanitising twice is sanitising once |
| `Names.SanitizeKeepsWordChars` | src/mcp_extend/generator.py:130-132 | the sanitised name keeps every word character of the lower-cased name, in order, and adds only hyphens |
| `Names.SanitizeWords` | src/mcp_extend/generator.py:130-132 | lower-case words separated by single spaces become the same words separated by single hyphens |
| `Names.SanitizeDropsPunctuation` | src/mcp_extend/generator.py:130 | trailing punctuation does not change the sanitised name |
| `Names.SanitizeExample` | src/mcp_extend/generator.py:127-132 | `"My Cool Tool!!!"` sanitises to `"my-cool-tool"` |
| `Names.ScriptName` | src/mcp_extend/generator.py:134-136 | the script name is the sanitised name, so it is a slug |
| `Names.Capitalize` | src/mcp_extend/generator.py:140 | `str.capitalize` keeps the length and spelling up to case, its first character is not lower-case, and no later character is upper-case |
| `Names.CapitalizeAll` | src/mcp_extend/generator.py:140 | every word is capitalised, in order |
| `Names.ClassName` | src/mcp_extend/generator.py:138-140 | capitalise each whitespace-separated word and join them; it spells the name's non-whitespace characters up to case (`ClassNameMatchesName`) and has no whitespace (`ClassNameHasNoWhitespace`) |
| `Names.ClassNameMatchesName` | src/mcp_extend/generator.py:138-140 | the class name spells the name's non-whitespace characters, up to case |
| `Names.ClassNameHasNoWhitespace` | src/mcp_extend/generator.py:138-140 | the class name holds no whitespace |
| `Names.ClassNameOfWords` | src/mcp_extend/generator.py:138-140 | for whitespace-free words joined by spaces, the class name is the concatenation of `capitalize(w)` over the words |
| `Paths.ParsePath` | src/mcp_extend/generator.py:40 | `Path(s)` keeps only non-empty parts without `/` or `.` |
| `Paths.ParsePathText` | src/mcp_extend/generator.py:53 | parsing `str(path)` gives the path back |
| `Paths.ParsePathCanonical` | src/mcp_extend/server.py:455 | printing and parsing a parsed path again changes nothing |
| `Paths.Div` | src/mcp_extend/generator.py:40 | `path / s` of a normal path is a normal path |
| `Paths.DivPart` | src/mcp_extend/generator.py:77 | joining one plain name appends it as the last part |
| `Paths.DivParts` | src/mcp_extend/server.py:358 | joining two plain names in turn appends both |
| `Paths.DivEmpty` | src/mcp_extend/generator.py:40 | joining an empty name leaves the path unchanged |
| `Paths.ResolveDistinct` | src/mcp_extend/server.py:609 | different relative paths name different files |
| `Paths.ChildrenDistinct` | src/mcp_extend/generator.py:77-125 | two different names in one directory are different files |
| `Paths.ChildOfOther` | src/mcp_extend/server.py:669 | a file in a directory is not the directory |
| `Paths.ExpandUser` | src/mcp_extend/server.py:360 | `os.path.expanduser` leaves text without a leading `~` unchanged, and replaces `~` or `~/...` with the home directory minus its trailing slashes |
| `Paths.ExpandUserPath` | src/mcp_extend/generator.py:40 | `Path.expanduser()` changes only a leading `~` part, and keeps paths normal |
| `Paths.ExpandUnderHome` | src/mcp_extend/server.py:358 | a path under `~` expands to the same parts under `Path.home()`, and fails exactly when `Path.home()` does |
| `Paths.OsJoin` | src/mcp_extend/server.py:64-65 | `os.path.join(a, b)` is `b` when `b` is absolute, and otherwise starts with `a` and ends with `b` |
| `Disk.Store.Read` | src/mcp_extend/server.py:621 | reading succeeds exactly on a regular file |
| `Disk.Store.Write` | src/mcp_extend/generator.py:77 | after a write the file holds the text and every other file is unchanged |
| `Disk.Store.Append` | src/mcp_extend/server.py:627-628 | appending adds the text to the end of what the file held and changes no other file |
| `Disk.Store.MakeDir` | src/mcp_extend/server.py:666 | `mkdir(exist_ok=True)` makes the directory exist, keeps the files, and removes nothing |
| `Disk.Store.MakeDirs` | src/mcp_extend/generator.py:41 | `mkdir(parents=True, exist_ok=True)` adds the directory and all its ancestors and keeps the files |
| `Disk.FileSystem.constructor` | src/mcp_extend/generator.py:41 | the live file system starts in the given state |
| `Disk.FileSystem.ReadText` | src/mcp_extend/server.py:621 | reading returns what the snapshot holds and changes nothing |
| `Disk.FileSystem.WriteText` | src/mcp_extend/generator.py:77 | writing changes the state as `Store.Write` does |
| `Disk.FileSystem.AppendText` | src/mcp_extend/server.py:627-628 | appending changes the state as `Store.Append` does |
| `Disk.FileSystem.MakeDir` | src/mcp_extend/server.py:666 | changes the state as `Store.MakeDir` does |
| `Disk.FileSystem.MakeDirs` | src/mcp_extend/generator.py:41 | changes the state as `Store.MakeDirs` does |
| `Documents.Length` | src/mcp_extend/server.py:733 | `len` is defined exactly on strings, lists and objects, and counts an object's keys |
| `Generator.ExtraDependencies` | src/mcp_extend/generator.py:84-86 | the extra dependencies are exactly `["httpx>=0.27.0"]` when the template is `http_api` or `internal_api`, and are empty otherwise |
| `Generator.InternalNeedsHttpx` | src/mcp_extend/generator.py:84-101 | an internal tool always gets the HTTP client dependency |
| `Generator.GitignoreStripped` | src/mcp_extend/generator.py:114-125 | `strip()` drops exactly the blank lines around the ignore patterns |
| `Generator.FilesArePlain` | src/mcp_extend/generator.py:54-59 | each reported file name is a single path part |
| `Generator.FilesAreChildren` | src/mcp_extend/generator.py:77-125 | `path / name` for each reported file is the file directly inside `path` |
| `Generator.WriteRendered` | src/mcp_extend/generator.py:69-77 | rendering succeeds exactly when the template exists; the target then reads back as the rendered text, the directories and working directory are unchanged, and every other file reads as before |
| `Generator.WriteFiles` | src/mcp_extend/generator.py:44-47 | a failure while writing the files is always a missing template, and the writes create no directory |
| `Generator.ToolGenerator.constructor` | src/mcp_extend/generator.py:14-19 | the generator keeps its template environment |
| `Generator.ToolGenerator.GenerateTool` | src/mcp_extend/generator.py:21-67 | the method leaves the state and result that `Generate` computes |
| `Generator.ToolGenerator.GenerateServer` | src/mcp_extend/generator.py:69-77 | the server file is rendered from `<type>.py.jinja` with name, description and class name, and the call fails exactly when that template is missing |
| `Generator.ToolGenerator.GeneratePyproject` | src/mcp_extend/generator.py:79-94 | `pyproject.toml` is rendered with the script name and the extra dependencies, and the call fails exactly when the template is missing |
| `Generator.ToolGenerator.GenerateReadme` | src/mcp_extend/generator.py:96-110 | `README.md` is rendered with the script name, the path and the internal flag, and the call fails exactly when the template is missing |
| `Generator.ToolGenerator.GenerateGitignore` | src/mcp_extend/generator.py:112-125 | `.gitignore` gets the stripped constant text |
| `Generator.Destination` | src/mcp_extend/generator.py:40 | `Path(output_dir).expanduser() / sanitised name`; its shape and failure case are `DestinationShape` |
| `Generator.Generate` | src/mcp_extend/generator.py:21-67 | make the destination, write the four files, report; when it succeeds is `GenerateSucceeds`, what it reports `GenerateReports`, what it writes `GenerateWritesManifest`, and what it leaves alone `GenerateFrame` |
| `Generator.SlugIsPart` | src/mcp_extend/generator.py:40 | a non-empty sanitised name is a single path part |
| `Generator.DestinationShape` | src/mcp_extend/generator.py:40 | the destination is the sanitised name one level under the expanded output directory, or that directory itself when the name sanitises to nothing; it fails exactly when expansion does |
| `Generator.GenerateNoHome` | src/mcp_extend/generator.py:40 | generation reports the unknown home directory only when expansion fails, and then touches nothing |
| `Generator.GenerateServerTemplateMissing` | src/mcp_extend/generator.py:41-71 | a missing server template fails after the directory is made and before any file is written |
| `Generator.GenerateSucceeds` | src/mcp_extend/generator.py:40-67 | generation succeeds exactly when the destination can be determined and all three templates exist |
| `Generator.GenerateReports` | src/mcp_extend/generator.py:49-67 | the result reports the destination, the four files in order, four next steps starting with `cd <path>`, and `uvx --from <path> <sanitised name>` |
| `Generator.ChildTextEndsWith` | src/mcp_extend/generator.py:53 | a path one level down prints ending with its name |
| `Generator.GeneratePathEndsWithSlug` | src/mcp_extend/generator.py:40-53 | the reported path ends with, and so contains, the sanitised name |
| `Generator.WriteFilesContents` | src/mcp_extend/generator.py:44-125 | after a successful run each of the four files holds its rendered template or the stripped ignore text |
| `Generator.FourWrites` | src/mcp_extend/generator.py:77-125 | four writes to four different files leave each file holding its own text |
| `Generator.GenerateWritesManifest` | src/mcp_extend/generator.py:40-66 | after success the destination exists, and every reported file is a regular file in it holding its content |
| `Generator.WriteFilesFrame` | src/mcp_extend/generator.py:44-47 | writing the project touches no file but the four |
| `Generator.GenerateFrame` | src/mcp_extend/generator.py:40-47 | generation, successful or not, changes no other file and only adds directories |
| `CursorRules.UpdateRules` | src/mcp_extend/server.py:603-630 | append the instruction block to `.cursorrules` unless the file already mentions the registry, or create the file holding it; see `UpdateRulesMentions`, `UpdateRulesKeepsPrefix`, `UpdateRulesIdempotent`, `UpdateRulesFrame` and `UpdateRulesFails` |
| `CursorRules.StripInstruction` | src/mcp_extend/server.py:630 | a new rules file holds the instruction block without its surrounding blank lines |
| `CursorRules.BodyMentions` | src/mcp_extend/server.py:612-622 | any text that contains the instruction block passes the guard |
| `CursorRules.AppendedMentions` | src/mcp_extend/server.py:627-628 | the appended file passes the guard |
| `CursorRules.CreatedMentions` | src/mcp_extend/server.py:630 | the created file passes the guard |
| `CursorRules.UpdateRulesMentions` | src/mcp_extend/server.py:619-630 | after a successful update the rules file exists and mentions the saved commands |
| `CursorRules.UpdateRulesKeepsPrefix` | src/mcp_extend/server.py:619-628 | existing rules text is kept as a prefix |
| `CursorRules.UpdateRulesFrame` | src/mcp_extend/server.py:603-630 | only `.cursorrules` can change |
| `CursorRules.UpdateRulesFails` | src/mcp_extend/server.py:620-621 | the update fails exactly when `.cursorrules` exists but is not a regular file, and then changes nothing |
| `CursorRules.UpdateRulesIdempotent` | src/mcp_extend/server.py:619-624 | a second update leaves the file exactly as the first left it |
| `CursorRules.UpdateCursorRules` | src/mcp_extend/server.py:603-630 | the method leaves the state and result that `UpdateRules` computes |
| `CommandRegistry.CommandsFileNames` | src/mcp_extend/server.py:666-669 | `Path(".cursor") / "commands.json"` and `Path(".cursor/commands.json")` are one file, and it prints as `.cursor/commands.json` |
| `CommandRegistry.ProjectFilesDistinct` | src/mcp_extend/server.py:609-669 | `.cursorrules`, `.cursor` and the registry file are three different paths |
| `CommandRegistry.PutCommand` | src/mcp_extend/server.py:678-683 | `data["commands"][name] = record`, failing when there is no `commands` object; `RememberWritten` and `RememberKeepsOthers` state what it keeps |
| `CommandRegistry.Remember` | src/mcp_extend/server.py:634-706 | make `.cursor`, load or start the registry, set the entry, save it, update the rules; see `RememberStores`, `RememberWritten`, `RememberKeepsOthers`, `RememberFrame`, `RememberFirst` and `RememberFreshSucceeds` |
| `CommandRegistry.ListCommands` | src/mcp_extend/server.py:710-748 | report nothing saved, a failure, or the saved commands with their count; see `ListReportsDocument` and `RememberThenList` |
| `CommandRegistry.Forget` | src/mcp_extend/server.py:920-965 | remove a saved name, or report the saved names or the missing file; see `ForgetPresent`, `ForgetAbsent`, `ForgetWithoutCommandsKey`, `ForgetWithoutFile`, `ForgetFrame` and `RememberThenForget` |
| `CommandRegistry.Registry.constructor` | src/mcp_extend/server.py:634-706 | the registry tools keep their JSON codec |
| `CommandRegistry.Registry.RememberCommand` | src/mcp_extend/server.py:664-706 | the method leaves the state and the result that `Remember` computes |
| `CommandRegistry.Registry.ListRememberedCommands` | src/mcp_extend/server.py:719-748 | the method returns `ListCommands` of the current state, and changes nothing |
| `CommandRegistry.Registry.ForgetCommand` | src/mcp_extend/server.py:930-965 | the method leaves the state and the result that `Forget` computes |
| `CommandRegistry.RememberStores` | src/mcp_extend/server.py:678-683 | after a successful remember, `commands[name]` holds the command, and the description or, when that is empty, the name (`description or name`, written `DescriptionOrName`) |
| `CommandRegistry.RememberWritten` | src/mcp_extend/server.py:670-687 | the file then holds the previous document with exactly `commands[name]` set |
| `CommandRegistry.RememberKeepsOthers` | src/mcp_extend/server.py:678-683 | every other saved command is kept unchanged, and no command is added or dropped |
| `CommandRegistry.RememberFrame` | src/mcp_extend/server.py:664-690 | a remember, successful or not, changes no file but `.cursor/commands.json` and `.cursorrules`, adds only the `.cursor` directory, and keeps the working directory |
| `CommandRegistry.RememberFirst` | src/mcp_extend/server.py:670-676 | without a registry file, the document becomes `{"commands": {name: record}, "version": "1.0"}` |
| `CommandRegistry.FirstEntry` | src/mcp_extend/server.py:676-683 | setting one command in the empty registry gives the one-entry document |
| `CommandRegistry.RememberFreshSucceeds` | src/mcp_extend/server.py:664-698 | on a project with no registry file and a readable or absent `.cursorrules`, remember succeeds and reports the usage text |
| `CommandRegistry.RememberThenList` | src/mcp_extend/server.py:678-738 | after a remember, listing shows the stored record, with a count equal to the number of commands |
| `CommandRegistry.ListReportsDocument` | src/mcp_extend/server.py:722-738 | listing reports nothing saved exactly when the file is absent; otherwise it returns `data.get("commands", {})` (written `Documents.GetOrEmpty`) as loaded, with its size |
| `CommandRegistry.ForgetPresent` | src/mcp_extend/server.py:941-952 | forgetting a saved name removes exactly that key, keeps the rest, and returns the removed record's command |
| `CommandRegistry.ForgetFrame` | src/mcp_extend/server.py:941-952 | forgetting changes no other file; it rewrites the registry exactly when the name is saved, to the loaded document with only that command removed, and otherwise changes nothing |
| `CommandRegistry.ForgetAbsent` | src/mcp_extend/server.py:941-958 | forgetting an absent name changes nothing and reports the saved names, read with `data.get("commands", {})` (`Documents.GetOrEmpty`) |
| `CommandRegistry.ForgetWithoutCommandsKey` | src/mcp_extend/server.py:941-958 | a document without a `commands` key counts as `{}`: forgetting changes nothing and reports no saved names |
| `CommandRegistry.ForgetWithoutFile` | src/mcp_extend/server.py:932-936 | with no registry file, forget reports so and writes nothing |
| `CommandRegistry.RememberThenForget` | src/mcp_extend/server.py:664-952 | remembering and then forgetting a name reports the command and leaves the other commands as before |
| `CursorConfig.ConfigPathShape` | src/mcp_extend/server.py:358 | the config file is `Path.home() / ".cursor" / "mcp.json"`, and fails exactly when `Path.home()` does |
| `CursorConfig.ConfigPathIsDiv` | src/mcp_extend/server.py:358 | `home / ".cursor" / "mcp.json"` appends the two parts to the home path |
| `CursorConfig.ConfigNamesArePart` | src/mcp_extend/server.py:358 | `.cursor` and `mcp.json` are single path parts |
| `CursorConfig.WithServer` | src/mcp_extend/server.py:371-379 | set `mcpServers[tool_name]`, creating `mcpServers` when missing; see `WithServerSets`, `WithServerFails` and `WithServerIdempotent` |
| `CursorConfig.AddTool` | src/mcp_extend/server.py:344-413 | load or start `~/.cursor/mcp.json`, upsert the entry and save it, or return the manual snippet; see `AddToolWrites`, `AddToolFrame`, `AddToolCreates`, `AddToolOnExisting`, `AddToolFailureManual` and `AddToolIdempotent` |
| `CursorConfig.AddToolToCursorConfig` | src/mcp_extend/server.py:357-413 | the method leaves the state and the result that `AddTool` computes |
| `CursorConfig.WithServerSets` | src/mcp_extend/server.py:371-379 | the upsert sets `mcpServers[tool_name]`, creates `mcpServers` when missing, and keeps every other server and top-level key |
| `CursorConfig.WithServerFails` | src/mcp_extend/server.py:371-379 | the upsert fails exactly when the config or its `mcpServers` is not an object |
| `CursorConfig.WithServerIdempotent` | src/mcp_extend/server.py:371-379 | upserting the same entry twice is upserting it once |
| `CursorConfig.AddToolWrites` | src/mcp_extend/server.py:357-392 | after success the config file holds the upserted document, whose entry runs `uvx --from <expanded path> <name>` |
| `CursorConfig.AddToolFrame` | src/mcp_extend/server.py:357-382 | only the config file changes, and directories are only added |
| `CursorConfig.AddToolCreates` | src/mcp_extend/server.py:364-382 | without a config file, the call creates one holding only this server |
| `CursorConfig.AddToolFailureManual` | src/mcp_extend/server.py:397-413 | a failure returns the manual snippet, which carries the path as given |
| `CursorConfig.AddToolOnExisting` | src/mcp_extend/server.py:364-382 | on an existing, loadable config the call writes the upserted document |
| `CursorConfig.AddToolIdempotent` | src/mcp_extend/server.py:357-382 | adding the same tool twice leaves the same files and directories as adding it once |
| `Validator.CheckFile` | src/mcp_extend/server.py:467-473 | one required file: a passed check when it exists, an issue when it does not; see `CheckFilesSplit` |
| `Validator.CheckSyntax` | src/mcp_extend/server.py:475-483 | `py_compile` of `server.py` when it exists; see `SyntaxExtends` and `ValidateFails` |
| `Validator.CheckDependency` | src/mcp_extend/server.py:485-492 | the `fastmcp` test on `pyproject.toml` when it exists; see `DependencyExtends` and `ValidateFails` |
| `Validator.Finish` | src/mcp_extend/server.py:494-500 | the report: success and "all passed" when there are no issues, otherwise a warning with both counts; see `ValidateReport` |
| `Validator.Validate` | src/mcp_extend/server.py:442-509 | the whole validation; see `ValidateMissingDirectory`, `ValidateReport`, `ValidateCounts`, `ValidateFails`, `ValidateComplete` and `ValidateGenerated` |
| `Validator.RequiredAreChildren` | src/mcp_extend/server.py:467-469 | `expanded_path / filename` is the file directly inside the tool directory |
| `Validator.CheckFiles` | src/mcp_extend/server.py:467-473 | the loop adds exactly one entry per required file |
| `Validator.CheckRequiredFiles` | src/mcp_extend/server.py:467-473 | the loop builds the lists `CheckFiles` describes |
| `Validator.ValidateTool` | src/mcp_extend/server.py:454-501 | the validator returns `Validate` of the current state, and changes nothing |
| `Validator.CheckFilesSplit` | src/mcp_extend/server.py:467-473 | a file is listed as passed exactly when it exists, and as missing exactly when it does not |
| `Validator.ValidateMissingDirectory` | src/mcp_extend/server.py:457-462 | a nonexistent directory yields the error, with the path, before any check runs, and only then |
| `Validator.SyntaxExtends` | src/mcp_extend/server.py:475-483 | the syntax check adds one entry when `server.py` exists and none otherwise, and never one about a required file |
| `Validator.DependencyExtends` | src/mcp_extend/server.py:485-492 | the dependency check adds one entry when `pyproject.toml` exists and none otherwise, and never one about a required file |
| `Validator.LaterChecks` | src/mcp_extend/server.py:475-492 | the two follow-up checks together add one entry per follow-up file that exists |
| `Validator.ExtendsKeepsFiles` | src/mcp_extend/server.py:475-492 | the follow-up checks do not change which files are reported |
| `Validator.ValidateReport` | src/mcp_extend/server.py:464-500 | each required file lands in exactly one of the two lists; status and summary are success and "all passed" exactly when there are no issues |
| `Validator.ValidateCounts` | src/mcp_extend/server.py:464-500 | the lists hold one entry per required file plus one per follow-up check that ran |
| `Validator.ValidateFails` | src/mcp_extend/server.py:475-509 | an existing directory fails outright exactly when `server.py` or `pyproject.toml` exists but is not a regular file |
| `Validator.ValidateComplete` | src/mcp_extend/server.py:464-500 | with all required files present, every file check passes |
| `Validator.GeneratedToolDir` | src/mcp_extend/server.py:455 | the path the generator reports names the directory it wrote |
| `Validator.ValidateGenerated` | src/mcp_extend/server.py:454-500 | validating a freshly generated project reports every required file as present and none as missing |
| `Validator.DestinationNormal` | src/mcp_extend/generator.py:40 | the generator's destination is a normal path |
| `ToolGuide.ExpandedOutput` | src/mcp_extend/server.py:54 | a path without a leading `~` is used as given |
| `ToolGuide.PlaceProject` | src/mcp_extend/server.py:57-61 | a project tool lives at the expanded output path, uses `.cursor/mcp.json`, and is registered under the path as given |
| `ToolGuide.PlaceGlobal` | src/mcp_extend/server.py:62-66 | a global tool lives in a directory ending with its name, inside the output path unless the name is absolute, uses `mcp.json` under the home directory, and is registered under its directory |
| `ToolGuide.Place` | src/mcp_extend/server.py:57-66 | where the tool goes, which config file it uses and the path it is registered under; see `PlaceProject` and `PlaceGlobal` |
| `ToolGuide.GuideFor` | src/mcp_extend/server.py:22-220 | the guide assembled from the three templates and the placement; see `GuideFails` and `GuideModes` |
| `ToolGuide.McpConfigText` | src/mcp_extend/server.py:120-127 | the project config snippet; see `McpConfigNames` |
| `ToolGuide.FilesToCreate` | src/mcp_extend/server.py:157-177 | the files the guide lists; see `FilesToCreateShape` |
| `ToolGuide.PatternNames` | src/mcp_extend/server.py:287-341 | the pattern names for each tool type; see `PatternsKnown` |
| `ToolGuide.GuideFails` | src/mcp_extend/server.py:68-134 | the guide fails exactly when one of the three templates cannot be read |
| `ToolGuide.FilesToCreateShape` | src/mcp_extend/server.py:157-177 | the files to create are the generator's four, plus `../.cursor/mcp.json` for a project tool |
| `ToolGuide.ReferenceKeys` | src/mcp_extend/server.py:180-186 | there is a reference text for each of the four files, and one for `.cursor/mcp.json` exactly for a project tool |
| `ToolGuide.FramedMentions` | src/mcp_extend/server.py:120-127 | text assembled around the tool name and path contains both |
| `ToolGuide.McpConfigNames` | src/mcp_extend/server.py:120-127 | the project config text names the tool and the path it registers |
| `ToolGuide.GuideModes` | src/mcp_extend/server.py:57-188 | a project guide lists five files and carries a config naming the output path as given; a global guide lists four files and no config text; the ignore text and pattern names are fixed |
| `ToolGuide.PatternsKnown` | src/mcp_extend/server.py:287-341 | every known tool type comes with the FastMCP setup pattern, and an unknown type gets no patterns |

## Left out

- The FastMCP plumbing: the `@mcp.tool()` wrappers, `get_mcp_tool_guide`, `add_tool_to_cursor_config`, `validate_mcp_tool`, `mcp.run` and `main`. They only forward to the modelled functions.
- Jinja itself. `PackageLoader`, `importlib.resources` and `Template.render` are the `source`/`render` parameters, and the generator's `trim_blocks`/`lstrip_blocks` options are part of that parameter. The guide's bare `Template` is a separate `Jinja` value the caller supplies.
- `py_compile`. It is the `compiles` predicate on the source text; the bytecode file it writes is not modelled.
- `json.load` and `json.dump`. They are a parameter, as is the `indent=2` layout. Object key order is not kept, so `available` in `forget_command` is a set, and numbers are integers.
- Failures of writes and of `mkdir`: disk full, permissions, and `mkdir` on a path that is a file. Reads that raise are modelled; writes and `mkdir` always succeed.
- The text of exception messages and of the checks', issues' and summary's messages. They are datatype constructors, and the summary keeps its two counts.
- Text with no logic: the guide's instructions, file descriptions, `best_practices` and setup notes; the contents of `_get_patterns_for_type` (only the pattern names are modelled); the `message`, `tip` and `next_steps` texts of the server operations; and `list_available_templates` and `discover_project_commands`.
- Unicode. `\w`, `\s`, `str.lower`, `str.capitalize` and `str.split` are modelled on ASCII; any other character counts as neither a word character nor whitespace.
- Path details: the `~user` form of `expanduser` (left unchanged, as it is when the user is unknown), a leading `//` in a path, and `..` (kept as an ordinary part, as `pathlib` keeps it). Paths follow current `pathlib` (Python 3.12).
- Default arguments. Callers pass every argument, for example `output_dir`.
- `Validator.ValidateGenerated`: requires a reported path that does not start with `~`. A home directory whose text starts with `~` already makes generation fail. The excluded case needs a relative home directory: either one whose first part, once `.` parts are dropped, starts with `~` (such as `./~x`, where an output directory `~/tools` reports `~x/tools/<name>`), or one with no parts (such as `.`) when the output directory continues with a part starting with `~` (such as `~/~a`, which reports `~a/<name>`). Validating such a path would treat its leading `~` as something to expand for a second time.
- Concurrency and external edits between calls. Every call runs alone on the state it is given.
