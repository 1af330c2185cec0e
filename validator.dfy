/** `_validate_mcp_tool_impl`: check a tool directory for the required
    files, the server's syntax and the FastMCP dependency, collecting what
    passed and what did not. The syntax check is a parameter. */
module Validator {
  import opened Wrappers
  import opened Strings
  import opened Paths
  import opened Disk
  import opened Generator

  const RequiredFiles: seq<string> := ["server.py", "pyproject.toml", "README.md", ".gitignore"]

  datatype Check = FileExists(file: string) | SyntaxValid | FastMcpFound
  datatype Issue = FileMissing(file: string) | SyntaxInvalid | FastMcpMissing
  datatype Status = Success | Warning

  /** `"All checks passed! ✅"`, or the two counts. */
  datatype Summary = AllPassed | Counted(passed: nat, found: nat)

  datatype Validation =
    | DirectoryMissing(path: string)
    | Report(toolPath: string, status: Status, checks: seq<Check>, issues: seq<Issue>, summary: Summary)
    | ValidationFailed

  /** The lists built so far. */
  datatype Tally = Tally(checks: seq<Check>, issues: seq<Issue>)

  /** `path / name` for each required file is the file one level down,
      so the checks below use `Child`. */
  lemma RequiredAreChildren(dir: Path)
    ensures forall k :: 0 <= k < |RequiredFiles| ==> Div(dir, RequiredFiles[k]) == Child(dir, RequiredFiles[k])
  {
    FilesAreChildren(dir);
    assert RequiredFiles == FilesCreated;
  }

  /** One round of the required-file loop. */
  function CheckFile(s: Store, dir: Path, t: Tally, file: string): Tally {
    if s.Exists(Child(dir, file)) then Tally(t.checks + [FileExists(file)], t.issues)
    else Tally(t.checks, t.issues + [FileMissing(file)])
  }

  /** The required-file loop over `files`. */
  function CheckFiles(s: Store, dir: Path, files: seq<string>): (t: Tally)
    ensures |t.checks| + |t.issues| == |files|
  {
    if files == [] then Tally([], [])
    else CheckFile(s, dir, CheckFiles(s, dir, files[..|files| - 1]), files[|files| - 1])
  }

  /** `py_compile` on `server.py` when it exists; `None` where reading it raises. */
  function CheckSyntax(compiles: string -> bool, s: Store, dir: Path, t: Tally): Option<Tally> {
    var server := Child(dir, "server.py");
    if !s.Exists(server) then Some(t)
    else match s.Read(server)
      case None => None
      case Some(source) =>
        Some(if compiles(source) then Tally(t.checks + [SyntaxValid], t.issues) else Tally(t.checks, t.issues + [SyntaxInvalid]))
  }

  /** The `fastmcp` substring check on `pyproject.toml` when it exists. */
  function CheckDependency(s: Store, dir: Path, t: Tally): Option<Tally> {
    var pyproject := Child(dir, "pyproject.toml");
    if !s.Exists(pyproject) then Some(t)
    else match s.Read(pyproject)
      case None => None
      case Some(content) =>
        Some(if Contains(content, "fastmcp") then Tally(t.checks + [FastMcpFound], t.issues) else Tally(t.checks, t.issues + [FastMcpMissing]))
  }

  function Finish(dir: Path, t: Tally): Validation {
    Report(PathText(dir), if t.issues == [] then Success else Warning, t.checks, t.issues,
      if t.issues == [] then AllPassed else Counted(|t.checks|, |t.issues|))
  }

  /** The directory `Path(os.path.expanduser(tool_path))` names. */
  function ToolDir(home: string, toolPath: string): Path {
    ParsePath(ExpandUser(home, toolPath))
  }

  /** The whole call `_validate_mcp_tool_impl(tool_path)`. */
  function Validate(compiles: string -> bool, home: string, s: Store, toolPath: string): Validation {
    var dir := ToolDir(home, toolPath);
    if !s.Exists(dir) then DirectoryMissing(PathText(dir))
    else
      match CheckSyntax(compiles, s, dir, CheckFiles(s, dir, RequiredFiles))
      case None => ValidationFailed
      case Some(t1) =>
        match CheckDependency(s, dir, t1)
        case None => ValidationFailed
        case Some(t2) => Finish(dir, t2)
  }

  /** The validator as the server runs it; it only reads. */
  method ValidateTool(fs: FileSystem, compiles: string -> bool, home: string, toolPath: string) returns (v: Validation)
    ensures v == Validate(compiles, home, fs.State(), toolPath)
  {
    var dir := ToolDir(home, toolPath);
    if !fs.Exists(dir) {
      return DirectoryMissing(PathText(dir));
    }
    var t := CheckRequiredFiles(fs, dir);
    var checks, issues := t.checks, t.issues;
    var server := Child(dir, "server.py");
    if fs.Exists(server) {
      var source := fs.ReadText(server);
      if source.None? {
        return ValidationFailed;
      }
      if compiles(source.value) {
        checks := checks + [SyntaxValid];
      } else {
        issues := issues + [SyntaxInvalid];
      }
    }
    var pyproject := Child(dir, "pyproject.toml");
    if fs.Exists(pyproject) {
      var content := fs.ReadText(pyproject);
      if content.None? {
        return ValidationFailed;
      }
      if Contains(content.value, "fastmcp") {
        checks := checks + [FastMcpFound];
      } else {
        issues := issues + [FastMcpMissing];
      }
    }
    v := Finish(dir, Tally(checks, issues));
  }

  /** The loop over the required files. */
  method CheckRequiredFiles(fs: FileSystem, dir: Path) returns (t: Tally)
    ensures t == CheckFiles(fs.State(), dir, RequiredFiles)
  {
    var checks: seq<Check> := [];
    var issues: seq<Issue> := [];
    for i := 0 to |RequiredFiles|
      invariant Tally(checks, issues) == CheckFiles(fs.State(), dir, RequiredFiles[..i])
    {
      assert RequiredFiles[..i + 1][..i] == RequiredFiles[..i];
      var file := RequiredFiles[i];
      if fs.Exists(Child(dir, file)) {
        checks := checks + [FileExists(file)];
      } else {
        issues := issues + [FileMissing(file)];
      }
    }
    assert RequiredFiles[..|RequiredFiles|] == RequiredFiles;
    t := Tally(checks, issues);
  }

  // Properties of the validator.

  /** Each file of the loop is reported exactly once: as a check when it
      exists and as an issue when it does not, in the order of the list. */
  lemma {:induction false} CheckFilesSplit(s: Store, dir: Path, files: seq<string>)
    ensures var t := CheckFiles(s, dir, files);
      forall f :: (FileExists(f) in t.checks <==> f in files && s.Exists(Child(dir, f)))
        && (FileMissing(f) in t.issues <==> f in files && !s.Exists(Child(dir, f)))
  {
    if files != [] {
      var init := files[..|files| - 1];
      CheckFilesSplit(s, dir, init);
      assert files == init + [files[|files| - 1]];
    }
  }

  /** A missing directory is reported before any check runs. */
  lemma ValidateMissingDirectory(compiles: string -> bool, home: string, s: Store, toolPath: string)
    ensures Validate(compiles, home, s, toolPath).DirectoryMissing? <==> !s.Exists(ToolDir(home, toolPath))
    ensures !s.Exists(ToolDir(home, toolPath)) ==>
      Validate(compiles, home, s, toolPath) == DirectoryMissing(PathText(ToolDir(home, toolPath)))
  {
  }

  /** `u` is `t` with entries added at the end, none of them about a
      required file. */
  predicate Extends(t: Tally, u: Tally) {
    |t.checks| <= |u.checks| && u.checks[..|t.checks|] == t.checks
    && |t.issues| <= |u.issues| && u.issues[..|t.issues|] == t.issues
    && (forall k :: |t.checks| <= k < |u.checks| ==> !u.checks[k].FileExists?)
    && (forall k :: |t.issues| <= k < |u.issues| ==> !u.issues[k].FileMissing?)
  }

  /** How many entries `u` adds to `t`. */
  function Added(t: Tally, u: Tally): int {
    |u.checks| + |u.issues| - |t.checks| - |t.issues|
  }

  lemma SyntaxExtends(compiles: string -> bool, s: Store, dir: Path, t: Tally)
    requires CheckSyntax(compiles, s, dir, t).Some?
    ensures Extends(t, CheckSyntax(compiles, s, dir, t).value)
    ensures Added(t, CheckSyntax(compiles, s, dir, t).value) == if s.Exists(Child(dir, "server.py")) then 1 else 0
  {
    assert (t.checks + [SyntaxValid])[..|t.checks|] == t.checks;
    assert (t.issues + [SyntaxInvalid])[..|t.issues|] == t.issues;
  }

  lemma DependencyExtends(s: Store, dir: Path, t: Tally)
    requires CheckDependency(s, dir, t).Some?
    ensures Extends(t, CheckDependency(s, dir, t).value)
    ensures Added(t, CheckDependency(s, dir, t).value) == if s.Exists(Child(dir, "pyproject.toml")) then 1 else 0
  {
    assert (t.checks + [FastMcpFound])[..|t.checks|] == t.checks;
    assert (t.issues + [FastMcpMissing])[..|t.issues|] == t.issues;
  }

  lemma ExtendsTrans(t: Tally, u: Tally, w: Tally)
    requires Extends(t, u) && Extends(u, w)
    ensures Extends(t, w)
  {
    assert w.checks[..|t.checks|] == w.checks[..|u.checks|][..|t.checks|];
    assert w.issues[..|t.issues|] == w.issues[..|u.issues|][..|t.issues|];
  }

  /** The checks that follow the loop add one entry each for the files
      that exist and never a file entry. */
  lemma LaterChecks(compiles: string -> bool, s: Store, dir: Path, t: Tally)
    requires CheckSyntax(compiles, s, dir, t).Some?
    requires CheckDependency(s, dir, CheckSyntax(compiles, s, dir, t).value).Some?
    ensures var u := CheckDependency(s, dir, CheckSyntax(compiles, s, dir, t).value).value;
      Extends(t, u)
      && Added(t, u) == (if s.Exists(Child(dir, "server.py")) then 1 else 0) + (if s.Exists(Child(dir, "pyproject.toml")) then 1 else 0)
  {
    var t1 := CheckSyntax(compiles, s, dir, t).value;
    SyntaxExtends(compiles, s, dir, t);
    DependencyExtends(s, dir, t1);
    ExtendsTrans(t, t1, CheckDependency(s, dir, t1).value);
  }

  /** Added entries do not change which files are reported. */
  lemma ExtendsKeepsFiles(t: Tally, u: Tally, f: string)
    requires Extends(t, u)
    ensures FileExists(f) in u.checks <==> FileExists(f) in t.checks
    ensures FileMissing(f) in u.issues <==> FileMissing(f) in t.issues
  {
    assert u.checks == t.checks + u.checks[|t.checks|..];
    assert u.issues == t.issues + u.issues[|t.issues|..];
  }

  /** On an existing directory that can be read, every required file lands
      in exactly one of the lists: as passed when it exists, as missing when
      it does not; and the status is success exactly when there is no issue. */
  lemma ValidateReport(compiles: string -> bool, home: string, s: Store, toolPath: string, f: string)
    requires Validate(compiles, home, s, toolPath).Report?
    ensures var v := Validate(compiles, home, s, toolPath);
      var dir := ToolDir(home, toolPath);
      (FileExists(f) in v.checks <==> f in RequiredFiles && s.Exists(Child(dir, f)))
      && (FileMissing(f) in v.issues <==> f in RequiredFiles && !s.Exists(Child(dir, f)))
      && (v.status == Success <==> v.issues == [])
      && (v.summary == AllPassed <==> v.issues == [])
      && v.toolPath == PathText(dir)
  {
    var dir := ToolDir(home, toolPath);
    var t := CheckFiles(s, dir, RequiredFiles);
    CheckFilesSplit(s, dir, RequiredFiles);
    LaterChecks(compiles, s, dir, t);
    ExtendsKeepsFiles(t, CheckDependency(s, dir, CheckSyntax(compiles, s, dir, t).value).value, f);
  }

  /** The two lists hold one entry per required file plus one per
      follow-up check that ran. */
  lemma ValidateCounts(compiles: string -> bool, home: string, s: Store, toolPath: string)
    requires Validate(compiles, home, s, toolPath).Report?
    ensures var v := Validate(compiles, home, s, toolPath);
      var dir := ToolDir(home, toolPath);
      |v.checks| + |v.issues| == |RequiredFiles|
        + (if s.Exists(Child(dir, "server.py")) then 1 else 0) + (if s.Exists(Child(dir, "pyproject.toml")) then 1 else 0)
  {
    var dir := ToolDir(home, toolPath);
    LaterChecks(compiles, s, dir, CheckFiles(s, dir, RequiredFiles));
  }

  /** Validation fails outright exactly when a follow-up file exists but is
      not a regular file. */
  lemma ValidateFails(compiles: string -> bool, home: string, s: Store, toolPath: string)
    requires s.Exists(ToolDir(home, toolPath))
    ensures var dir := ToolDir(home, toolPath);
      Validate(compiles, home, s, toolPath).ValidationFailed? <==>
        (s.Exists(Child(dir, "server.py")) && !s.IsFile(Child(dir, "server.py")))
        || (s.Exists(Child(dir, "pyproject.toml")) && !s.IsFile(Child(dir, "pyproject.toml")))
  {
  }

  /** With every required file present as a regular file, validation
      reports and passes every file check. */
  lemma ValidateComplete(compiles: string -> bool, home: string, s: Store, toolPath: string)
    requires s.Exists(ToolDir(home, toolPath))
    requires forall f :: f in RequiredFiles ==> s.IsFile(Child(ToolDir(home, toolPath), f))
    ensures var v := Validate(compiles, home, s, toolPath);
      v.Report? && forall f :: f in RequiredFiles ==> FileExists(f) in v.checks && FileMissing(f) !in v.issues
  {
    var dir := ToolDir(home, toolPath);
    assert s.IsFile(Child(dir, "server.py")) && s.IsFile(Child(dir, "pyproject.toml")) by {
      assert "server.py" in RequiredFiles && "pyproject.toml" in RequiredFiles;
    }
    var v := Validate(compiles, home, s, toolPath);
    forall f | f in RequiredFiles
      ensures FileExists(f) in v.checks && FileMissing(f) !in v.issues
    {
      ValidateReport(compiles, home, s, toolPath, f);
    }
  }

  /** The path the generator reports names the directory it wrote. */
  lemma GeneratedToolDir(env: Jinja, home: string, s: Store, name: string, description: string, templateType: string, outputDir: string)
    requires Generate(env, home, s, name, description, templateType, outputDir).result.Generated?
    requires !StartsWith(Generate(env, home, s, name, description, templateType, outputDir).result.path, "~")
    ensures ToolDir(home, Generate(env, home, s, name, description, templateType, outputDir).result.path)
      == Destination(home, outputDir, name).value
  {
    var dest := Destination(home, outputDir, name).value;
    GenerateReports(env, home, s, name, description, templateType, outputDir);
    DestinationNormal(home, outputDir, name);
    ParsePathText(dest);
  }

  /** Validating what the generator just wrote finds every required file:
      the only issues left can come from the rendered contents. */
  lemma ValidateGenerated(env: Jinja, compiles: string -> bool, home: string, s: Store,
                          name: string, description: string, templateType: string, outputDir: string)
    requires Generate(env, home, s, name, description, templateType, outputDir).result.Generated?
    requires !StartsWith(Generate(env, home, s, name, description, templateType, outputDir).result.path, "~")
    ensures var e := Generate(env, home, s, name, description, templateType, outputDir);
      var v := Validate(compiles, home, e.store, e.result.path);
      v.Report?
      && (forall f :: f in RequiredFiles ==> FileExists(f) in v.checks && FileMissing(f) !in v.issues)
  {
    var e := Generate(env, home, s, name, description, templateType, outputDir);
    var dest := Destination(home, outputDir, name).value;
    GeneratedToolDir(env, home, s, name, description, templateType, outputDir);
    GenerateWritesManifest(env, home, s, name, description, templateType, outputDir);
    assert e.result.filesCreated == RequiredFiles;
    forall f | f in RequiredFiles
      ensures e.store.IsFile(Child(dest, f))
    {
      var k :| 0 <= k < |RequiredFiles| && RequiredFiles[k] == f;
    }
    ValidateComplete(compiles, home, e.store, e.result.path);
  }

  /** The destination is a normal path. */
  lemma DestinationNormal(home: string, outputDir: string, name: string)
    requires Destination(home, outputDir, name).Some?
    ensures IsNormal(Destination(home, outputDir, name).value)
  {
  }
}
