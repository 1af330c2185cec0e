/** `ToolGenerator.generate_tool`: create a tool project directory named
    after the sanitised tool name and write its four files, three of them
    rendered from templates. Template lookup and rendering are parameters. */
module Generator {
  import opened Wrappers
  import opened Strings
  import opened Names
  import opened Paths
  import opened Disk

  /** A value handed to a template. */
  datatype Value = Text(text: string) | Flag(flag: bool) | Items(items: seq<string>)

  type Context = map<string, Value>

  /** The template environment: the text `get_template(name)` finds
      (`None` where it raises `TemplateNotFound`) and `render`. */
  datatype Jinja = Jinja(source: string -> Option<string>, render: (string, Context) -> string)

  const PyprojectTemplate: string := "pyproject.toml.jinja"
  const ReadmeTemplate: string := "README.md.jinja"

  /** The template the server file is rendered from. */
  function ServerTemplate(templateType: string): string {
    templateType + ".py.jinja"
  }

  const HttpxRequirement: string := "httpx>=0.27.0"

  /** The dependencies added to `pyproject.toml` for a template type. */
  function ExtraDependencies(templateType: string): (r: seq<string>)
    ensures r == [HttpxRequirement] <==> templateType == "http_api" || templateType == "internal_api"
    ensures r == [] <==> templateType != "http_api" && templateType != "internal_api"
  {
    if templateType == "http_api" || templateType == "internal_api" then [HttpxRequirement] else []
  }

  /** Tools built from the internal API template get the internal notes in
      their README. */
  predicate IsInternal(templateType: string) {
    templateType == "internal_api"
  }

  /** An internal tool always depends on the HTTP client. */
  lemma InternalNeedsHttpx(templateType: string)
    requires IsInternal(templateType)
    ensures ExtraDependencies(templateType) == [HttpxRequirement]
  {
  }

  function ServerContext(name: string, description: string): Context {
    map["tool_name" := Text(name), "description" := Text(description), "class_name" := Text(ClassName(name))]
  }

  function PyprojectContext(name: string, description: string, templateType: string): Context {
    map[
      "tool_name" := Text(ScriptName(name)),
      "description" := Text(description),
      "script_name" := Text(ScriptName(name)),
      "extra_dependencies" := Items(ExtraDependencies(templateType))]
  }

  function ReadmeContext(name: string, description: string, templateType: string, path: Path): Context {
    map[
      "tool_name" := Text(name),
      "description" := Text(description),
      "script_name" := Text(ScriptName(name)),
      "path" := Text(PathText(path)),
      "is_internal" := Flag(IsInternal(templateType))]
  }

  /** The `.gitignore` text as written in the source, and what is kept of it
      once surrounding whitespace is stripped. The first and last characters
      stand apart so that the verifier sees them without unfolding the whole
      literal (see `GitignoreStripped`). */
  const GitignoreBody: string :=
    "_" + "_pycache__/\n*.py[cod]\n*$py.class\n.venv/\n.uv/\n*.egg-info/\ndist/\nbuild/\n.pytest_cache" + "/"
  const GitignoreSource: string := "\n" + GitignoreBody + "\n"

  /** `gitignore.strip()` removes exactly the blank lines around the patterns. */
  lemma GitignoreStripped()
    ensures Strip(GitignoreSource, IsSpace) == GitignoreBody
  {
    var b := GitignoreBody;
    assert b[0] == '_';
    assert b[|b| - 1] == '/';
    StripFramed(b, '\n', IsSpace);
  }

  /** The files the result reports, in the order they are written. */
  const FilesCreated: seq<string> := ["server.py", "pyproject.toml", "README.md", ".gitignore"]

  lemma FilesArePlain()
    ensures forall k :: 0 <= k < |FilesCreated| ==> IsPart(FilesCreated[k])
  {
    assert IsPart("server.py") && IsPart("pyproject.toml") && IsPart("README.md") && IsPart(".gitignore");
  }

  /** `path / name` for each reported file is the file one level down. */
  lemma FilesAreChildren(p: Path)
    ensures forall k :: 0 <= k < |FilesCreated| ==> Div(p, FilesCreated[k]) == Child(p, FilesCreated[k])
  {
    FilesArePlain();
    forall k | 0 <= k < |FilesCreated|
      ensures Div(p, FilesCreated[k]) == Child(p, FilesCreated[k])
    {
      DivPart(p, FilesCreated[k]);
    }
  }

  function NextSteps(path: string): seq<string> {
    ["cd " + path, "uv sync", "uv run python server.py", "# Add to Cursor's MCP config"]
  }

  function InstallCommand(path: string, scriptName: string): string {
    "uvx --from " + path + " " + scriptName
  }

  datatype GenerateError = NoHomeDirectory | TemplateNotFound(template: string)

  datatype GenerateResult =
    | Generated(path: string, filesCreated: seq<string>, nextSteps: seq<string>, installCommand: string)
    | GenerateFailed(error: GenerateError)

  /** `Path(output_dir).expanduser() / _sanitize_name(tool_name)`; `None`
      where the home directory cannot be determined. */
  function Destination(home: string, outputDir: string, name: string): Option<Path> {
    match ExpandUserPath(home, ParsePath(outputDir))
    case None => None
    case Some(base) => Some(Div(base, Sanitize(name)))
  }

  /** Render one template into `target`; `None` where the template is missing. */
  function WriteRendered(env: Jinja, s: Store, target: Path, template: string, ctx: Context): (r: Option<Store>)
    ensures r.Some? <==> env.source(template).Some?
    ensures r.Some? ==> r.value.Read(target) == Some(env.render(env.source(template).value, ctx))
    ensures r.Some? ==> r.value.dirs == s.dirs && r.value.cwd == s.cwd
    ensures r.Some? ==> forall q :: s.Abs(q) != s.Abs(target) ==> r.value.Read(q) == s.Read(q)
  {
    match env.source(template)
    case None => None
    case Some(text) => Some(s.Write(target, env.render(text, ctx)))
  }

  /** The project files from the server file on, into an existing directory. */
  function WriteFiles(env: Jinja, s: Store, dest: Path, name: string, description: string, templateType: string)
    : (r: Effect<Option<GenerateError>>)
    ensures r.result.Some? ==> r.result.value.TemplateNotFound?
    ensures r.store.dirs == s.dirs && r.store.cwd == s.cwd
  {
    match WriteRendered(env, s, Child(dest, "server.py"), ServerTemplate(templateType), ServerContext(name, description))
    case None => Effect(s, Some(TemplateNotFound(ServerTemplate(templateType))))
    case Some(s1) =>
      match WriteRendered(env, s1, Child(dest, "pyproject.toml"), PyprojectTemplate, PyprojectContext(name, description, templateType))
      case None => Effect(s1, Some(TemplateNotFound(PyprojectTemplate)))
      case Some(s2) =>
        match WriteRendered(env, s2, Child(dest, "README.md"), ReadmeTemplate, ReadmeContext(name, description, templateType, dest))
        case None => Effect(s2, Some(TemplateNotFound(ReadmeTemplate)))
        case Some(s3) => Effect(s3.Write(Child(dest, ".gitignore"), Strip(GitignoreSource, IsSpace)), None)
  }

  /** The whole call; an exception leaves whatever was written before it. */
  function Generate(env: Jinja, home: string, s: Store, name: string, description: string, templateType: string, outputDir: string)
    : Effect<GenerateResult>
  {
    match Destination(home, outputDir, name)
    case None => Effect(s, GenerateFailed(NoHomeDirectory))
    case Some(dest) =>
      var e := WriteFiles(env, s.MakeDirs(dest), dest, name, description, templateType);
      match e.result
      case Some(error) => Effect(e.store, GenerateFailed(error))
      case None =>
        var path := PathText(dest);
        Effect(e.store, Generated(path, FilesCreated, NextSteps(path), InstallCommand(path, ScriptName(name))))
  }

  class ToolGenerator {
    const env: Jinja

    constructor (env: Jinja)
      ensures this.env == env
    {
      this.env := env;
    }

    method GenerateTool(fs: FileSystem, home: string, toolName: string, description: string, templateType: string, outputDir: string)
      returns (r: GenerateResult)
      modifies fs
      ensures Effect(fs.State(), r) == Generate(env, home, old(fs.State()), toolName, description, templateType, outputDir)
    {
      var dest := Destination(home, outputDir, toolName);
      if dest.None? {
        return GenerateFailed(NoHomeDirectory);
      }
      var path := dest.value;
      fs.MakeDirs(path);
      ghost var made := fs.State();
      var ok := GenerateServer(fs, path, toolName, description, templateType);
      if !ok {
        return GenerateFailed(TemplateNotFound(ServerTemplate(templateType)));
      }
      ok := GeneratePyproject(fs, path, toolName, description, templateType);
      if !ok {
        return GenerateFailed(TemplateNotFound(PyprojectTemplate));
      }
      ok := GenerateReadme(fs, path, toolName, description, templateType);
      if !ok {
        return GenerateFailed(TemplateNotFound(ReadmeTemplate));
      }
      GenerateGitignore(fs, path);
      assert Effect(fs.State(), None) == WriteFiles(env, made, path, toolName, description, templateType);
      var scriptName := ScriptName(toolName);
      var text := PathText(path);
      r := Generated(text, FilesCreated, NextSteps(text), InstallCommand(text, scriptName));
    }

    method GenerateServer(fs: FileSystem, path: Path, name: string, description: string, templateType: string)
      returns (ok: bool)
      modifies fs
      ensures ok <==> env.source(ServerTemplate(templateType)).Some?
      ensures fs.State() == if ok then WriteRendered(env, old(fs.State()), Child(path, "server.py"),
        ServerTemplate(templateType), ServerContext(name, description)).value else old(fs.State())
    {
      var template := env.source(ServerTemplate(templateType));
      if template.None? {
        return false;
      }
      var content := env.render(template.value, ServerContext(name, description));
      fs.WriteText(Child(path, "server.py"), content);
      return true;
    }

    method GeneratePyproject(fs: FileSystem, path: Path, name: string, description: string, templateType: string)
      returns (ok: bool)
      modifies fs
      ensures ok <==> env.source(PyprojectTemplate).Some?
      ensures fs.State() == if ok then WriteRendered(env, old(fs.State()), Child(path, "pyproject.toml"),
        PyprojectTemplate, PyprojectContext(name, description, templateType)).value else old(fs.State())
    {
      var template := env.source(PyprojectTemplate);
      if template.None? {
        return false;
      }
      var extraDeps: seq<string> := [];
      if templateType == "http_api" || templateType == "internal_api" {
        extraDeps := extraDeps + [HttpxRequirement];
      }
      assert extraDeps == ExtraDependencies(templateType);
      var ctx := map[
        "tool_name" := Text(ScriptName(name)),
        "description" := Text(description),
        "script_name" := Text(ScriptName(name)),
        "extra_dependencies" := Items(extraDeps)];
      assert ctx == PyprojectContext(name, description, templateType);
      fs.WriteText(Child(path, "pyproject.toml"), env.render(template.value, ctx));
      return true;
    }

    method GenerateReadme(fs: FileSystem, path: Path, name: string, description: string, templateType: string)
      returns (ok: bool)
      modifies fs
      ensures ok <==> env.source(ReadmeTemplate).Some?
      ensures fs.State() == if ok then WriteRendered(env, old(fs.State()), Child(path, "README.md"),
        ReadmeTemplate, ReadmeContext(name, description, templateType, path)).value else old(fs.State())
    {
      var template := env.source(ReadmeTemplate);
      if template.None? {
        return false;
      }
      var isInternal := templateType == "internal_api";
      var ctx := map[
        "tool_name" := Text(name),
        "description" := Text(description),
        "script_name" := Text(ScriptName(name)),
        "path" := Text(PathText(path)),
        "is_internal" := Flag(isInternal)];
      fs.WriteText(Child(path, "README.md"), env.render(template.value, ctx));
      return true;
    }

    method GenerateGitignore(fs: FileSystem, path: Path)
      modifies fs
      ensures fs.State() == old(fs.State()).Write(Child(path, ".gitignore"), Strip(GitignoreSource, IsSpace))
    {
      fs.WriteText(Child(path, ".gitignore"), Strip(GitignoreSource, IsSpace));
    }
  }

  // Properties of the generation plan.

  /** A non-empty sanitised name is a single path part. */
  lemma SlugIsPart(slug: string)
    requires IsSlug(slug) && slug != []
    ensures IsPart(slug)
  {
    assert slug != "." by {
      assert IsSlugChar(slug[0]);
    }
    forall i | 0 <= i < |slug|
      ensures slug[i] != '/'
    {
      assert IsSlugChar(slug[i]);
    }
  }

  /** The destination is the sanitised name one level under the expanded
      output directory (the directory itself when the name sanitises to
      nothing), and it exists once `mkdir` has run. */
  lemma DestinationShape(home: string, outputDir: string, name: string)
    ensures Destination(home, outputDir, name).Some? <==> ExpandUserPath(home, ParsePath(outputDir)).Some?
    ensures Destination(home, outputDir, name).Some? ==>
      var base := ExpandUserPath(home, ParsePath(outputDir)).value;
      Destination(home, outputDir, name).value == (if Sanitize(name) == "" then base else Child(base, Sanitize(name)))
  {
    var slug := Sanitize(name);
    SanitizeIsSlug(name);
    match ExpandUserPath(home, ParsePath(outputDir))
    case None =>
    case Some(base) =>
      if slug == "" {
        DivEmpty(base);
      } else {
        SlugIsPart(slug);
        DivPart(base, slug);
      }
  }

  /** Generation fails before touching anything exactly when the home
      directory is needed and cannot be determined. */
  lemma GenerateNoHome(env: Jinja, home: string, s: Store, name: string, description: string, templateType: string, outputDir: string)
    ensures Generate(env, home, s, name, description, templateType, outputDir).result == GenerateFailed(NoHomeDirectory)
      <==> ExpandUserPath(home, ParsePath(outputDir)).None?
    ensures ExpandUserPath(home, ParsePath(outputDir)).None? ==>
      Generate(env, home, s, name, description, templateType, outputDir).store == s
  {
  }

  /** A missing server template stops generation after the directory is
      made and before any file is written. */
  lemma GenerateServerTemplateMissing(env: Jinja, home: string, s: Store, name: string, description: string, templateType: string, outputDir: string)
    requires Destination(home, outputDir, name).Some?
    requires env.source(ServerTemplate(templateType)).None?
    ensures var e := Generate(env, home, s, name, description, templateType, outputDir);
      e.result == GenerateFailed(TemplateNotFound(ServerTemplate(templateType)))
      && e.store == s.MakeDirs(Destination(home, outputDir, name).value)
  {
  }

  /** Generation succeeds exactly when the destination can be determined
      and all three templates exist. */
  lemma GenerateSucceeds(env: Jinja, home: string, s: Store, name: string, description: string, templateType: string, outputDir: string)
    ensures Generate(env, home, s, name, description, templateType, outputDir).result.Generated? <==>
      Destination(home, outputDir, name).Some?
      && env.source(ServerTemplate(templateType)).Some?
      && env.source(PyprojectTemplate).Some?
      && env.source(ReadmeTemplate).Some?
  {
  }

  /** What the result reports: the destination, the four files, the steps
      starting in the destination, and an install command naming the same
      script the project declares. */
  lemma GenerateReports(env: Jinja, home: string, s: Store, name: string, description: string, templateType: string, outputDir: string)
    requires Generate(env, home, s, name, description, templateType, outputDir).result.Generated?
    ensures var r := Generate(env, home, s, name, description, templateType, outputDir).result;
      var dest := Destination(home, outputDir, name).value;
      r.path == PathText(dest)
      && r.filesCreated == ["server.py", "pyproject.toml", "README.md", ".gitignore"]
      && r.nextSteps[0] == "cd " + r.path && |r.nextSteps| == 4
      && PyprojectContext(name, description, templateType)["script_name"] == Text(Sanitize(name))
      && r.installCommand == "uvx --from " + r.path + " " + Sanitize(name)
      && IsSlug(Sanitize(name))
  {
    SanitizeIsSlug(name);
  }

  /** A file's printed path ends with its name. */
  lemma ChildTextEndsWith(base: Path, x: string)
    ensures EndsWith(PathText(Child(base, x)), x)
  {
    JoinWithSnoc(base.parts, x, "/");
    var j := JoinWith(base.parts + [x], "/");
    assert EndsWith(j, x);
    if base.absolute {
      assert ("/" + j)[|"/" + j| - |x|..] == j[|j| - |x|..];
    }
  }

  /** The reported path ends with the sanitised name. */
  lemma GeneratePathEndsWithSlug(env: Jinja, home: string, s: Store, name: string, description: string, templateType: string, outputDir: string)
    requires Generate(env, home, s, name, description, templateType, outputDir).result.Generated?
    ensures EndsWith(Generate(env, home, s, name, description, templateType, outputDir).result.path, Sanitize(name))
    ensures Contains(Generate(env, home, s, name, description, templateType, outputDir).result.path, Sanitize(name))
  {
    var path := Generate(env, home, s, name, description, templateType, outputDir).result.path;
    if Sanitize(name) == "" {
      assert path[|path|..] == [];
    } else {
      GenerateReports(env, home, s, name, description, templateType, outputDir);
      DestinationShape(home, outputDir, name);
      ChildTextEndsWith(ExpandUserPath(home, ParsePath(outputDir)).value, Sanitize(name));
    }
    EndsWithContains(path, Sanitize(name));
  }

  /** What `WriteFiles` leaves in the four files. */
  lemma WriteFilesContents(env: Jinja, s: Store, dest: Path, name: string, description: string, templateType: string)
    requires WriteFiles(env, s, dest, name, description, templateType).result.None?
    ensures var t := WriteFiles(env, s, dest, name, description, templateType).store;
      t.Read(Child(dest, "server.py")) == Some(env.render(env.source(ServerTemplate(templateType)).value, ServerContext(name, description)))
      && t.Read(Child(dest, "pyproject.toml")) == Some(env.render(env.source(PyprojectTemplate).value, PyprojectContext(name, description, templateType)))
      && t.Read(Child(dest, "README.md")) == Some(env.render(env.source(ReadmeTemplate).value, ReadmeContext(name, description, templateType, dest)))
      && t.Read(Child(dest, ".gitignore")) == Some(GitignoreBody)
  {
    GitignoreStripped();
    var a, b, c, d := Child(dest, "server.py"), Child(dest, "pyproject.toml"), Child(dest, "README.md"), Child(dest, ".gitignore");
    var x := env.render(env.source(ServerTemplate(templateType)).value, ServerContext(name, description));
    var y := env.render(env.source(PyprojectTemplate).value, PyprojectContext(name, description, templateType));
    var z := env.render(env.source(ReadmeTemplate).value, ReadmeContext(name, description, templateType, dest));
    ChildrenDistinct(s.cwd, dest, "server.py", "pyproject.toml");
    ChildrenDistinct(s.cwd, dest, "server.py", "README.md");
    ChildrenDistinct(s.cwd, dest, "server.py", ".gitignore");
    ChildrenDistinct(s.cwd, dest, "pyproject.toml", "README.md");
    ChildrenDistinct(s.cwd, dest, "pyproject.toml", ".gitignore");
    ChildrenDistinct(s.cwd, dest, "README.md", ".gitignore");
    FourWrites(s, a, b, c, d, x, y, z, GitignoreBody);
  }

  /** Four writes to four different files leave each holding its text. */
  lemma FourWrites(s: Store, a: Path, b: Path, c: Path, d: Path, x: string, y: string, z: string, w: string)
    requires s.Abs(a) != s.Abs(b) && s.Abs(a) != s.Abs(c) && s.Abs(a) != s.Abs(d)
    requires s.Abs(b) != s.Abs(c) && s.Abs(b) != s.Abs(d) && s.Abs(c) != s.Abs(d)
    ensures var t := s.Write(a, x).Write(b, y).Write(c, z).Write(d, w);
      t.Read(a) == Some(x) && t.Read(b) == Some(y) && t.Read(c) == Some(z) && t.Read(d) == Some(w)
  {
  }

  /** After a successful call the reported directory exists, and each
      reported file is a regular file in it holding its rendered template
      (the `.gitignore` its stripped patterns). */
  lemma GenerateWritesManifest(env: Jinja, home: string, s: Store, name: string, description: string, templateType: string, outputDir: string)
    requires Generate(env, home, s, name, description, templateType, outputDir).result.Generated?
    ensures var e := Generate(env, home, s, name, description, templateType, outputDir);
      var dest := Destination(home, outputDir, name).value;
      e.store.Exists(dest)
      && (forall k :: 0 <= k < |e.result.filesCreated| ==> e.store.IsFile(Child(dest, e.result.filesCreated[k])))
      && e.store.Read(Child(dest, "server.py")) == Some(env.render(env.source(ServerTemplate(templateType)).value, ServerContext(name, description)))
      && e.store.Read(Child(dest, "pyproject.toml")) == Some(env.render(env.source(PyprojectTemplate).value, PyprojectContext(name, description, templateType)))
      && e.store.Read(Child(dest, "README.md")) == Some(env.render(env.source(ReadmeTemplate).value, ReadmeContext(name, description, templateType, dest)))
      && e.store.Read(Child(dest, ".gitignore")) == Some(GitignoreBody)
  {
    var dest := Destination(home, outputDir, name).value;
    var s0 := s.MakeDirs(dest);
    var e := WriteFiles(env, s0, dest, name, description, templateType);
    WriteFilesContents(env, s0, dest, name, description, templateType);
    assert e.store.Exists(dest) by {
      assert s0.Exists(dest);
    }
    forall k | 0 <= k < |FilesCreated|
      ensures e.store.IsFile(Child(dest, FilesCreated[k]))
    {
      assert k == 0 || k == 1 || k == 2 || k == 3;
    }
  }

  /** Writing the files touches nothing but the four files. */
  lemma WriteFilesFrame(env: Jinja, s: Store, dest: Path, name: string, description: string, templateType: string, q: Path)
    requires forall k :: 0 <= k < |FilesCreated| ==> s.Abs(q) != s.Abs(Child(dest, FilesCreated[k]))
    ensures WriteFiles(env, s, dest, name, description, templateType).store.Read(q) == s.Read(q)
    ensures WriteFiles(env, s, dest, name, description, templateType).store.dirs == s.dirs
  {
    assert s.Abs(q) != s.Abs(Child(dest, "server.py")) by { assert FilesCreated[0] == "server.py"; }
    assert s.Abs(q) != s.Abs(Child(dest, "pyproject.toml")) by { assert FilesCreated[1] == "pyproject.toml"; }
    assert s.Abs(q) != s.Abs(Child(dest, "README.md")) by { assert FilesCreated[2] == "README.md"; }
    assert s.Abs(q) != s.Abs(Child(dest, ".gitignore")) by { assert FilesCreated[3] == ".gitignore"; }
  }

  /** Generation, successful or not, changes no file outside the four it
      writes in the destination, and only adds directories. */
  lemma GenerateFrame(env: Jinja, home: string, s: Store, name: string, description: string, templateType: string, outputDir: string, q: Path)
    requires Destination(home, outputDir, name).Some? ==>
      forall k :: 0 <= k < |FilesCreated| ==> s.Abs(q) != s.Abs(Child(Destination(home, outputDir, name).value, FilesCreated[k]))
    ensures Generate(env, home, s, name, description, templateType, outputDir).store.Read(q) == s.Read(q)
    ensures s.dirs <= Generate(env, home, s, name, description, templateType, outputDir).store.dirs
  {
    if Destination(home, outputDir, name).Some? {
      var dest := Destination(home, outputDir, name).value;
      WriteFilesFrame(env, s.MakeDirs(dest), dest, name, description, templateType, q);
    }
  }
}
