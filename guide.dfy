/** `_get_mcp_tool_guide_impl`: the guide the server hands the editor for
    writing a tool itself. It writes nothing; what is modelled is where the
    tool goes, which config file it is registered in, which files the guide
    lists and which reference texts it carries. Reading a template resource
    and rendering it are parameters. */
module ToolGuide {
  import opened Wrappers
  import opened Strings
  import opened Paths
  import opened Generator

  /** Where the tool lives, where it is registered and the path the
      registration names. */
  datatype Placement = Placement(toolDir: string, configPath: string, toolPathInConfig: string)

  /** `os.path.expanduser(output_path)` when the path starts with `~`. */
  function ExpandedOutput(home: string, outputPath: string): (r: string)
    ensures !StartsWith(outputPath, "~") ==> r == outputPath
  {
    if StartsWith(outputPath, "~") then ExpandUser(home, outputPath) else outputPath
  }

  const ProjectConfigPath: string := ".cursor/mcp.json"

  /** A project tool lives at the output path itself and is registered in
      the project's config under the path as given; a global tool lives in
      a directory named after it and is registered in the user's config
      under that directory. The project branch's test on the tool name
      picks the same directory either way. */
  function Place(home: string, toolName: string, outputPath: string, isProjectTool: bool): Placement {
    var expanded := ExpandedOutput(home, outputPath);
    if isProjectTool then
      Placement(if !EndsWith(expanded, toolName) then expanded else expanded, ProjectConfigPath, outputPath)
    else
      var toolDir := OsJoin(expanded, toolName);
      Placement(toolDir, OsJoin(OsJoin(ExpandUser(home, "~"), ".cursor"), "mcp.json"), toolDir)
  }

  /** The extra entry a project tool's guide lists. */
  const ProjectConfigEntry: string := "../.cursor/mcp.json"

  /** The paths of `files_to_create`. */
  function FilesToCreate(isProjectTool: bool): seq<string> {
    FilesCreated + (if isProjectTool then [ProjectConfigEntry] else [])
  }

  /** The `.gitignore` text the guide suggests. */
  const GuideGitignore: string :=
    "__pycache__/\n*.py[cod]\n*$py.class\n*.so\n.Python\n.venv/\nvenv/\nENV/\n.pytest_cache/\n.coverage\nhtmlcov/\n"
    + "dist/\nbuild/\n*.egg-info/\n.DS_Store\nuv.lock\n"

  const ConfigHead: string := "{\n  \"mcpServers\": {\n    \""
  const ConfigCommand: string := "\": {\n      \"command\": \"uvx\",\n      \"args\": [\"--from\", \""
  const ConfigSep: string := "\", \""
  const ConfigTail: string := "\"]\n    }\n  }\n}"

  /** The `mcp.json` text for a project tool. */
  function McpConfigText(toolName: string, toolPath: string): string {
    ConfigHead + toolName + ConfigCommand + toolPath + ConfigSep + toolName + ConfigTail
  }

  /** The two template variables. */
  function GuideContext(toolName: string, requirements: string): Context {
    map["tool_name" := Text(toolName), "description" := Text(requirements)]
  }

  /** The names of the patterns `_get_patterns_for_type` returns; an
      unknown type gets none. */
  function PatternNames(toolType: string): seq<string> {
    if toolType == "http_api" then ["fastmcp_setup", "async_http", "error_handling", "environment_config", "tool_decorator"]
    else if toolType == "basic_function" then ["fastmcp_setup", "simple_functions", "docstrings"]
    else if toolType == "file_operations" then ["fastmcp_setup", "path_handling", "file_safety"]
    else []
  }

  datatype Guide =
    | Guide(toolName: string, toolType: string, requirements: string, place: Placement,
            filesToCreate: seq<string>, reference: map<string, string>, patterns: seq<string>)
    | GuideFailed(missing: string)

  /** The reference texts keyed by the file they are for. */
  function Reference(server: string, pyproject: string, readme: string, mcpConfig: string, isProjectTool: bool)
    : map<string, string>
  {
    var files := map["server.py" := server, "pyproject.toml" := pyproject, "README.md" := readme, ".gitignore" := GuideGitignore];
    if isProjectTool then files[ProjectConfigPath := mcpConfig] else files
  }

  /** The whole call; `GuideFailed` names the first template resource that
      cannot be read. */
  function GuideFor(res: Jinja, home: string, toolType: string, requirements: string, toolName: string,
                    outputPath: string, isProjectTool: bool): Guide
  {
    var place := Place(home, toolName, outputPath, isProjectTool);
    var serverName := ServerTemplate(toolType);
    match res.source(serverName)
    case None => GuideFailed(serverName)
    case Some(serverText) =>
      match res.source(PyprojectTemplate)
      case None => GuideFailed(PyprojectTemplate)
      case Some(pyprojectText) =>
        match res.source(ReadmeTemplate)
        case None => GuideFailed(ReadmeTemplate)
        case Some(readmeText) =>
          var ctx := GuideContext(toolName, requirements);
          Guide(toolName, toolType, requirements, place, FilesToCreate(isProjectTool),
            Reference(res.render(serverText, ctx), res.render(pyprojectText, ctx), res.render(readmeText, ctx),
              McpConfigText(toolName, place.toolPathInConfig), isProjectTool),
            PatternNames(toolType))
  }

  // Properties of the guide.

  /** A project tool's placement: the (expanded) output path is the tool
      directory, the config is the project's, and the config names the
      output path exactly as the caller gave it. */
  lemma PlaceProject(home: string, toolName: string, outputPath: string)
    ensures var p := Place(home, toolName, outputPath, true);
      p.toolDir == ExpandedOutput(home, outputPath)
      && p.configPath == ".cursor/mcp.json"
      && p.toolPathInConfig == outputPath
  {
  }

  /** A global tool's placement: the tool directory is named after the tool
      inside the output path, the config is `.cursor/mcp.json` under the
      home directory, and the config names the tool directory. An absolute
      tool name is the tool directory itself, as `os.path.join` makes it. */
  lemma PlaceGlobal(home: string, toolName: string, outputPath: string)
    ensures var p := Place(home, toolName, outputPath, false);
      EndsWith(p.toolDir, toolName)
      && (!StartsWith(toolName, "/") ==> StartsWith(p.toolDir, ExpandedOutput(home, outputPath)))
      && EndsWith(p.configPath, "mcp.json") && StartsWith(p.configPath, ExpandUser(home, "~"))
      && p.toolPathInConfig == p.toolDir
  {
    var inner := OsJoin(ExpandUser(home, "~"), ".cursor");
    assert !StartsWith(".cursor", "/");
    assert !StartsWith("mcp.json", "/");
    var r := OsJoin(inner, "mcp.json");
    assert StartsWith(r, inner);
    assert r[..|inner|] == inner;
    assert |ExpandUser(home, "~")| <= |inner|;
    assert inner[..|ExpandUser(home, "~")|] == ExpandUser(home, "~");
    assert r[..|ExpandUser(home, "~")|] == inner[..|ExpandUser(home, "~")|];
  }

  /** The guide is produced exactly when the three templates can be read. */
  lemma GuideFails(res: Jinja, home: string, toolType: string, requirements: string, toolName: string,
                   outputPath: string, isProjectTool: bool)
    ensures GuideFor(res, home, toolType, requirements, toolName, outputPath, isProjectTool).GuideFailed? <==>
      res.source(ServerTemplate(toolType)).None? || res.source(PyprojectTemplate).None? || res.source(ReadmeTemplate).None?
  {
  }

  /** The first four files to create are the generator's four, and a
      project guide adds the project config entry. */
  lemma FilesToCreateShape(isProjectTool: bool)
    ensures FilesToCreate(isProjectTool)[..4] == FilesCreated
    ensures |FilesToCreate(isProjectTool)| == if isProjectTool then 5 else 4
    ensures isProjectTool ==> FilesToCreate(isProjectTool)[4] == "../.cursor/mcp.json"
  {
  }

  /** There is a reference text for each of the generator's files, and one
      for the project config exactly when the tool is a project tool. */
  lemma ReferenceKeys(server: string, pyproject: string, readme: string, mcpConfig: string, isProjectTool: bool)
    ensures var r := Reference(server, pyproject, readme, mcpConfig, isProjectTool);
      (forall k :: 0 <= k < |FilesCreated| ==> FilesCreated[k] in r)
      && (ProjectConfigPath in r <==> isProjectTool)
      && |r| == if isProjectTool then 5 else 4
  {
    var files := map["server.py" := server, "pyproject.toml" := pyproject, "README.md" := readme, ".gitignore" := GuideGitignore];
    assert files.Keys == {"server.py", "pyproject.toml", "README.md", ".gitignore"};
    assert |files.Keys| == 4;
    assert ProjectConfigPath !in files;
  }

  /** Text assembled around two values mentions both. */
  lemma FramedMentions(h: string, n: string, c: string, p: string, sep: string, n2: string, t: string)
    ensures Contains(h + n + c + p + sep + n2 + t, n)
    ensures Contains(h + n + c + p + sep + n2 + t, p)
  {
    var rest := c + p + sep + n2 + t;
    assert h + n + c + p + sep + n2 + t == h + n + rest;
    ContainsMiddle(h, n, rest);
    assert h + n + c + p + sep + n2 + t == (h + n + c) + p + (sep + n2 + t);
    ContainsMiddle(h + n + c, p, sep + n2 + t);
  }

  /** The project config text names the tool and the path it registers. */
  lemma McpConfigNames(toolName: string, toolPath: string)
    ensures Contains(McpConfigText(toolName, toolPath), toolName)
    ensures Contains(McpConfigText(toolName, toolPath), toolPath)
  {
    FramedMentions(ConfigHead, toolName, ConfigCommand, toolPath, ConfigSep, toolName, ConfigTail);
  }

  /** A successful project guide lists five files and carries a config
      text naming the output path as given; a global one lists the four
      files and no config text. */
  lemma GuideModes(res: Jinja, home: string, toolType: string, requirements: string, toolName: string,
                   outputPath: string, isProjectTool: bool)
    requires GuideFor(res, home, toolType, requirements, toolName, outputPath, isProjectTool).Guide?
    ensures var g := GuideFor(res, home, toolType, requirements, toolName, outputPath, isProjectTool);
      g.place == Place(home, toolName, outputPath, isProjectTool)
      && g.filesToCreate == FilesToCreate(isProjectTool)
      && (isProjectTool <==> ProjectConfigPath in g.reference)
      && (isProjectTool ==> Contains(g.reference[ProjectConfigPath], outputPath))
      && g.reference[".gitignore"] == GuideGitignore
      && g.patterns == PatternNames(g.toolType)
  {
    var g := GuideFor(res, home, toolType, requirements, toolName, outputPath, isProjectTool);
    var ctx := GuideContext(toolName, requirements);
    var place := Place(home, toolName, outputPath, isProjectTool);
    var mcp := McpConfigText(toolName, place.toolPathInConfig);
    ReferenceKeys(res.render(res.source(ServerTemplate(toolType)).value, ctx),
      res.render(res.source(PyprojectTemplate).value, ctx), res.render(res.source(ReadmeTemplate).value, ctx), mcp, isProjectTool);
    if isProjectTool {
      PlaceProject(home, toolName, outputPath);
      McpConfigNames(toolName, outputPath);
    }
  }

  /** Every known tool type comes with the FastMCP setup pattern; an
      unknown type with no patterns. */
  lemma PatternsKnown(toolType: string)
    ensures PatternNames(toolType) != [] <==> toolType in {"http_api", "basic_function", "file_operations"}
    ensures PatternNames(toolType) != [] ==> PatternNames(toolType)[0] == "fastmcp_setup"
  {
  }
}
