/** `_add_tool_to_cursor_config_impl`: register a tool in the user's
    `~/.cursor/mcp.json` under `mcpServers`, as `uvx --from <path> <name>`. */
module CursorConfig {
  import opened Wrappers
  import opened Strings
  import opened Paths
  import opened Disk
  import opened Documents

  /** `Path.home() / ".cursor" / "mcp.json"`; `None` where `Path.home()` raises. */
  function ConfigPath(home: string): Option<Path> {
    match HomePath(home)
    case None => None
    case Some(h) => Some(Child(Child(h, ".cursor"), "mcp.json"))
  }

  /** The server entry: run the tool with `uvx --from <path> <name>`. */
  function ServerEntry(toolName: string, path: string): Json {
    Object(map["command" := Str("uvx"), "args" := Array([Str("--from"), Str(path), Str(toolName)])])
  }

  /** A config file that does not exist yet starts as this. */
  const EmptyConfig: Json := Object(map["mcpServers" := Object(map[])])

  /** Add or replace one server: `mcpServers` is created when missing; `None`
      where Python raises (the config or its `mcpServers` is not an object). */
  function WithServer(config: Json, toolName: string, entry: Json): Option<Json> {
    if !config.Object? then None
    else
      var servers := if "mcpServers" in config.fields then config.fields["mcpServers"] else Object(map[]);
      if !servers.Object? then None
      else Some(Object(config.fields["mcpServers" := Object(servers.fields[toolName := entry])]))
  }

  datatype ConfigResult =
    | ConfigUpdated(configPath: string, toolConfig: Json)
    | ConfigFailed(manual: Json)

  /** The snippet shown for adding the tool by hand; it carries the path as
      given, not expanded. */
  function ManualInstructions(toolName: string, toolPath: string): Json {
    Object(map[
      "file" := Str("~/.cursor/mcp.json"),
      "add" := Object(map["mcpServers" := Object(map[toolName := ServerEntry(toolName, toolPath)])])])
  }

  /** Reading and parsing an existing config; `None` where that raises. */
  function LoadConfig(codec: JsonCodec, s: Store, p: Path): Option<Json> {
    match s.Read(p)
    case None => None
    case Some(text) => codec.load(text)
  }

  /** The whole call `_add_tool_to_cursor_config_impl(tool_name, tool_path)`. */
  function AddTool(codec: JsonCodec, home: string, s: Store, toolName: string, toolPath: string): Effect<ConfigResult> {
    match ConfigPath(home)
    case None => Effect(s, ConfigFailed(ManualInstructions(toolName, toolPath)))
    case Some(cp) =>
      var entry := ServerEntry(toolName, ExpandUser(home, toolPath));
      var s1 := if s.Exists(cp) then s else s.MakeDirs(Parent(cp));
      var loaded := if s.Exists(cp) then LoadConfig(codec, s, cp) else Some(EmptyConfig);
      match loaded
      case None => Effect(s1, ConfigFailed(ManualInstructions(toolName, toolPath)))
      case Some(config) =>
        match WithServer(config, toolName, entry)
        case None => Effect(s1, ConfigFailed(ManualInstructions(toolName, toolPath)))
        case Some(updated) => Effect(s1.Write(cp, codec.dump(updated)), ConfigUpdated(PathText(cp), entry))
  }

  method AddToolToCursorConfig(fs: FileSystem, codec: JsonCodec, home: string, toolName: string, toolPath: string)
    returns (r: ConfigResult)
    modifies fs
    ensures Effect(fs.State(), r) == AddTool(codec, home, old(fs.State()), toolName, toolPath)
  {
    var manual := ManualInstructions(toolName, toolPath);
    var cp := ConfigPath(home);
    if cp.None? {
      return ConfigFailed(manual);
    }
    var expanded := ExpandUser(home, toolPath);
    var config: Json;
    if fs.Exists(cp.value) {
      var text := fs.ReadText(cp.value);
      if text.None? {
        return ConfigFailed(manual);
      }
      var loaded := codec.load(text.value);
      if loaded.None? {
        return ConfigFailed(manual);
      }
      config := loaded.value;
    } else {
      fs.MakeDirs(Parent(cp.value));
      config := EmptyConfig;
    }
    var updated := WithServer(config, toolName, ServerEntry(toolName, expanded));
    if updated.None? {
      return ConfigFailed(manual);
    }
    fs.WriteText(cp.value, codec.dump(updated.value));
    r := ConfigUpdated(PathText(cp.value), ServerEntry(toolName, expanded));
  }

  // Properties of the config update.

  /** The config file is `.cursor/mcp.json` under the home directory, the
      path `Path.home() / ".cursor" / "mcp.json"` names. */
  lemma ConfigPathShape(home: string)
    ensures ConfigPath(home) == match HomePath(home)
      case None => None
      case Some(h) => Some(Div(Div(h, ".cursor"), "mcp.json"))
  {
    match HomePath(home)
    case None =>
    case Some(h) =>
      ConfigPathIsDiv(h);
  }

  lemma ConfigPathIsDiv(h: Path)
    ensures Div(Div(h, ".cursor"), "mcp.json") == Child(Child(h, ".cursor"), "mcp.json")
    ensures Child(Child(h, ".cursor"), "mcp.json") == Path(h.absolute, h.parts + [".cursor", "mcp.json"])
  {
    ConfigNamesArePart();
    DivParts(h, ".cursor", "mcp.json");
  }

  lemma ConfigNamesArePart()
    ensures IsPart(".cursor") && IsPart("mcp.json")
  {
  }

  /** The upsert sets the tool's entry, creates `mcpServers` when missing and
      keeps every other server and every other top-level key. */
  lemma WithServerSets(config: Json, toolName: string, entry: Json)
    requires config.Object?
    requires "mcpServers" !in config.fields || config.fields["mcpServers"].Object?
    ensures WithServer(config, toolName, entry).Some?
    ensures var u := WithServer(config, toolName, entry).value;
      u.Object? && "mcpServers" in u.fields && u.fields["mcpServers"].Object?
      && toolName in u.fields["mcpServers"].fields
      && u.fields["mcpServers"].fields[toolName] == entry
      && (forall k :: k in config.fields && k != "mcpServers" ==> k in u.fields && u.fields[k] == config.fields[k])
      && u.fields.Keys == config.fields.Keys + {"mcpServers"}
      && (forall n :: n != toolName && "mcpServers" in config.fields && n in config.fields["mcpServers"].fields ==>
            n in u.fields["mcpServers"].fields && u.fields["mcpServers"].fields[n] == config.fields["mcpServers"].fields[n])
      && u.fields["mcpServers"].fields.Keys
           == (if "mcpServers" in config.fields then config.fields["mcpServers"].fields.Keys else {}) + {toolName}
  {
  }

  /** The upsert fails exactly on a config that is not an object or whose
      `mcpServers` is not an object. */
  lemma WithServerFails(config: Json, toolName: string, entry: Json)
    ensures WithServer(config, toolName, entry).None? <==>
      !config.Object? || ("mcpServers" in config.fields && !config.fields["mcpServers"].Object?)
  {
  }

  /** Upserting the same entry twice is upserting it once. */
  lemma WithServerIdempotent(config: Json, toolName: string, entry: Json)
    requires WithServer(config, toolName, entry).Some?
    ensures WithServer(WithServer(config, toolName, entry).value, toolName, entry) == WithServer(config, toolName, entry)
  {
    var u := WithServer(config, toolName, entry).value;
    var servers := u.fields["mcpServers"].fields;
    assert servers[toolName := entry] == servers;
    assert u.fields["mcpServers" := Object(servers)] == u.fields;
  }

  /** A successful call leaves the config file holding the upserted
      document, with the expanded tool path in the entry. */
  lemma AddToolWrites(codec: JsonCodec, home: string, s: Store, toolName: string, toolPath: string)
    requires RoundTrips(codec)
    requires AddTool(codec, home, s, toolName, toolPath).result.ConfigUpdated?
    ensures var e := AddTool(codec, home, s, toolName, toolPath);
      var cp := ConfigPath(home).value;
      var before := if s.Exists(cp) then LoadConfig(codec, s, cp) else Some(EmptyConfig);
      before.Some?
      && WithServer(before.value, toolName, ServerEntry(toolName, ExpandUser(home, toolPath))).Some?
      && e.store.Read(cp) == Some(codec.dump(WithServer(before.value, toolName, ServerEntry(toolName, ExpandUser(home, toolPath))).value))
      && LoadConfig(codec, e.store, cp) == WithServer(before.value, toolName, ServerEntry(toolName, ExpandUser(home, toolPath)))
      && e.result == ConfigUpdated(PathText(cp), ServerEntry(toolName, ExpandUser(home, toolPath)))
  {
  }

  /** Only the config file changes, and directories are only added. */
  lemma AddToolFrame(codec: JsonCodec, home: string, s: Store, toolName: string, toolPath: string, q: Path)
    requires ConfigPath(home).Some? ==> s.Abs(q) != s.Abs(ConfigPath(home).value)
    ensures AddTool(codec, home, s, toolName, toolPath).store.Read(q) == s.Read(q)
    ensures s.dirs <= AddTool(codec, home, s, toolName, toolPath).store.dirs
  {
  }

  /** Without a config file the call creates one holding just this tool. */
  lemma AddToolCreates(codec: JsonCodec, home: string, s: Store, toolName: string, toolPath: string)
    requires RoundTrips(codec)
    requires ConfigPath(home).Some? && !s.Exists(ConfigPath(home).value)
    ensures var e := AddTool(codec, home, s, toolName, toolPath);
      e.result.ConfigUpdated?
      && LoadConfig(codec, e.store, ConfigPath(home).value)
         == Some(Object(map["mcpServers" := Object(map[toolName := ServerEntry(toolName, ExpandUser(home, toolPath))])]))
  {
    var entry := ServerEntry(toolName, ExpandUser(home, toolPath));
    assert EmptyConfig.fields["mcpServers" := Object(map[][toolName := entry])]
      == map["mcpServers" := Object(map[toolName := entry])];
  }

  /** The hand-written fallback names the path exactly as the caller gave it. */
  lemma AddToolFailureManual(codec: JsonCodec, home: string, s: Store, toolName: string, toolPath: string)
    requires AddTool(codec, home, s, toolName, toolPath).result.ConfigFailed?
    ensures AddTool(codec, home, s, toolName, toolPath).result.manual == ManualInstructions(toolName, toolPath)
    ensures ManualInstructions(toolName, toolPath).fields["add"].fields["mcpServers"].fields[toolName].fields["args"]
      == Array([Str("--from"), Str(toolPath), Str(toolName)])
  {
  }

  /** On an existing, loadable config the call writes the upserted document. */
  lemma AddToolOnExisting(codec: JsonCodec, home: string, s: Store, toolName: string, toolPath: string, config: Json)
    requires ConfigPath(home).Some? && s.Exists(ConfigPath(home).value)
    requires LoadConfig(codec, s, ConfigPath(home).value) == Some(config)
    requires WithServer(config, toolName, ServerEntry(toolName, ExpandUser(home, toolPath))).Some?
    ensures AddTool(codec, home, s, toolName, toolPath).store
      == s.Write(ConfigPath(home).value, codec.dump(WithServer(config, toolName, ServerEntry(toolName, ExpandUser(home, toolPath))).value))
  {
  }

  /** Adding the same tool twice leaves the same config as adding it once. */
  lemma AddToolIdempotent(codec: JsonCodec, home: string, s: Store, toolName: string, toolPath: string)
    requires RoundTrips(codec)
    requires AddTool(codec, home, s, toolName, toolPath).result.ConfigUpdated?
    ensures var s1 := AddTool(codec, home, s, toolName, toolPath).store;
      var s2 := AddTool(codec, home, s1, toolName, toolPath).store;
      s2.files == s1.files && s2.dirs == s1.dirs
  {
    var cp := ConfigPath(home).value;
    var entry := ServerEntry(toolName, ExpandUser(home, toolPath));
    var s1 := AddTool(codec, home, s, toolName, toolPath).store;
    AddToolWrites(codec, home, s, toolName, toolPath);
    var before := if s.Exists(cp) then LoadConfig(codec, s, cp) else Some(EmptyConfig);
    var u := WithServer(before.value, toolName, entry).value;
    assert s1.Read(cp) == Some(codec.dump(u));
    WithServerIdempotent(before.value, toolName, entry);
    AddToolOnExisting(codec, home, s1, toolName, toolPath, u);
    assert s1.files[s1.Abs(cp) := codec.dump(u)] == s1.files;
  }
}
