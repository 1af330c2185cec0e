/** The saved-command registry in `.cursor/commands.json`:
    `remember_command` (upsert), `list_remembered_commands` and
    `forget_command` (delete). The document is `{"commands": {...},
    "version": "1.0"}`; each entry records the command, a description, the
    working directory it was saved from and a fixed date. */
module CommandRegistry {
  import opened Wrappers
  import opened Strings
  import opened Paths
  import opened Disk
  import opened Documents
  import opened CursorRules

  /** `Path(".cursor")`. */
  const CursorDir: Path := Path(false, [".cursor"])

  /** `Path(".cursor") / "commands.json"`, which is also `Path(".cursor/commands.json")`. */
  const CommandsFile: Path := Path(false, [".cursor", "commands.json"])

  const UpdatedDate: string := "2024-11-09"

  /** The document a first `remember_command` starts from. */
  const EmptyRegistry: Json := Object(map["commands" := Object(map[]), "version" := Str("1.0")])

  /** The registry file is the same path however the server names it, and
      prints as the location it reports. */
  lemma CommandsFileNames()
    ensures CommandsFile == Div(CursorDir, "commands.json")
    ensures PathText(CommandsFile) == CommandsFileText
    ensures ParsePath(CommandsFileText) == CommandsFile
  {
    CommandsFileNormal();
    DivPart(CursorDir, "commands.json");
    CommandsFilePrints();
    ParsePathText(CommandsFile);
  }

  lemma CommandsFileNormal()
    ensures IsPart("commands.json") && IsNormal(CommandsFile)
  {
    assert IsPart("commands.json");
    assert IsPart(".cursor");
  }

  lemma CommandsFilePrints()
    ensures PathText(CommandsFile) == CommandsFileText
  {
    assert JoinWith([".cursor", "commands.json"], "/") == ".cursor" + "/" + "commands.json";
  }

  lemma ProjectFilesDistinct(s: Store)
    ensures s.Abs(RulesFile) != s.Abs(CursorDir)
    ensures s.Abs(RulesFile) != s.Abs(CommandsFile)
    ensures s.Abs(CommandsFile) != s.Abs(CursorDir)
  {
    assert RulesFile.parts != CursorDir.parts by {
      assert |RulesFile.parts[0]| != |CursorDir.parts[0]|;
    }
    ResolveDistinct(s.cwd, RulesFile, CursorDir);
    ResolveDistinct(s.cwd, RulesFile, CommandsFile);
    ResolveDistinct(s.cwd, CommandsFile, CursorDir);
  }

  /** `description or name`. */
  function DescriptionOrName(description: string, name: string): string {
    if description == "" then name else description
  }

  /** The entry `remember_command` stores under the command's name. */
  function CommandRecord(command: string, description: string, name: string, cwd: Path): Json {
    Object(map[
      "command" := Str(command),
      "description" := Str(DescriptionOrName(description, name)),
      "created" := Str(PathText(Path(true, cwd.parts))),
      "updated" := Str(UpdatedDate)])
  }

  /** `data["commands"][name] = record`; `None` where Python raises (the
      document is not an object, has no `commands` key, or its `commands`
      value is not an object). */
  function PutCommand(data: Json, name: string, record: Json): Option<Json> {
    if data.Object? && "commands" in data.fields && data.fields["commands"].Object? then
      var commands := data.fields["commands"].fields;
      Some(Object(data.fields["commands" := Object(commands[name := record])]))
    else None
  }

  /** The `commands` map of a document, when it has one. */
  function Commands(data: Json): Option<map<string, Json>> {
    if data.Object? && "commands" in data.fields && data.fields["commands"].Object? then
      Some(data.fields["commands"].fields)
    else None
  }

  /** Reading and parsing the registry file; `None` where that raises. */
  function LoadFile(codec: JsonCodec, s: Store, p: Path): Option<Json> {
    match s.Read(p)
    case None => None
    case Some(text) => codec.load(text)
  }

  datatype RememberResult =
    | Remembered(command: string, usage: string, location: string)
    | RememberFailed(name: string)

  /** `f"Just say '{description or name}' or 'run {name}' to execute"`. */
  function Usage(description: string, name: string): string {
    "Just say '" + DescriptionOrName(description, name) + "' or 'run " + name + "' to execute"
  }

  /** `remember_command(name, command, description)`. */
  function Remember(codec: JsonCodec, s: Store, name: string, command: string, description: string): Effect<RememberResult> {
    var s1 := s.MakeDir(CursorDir);
    var loaded := if s1.Exists(CommandsFile) then LoadFile(codec, s1, CommandsFile) else Some(EmptyRegistry);
    match loaded
    case None => Effect(s1, RememberFailed(name))
    case Some(data) =>
      match PutCommand(data, name, CommandRecord(command, description, name, s.cwd))
      case None => Effect(s1, RememberFailed(name))
      case Some(updated) =>
        var s2 := s1.Write(CommandsFile, codec.dump(updated));
        var rules := UpdateRules(s2);
        if rules.result then
          Effect(rules.store, Remembered(command, Usage(description, name), CommandsFileText))
        else Effect(rules.store, RememberFailed(name))
  }

  /** What `list_remembered_commands` reports. */
  datatype Listing =
    | NothingSaved
    | Listed(commands: Json, count: nat, file: string)
    | ListFailed

  /** `list_remembered_commands()`: `data.get("commands", {})` as loaded,
      whatever it holds, with its `len`. */
  function ListCommands(codec: JsonCodec, s: Store): Listing {
    if !s.Exists(CommandsFile) then NothingSaved
    else
      match LoadFile(codec, s, CommandsFile)
      case None => ListFailed
      case Some(data) =>
        match GetOrEmpty(data, "commands")
        case None => ListFailed
        case Some(commands) =>
          match Length(commands)
          case None => ListFailed
          case Some(n) => Listed(commands, n, CommandsFileText)
  }

  datatype ForgetResult =
    | NoCommandsFile
    | NotFound(name: string, available: set<string>)
    | Forgot(name: string, removedCommand: Json)
    | ForgetFailed(name: string)

  /** `forget_command(name)`. The file is rewritten before the removed
      entry's `command` is looked up, so an entry without one is still
      removed although the call reports a failure. */
  function Forget(codec: JsonCodec, s: Store, name: string): Effect<ForgetResult> {
    if !s.Exists(CommandsFile) then Effect(s, NoCommandsFile)
    else
      match LoadFile(codec, s, CommandsFile)
      case None => Effect(s, ForgetFailed(name))
      case Some(data) =>
        match GetOrEmpty(data, "commands")
        case None => Effect(s, ForgetFailed(name))
        case Some(commands) =>
          if !commands.Object? then Effect(s, ForgetFailed(name))
          else if name !in commands.fields then Effect(s, NotFound(name, commands.fields.Keys))
          else
            var removed := commands.fields[name];
            var updated := Object(data.fields["commands" := Object(commands.fields - {name})]);
            var s1 := s.Write(CommandsFile, codec.dump(updated));
            if removed.Object? && "command" in removed.fields then
              Effect(s1, Forgot(name, removed.fields["command"]))
            else Effect(s1, ForgetFailed(name))
  }

  /** The server's three registry tools on the live file system. */
  class Registry {
    const codec: JsonCodec

    constructor (codec: JsonCodec)
      ensures this.codec == codec
    {
      this.codec := codec;
    }

    method RememberCommand(fs: FileSystem, name: string, command: string, description: string) returns (r: RememberResult)
      modifies fs
      ensures Effect(fs.State(), r) == Remember(codec, old(fs.State()), name, command, description)
    {
      fs.MakeDir(CursorDir);
      var data: Json;
      if fs.Exists(CommandsFile) {
        var text := fs.ReadText(CommandsFile);
        if text.None? {
          return RememberFailed(name);
        }
        var loaded := codec.load(text.value);
        if loaded.None? {
          return RememberFailed(name);
        }
        data := loaded.value;
      } else {
        data := EmptyRegistry;
      }
      var updated := PutCommand(data, name, CommandRecord(command, description, name, fs.cwd));
      if updated.None? {
        return RememberFailed(name);
      }
      fs.WriteText(CommandsFile, codec.dump(updated.value));
      var ok := UpdateCursorRules(fs);
      if ok {
        r := Remembered(command, Usage(description, name), CommandsFileText);
      } else {
        r := RememberFailed(name);
      }
    }

    method ListRememberedCommands(fs: FileSystem) returns (r: Listing)
      ensures r == ListCommands(codec, fs.State())
    {
      if !fs.Exists(CommandsFile) {
        return NothingSaved;
      }
      var text := fs.ReadText(CommandsFile);
      if text.None? {
        return ListFailed;
      }
      var loaded := codec.load(text.value);
      if loaded.None? {
        return ListFailed;
      }
      var commands := GetOrEmpty(loaded.value, "commands");
      if commands.None? {
        return ListFailed;
      }
      var n := Length(commands.value);
      if n.None? {
        return ListFailed;
      }
      r := Listed(commands.value, n.value, CommandsFileText);
    }

    method ForgetCommand(fs: FileSystem, name: string) returns (r: ForgetResult)
      modifies fs
      ensures Effect(fs.State(), r) == Forget(codec, old(fs.State()), name)
    {
      if !fs.Exists(CommandsFile) {
        return NoCommandsFile;
      }
      var text := fs.ReadText(CommandsFile);
      if text.None? {
        return ForgetFailed(name);
      }
      var loaded := codec.load(text.value);
      if loaded.None? {
        return ForgetFailed(name);
      }
      var data := loaded.value;
      var commands := GetOrEmpty(data, "commands");
      if commands.None? || !commands.value.Object? {
        return ForgetFailed(name);
      }
      var entries := commands.value.fields;
      if name !in entries {
        return NotFound(name, entries.Keys);
      }
      var removed := entries[name];
      fs.WriteText(CommandsFile, codec.dump(Object(data.fields["commands" := Object(entries - {name})])));
      if removed.Object? && "command" in removed.fields {
        r := Forgot(name, removed.fields["command"]);
      } else {
        r := ForgetFailed(name);
      }
    }
  }

  // Properties of the registry operations.

  /** The registry file after a successful remember, and what it holds. */
  function StoredCommands(codec: JsonCodec, s: Store): Option<map<string, Json>> {
    match LoadFile(codec, s, CommandsFile)
    case None => None
    case Some(data) => Commands(data)
  }

  /** A successful remember stores the command under its name, with the
      description, or the name when the description is empty. */
  lemma RememberStores(codec: JsonCodec, s: Store, name: string, command: string, description: string)
    requires RoundTrips(codec)
    requires Remember(codec, s, name, command, description).result.Remembered?
    ensures var after := StoredCommands(codec, Remember(codec, s, name, command, description).store);
      after.Some? && name in after.value
      && after.value[name] == CommandRecord(command, description, name, s.cwd)
      && after.value[name].fields["command"] == Str(command)
      && after.value[name].fields["description"] == Str(if description == "" then name else description)
  {
    RememberWritten(codec, s, name, command, description);
  }

  /** What a successful remember leaves in the file: the previous commands
      with this one set, and every other key of the document as it was. */
  lemma RememberWritten(codec: JsonCodec, s: Store, name: string, command: string, description: string)
    requires RoundTrips(codec)
    requires Remember(codec, s, name, command, description).result.Remembered?
    ensures var before := s.MakeDir(CursorDir);
      var prior := if before.Exists(CommandsFile) then LoadFile(codec, before, CommandsFile) else Some(EmptyRegistry);
      var now := LoadFile(codec, Remember(codec, s, name, command, description).store, CommandsFile);
      prior.Some? && Commands(prior.value).Some? && now.Some?
      && now.value == Object(prior.value.fields["commands" := Object(Commands(prior.value).value[name := CommandRecord(command, description, name, s.cwd)])])
  {
    var s1 := s.MakeDir(CursorDir);
    var loaded := if s1.Exists(CommandsFile) then LoadFile(codec, s1, CommandsFile) else Some(EmptyRegistry);
    var updated := PutCommand(loaded.value, name, CommandRecord(command, description, name, s.cwd));
    var s2 := s1.Write(CommandsFile, codec.dump(updated.value));
    assert s2.Abs(CommandsFile) != s2.Abs(RulesFile);
    UpdateRulesFrame(s2, CommandsFile);
  }

  /** A remember, successful or not, touches no file but the registry and
      `.cursorrules`, and adds no directory but `.cursor`. */
  lemma RememberFrame(codec: JsonCodec, s: Store, name: string, command: string, description: string, q: Path)
    requires s.Abs(q) != s.Abs(CommandsFile) && s.Abs(q) != s.Abs(RulesFile)
    ensures Remember(codec, s, name, command, description).store.Read(q) == s.Read(q)
    ensures Remember(codec, s, name, command, description).store.dirs == s.dirs + {s.Abs(CursorDir)}
    ensures Remember(codec, s, name, command, description).store.cwd == s.cwd
  {
    var s1 := s.MakeDir(CursorDir);
    var loaded := if s1.Exists(CommandsFile) then LoadFile(codec, s1, CommandsFile) else Some(EmptyRegistry);
    if loaded.Some? {
      var updated := PutCommand(loaded.value, name, CommandRecord(command, description, name, s.cwd));
      if updated.Some? {
        var s2 := s1.Write(CommandsFile, codec.dump(updated.value));
        UpdateRulesFrame(s2, q);
      }
    }
  }

  /** A remember leaves every other saved command as it was. */
  lemma RememberKeepsOthers(codec: JsonCodec, s: Store, name: string, command: string, description: string, other: string)
    requires RoundTrips(codec)
    requires Remember(codec, s, name, command, description).result.Remembered?
    requires other != name
    requires StoredCommands(codec, s).Some?
    ensures StoredCommands(codec, Remember(codec, s, name, command, description).store).Some?
    ensures var before := StoredCommands(codec, s).value;
      var after := StoredCommands(codec, Remember(codec, s, name, command, description).store).value;
      (other in after <==> other in before) && (other in before ==> after[other] == before[other])
  {
    RememberWritten(codec, s, name, command, description);
    assert s.MakeDir(CursorDir).Read(CommandsFile) == s.Read(CommandsFile);
  }

  /** With no registry yet, a remember starts from the empty document: the
      file then holds only this command, and the version. */
  lemma RememberFirst(codec: JsonCodec, s: Store, name: string, command: string, description: string)
    requires RoundTrips(codec)
    requires !s.Exists(CommandsFile)
    ensures Remember(codec, s, name, command, description).result.Remembered? ==>
      LoadFile(codec, Remember(codec, s, name, command, description).store, CommandsFile)
        == Some(Object(map["commands" := Object(map[name := CommandRecord(command, description, name, s.cwd)]), "version" := Str("1.0")]))
  {
    var e := Remember(codec, s, name, command, description);
    if e.result.Remembered? {
      RememberWritten(codec, s, name, command, description);
      assert !s.MakeDir(CursorDir).Exists(CommandsFile) by {
        assert s.Abs(CommandsFile) != s.Abs(CursorDir);
      }
      FirstEntry(name, CommandRecord(command, description, name, s.cwd));
    }
  }

  lemma FirstEntry(name: string, entry: Json)
    ensures EmptyRegistry.fields["commands" := Object(map[][name := entry])]
      == map["commands" := Object(map[name := entry]), "version" := Str("1.0")]
  {
  }

  /** A remember on a fresh project cannot fail: only an existing file that
      cannot be read or parsed, or has the wrong shape, or an unreadable
      rules file makes it fail. */
  lemma RememberFreshSucceeds(codec: JsonCodec, s: Store, name: string, command: string, description: string)
    requires !s.Exists(CommandsFile)
    requires !s.Exists(RulesFile) || s.IsFile(RulesFile)
    ensures Remember(codec, s, name, command, description).result
      == Remembered(command, Usage(description, name), CommandsFileText)
  {
    var s1 := s.MakeDir(CursorDir);
    ProjectFilesDistinct(s);
    assert !s1.Exists(CommandsFile);
    var updated := PutCommand(EmptyRegistry, name, CommandRecord(command, description, name, s.cwd));
    var s2 := s1.Write(CommandsFile, codec.dump(updated.value));
    assert s2.Exists(RulesFile) == s.Exists(RulesFile) && s2.IsFile(RulesFile) == s.IsFile(RulesFile);
    UpdateRulesFails(s2);
  }

  /** After a successful remember, listing shows the command. */
  lemma RememberThenList(codec: JsonCodec, s: Store, name: string, command: string, description: string)
    requires RoundTrips(codec)
    requires Remember(codec, s, name, command, description).result.Remembered?
    ensures var l := ListCommands(codec, Remember(codec, s, name, command, description).store);
      l.Listed? && l.commands.Object? && name in l.commands.fields
      && l.commands.fields[name] == CommandRecord(command, description, name, s.cwd)
      && l.count == |l.commands.fields|
  {
    RememberWritten(codec, s, name, command, description);
  }

  /** Listing with no registry file reports nothing saved; otherwise it
      returns the `commands` value of the document verbatim with its size. */
  lemma ListReportsDocument(codec: JsonCodec, s: Store)
    ensures !s.Exists(CommandsFile) <==> ListCommands(codec, s) == NothingSaved
    ensures var l := ListCommands(codec, s);
      var data := LoadFile(codec, s, CommandsFile);
      l.Listed? ==> (data.Some? && data.value.Object?
        && l.commands == (if "commands" in data.value.fields then data.value.fields["commands"] else Object(map[]))
        && Length(l.commands) == Some(l.count))
    ensures var l := ListCommands(codec, s);
      s.Exists(CommandsFile) && StoredCommands(codec, s).Some? ==>
        l.Listed? && l.commands == Object(StoredCommands(codec, s).value) && l.count == |StoredCommands(codec, s).value|
  {
  }

  /** Forgetting a saved command removes exactly that key, keeps the rest,
      and reports the command it held. */
  lemma ForgetPresent(codec: JsonCodec, s: Store, name: string)
    requires RoundTrips(codec)
    requires s.Exists(CommandsFile) && StoredCommands(codec, s).Some?
    requires name in StoredCommands(codec, s).value
    ensures var e := Forget(codec, s, name);
      var before := StoredCommands(codec, s).value;
      StoredCommands(codec, e.store) == Some(before - {name})
      && (before[name].Object? && "command" in before[name].fields ==> e.result == Forgot(name, before[name].fields["command"]))
      && (!(before[name].Object? && "command" in before[name].fields) ==> e.result == ForgetFailed(name))
  {
    var data := LoadFile(codec, s, CommandsFile).value;
    var updated := Object(data.fields["commands" := Object(data.fields["commands"].fields - {name})]);
    assert LoadFile(codec, Forget(codec, s, name).store, CommandsFile) == Some(updated);
  }

  /** Forgetting only touches the registry file. It rewrites that file
      exactly when the name is saved, and then the document loses that one
      command and keeps every other key; otherwise nothing changes. */
  lemma ForgetFrame(codec: JsonCodec, s: Store, name: string, q: Path)
    requires RoundTrips(codec)
    requires s.Abs(q) != s.Abs(CommandsFile)
    ensures Forget(codec, s, name).store.Read(q) == s.Read(q)
    ensures Forget(codec, s, name).store.dirs == s.dirs
    ensures var now := LoadFile(codec, Forget(codec, s, name).store, CommandsFile);
      var before := LoadFile(codec, s, CommandsFile);
      Forget(codec, s, name).result.Forgot? ==>
        before.Some? && now.Some? && before.value.Object? && now.value.Object?
        && forall k :: k in before.value.fields && k != "commands" ==> k in now.value.fields && now.value.fields[k] == before.value.fields[k]
    ensures var before := LoadFile(codec, s, CommandsFile);
      var saved := s.Exists(CommandsFile) && before.Some? && before.value.Object?
        && "commands" in before.value.fields && before.value.fields["commands"].Object?
        && name in before.value.fields["commands"].fields;
      (saved ==> LoadFile(codec, Forget(codec, s, name).store, CommandsFile)
                 == Some(Object(before.value.fields["commands" := Object(before.value.fields["commands"].fields - {name})])))
      && (!saved ==> Forget(codec, s, name).store == s)
  {
  }

  /** Forgetting a name that is not saved changes nothing and lists what is. */
  lemma ForgetAbsent(codec: JsonCodec, s: Store, name: string)
    requires s.Exists(CommandsFile) && StoredCommands(codec, s).Some?
    requires name !in StoredCommands(codec, s).value
    ensures Forget(codec, s, name) == Effect(s, NotFound(name, StoredCommands(codec, s).value.Keys))
  {
  }

  /** A registry document without a `commands` key holds no saved names:
      forgetting reports that none is saved and writes nothing. */
  lemma ForgetWithoutCommandsKey(codec: JsonCodec, s: Store, name: string, data: Json)
    requires s.Exists(CommandsFile) && LoadFile(codec, s, CommandsFile) == Some(data)
    requires data.Object? && "commands" !in data.fields
    ensures Forget(codec, s, name) == Effect(s, NotFound(name, {}))
  {
    var empty: map<string, Json> := map[];
    assert GetOrEmpty(data, "commands") == Some(Object(empty));
    assert empty.Keys == {};
  }

  /** With no registry file, forgetting reports so and writes nothing. */
  lemma ForgetWithoutFile(codec: JsonCodec, s: Store, name: string)
    requires !s.Exists(CommandsFile)
    ensures Forget(codec, s, name) == Effect(s, NoCommandsFile)
  {
  }

  /** Remembering a command and then forgetting it reports the command and
      leaves the other saved commands as they were before. */
  lemma RememberThenForget(codec: JsonCodec, s: Store, name: string, command: string, description: string)
    requires RoundTrips(codec)
    requires Remember(codec, s, name, command, description).result.Remembered?
    requires StoredCommands(codec, s).Some?
    ensures var s1 := Remember(codec, s, name, command, description).store;
      var e := Forget(codec, s1, name);
      e.result == Forgot(name, Str(command))
      && StoredCommands(codec, e.store) == Some(StoredCommands(codec, s).value - {name})
  {
    var s1 := Remember(codec, s, name, command, description).store;
    RememberWritten(codec, s, name, command, description);
    assert s.MakeDir(CursorDir).Read(CommandsFile) == s.Read(CommandsFile);
    var before := StoredCommands(codec, s).value;
    var mid := StoredCommands(codec, s1).value;
    assert mid == before[name := CommandRecord(command, description, name, s.cwd)];
    assert s1.Exists(CommandsFile);
    ForgetPresent(codec, s1, name);
    assert mid - {name} == before - {name};
  }
}
