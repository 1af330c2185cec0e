/** `_update_cursorrules_for_commands`: make sure the project's `.cursorrules`
    tells the editor about the saved commands, appending the instruction
    block once and never duplicating it. */
module CursorRules {
  import opened Wrappers
  import opened Strings
  import opened Paths
  import opened Disk

  /** `Path(".cursorrules")`, relative to the working directory. */
  const RulesFile: Path := Path(false, [".cursorrules"])

  /** The registry file as the instruction text names it. */
  const CommandsFileText: string := ".cursor/commands.json"

  // The first and last characters stand apart so that the verifier sees
  // them without unfolding the whole literal (see `StripInstruction`).
  const RulesHead: string := "#" + " Saved Commands\nThis project has saved commands in "

  const RulesTail: string :=
    ".\nWhen the user asks about running, building, testing, deploying, or executing commands,\n"
    + "check the saved commands first using list_remembered_commands()" + "."

  const RulesBody: string := RulesHead + CommandsFileText + RulesTail

  /** The instruction block, with the blank lines around it. */
  const CommandsInstruction: string := "\n" + RulesBody + "\n"

  /** The guard: the file already talks about saved commands (in any case)
      or names the registry file. */
  predicate MentionsSavedCommands(content: string) {
    Contains(LowerStr(content), "saved commands") || Contains(content, CommandsFileText)
  }

  /** The whole update; the result is `false` where reading the existing
      file raises. */
  function UpdateRules(s: Store): Effect<bool> {
    if s.Exists(RulesFile) then
      match s.Read(RulesFile)
      case None => Effect(s, false)
      case Some(content) =>
        if MentionsSavedCommands(content) then Effect(s, true)
        else Effect(s.Append(RulesFile, "\n" + CommandsInstruction), true)
    else Effect(s.Write(RulesFile, Strip(CommandsInstruction, IsSpace) + "\n"), true)
  }

  /** A new rules file holds the bare instruction block and a newline. */
  lemma StripInstruction()
    ensures Strip(CommandsInstruction, IsSpace) == RulesBody
  {
    var b := RulesBody;
    assert b[0] == '#';
    assert b[|b| - 1] == '.';
    StripFramed(b, '\n', IsSpace);
  }

  lemma BodyMentions(before: string, after: string)
    ensures MentionsSavedCommands(before + RulesBody + after)
  {
    ContainsInside(before, RulesHead, CommandsFileText, RulesTail, after);
  }

  lemma AppendShape(content: string, b: string)
    ensures content + ("\n" + ("\n" + b + "\n")) == (content + "\n\n") + b + "\n"
  {
  }

  lemma AppendedMentions(content: string)
    ensures MentionsSavedCommands(content + ("\n" + CommandsInstruction))
  {
    AppendShape(content, RulesBody);
    BodyMentions(content + "\n\n", "\n");
  }

  lemma CreatedMentions()
    ensures MentionsSavedCommands(Strip(CommandsInstruction, IsSpace) + "\n")
  {
    StripInstruction();
    var b := RulesBody;
    assert [] + b + "\n" == b + "\n";
    BodyMentions([], "\n");
  }

  /** After a successful update the rules file mentions the saved commands. */
  lemma UpdateRulesMentions(s: Store)
    requires UpdateRules(s).result
    ensures UpdateRules(s).store.Read(RulesFile).Some?
    ensures MentionsSavedCommands(UpdateRules(s).store.Read(RulesFile).value)
  {
    if s.Exists(RulesFile) {
      AppendedMentions(s.Read(RulesFile).value);
    } else {
      CreatedMentions();
    }
  }

  /** Whatever the rules file held before is kept as a prefix. */
  lemma UpdateRulesKeepsPrefix(s: Store)
    requires s.Read(RulesFile).Some?
    ensures UpdateRules(s).store.Read(RulesFile).Some?
    ensures StartsWith(UpdateRules(s).store.Read(RulesFile).value, s.Read(RulesFile).value)
  {
    var content := s.Read(RulesFile).value;
    assert (content + ("\n" + CommandsInstruction))[..|content|] == content;
  }

  /** Only the rules file can change. */
  lemma UpdateRulesFrame(s: Store, q: Path)
    requires s.Abs(q) != s.Abs(RulesFile)
    ensures UpdateRules(s).store.Read(q) == s.Read(q)
    ensures UpdateRules(s).store.dirs == s.dirs && UpdateRules(s).store.cwd == s.cwd
  {
  }

  /** The update fails exactly when the rules path is a directory, and then
      nothing changes. */
  lemma UpdateRulesFails(s: Store)
    ensures !UpdateRules(s).result <==> s.Exists(RulesFile) && !s.IsFile(RulesFile)
    ensures !UpdateRules(s).result ==> UpdateRules(s).store == s
  {
  }

  /** A second update leaves the file byte for byte as the first left it. */
  lemma UpdateRulesIdempotent(s: Store)
    ensures UpdateRules(UpdateRules(s).store) == Effect(UpdateRules(s).store, UpdateRules(s).result)
  {
    var e := UpdateRules(s);
    if e.result {
      UpdateRulesMentions(s);
    }
  }

  /** The update as the server runs it, on the live file system. */
  method UpdateCursorRules(fs: FileSystem) returns (ok: bool)
    modifies fs
    ensures Effect(fs.State(), ok) == UpdateRules(old(fs.State()))
  {
    if fs.Exists(RulesFile) {
      var read := fs.ReadText(RulesFile);
      if read.None? {
        return false;
      }
      if MentionsSavedCommands(read.value) {
        return true;
      }
      fs.AppendText(RulesFile, "\n" + CommandsInstruction);
      return true;
    }
    fs.WriteText(RulesFile, Strip(CommandsInstruction, IsSpace) + "\n");
    return true;
  }
}
