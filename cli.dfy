/**
 * The request preparation of the command line (aifr/cli.py): model aliases
 * with a provider prefix, custom agents from the configuration, and the user
 * message that wraps the question, the files and the console output.
 */
module Cli {
  import opened Wrappers
  import opened Text
  import opened Joins
  import FileLoader

  // ---------------------------------------------------------------------------
  // `resolve_model_alias`

  /** The first position of `c` in `s`, if any. */
  function FirstIndex(s: string, c: char): (r: Option<nat>)
    ensures r.None? <==> !HasChar(s, c)
    ensures r.Some? ==> r.value < |s| && s[r.value] == c && forall j | 0 <= j < r.value :: s[j] != c
  {
    if s == [] then None
    else if s[0] == c then Some(0)
    else
      var t := FirstIndex(s[1..], c);
      assert forall i | 0 < i < |s| :: s[i] == s[1..][i - 1];
      if t.None? then None else Some(t.value + 1)
  }

  /** The name after the one alias lookup `resolve_model_alias` does. */
  function Aliased(name: string, aliases: map<string, string>): string {
    if name in aliases then aliases[name] else name
  }

  /**
   * `resolve_model_alias`: the looked-up name, cut at its first `/` into the
   * model after it and the provider before it; without `/`, the name and no provider.
   */
  function ResolveModelAlias(name: string, aliases: map<string, string>): (r: (string, Option<string>))
    ensures var m := Aliased(name, aliases);
      && (r.1.None? <==> !HasChar(m, '/'))
      && (r.1.None? ==> r.0 == m)
      && (r.1.Some? ==> m == r.1.value + "/" + r.0 && !HasChar(r.1.value, '/'))
  {
    var m := Aliased(name, aliases);
    match FirstIndex(m, '/')
    case None => (m, None)
    case Some(i) =>
      assert m == m[..i] + "/" + m[i + 1..];
      (m[i + 1..], Some(m[..i]))
  }

  /** The cut at the first `/` is the only cut whose provider part has no `/`. */
  lemma {:induction false} ProviderPrefixUnique(name: string, aliases: map<string, string>, provider: string, model: string)
    requires Aliased(name, aliases) == provider + "/" + model && !HasChar(provider, '/')
    ensures ResolveModelAlias(name, aliases) == (model, Some(provider))
  {
    var m := Aliased(name, aliases);
    var r := ResolveModelAlias(name, aliases);
    assert m[|provider|] == '/';
    assert HasChar(m, '/');
    var p := r.1.value;
    assert p == m[..|p|] == provider;
    assert r.0 == m[|p| + 1..] == model;
  }

  /** Aliases are not followed further: an alias of an alias stops after one step. */
  lemma {:induction false} AliasNotChased(name: string, aliases: map<string, string>)
    requires name in aliases && aliases[name] in aliases && !HasChar(aliases[name], '/')
    ensures ResolveModelAlias(name, aliases) == (aliases[name], None)
  {
  }

  // ---------------------------------------------------------------------------
  // `resolve_agent_config`

  /** Python's `dict.get(key, default)`. */
  function Get<K, V>(m: map<K, V>, key: K, default: V): V {
    if key in m then m[key] else default
  }

  /** The configuration of the named agent, when it names one with a non-empty entry. */
  function AgentEntry(agentName: Option<string>, customAgents: Option<map<string, map<string, string>>>)
    : Option<map<string, string>>
  {
    if agentName.None? || agentName.value == "" then None
    else
      var agents := if customAgents.Some? then customAgents.value else map[];
      if agentName.value in agents && agents[agentName.value] != map[] then Some(agents[agentName.value])
      else None
  }

  /**
   * `resolve_agent_config`: the three defaults without a known agent with a
   * non-empty entry; otherwise each value the entry sets replaces its default.
   */
  function ResolveAgentConfig(
    agentName: Option<string>,
    customAgents: Option<map<string, map<string, string>>>,
    defaultProvider: string,
    defaultModel: Option<string>,
    defaultSystemPrompt: string
  ): (r: (string, Option<string>, string))
    ensures AgentEntry(agentName, customAgents).None? ==> r == (defaultProvider, defaultModel, defaultSystemPrompt)
    ensures AgentEntry(agentName, customAgents).Some? ==>
      var cfg := AgentEntry(agentName, customAgents).value;
      && r.0 == (if "provider" in cfg then cfg["provider"] else defaultProvider)
      && r.1 == (if "model" in cfg then Some(cfg["model"]) else defaultModel)
      && r.2 == (if "system_prompt" in cfg then cfg["system_prompt"] else defaultSystemPrompt)
  {
    match AgentEntry(agentName, customAgents)
    case None => (defaultProvider, defaultModel, defaultSystemPrompt)
    case Some(cfg) =>
      var provider := Get(cfg, "provider", defaultProvider);
      var model := if "model" in cfg then Some(cfg["model"]) else defaultModel;
      var systemPrompt := Get(cfg, "system_prompt", defaultSystemPrompt);
      (provider, model, systemPrompt)
  }

  /** An agent entry that sets only the provider keeps the default model and system prompt. */
  lemma {:induction false} PartialAgent(agentName: string, agents: map<string, map<string, string>>, p: string,
      defaultProvider: string, defaultModel: Option<string>, defaultSystemPrompt: string)
    requires agentName != "" && agentName in agents && agents[agentName] == map["provider" := p]
    ensures ResolveAgentConfig(Some(agentName), Some(agents), defaultProvider, defaultModel, defaultSystemPrompt)
      == (p, defaultModel, defaultSystemPrompt)
  {
    assert "provider" in agents[agentName];
    var m, s := "model", "system_prompt";
    assert m[0] != 'p' && s[0] != 'p';
    assert m != "provider" && s != "provider";
  }

  // ---------------------------------------------------------------------------
  // `build_user_message`

  const QuestionLabel := "Pytanie: "
  const NoConsoleData := "\n(Brak danych z konsoli)\n"

  /** The block of one loaded file. */
  function FileBlock(name: string, content: string): string {
    "\nTreść pliku " + name + ":\n===FILE_START===\n" + content + "\n===FILE_END===\n"
  }

  /** The block of the console output. */
  function ConsoleBlock(content: string): string {
    "\nOutput polecenia:\n===CONSOLE_START===\n" + content + "\n===CONSOLE_END===\n"
  }

  /** What `load_file` gives for one path. */
  type Outcome = Result<(string, FileLoader.FileInfo), FileLoader.LoadError>

  /** `load_file` on each path, in order. */
  function Outcomes(paths: seq<string>, files: seq<FileLoader.FileInfo>): (r: seq<Outcome>)
    requires |paths| == |files|
    ensures |r| == |paths| && forall i | 0 <= i < |paths| :: r[i] == FileLoader.LoadFile(paths[i], files[i])
  {
    seq(|paths|, i requires 0 <= i < |paths| => FileLoader.LoadFile(paths[i], files[i]))
  }

  /**
   * The file blocks and the total content length after loading the files in
   * order; the error of the first file `load_file` refuses.
   */
  function Collect(outcomes: seq<Outcome>): Result<(seq<string>, int), FileLoader.LoadError>
    decreases |outcomes|
  {
    if outcomes == [] then Ok(([], 0))
    else
      var n := |outcomes| - 1;
      match Collect(outcomes[..n])
      case Err(e) => Err(e)
      case Ok((blocks, total)) =>
        match outcomes[n]
        case Err(e) => Err(e)
        case Ok((content, info)) => Ok((blocks + [FileBlock(info.name, content)], total + |content|))
  }

  predicate AllLoaded(outcomes: seq<Outcome>) {
    forall i | 0 <= i < |outcomes| :: outcomes[i].Ok?
  }

  /** The sum of the loaded contents' lengths. */
  function Total(outcomes: seq<Outcome>): int
    requires AllLoaded(outcomes)
    decreases |outcomes|
  {
    if outcomes == [] then 0 else Total(outcomes[..|outcomes| - 1]) + |outcomes[|outcomes| - 1].value.0|
  }

  /** The files load exactly when each of them loads. */
  lemma {:induction false} CollectOkIff(outcomes: seq<Outcome>)
    ensures Collect(outcomes).Ok? <==> AllLoaded(outcomes)
    decreases |outcomes|
  {
    if outcomes != [] {
      var n := |outcomes| - 1;
      CollectOkIff(outcomes[..n]);
      assert forall i | 0 <= i < n :: outcomes[..n][i] == outcomes[i];
    }
  }

  /** Loaded files give one block per file, in order, and the total of their contents' lengths. */
  lemma {:induction false} CollectOkShape(outcomes: seq<Outcome>)
    requires AllLoaded(outcomes)
    ensures Collect(outcomes).Ok?
    ensures var (blocks, total) := Collect(outcomes).value;
      && |blocks| == |outcomes| && total == Total(outcomes)
      && forall i | 0 <= i < |outcomes| :: blocks[i] == FileBlock(outcomes[i].value.1.name, outcomes[i].value.0)
    decreases |outcomes|
  {
    CollectOkIff(outcomes);
    if outcomes != [] {
      var n := |outcomes| - 1;
      assert forall i | 0 <= i < n :: outcomes[..n][i] == outcomes[i];
      CollectOkShape(outcomes[..n]);
    }
  }

  /** A refusal is the error of the first file refused: the files before it all load. */
  lemma {:induction false} CollectFirstError(outcomes: seq<Outcome>)
    requires Collect(outcomes).Err?
    ensures exists i | 0 <= i < |outcomes| ::
      outcomes[i] == Err(Collect(outcomes).error) && AllLoaded(outcomes[..i])
    decreases |outcomes|
  {
    var n := |outcomes| - 1;
    var init := outcomes[..n];
    if Collect(init).Err? {
      CollectFirstError(init);
      var i :| 0 <= i < n && init[i] == Err(Collect(init).error) && AllLoaded(init[..i]);
      assert init[..i] == outcomes[..i];
    } else {
      CollectOkIff(init);
    }
  }

  /** One more outcome extends the collection. */
  lemma {:induction false} CollectStep(outcomes: seq<Outcome>, i: nat)
    requires i < |outcomes| && Collect(outcomes[..i]).Ok?
    ensures var (blocks, total) := Collect(outcomes[..i]).value;
      Collect(outcomes[..i + 1]) ==
        match outcomes[i]
        case Err(e) => Err(e)
        case Ok((content, info)) => Ok((blocks + [FileBlock(info.name, content)], total + |content|))
  {
    assert outcomes[..i + 1][..i] == outcomes[..i];
  }

  /** A refusal among the first files is the refusal of the whole list: later files are not loaded. */
  lemma {:induction false} CollectFailed(outcomes: seq<Outcome>, i: nat)
    requires i <= |outcomes| && Collect(outcomes[..i]).Err?
    ensures Collect(outcomes) == Collect(outcomes[..i])
    decreases |outcomes|
  {
    if i == |outcomes| {
      assert outcomes[..i] == outcomes;
    } else {
      var n := |outcomes| - 1;
      assert outcomes[..n][..i] == outcomes[..i];
      CollectFailed(outcomes[..n], i);
    }
  }

  /** The sum of the files' sizes as `len(content)` counts them. */
  function TotalLength(files: seq<FileLoader.FileInfo>): int
    decreases |files|
  {
    if files == [] then 0 else TotalLength(files[..|files| - 1]) + |files[|files| - 1].content|
  }

  /** When every file loads, the loaded contents are the files' own. */
  lemma {:induction false} TotalOfFiles(outcomes: seq<Outcome>, files: seq<FileLoader.FileInfo>)
    requires |outcomes| == |files| && forall i | 0 <= i < |files| :: outcomes[i] == Ok((files[i].content, files[i]))
    ensures AllLoaded(outcomes) && Total(outcomes) == TotalLength(files)
    decreases |files|
  {
    if files != [] {
      var n := |files| - 1;
      TotalOfFiles(outcomes[..n], files[..n]);
    }
  }

  /** The console text `build_user_message` uses: the command's output for a non-empty command, else the piped input. */
  function ConsoleContent(consoleCmd: Option<string>, stdinData: Option<string>, commandOutput: string): Option<string> {
    if consoleCmd.Some? && consoleCmd.value != "" then Some(commandOutput) else stdinData
  }

  /** The console part: present when a command is given, even an empty one, or when the piped input is non-empty. */
  function ConsolePart(consoleCmd: Option<string>, stdinData: Option<string>, commandOutput: string): seq<string> {
    if consoleCmd.Some? || (stdinData.Some? && stdinData.value != "") then
      var content := ConsoleContent(consoleCmd, stdinData, commandOutput);
      if content.Some? && content.value != "" then [ConsoleBlock(content.value)] else [NoConsoleData]
    else []
  }

  /**
   * What `build_user_message` returns: the parts joined by newlines, or the
   * bare prompt when there is no part besides the question.
   */
  function UserMessage(prompt: string, paths: seq<string>, files: seq<FileLoader.FileInfo>,
      consoleCmd: Option<string>, stdinData: Option<string>, commandOutput: string): Result<(string, int), FileLoader.LoadError>
    requires |paths| == |files|
  {
    match Collect(Outcomes(paths, files))
    case Err(e) => Err(e)
    case Ok((blocks, total)) =>
      var parts := [QuestionLabel + prompt] + blocks + ConsolePart(consoleCmd, stdinData, commandOutput);
      Ok((if |parts| == 1 then prompt else Join(parts, "\n"), total))
  }

  /** The file loop of `build_user_message`: a block per file and the total length, or the first refusal. */
  method LoadBlocks(paths: seq<string>, files: seq<FileLoader.FileInfo>)
    returns (r: Result<(seq<string>, int), FileLoader.LoadError>)
    requires |paths| == |files|
    ensures r == Collect(Outcomes(paths, files))
  {
    var blocks: seq<string> := [];
    var totalLen := 0;
    ghost var outcomes := Outcomes(paths, files);
    assert outcomes[..0] == [];
    for i := 0 to |paths|
      invariant Collect(outcomes[..i]) == Ok((blocks, totalLen))
    {
      var loaded := FileLoader.LoadFile(paths[i], files[i]);
      assert loaded == outcomes[i];
      CollectStep(outcomes, i);
      if loaded.Err? {
        CollectFailed(outcomes, i + 1);
        return Err(loaded.error);
      }
      var (content, info) := loaded.value;
      totalLen := totalLen + |content|;
      blocks := blocks + [FileBlock(info.name, content)];
    }
    assert outcomes[..|paths|] == outcomes;
    return Ok((blocks, totalLen));
  }

  /**
   * `build_user_message`; `files` are what the `paths` name and
   * `commandOutput` is what running the console command prints.
   */
  method BuildUserMessage(prompt: string, paths: seq<string>, files: seq<FileLoader.FileInfo>,
      consoleCmd: Option<string>, stdinData: Option<string>, commandOutput: string)
    returns (r: Result<(string, int), FileLoader.LoadError>)
    requires |paths| == |files|
    ensures r == UserMessage(prompt, paths, files, consoleCmd, stdinData, commandOutput)
  {
    var loaded := LoadBlocks(paths, files);
    if loaded.Err? {
      return Err(loaded.error);
    }
    var (blocks, totalLen) := loaded.value;
    var parts := [QuestionLabel + prompt] + blocks;
    ghost var console := ConsolePart(consoleCmd, stdinData, commandOutput);
    if consoleCmd.Some? || (stdinData.Some? && stdinData.value != "") {
      var consoleContent: Option<string>;
      if consoleCmd.Some? && consoleCmd.value != "" {
        consoleContent := Some(commandOutput);
      } else {
        consoleContent := stdinData;
      }
      assert consoleContent == ConsoleContent(consoleCmd, stdinData, commandOutput);
      if consoleContent.Some? && consoleContent.value != "" {
        assert console == [ConsoleBlock(consoleContent.value)];
        parts := parts + [ConsoleBlock(consoleContent.value)];
      } else {
        assert console == [NoConsoleData];
        parts := parts + [NoConsoleData];
      }
    } else {
      assert console == [];
      assert parts == parts + console;
    }
    assert parts == [QuestionLabel + prompt] + blocks + console;
    if |parts| == 1 {
      return Ok((prompt, totalLen));
    }
    return Ok((Join(parts, "\n"), totalLen));
  }

  /** Without files and without console input the message is the bare prompt, with length 0. */
  lemma {:induction false} BarePrompt(prompt: string, consoleCmd: Option<string>, stdinData: Option<string>, commandOutput: string)
    requires consoleCmd.None? && (stdinData.None? || stdinData.value == "")
    ensures UserMessage(prompt, [], [], consoleCmd, stdinData, commandOutput) == Ok((prompt, 0))
  {
  }

  /**
   * With anything besides the question, the message starts with the question
   * line, then the file blocks in order, then at most one console block.
   */
  lemma {:induction false} MessageParts(prompt: string, paths: seq<string>, files: seq<FileLoader.FileInfo>,
      consoleCmd: Option<string>, stdinData: Option<string>, commandOutput: string)
    requires |paths| == |files|
    requires forall i | 0 <= i < |paths| :: FileLoader.LoadFile(paths[i], files[i]).Ok?
    requires paths != [] || ConsolePart(consoleCmd, stdinData, commandOutput) != []
    ensures var c := ConsolePart(consoleCmd, stdinData, commandOutput);
      && |c| <= 1
      && UserMessage(prompt, paths, files, consoleCmd, stdinData, commandOutput)
        == Ok((Join([QuestionLabel + prompt] + FileBlocks(files) + c, "\n"), TotalLength(files)))
  {
    var outcomes := Outcomes(paths, files);
    TotalOfFiles(outcomes, files);
    CollectOkShape(outcomes);
    assert Collect(outcomes).value.0 == FileBlocks(files);
  }

  /** One file block per file, in order. */
  function FileBlocks(files: seq<FileLoader.FileInfo>): (r: seq<string>)
    ensures |r| == |files| && forall i | 0 <= i < |files| :: r[i] == FileBlock(files[i].name, files[i].content)
  {
    seq(|files|, i requires 0 <= i < |files| => FileBlock(files[i].name, files[i].content))
  }
}
