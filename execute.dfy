/** The execute node (`ClaudeCodeExecute`): choosing the command text,
    substituting `${KEY}` arguments, laying out the prompt, reading the MCP
    status, reading back the tools string of the tools node, assembling the
    `claude` command line and shaping the response and metadata. The file
    system and the subprocess are inputs. */
module Execute {
  import opened Wrappers
  import opened Strings
  import opened Json
  import Tools

  // ---------------------------------------------------------------------------
  // Reading the tools string back

  /** What `execute` takes from its `tools` input: the text left once the
      permission marker is cut off, the names passed to `--allowedTools`, and
      whether permission prompts are skipped. */
  datatype ToolsSetting = ToolsSetting(toolsPart: string, toolList: seq<string>, skipPermissions: bool)

  /** Unpacking `tools.split("|skip_permissions:")` into two names raises
      when the marker occurs more than once; the exception is not caught. */
  function ParseTools(tools: string): (r: Result<ToolsSetting>)
    ensures r.Raised? <==> |Split(tools, Tools.SkipMarker)| > 2
    ensures r.Ok? ==> r.value.toolList == Tools.Entries(r.value.toolsPart)
    ensures r.Ok? && r.value.skipPermissions ==> Contains(tools, Tools.SkipMarker)
  {
    SplitStep(tools, Tools.SkipMarker);
    if |tools| == 0 then
      Tools.EmptyNameSet(tools);
      Ok(ToolsSetting(tools, [], false))
    else if !Contains(tools, Tools.SkipMarker) then
      Ok(ToolsSetting(tools, Tools.Entries(tools), false))
    else
      var parts := Split(tools, Tools.SkipMarker);
      if |parts| != 2 then Raised("ValueError: too many values to unpack (expected 2)")
      else Ok(ToolsSetting(parts[0], Tools.Entries(parts[0]), Lower(parts[1]) == "true"))
  }

  /** Without the marker the whole text is the tool list and nothing is skipped;
      with the marker once, the text before it is the tool list and the text
      after it, lowered, decides the flag. */
  lemma ParseToolsCases(tools: string)
    ensures !Contains(tools, Tools.SkipMarker) ==>
      ParseTools(tools) == Ok(ToolsSetting(tools, Tools.Entries(tools), false))
    ensures |Split(tools, Tools.SkipMarker)| == 2 ==>
      var p := Split(tools, Tools.SkipMarker);
      && tools == p[0] + Tools.SkipMarker + p[1]
      && !Contains(p[0], Tools.SkipMarker) && !Contains(p[1], Tools.SkipMarker)
      && ParseTools(tools) == Ok(ToolsSetting(p[0], Tools.Entries(p[0]), Lower(p[1]) == "true"))
  {
    if |Split(tools, Tools.SkipMarker)| == 2 {
      SplitTwo(tools, Tools.SkipMarker);
      var p := Split(tools, Tools.SkipMarker);
      assert Contains(tools, Tools.SkipMarker) by {
        assert OccursAt(tools, Tools.SkipMarker, |p[0]|) by {
          assert tools[|p[0]|..|p[0]| + |Tools.SkipMarker|] == Tools.SkipMarker;
        }
      }
    } else if |tools| == 0 {
      Tools.EmptyNameSet(tools);
    }
  }

  /** The marker opens with a character that does not recur in it and holds no comma. */
  lemma MarkerShape()
    ensures forall k :: 1 <= k < |Tools.SkipMarker| ==> Tools.SkipMarker[k] != Tools.SkipMarker[0]
    ensures ',' !in Tools.SkipMarker
  {
  }

  /** Reading back what the tools node writes gives its `tools_list` and its
      flag, provided no tool name contains the marker. */
  lemma ParseConfigText(tools: set<string>, skip: bool)
    requires forall t :: t in tools ==> Tools.WellFormedName(t) && !Contains(t, Tools.SkipMarker)
    ensures ParseTools(Tools.ConfigText(tools, skip))
         == Ok(ToolsSetting(Tools.ListText(tools), Tools.SortedNames(tools), skip))
  {
    var names := Tools.SortedNames(tools);
    var list := Tools.ListText(tools);
    var flag := BoolToString(skip);
    var text := list + Tools.SkipMarker + flag;
    MarkerShape();
    JoinAvoids(names, ',', Tools.SkipMarker);
    FindAfter(list, Tools.SkipMarker, flag);
    assert !Contains(flag, Tools.SkipMarker);
    SplitOnce(list, Tools.SkipMarker, flag);
    assert OccursAt(text, Tools.SkipMarker, |list|);
    Tools.EntriesOfJoin(names);
    LowerFlag(skip);
  }

  /** `str(flag).lower() == "true"` gives the flag back. */
  lemma LowerFlag(skip: bool)
    ensures Lower(BoolToString(skip)) == "true" <==> skip
  {
    var r := Lower(BoolToString(skip));
    if skip {
      assert r[0] == 't' && r[1] == 'r' && r[2] == 'u' && r[3] == 'e';
    } else {
      assert |r| == 5;
    }
  }

  // ---------------------------------------------------------------------------
  // Argument substitution

  /** The text `${key}` stands for. */
  function Placeholder(key: string): (p: string)
    ensures StartsWith(p, "${") && |p| == |key| + 3
  {
    "${" + key + "}"
  }

  /** `text.replace(placeholder, str(value))` for each item, in insertion order. */
  function Substituted(text: string, items: Fields): string
    decreases |items|
  {
    if |items| == 0 then text
    else Substituted(Replace(text, Placeholder(items[0].0), PyStr(items[0].1)), items[1..])
  }

  /** Arguments whose JSON is valid but not an object. */
  predicate ArgumentsRaise(arguments: Text) {
    |arguments.raw| > 0 && arguments.parsed.Ok? && !arguments.parsed.value.Object?
  }

  /** What `replace_arguments` gives: an empty arguments text counts as `{}`,
      text that is not JSON leaves the text alone, and JSON that is not an
      object has no `.items()` and raises. */
  function ArgumentsReplaced(text: string, arguments: Text): (r: Result<string>)
    ensures r.Raised? <==> ArgumentsRaise(arguments)
  {
    if |arguments.raw| == 0 || arguments.parsed.Raised? then Ok(text)
    else if arguments.parsed.value.Object? then Ok(Substituted(text, arguments.parsed.value.fields))
    else Raised("AttributeError: '" + TypeName(arguments.parsed.value) + "' object has no attribute 'items'")
  }

  /** `replace_arguments`: `text` is reassigned once per item. */
  method ReplaceArguments(text: string, arguments: Text) returns (r: Result<string>)
    ensures r == ArgumentsReplaced(text, arguments)
  {
    if |arguments.raw| == 0 {
      return Ok(text);
    }
    match arguments.parsed
    case Raised(_) =>
      return Ok(text);
    case Ok(v) =>
      if !v.Object? {
        return Raised("AttributeError: '" + TypeName(v) + "' object has no attribute 'items'");
      }
      var items := v.fields;
      var t := text;
      var i := 0;
      while i < |items|
        invariant 0 <= i <= |items|
        invariant Substituted(t, items[i..]) == Substituted(text, items)
      {
        assert items[i..][1..] == items[i + 1..];
        t := Replace(t, Placeholder(items[i].0), PyStr(items[i].1));
        i := i + 1;
      }
      return Ok(t);
  }

  /** Text with no placeholder of any key comes back unchanged. */
  lemma {:induction false} SubstitutedAbsent(text: string, items: Fields)
    requires forall k :: 0 <= k < |items| ==> !Contains(text, Placeholder(items[k].0))
    ensures Substituted(text, items) == text
    decreases |items|
  {
    if |items| > 0 {
      ReplaceAbsent(text, Placeholder(items[0].0), PyStr(items[0].1));
      assert forall k :: 0 <= k < |items[1..]| ==> items[1..][k] == items[k + 1];
      SubstitutedAbsent(text, items[1..]);
    }
  }

  /** Text without `${`, an empty arguments text, or arguments that are not
      JSON: the text comes back unchanged. */
  lemma ReplaceArgumentsIdentity(text: string, arguments: Text)
    requires !Contains(text, "${") || |arguments.raw| == 0 || arguments.parsed.Raised?
    requires arguments.parsed.Ok? ==> arguments.parsed.value.Object?
    ensures ArgumentsReplaced(text, arguments) == Ok(text)
  {
    if |arguments.raw| > 0 && arguments.parsed.Ok? {
      var items := arguments.parsed.value.fields;
      forall k | 0 <= k < |items| ensures !Contains(text, Placeholder(items[k].0)) {
        var p := Placeholder(items[k].0);
        assert p[..2] == "${";
        assert OccursAt(p, "${", 0);
        if Contains(text, p) {
          ContainsPiece(text, p, "${");
        }
      }
      SubstitutedAbsent(text, items);
    }
  }

  /** `"Create a ${LANGUAGE} ${THING}"` with `{"LANGUAGE": "example", "THING": "script"}`. */
  lemma SubstitutionExample()
    ensures Substituted("Create a ${LANGUAGE} ${THING}",
                        [("LANGUAGE", Str("example")), ("THING", Str("script"))])
         == "Create a example script"
  {
    var items := [("LANGUAGE", Str("example")), ("THING", Str("script"))];
    assert Placeholder("LANGUAGE") == "${LANGUAGE}" && Placeholder("THING") == "${THING}";
    ExampleTexts();
    ReplaceFreePrefix("Create a ", "${LANGUAGE}", "example", " ${THING}");
    ReplaceFreePrefix("Create a example ", "${THING}", "script", "");
    assert items[1..][1..] == [];
  }

  lemma ExampleTexts()
    ensures "Create a ${LANGUAGE} ${THING}" == "Create a " + "${LANGUAGE}" + " ${THING}"
    ensures "Create a " + "example" + " ${THING}" == "Create a example " + "${THING}" + ""
    ensures "Create a example " + "script" + "" == "Create a example script"
  {
  }

  // ---------------------------------------------------------------------------
  // Choosing the command

  /** The entry of the file list that means "use the command typed in". */
  const CustomCommand: string := "[Custom Command]"

  /** `load_command_from_file`: `None` for the custom entry and for a missing
      file; a read error comes back as text. */
  function LoadCommand(commandFile: string, file: FileRead): (r: Option<string>)
    ensures commandFile == CustomCommand || file.NotFound? ==> r.None?
    ensures commandFile != CustomCommand && file.Content? ==> r == Some(file.text)
    ensures commandFile != CustomCommand && file.Unreadable? ==>
      r == Some("Error reading command file: " + file.message)
  {
    if commandFile == CustomCommand then None
    else match file
      case NotFound => None
      case Content(text) => Some(text)
      case Unreadable(message) => Some("Error reading command file: " + message)
  }

  /** The command `execute` runs: the loaded file text when it was asked for
      and is not empty, else the typed-in command. */
  function ChooseCommand(commandSource: string, commandFile: string, command: string, file: FileRead): (r: string)
    ensures commandSource != "file" || commandFile == CustomCommand ==> r == command
    ensures file.NotFound? ==> r == command
    ensures file.Content? && |file.text| == 0 ==> r == command
    ensures commandSource == "file" && commandFile != CustomCommand && file.Content? && |file.text| > 0 ==>
      r == file.text
    ensures commandSource == "file" && commandFile != CustomCommand && file.Unreadable? ==>
      StartsWith(r, "Error reading command file: ")
  {
    if commandSource == "file" && commandFile != CustomCommand then
      match LoadCommand(commandFile, file)
      case Some(loaded) =>
        if |loaded| > 0 then
          assert file.Unreadable? ==> ("Error reading command file: " + file.message)[..28] == "Error reading command file: ";
          loaded
        else command
      case None => command
    else command
  }

  // ---------------------------------------------------------------------------
  // MCP status

  /** `s.split(sep, 1)[1]`: what follows the first `sep`. */
  function AfterFirst(s: string, sep: string): Option<string>
    requires |sep| > 0
  {
    match Find(s, sep)
    case None => None
    case Some(i) => Some(s[i + |sep|..])
  }

  /** A status that starts with a colon-free word and a colon is cut after that colon. */
  lemma AfterFirstColon(s: string, word: string)
    requires ':' !in word && StartsWith(s, word + ":")
    ensures AfterFirst(s, ":") == Some(s[|word| + 1..])
  {
    ContainsChar(word, ':');
    assert s == word + ":" + s[|word| + 1..];
    FindAfter(word, ":", s[|word| + 1..]);
  }

  /** The errors `setup_mcps_from_config` reports for a status string. */
  function McpErrors(mcpConfig: string): seq<string> {
    if |mcpConfig| == 0 || |Strip(mcpConfig)| == 0 then []
    else if StartsWith(mcpConfig, "enabled:") then []
    else if StartsWith(mcpConfig, "disabled:") then
      match AfterFirst(mcpConfig, ":")
      case Some(name) => ["MCP '" + name + "' was disabled"]
      case None => []
    else if Contains(Lower(mcpConfig), "error") then ["MCP configuration error: " + mcpConfig]
    else []
  }

  /** `setup_mcps_from_config`: at most one error is appended. */
  method SetupMcps(mcpConfig: string) returns (errors: seq<string>)
    ensures errors == McpErrors(mcpConfig)
  {
    errors := [];
    if |mcpConfig| == 0 || |Strip(mcpConfig)| == 0 {
      return;
    }
    if StartsWith(mcpConfig, "enabled:") {
      // The name only goes into a progress message.
    } else if StartsWith(mcpConfig, "disabled:") {
      var name := AfterFirst(mcpConfig, ":");
      if name.Some? {
        errors := errors + ["MCP '" + name.value + "' was disabled"];
      }
    } else if Contains(Lower(mcpConfig), "error") {
      errors := errors + ["MCP configuration error: " + mcpConfig];
    }
  }

  /** How the status strings of the MCP node read. */
  lemma McpClassification(mcpConfig: string)
    ensures IsBlank(mcpConfig) ==> McpErrors(mcpConfig) == []
    ensures StartsWith(mcpConfig, "enabled:") ==> McpErrors(mcpConfig) == []
    ensures StartsWith(mcpConfig, "disabled:") ==>
      McpErrors(mcpConfig) == ["MCP '" + mcpConfig[9..] + "' was disabled"]
    ensures !IsBlank(mcpConfig) && !StartsWith(mcpConfig, "enabled:") && !StartsWith(mcpConfig, "disabled:") ==>
      McpErrors(mcpConfig) == if Contains(Lower(mcpConfig), "error") then ["MCP configuration error: " + mcpConfig] else []
    ensures |McpErrors(mcpConfig)| <= 1
  {
    if StartsWith(mcpConfig, "disabled:") {
      McpDisabled(mcpConfig);
    } else if StartsWith(mcpConfig, "enabled:") {
      McpEnabled(mcpConfig);
    }
  }

  lemma McpDisabled(mcpConfig: string)
    requires StartsWith(mcpConfig, "disabled:")
    ensures McpErrors(mcpConfig) == ["MCP '" + mcpConfig[9..] + "' was disabled"]
  {
    assert mcpConfig[..9] == "disabled:";
    assert !IsSpace(mcpConfig[0]) && !StartsWith(mcpConfig, "enabled:");
    AfterFirstColon(mcpConfig, "disabled");
  }

  lemma McpEnabled(mcpConfig: string)
    requires StartsWith(mcpConfig, "enabled:")
    ensures McpErrors(mcpConfig) == []
  {
    assert mcpConfig[..8] == "enabled:";
    assert !IsSpace(mcpConfig[0]);
  }

  // ---------------------------------------------------------------------------
  // The prompt

  /** The prompt's closing line. */
  const Closing: string := "\nDo not create files elsewhere."

  function MemorySection(memory: string): string {
    if |memory| > 0 then "# Context/Memory\n" + memory + "\n\n" else ""
  }

  /** Shown only when a previous output folder is named and exists. */
  function PreviousSection(previousOutput: string, previousPath: string, previousExists: bool): string {
    if |previousOutput| > 0 && previousExists then
      "# Previous Output\n" + ("Previous execution created files in: " + previousPath)
      + "Read and understand these files as context.\n\n"
    else ""
  }

  function CommandSection(command: string): string {
    "# Command\n" + command + "\n\n"
  }

  function OutputSection(outputFolder: string): string {
    "# Output Instructions\n" + ("Create all output files in: " + outputFolder) + Closing
  }

  /** The prompt `build_prompt` joins: the sections in this order. */
  function Prompt(command: string, memory: string, outputFolder: string,
                  previousOutput: string, previousPath: string, previousExists: bool): string {
    MemorySection(memory) + PreviousSection(previousOutput, previousPath, previousExists)
    + CommandSection(command) + OutputSection(outputFolder)
  }

  /** `build_prompt`: the sections are appended to `parts`, then joined.
      `previousPath` is the joined path of the previous folder and
      `previousExists` what `os.path.exists` says of it. */
  method BuildPrompt(command: string, memory: string, outputFolder: string,
                     previousOutput: string, previousPath: string, previousExists: bool)
    returns (prompt: string)
    ensures prompt == Prompt(command, memory, outputFolder, previousOutput, previousPath, previousExists)
  {
    var parts: seq<string> := [];
    if |memory| > 0 {
      parts := AppendThree(parts, "# Context/Memory\n", memory, "\n\n");
    }
    ghost var memorySection := Concat(parts);
    assert memorySection == MemorySection(memory);
    if |previousOutput| > 0 {
      if previousExists {
        parts := AppendThree(parts, "# Previous Output\n", "Previous execution created files in: " + previousPath,
                             "Read and understand these files as context.\n\n");
      }
    }
    assert Concat(parts) == memorySection + PreviousSection(previousOutput, previousPath, previousExists);
    parts := AppendThree(parts, "# Command\n", command, "\n\n");
    parts := AppendThree(parts, "# Output Instructions\n", "Create all output files in: " + outputFolder, Closing);
    prompt := Concat(parts);
  }

  /** `parts.append` three times. */
  method AppendThree(parts: seq<string>, a: string, b: string, c: string) returns (r: seq<string>)
    ensures r == parts + [a, b, c]
    ensures Concat(r) == Concat(parts) + (a + b + c)
  {
    r := parts + [a, b, c];
    ConcatAppend(parts, [a, b, c]);
    Concat3(a, b, c);
  }

  /** The prompt always ends with the output section, which names the output
      folder and closes with the instruction not to write elsewhere. */
  lemma PromptEnd(command: string, memory: string, outputFolder: string,
                  previousOutput: string, previousPath: string, previousExists: bool)
    ensures EndsWith(Prompt(command, memory, outputFolder, previousOutput, previousPath, previousExists),
                     OutputSection(outputFolder))
    ensures EndsWith(Prompt(command, memory, outputFolder, previousOutput, previousPath, previousExists), Closing)
    ensures Contains(OutputSection(outputFolder), "Create all output files in: " + outputFolder)
  {
    var head := MemorySection(memory) + PreviousSection(previousOutput, previousPath, previousExists)
      + CommandSection(command);
    EndsWithAppend(head, OutputSection(outputFolder));
    EndsWithAppend("# Output Instructions\n" + ("Create all output files in: " + outputFolder), Closing);
    EndsWithExtend(head, OutputSection(outputFolder), Closing);
    ContainsAppend("# Output Instructions\n", "Create all output files in: " + outputFolder, Closing);
  }

  /** The memory section opens the prompt exactly when there is memory. */
  lemma PromptMemory(command: string, memory: string, outputFolder: string,
                     previousOutput: string, previousPath: string, previousExists: bool)
    ensures |memory| > 0 ==>
      StartsWith(Prompt(command, memory, outputFolder, previousOutput, previousPath, previousExists),
                 MemorySection(memory))
    ensures |memory| > 0 ==> StartsWith(MemorySection(memory), "# Context/Memory\n" + memory)
    ensures |memory| == 0 ==>
      !StartsWith(Prompt(command, memory, outputFolder, previousOutput, previousPath, previousExists),
                  "# Context/Memory\n")
  {
    var m := MemorySection(memory);
    var pr := PreviousSection(previousOutput, previousPath, previousExists);
    var c := CommandSection(command);
    var o := OutputSection(outputFolder);
    var heading := "# Context/Memory\n";
    if |memory| > 0 {
      assert StartsWith(m + pr, m);
      StartsWithExtend(m + pr, c, m);
      StartsWithExtend(m + pr + c, o, m);
      assert m[..|heading + memory|] == heading + memory;
    } else {
      assert m + pr == pr;
      if |pr| > 0 {
        assert StartsWith(pr + c, "# Previous Output\n");
        StartsWithExtend(pr + c, o, "# Previous Output\n");
        DifferentStarts(m + pr + c + o, "# Previous Output\n", heading, 2);
      } else {
        assert m + pr + c == c;
        assert StartsWith(c, "# Command\n");
        StartsWithExtend(c, o, "# Command\n");
        DifferentStarts(m + pr + c + o, "# Command\n", heading, 4);
      }
    }
  }

  /** The command appears verbatim under its heading. */
  lemma PromptCommand(command: string, memory: string, outputFolder: string,
                      previousOutput: string, previousPath: string, previousExists: bool)
    ensures Contains(Prompt(command, memory, outputFolder, previousOutput, previousPath, previousExists),
                     "# Command\n" + command + "\n\n")
  {
    ContainsAppend(MemorySection(memory) + PreviousSection(previousOutput, previousPath, previousExists),
                   CommandSection(command), OutputSection(outputFolder));
  }

  /** The previous-output section is there only for a named folder that exists;
      otherwise the prompt is the one without a previous output. */
  lemma PromptPrevious(command: string, memory: string, outputFolder: string,
                       previousOutput: string, previousPath: string, previousExists: bool)
    ensures |previousOutput| > 0 && previousExists ==>
      Contains(Prompt(command, memory, outputFolder, previousOutput, previousPath, previousExists),
               "# Previous Output\n" + ("Previous execution created files in: " + previousPath))
    ensures !(|previousOutput| > 0 && previousExists) ==>
      Prompt(command, memory, outputFolder, previousOutput, previousPath, previousExists)
      == Prompt(command, memory, outputFolder, "", "", false)
  {
    if |previousOutput| > 0 && previousExists {
      var line := "# Previous Output\n" + ("Previous execution created files in: " + previousPath);
      var pr := PreviousSection(previousOutput, previousPath, previousExists);
      var m := MemorySection(memory);
      var c := CommandSection(command);
      ContainsPrefix(line, "Read and understand these files as context.\n\n");
      ContainsExtend(m, pr, c, line);
      ContainsExtend(m, m + pr, c, line);
      ContainsExtend(m, m + pr + c, OutputSection(outputFolder), line);
    }
  }

  // ---------------------------------------------------------------------------
  // The command line

  /** One `--allowedTools <tool>` pair per tool, in order. */
  function AllowedTools(tools: seq<string>): (r: seq<string>)
    ensures |r| == 2 * |tools|
    decreases |tools|
  {
    if |tools| == 0 then [] else ["--allowedTools", tools[0]] + AllowedTools(tools[1..])
  }

  /** The pair for the tool at position `k`. */
  lemma {:induction false} AllowedToolsAt(tools: seq<string>, k: nat)
    requires k < |tools|
    ensures AllowedTools(tools)[2 * k] == "--allowedTools" && AllowedTools(tools)[2 * k + 1] == tools[k]
    decreases k
  {
    if k > 0 {
      AllowedToolsAt(tools[1..], k - 1);
    }
  }

  lemma {:induction false} AllowedToolsAppend(tools: seq<string>, tool: string)
    ensures AllowedTools(tools + [tool]) == AllowedTools(tools) + ["--allowedTools", tool]
    decreases |tools|
  {
    if |tools| > 0 {
      assert (tools + [tool])[1..] == tools[1..] + [tool];
      AllowedToolsAppend(tools[1..], tool);
    } else {
      assert tools + [tool] == [tool];
    }
  }

  /** The `claude` command line for the given settings. */
  function Argv(maxTurns: int, model: string, toolList: seq<string>, skipPermissions: bool): seq<string> {
    ["claude", "-p", "--max-turns", IntToString(maxTurns)]
    + (if model != "default" then ["--model", model] else [])
    + AllowedTools(toolList)
    + (if skipPermissions then ["--dangerously-skip-permissions"] else [])
  }

  /** The command line is extended step by step, as `cmd_parts` is. */
  method BuildArgv(maxTurns: int, model: string, toolList: seq<string>, skipPermissions: bool)
    returns (cmd: seq<string>)
    ensures cmd == Argv(maxTurns, model, toolList, skipPermissions)
  {
    cmd := ["claude", "-p", "--max-turns", IntToString(maxTurns)];
    if model != "default" {
      cmd := cmd + ["--model", model];
    }
    ghost var head := cmd;
    var i := 0;
    while i < |toolList|
      invariant 0 <= i <= |toolList|
      invariant cmd == head + AllowedTools(toolList[..i])
    {
      assert toolList[..i + 1] == toolList[..i] + [toolList[i]];
      AllowedToolsAppend(toolList[..i], toolList[i]);
      cmd := cmd + ["--allowedTools", toolList[i]];
      i := i + 1;
    }
    assert toolList[..i] == toolList;
    if skipPermissions {
      cmd := cmd + ["--dangerously-skip-permissions"];
    }
  }

  /** The shape of the command line: the fixed head, `--model` exactly when the
      model is not "default", a pair per tool in order, and the permission
      switch last when it is on. */
  lemma ArgvShape(maxTurns: int, model: string, toolList: seq<string>, skipPermissions: bool)
    ensures var a := Argv(maxTurns, model, toolList, skipPermissions);
      var offset := if model != "default" then 6 else 4;
      && |a| == offset + 2 * |toolList| + (if skipPermissions then 1 else 0)
      && a[..4] == ["claude", "-p", "--max-turns", IntToString(maxTurns)]
      && ((|a| > 4 && a[4] == "--model") <==> model != "default")
      && (model != "default" ==> a[5] == model)
      && (forall k :: 0 <= k < |toolList| ==>
            a[offset + 2 * k] == "--allowedTools" && a[offset + 2 * k + 1] == toolList[k])
      && (skipPermissions ==> a[|a| - 1] == "--dangerously-skip-permissions")
  {
    var head := ["claude", "-p", "--max-turns", IntToString(maxTurns)];
    var m: seq<string> := if model != "default" then ["--model", model] else [];
    var t := AllowedTools(toolList);
    var f: seq<string> := if skipPermissions then ["--dangerously-skip-permissions"] else [];
    var a := head + m + t + f;
    assert a == Argv(maxTurns, model, toolList, skipPermissions);
    forall k | 0 <= k < |toolList|
      ensures a[|head + m| + 2 * k] == "--allowedTools" && a[|head + m| + 2 * k + 1] == toolList[k]
    {
      AllowedToolsAt(toolList, k);
      assert a[|head + m| + 2 * k] == t[2 * k];
      assert a[|head + m| + 2 * k + 1] == t[2 * k + 1];
    }
    assert a[..4] == head;
    if model == "default" && |a| > 4 {
      assert a[4] == "--allowedTools" || a[4] == "--dangerously-skip-permissions";
    }
  }

  // ---------------------------------------------------------------------------
  // The response

  /** stdout on success, else the error text. */
  function Response(returnCode: int, stdout: string, stderr: string): (r: string)
    ensures returnCode == 0 ==> r == stdout
    ensures returnCode != 0 ==> StartsWith(r, "Error: ") && EndsWith(r, stderr)
  {
    if returnCode == 0 then stdout
    else
      EndsWithAppend("Error: ", stderr);
      assert ("Error: " + stderr)[..7] == "Error: ";
      "Error: " + stderr
  }

  /** The created files worth reporting: those whose name does not start with `_claude_`. */
  function UserFiles(names: seq<string>): (r: seq<string>)
    ensures forall k :: 0 <= k < |r| ==> !StartsWith(r[k], "_claude_")
    ensures forall x :: x in r <==> x in names && !StartsWith(x, "_claude_")
    ensures |r| <= |names|
    decreases |names|
  {
    if |names| == 0 then []
    else
      var rest := UserFiles(names[1..]);
      assert forall x :: x in names <==> x == names[0] || x in names[1..];
      if StartsWith(names[0], "_claude_") then rest else [names[0]] + rest
  }

  /** The "Created files" line: at most five names joined with ", ", then how
      many more there are; nothing when no file is worth reporting. */
  function CreatedFilesNote(names: seq<string>): (r: Option<string>)
    ensures r.None? <==> |UserFiles(names)| == 0
    ensures r.Some? ==> StartsWith(r.value, Join(Take(UserFiles(names), 5), ", "))
    ensures r.Some? && |UserFiles(names)| <= 5 ==> r.value == Join(UserFiles(names), ", ")
    ensures r.Some? && |UserFiles(names)| > 5 ==>
      r.value == Join(Take(UserFiles(names), 5), ", ") + " and " + NatToString(|UserFiles(names)| - 5) + " more"
  {
    var files := UserFiles(names);
    if |files| == 0 then None
    else
      var shown := Join(Take(files, 5), ", ");
      var more := if |files| > 5 then " and " + NatToString(|files| - 5) + " more" else "";
      assert (shown + more)[..|shown|] == shown;
      Some(shown + more)
  }

  // ---------------------------------------------------------------------------
  // The whole node

  /** What `subprocess.run` gives back, or the exception it raises. */
  datatype RunOutcome = Completed(returnCode: int, stdout: string, stderr: string) | Failed(message: string)

  /** What `execute` finds around it: the command file, the output folder it
      creates, the previous folder, the run of `claude`, and the names the
      output folder then holds. */
  datatype Environment = Environment(
    commandFile: FileRead,
    folderName: string,
    folderPath: string,
    previousPath: string,
    previousExists: bool,
    run: RunOutcome,
    createdFiles: seq<string>)

  /** What is handed to `subprocess.run`. */
  datatype Invocation = Invocation(argv: seq<string>, prompt: string, cwd: string)

  /** The node's three outputs, with the command it ran and its "Created files" line. */
  datatype Outcome = Outcome(invocation: Invocation, folderName: string, response: string,
                             metadata: Fields, createdNote: Option<string>)

  function StrList(xs: seq<string>): seq<Value> {
    seq(|xs|, k requires 0 <= k < |xs| => Str(xs[k]))
  }

  /** The metadata of a run that returned; its duration and timestamp are not modelled. */
  function RunMetadata(model: string, maxTurns: int, env: Environment, toolsPart: string, returnCode: int,
                       memory: string, arguments: Text, previousOutput: string, mcpConfig: string,
                       errors: seq<string>): Fields {
    [ ("model", Str(model)),
      ("max_turns", Int(maxTurns)),
      ("output_folder", Str(env.folderName)),
      ("output_path", Str(env.folderPath)),
      ("tools_used", Array(if |toolsPart| > 0 then StrList(Split(toolsPart, ",")) else [])),
      ("exit_code", Int(returnCode)),
      ("has_memory", Bool(|memory| > 0)),
      ("has_arguments", Bool(arguments.raw != "{}")),
      ("has_previous", Bool(|previousOutput| > 0)),
      ("mcp_config_received", Bool(|mcpConfig| > 0)),
      ("mcp_setup_errors", Array(StrList(errors))) ]
  }

  /** `execute`. The exceptions raised before the run (arguments that are not
      a JSON object, a tools string holding the marker twice) escape it;
      an exception from the run itself is turned into an error response. */
  method Execute(commandSource: string, commandFile: string, command: string, model: string, maxTurns: int,
                 memory: string, arguments: Text, tools: string, previousOutput: string, mcpConfig: string,
                 env: Environment)
    returns (r: Result<Outcome>)
    ensures r.Raised? <==> ArgumentsRaise(arguments) || ParseTools(tools).Raised?
    ensures r.Ok? ==>
      var cmd := ArgumentsReplaced(ChooseCommand(commandSource, commandFile, command, env.commandFile), arguments).value;
      var mem := if |memory| > 0 then ArgumentsReplaced(memory, arguments).value else "";
      var setting := ParseTools(tools).value;
      && r.value.invocation == Invocation(Argv(maxTurns, model, setting.toolList, setting.skipPermissions),
                                          Prompt(cmd, mem, env.folderPath, previousOutput, env.previousPath, env.previousExists),
                                          env.folderPath)
      && r.value.folderName == env.folderName
      && (env.run.Completed? ==>
            && r.value.response == Response(env.run.returnCode, env.run.stdout, env.run.stderr)
            && r.value.metadata == RunMetadata(model, maxTurns, env, setting.toolsPart, env.run.returnCode,
                                               mem, arguments, previousOutput, mcpConfig, McpErrors(mcpConfig))
            && r.value.createdNote == CreatedFilesNote(env.createdFiles))
      && (env.run.Failed? ==>
            && r.value.response == "Execution error: " + env.run.message
            && r.value.metadata == [("error", Str(env.run.message)), ("execution_time", Int(0)),
                                    ("output_folder", Str(env.folderName))]
            && r.value.createdNote.None?)
  {
    var chosen := ChooseCommand(commandSource, commandFile, command, env.commandFile);
    var cmd := ReplaceArguments(chosen, arguments);
    if cmd.Raised? {
      return Raised(cmd.error);
    }
    var mem := "";
    if |memory| > 0 {
      var m := ReplaceArguments(memory, arguments);
      mem := m.value;
    }
    var errors: seq<string> := [];
    if |mcpConfig| > 0 {
      errors := SetupMcps(mcpConfig);
    }
    var prompt := BuildPrompt(cmd.value, mem, env.folderPath, previousOutput, env.previousPath, env.previousExists);
    var parsed := ParseTools(tools);
    if parsed.Raised? {
      return Raised(parsed.error);
    }
    var setting := parsed.value;
    var argv := BuildArgv(maxTurns, model, setting.toolList, setting.skipPermissions);
    var outcome := Finish(Invocation(argv, prompt, env.folderPath), model, maxTurns, env, setting.toolsPart,
                          mem, arguments, previousOutput, mcpConfig, errors);
    r := Ok(outcome);
  }

  /** The part of `execute` after the run: the response, the metadata and the
      "Created files" line. */
  method Finish(invocation: Invocation, model: string, maxTurns: int, env: Environment, toolsPart: string,
                memory: string, arguments: Text, previousOutput: string, mcpConfig: string, errors: seq<string>)
    returns (o: Outcome)
    ensures o.invocation == invocation && o.folderName == env.folderName
    ensures env.run.Completed? ==>
      && o.response == Response(env.run.returnCode, env.run.stdout, env.run.stderr)
      && o.metadata == RunMetadata(model, maxTurns, env, toolsPart, env.run.returnCode,
                                   memory, arguments, previousOutput, mcpConfig, errors)
      && o.createdNote == CreatedFilesNote(env.createdFiles)
    ensures env.run.Failed? ==>
      && o.response == "Execution error: " + env.run.message
      && o.metadata == [("error", Str(env.run.message)), ("execution_time", Int(0)),
                        ("output_folder", Str(env.folderName))]
      && o.createdNote.None?
  {
    match env.run
    case Completed(returnCode, stdout, stderr) =>
      var response := Response(returnCode, stdout, stderr);
      var metadata := RunMetadata(model, maxTurns, env, toolsPart, returnCode, memory, arguments,
                                  previousOutput, mcpConfig, errors);
      o := Outcome(invocation, env.folderName, response, metadata, CreatedFilesNote(env.createdFiles));
    case Failed(message) =>
      var metadata := [("error", Str(message)), ("execution_time", Int(0)), ("output_folder", Str(env.folderName))];
      o := Outcome(invocation, env.folderName, "Execution error: " + message, metadata, None);
  }
}
