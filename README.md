# claude-code-comfyui-nodes, modelled in Dafny

The repository is a set of ComfyUI nodes that drive the `claude` command-line
tool. Around the subprocess call, these nodes do string and collection work:
- the tools node resolves a tool preset into a sorted, comma-joined list;
- the arguments node merges JSON dictionaries;
- the execute node substitutes `${KEY}` placeholders, chooses the command text,
  reads the MCP status, parses the tools string back, lays out the prompt and
  builds the `claude` argv;
- the memory node concatenates memory sources;
- the context node renders an output folder into memory text in four modes;
- the reader node lists and reads an output folder;
- the Reddit scraper node builds a Reddit URL, a scraping prompt and an argv,
  and counts the items it scraped.

This project models that logic. The file system, JSON decoding and the
subprocess become plain input values. It proves the behaviour each node
promises:
- precedence and identity cases;
- prefix and suffix shapes of the texts;
- the sortedness and contents of the tool list;
- the round trip between the tools node and the execute node.

Layout, one module per file:
- `wrappers.dfy`: `Option`, `Result`, and `FileRead` (what opening a file gives).
- `strings.dfy`: the Python `str` operations the nodes use, and their laws.
  These are `strip`, `lstrip(chars)`, `split`, `join`, `replace`, `in`,
  `startswith`/`endswith`, `lower`, `str(int)` and slicing.
- `ordering.dfy`: strict total orders, lexicographic order, and `sorted(set)`.
- `json.dfy`: decoded JSON values and ordered dictionaries (`get`, `d[k] = v`,
  `update`).
- `folders.dfy`: a file record of an output folder.
- `tools.dfy`, `arguments.dfy`, `execute.dfy`, `memory.dfy`, `context.dfy`,
  `reader.dfy`, `reddit.dfy`: one module per node.

Where the source changes a set, list or string step by step, the model does the
same in a `method`. Each such method is proved equal to a specification
function, and the properties are proved as lemmas about that function.

## Model

Source paths are relative to the repository root.

| member | source | states |
|---|---|---|
| Tools.Entries | src/claude_code_comfyui_nodes/claude_code_tools.py:78 | every entry of a comma-split, stripped, non-blank list is a usable tool name (non-empty, no surrounding space, no comma) |
| Tools.NameSet | src/claude_code_comfyui_nodes/claude_code_tools.py:78 | the set built from a tools string holds only usable names |
| Tools.NonBlankStrippedMembers | src/claude_code_comfyui_nodes/claude_code_tools.py:78 | a name is an entry exactly when some piece, stripped, is that non-blank name |
| Tools.PresetTools | src/claude_code_comfyui_nodes/claude_code_tools.py:13-21 | each preset gives exactly the tools its `PRESETS` string names; an unknown preset gives the empty set, not an error; every preset tool is built in |
| Tools.PresetNamesBuiltin | src/claude_code_comfyui_nodes/claude_code_tools.py:13-21 | every name in a preset is one of the ten built-in tools |
| Tools.BuiltinNamesTools | src/claude_code_comfyui_nodes/claude_code_tools.py:77-78 | built-in names joined with commas read back as exactly those names |
| Tools.ApplyToggles | src/claude_code_comfyui_nodes/claude_code_tools.py:81-93 | the six switches, applied in place one after the other, add exactly their tools |
| Tools.WithTogglesUnion | src/claude_code_comfyui_nodes/claude_code_tools.py:81-93 | applying the switches to a set is the union of that set with the tools the switches turn on, all built in |
| Tools.ToggleExamples | src/claude_code_comfyui_nodes/claude_code_tools.py:82-93 | `file_read` adds Read and LS; `web` adds WebFetch and WebSearch; `file_edit` adds Edit and MultiEdit; `search` adds Grep and Glob |
| Tools.TogglesOnlyForNone | src/claude_code_comfyui_nodes/claude_code_tools.py:80-93 | for any preset other than "none", the switches do not change the result |
| Tools.ConfigureTools | src/claude_code_comfyui_nodes/claude_code_tools.py:61-111 | the in-place set updates give `ListText(ResolvedTools(..))` as `tools_list`; the `tools` output is that list, the `\|skip_permissions:` marker and `True`/`False`; the flag is passed through |
| Tools.ResolvedSteps | src/claude_code_comfyui_nodes/claude_code_tools.py:95-103 | the source's guarded steps (switches only for preset "none", the union only for a non-empty `custom_tools`, the difference only for a non-empty `remove_tools`) give exactly the resolved set |
| Tools.EmptyNameSet | src/claude_code_comfyui_nodes/claude_code_tools.py:96-102 | an empty tools string names no tool |
| Tools.ResolvedMembers | src/claude_code_comfyui_nodes/claude_code_tools.py:77-103 | a tool is allowed iff it comes from the preset, from a switch (preset "none" only) or from `custom_tools`, and it is not named in `remove_tools` |
| Tools.ResolvedWellFormed | src/claude_code_comfyui_nodes/claude_code_tools.py:78-102 | every allowed tool is a usable name, and it is built in unless `custom_tools` supplied it |
| Tools.SortedNames | src/claude_code_comfyui_nodes/claude_code_tools.py:106 | `sorted(tools_set)` is strictly sorted, holds exactly the set's elements, and has the set's size |
| Tools.ListTextEntries | src/claude_code_comfyui_nodes/claude_code_tools.py:106-107 | splitting `tools_list` on commas gives back the sorted tools |
| Tools.EntriesOfJoin | src/claude_code_comfyui_nodes/claude_code_tools.py:107 | usable names joined with commas split back into the same names |
| Tools.SingleName | src/claude_code_comfyui_nodes/claude_code_tools.py:97 | a single usable name is a one-tool list |
| Tools.ToolsListContents | src/claude_code_comfyui_nodes/claude_code_tools.py:106-107 | `tools_list` is strictly sorted (no duplicates), holds only usable names, and lists exactly the allowed tools |
| Tools.RemovalWins | src/claude_code_comfyui_nodes/claude_code_tools.py:100-103 | a tool named in `remove_tools` never appears, whether the preset, a switch or `custom_tools` supplied it |
| Tools.CustomToolsKept | src/claude_code_comfyui_nodes/claude_code_tools.py:95-98 | a tool named in `custom_tools` and not removed always appears |
| Tools.CustomOrderIrrelevant | src/claude_code_comfyui_nodes/claude_code_tools.py:96-98 | reordering or repeating the `custom_tools` entries does not change the result |
| Tools.NonBlankStrippedSameSet | src/claude_code_comfyui_nodes/claude_code_tools.py:97 | pieces with the same members give entries with the same members |
| Tools.ReadOnlyExample | src/claude_code_comfyui_nodes/claude_code_tools.py:96-111 | `read_only` with Write both added and removed gives exactly `Glob,Grep,LS,Read`, followed by the marker and the flag |
| Arguments.Base | src/claude_code_comfyui_nodes/claude_code_arguments.py:64-67 | an empty or undecodable `base_arguments` is `{}`; otherwise it is the decoded value |
| Arguments.Copy | src/claude_code_comfyui_nodes/claude_code_arguments.py:69 | `.copy()` succeeds exactly on dicts and lists, and returns the same value |
| Arguments.UpdateWith | src/claude_code_comfyui_nodes/claude_code_arguments.py:75 | `update` succeeds exactly on a dict, giving the ordered-dict update |
| Arguments.SetItem | src/claude_code_comfyui_nodes/claude_code_arguments.py:82 | `result[k] = v` succeeds exactly on a dict, giving `Put` |
| Arguments.Built | src/claude_code_comfyui_nodes/claude_code_arguments.py:64-95 | the node raises exactly when the base is neither a dict nor a list, or when it is a list and the mode writes into it; an unknown mode gives the copied base |
| Arguments.BuildArguments | src/claude_code_comfyui_nodes/claude_code_arguments.py:52-95 | the in-place updates give `Built(..)`; both outputs are the same value |
| Arguments.BuiltDistinct | src/claude_code_comfyui_nodes/claude_code_arguments.py:69-90 | a base without repeated keys gives a result without repeated keys |
| Arguments.InvalidBaseIsEmpty | src/claude_code_comfyui_nodes/claude_code_arguments.py:64-67 | an empty or undecodable base behaves exactly like `{}` in every mode |
| Arguments.Overridden | src/claude_code_comfyui_nodes/claude_code_arguments.py:75 | after `update`, a key of the other dict has that dict's value and every other key keeps its value; existing keys keep their position and new keys follow in order |
| Arguments.JsonOverrides | src/claude_code_comfyui_nodes/claude_code_arguments.py:71-75 | json mode with a dict overrides the base key for key and keeps the base-only keys |
| Arguments.JsonNotDict | src/claude_code_comfyui_nodes/claude_code_arguments.py:72-75 | json mode with valid JSON that is not a dict gives the copied base |
| Arguments.JsonInvalid | src/claude_code_comfyui_nodes/claude_code_arguments.py:76-78 | json mode with invalid JSON gives the base plus `_error` = "Invalid JSON: ..."; every other key is unchanged |
| Arguments.KeyValueSets | src/claude_code_comfyui_nodes/claude_code_arguments.py:80-82 | key_value mode: an empty key gives the base; otherwise only `key` changes, to `value` |
| Arguments.MergeOverrides | src/claude_code_comfyui_nodes/claude_code_arguments.py:84-90 | merge mode: a dict overrides the base; invalid JSON, or JSON that is not a dict, gives the base unchanged |
| Arguments.MergeEmpty | src/claude_code_comfyui_nodes/claude_code_arguments.py:86 | an empty merge text is `{}`, so the base comes back unchanged |
| Json.PutGet | src/claude_code_comfyui_nodes/claude_code_arguments.py:82 | after `d[k] = v`, `k` maps to `v` and every other key is unaffected |
| Json.Put | src/claude_code_comfyui_nodes/claude_code_arguments.py:82 | an existing key keeps its position, a new key goes last, and distinct keys stay distinct |
| Json.UpdateGet | src/claude_code_comfyui_nodes/claude_code_arguments.py:75 | after `d.update(o)`, a key of `o` holds `o`'s value and any other key keeps `d`'s |
| Json.UpdateKeys | src/claude_code_comfyui_nodes/claude_code_arguments.py:88 | `update` keeps `d`'s keys in place and appends the new keys in `o`'s order |
| Json.UpdateDistinct | src/claude_code_comfyui_nodes/claude_code_arguments.py:75 | `update` never repeats a key |
| Execute.Placeholder | src/claude_code_comfyui_nodes/claude_code_execute.py:106 | the placeholder of a key starts with `${` and is three characters longer than the key |
| Execute.ArgumentsReplaced | src/claude_code_comfyui_nodes/claude_code_execute.py:101-110 | substitution raises (`.items()` on a non-dict) exactly when the arguments text is non-empty and decodes to a value that is not a dict |
| Execute.ReplaceArguments | src/claude_code_comfyui_nodes/claude_code_execute.py:101-110 | the loop reassigning `text` once per item gives `ArgumentsReplaced` |
| Execute.SubstitutedAbsent | src/claude_code_comfyui_nodes/claude_code_execute.py:105-107 | text holding no key's placeholder comes back unchanged |
| Execute.ReplaceArgumentsIdentity | src/claude_code_comfyui_nodes/claude_code_execute.py:101-110 | text without `${`, empty arguments, or invalid JSON leaves the text unchanged |
| Execute.SubstitutionExample | src/claude_code_comfyui_nodes/claude_code_execute.py:104-107 | `"Create a ${LANGUAGE} ${THING}"` with `{LANGUAGE: "example", THING: "script"}` becomes `"Create a example script"` |
| Execute.LoadCommand | src/claude_code_comfyui_nodes/claude_code_execute.py:174-189 | nothing for `[Custom Command]` or a missing file; the text of a readable file; an error text for an unreadable one |
| Execute.ChooseCommand | src/claude_code_comfyui_nodes/claude_code_execute.py:210-216 | the file text replaces the typed command only when the source is "file", the file is not `[Custom Command]` and the loaded text is non-empty |
| Execute.AfterFirstColon | src/claude_code_comfyui_nodes/claude_code_execute.py:164-167 | `split(":", 1)[1]` of `word:rest` is `rest`, when `word` has no colon |
| Execute.SetupMcps | src/claude_code_comfyui_nodes/claude_code_execute.py:153-172 | the appends give `McpErrors` |
| Execute.McpClassification | src/claude_code_comfyui_nodes/claude_code_execute.py:153-172 | a blank status and `enabled:N` give no error; `disabled:N` gives exactly `MCP 'N' was disabled`; any other status with "error" in any case gives one configuration error, otherwise none; never more than one |
| Execute.BuildPrompt | src/claude_code_comfyui_nodes/claude_code_execute.py:121-151 | the appends to `parts`, joined, give `Prompt(..)` |
| Execute.PromptMemory | src/claude_code_comfyui_nodes/claude_code_execute.py:131-134 | the prompt opens with the memory section iff memory is non-empty |
| Execute.PromptPrevious | src/claude_code_comfyui_nodes/claude_code_execute.py:136-141 | the previous-output section is present iff `previous_output` is non-empty and that folder exists |
| Execute.PromptCommand | src/claude_code_comfyui_nodes/claude_code_execute.py:143-145 | the command appears verbatim right after `# Command\n` |
| Execute.PromptEnd | src/claude_code_comfyui_nodes/claude_code_execute.py:147-151 | the prompt ends with `\nDo not create files elsewhere.` and names the output folder |
| Execute.ParseTools | src/claude_code_comfyui_nodes/claude_code_execute.py:244-251 | unpacking raises exactly when the marker occurs twice or more; the tool list is the stripped non-blank comma-separated entries of the tools part; skipping is only possible when the marker is present |
| Execute.LowerFlag | src/claude_code_comfyui_nodes/claude_code_execute.py:248 | `str(flag).lower() == "true"` gives the flag back |
| Execute.ParseConfigText | src/claude_code_comfyui_nodes/claude_code_execute.py:244-251 | parsing the `tools` output of the tools node gives back its `tools_list`, its sorted tools and its flag, provided no tool name contains the marker |
| Execute.AllowedTools | src/claude_code_comfyui_nodes/claude_code_execute.py:253-254 | one `--allowedTools` pair per tool: twice as many entries as tools |
| Execute.AllowedToolsAt | src/claude_code_comfyui_nodes/claude_code_execute.py:253-254 | the pair at position `k` is `--allowedTools` followed by the `k`-th tool |
| Execute.BuildArgv | src/claude_code_comfyui_nodes/claude_code_execute.py:236-259 | the step-by-step `extend`s give `Argv(..)` |
| Execute.ArgvShape | src/claude_code_comfyui_nodes/claude_code_execute.py:236-259 | the argv starts `claude -p --max-turns <n>`; `--model m` is present iff the model is not "default"; one tool pair follows per tool, in order; `--dangerously-skip-permissions` is last iff skipping |
| Execute.Response | src/claude_code_comfyui_nodes/claude_code_execute.py:279-283 | stdout on exit code 0; otherwise `Error: ` followed by stderr |
| Execute.UserFiles | src/claude_code_comfyui_nodes/claude_code_execute.py:318-319 | the created files whose names do not start with `_claude_`, in order |
| Execute.ParseToolsCases | src/claude_code_comfyui_nodes/claude_code_execute.py:244-251 | no marker: the whole text is the tool list and nothing is skipped; exactly one marker: the text before it is the tool list and skipping is on exactly when the lowered text after it is `true` |
| Execute.CreatedFilesNote | src/claude_code_comfyui_nodes/claude_code_execute.py:321-324 | the progress line listing created files: no line without user files; up to five files, all their names joined with ", "; more than five, exactly the first five joined with ", " followed by ` and N more`, N being the number of the others |
| Execute.Execute | src/claude_code_comfyui_nodes/claude_code_execute.py:191-339 | raises exactly when the arguments are a non-dict value or the tools string has the marker twice; otherwise runs `Argv(..)` with `Prompt(..)` in the output folder and returns the response, the metadata and the created-files line |
| Execute.Finish | src/claude_code_comfyui_nodes/claude_code_execute.py:276-339 | a completed run gives `Response`, `RunMetadata` and `CreatedFilesNote`; a failed run gives `Execution error: ...` and the three-key error metadata |
| Memory.Memory | src/claude_code_comfyui_nodes/claude_code_memory.py:107 | the memory text has no leading or trailing whitespace |
| Memory.BuildMemory | src/claude_code_comfyui_nodes/claude_code_memory.py:50-110 | the appends to `memory_parts`, joined and stripped, give `Memory(..)`, returned twice |
| Memory.AppendFile | src/claude_code_comfyui_nodes/claude_code_memory.py:72-81 | the file branch appends `FileParts` |
| Memory.AppendCombined | src/claude_code_comfyui_nodes/claude_code_memory.py:87-105 | the combined branch appends `CombinedParts` |
| Memory.JoinedParts | src/claude_code_comfyui_nodes/claude_code_memory.py:60-107 | joined, the parts are the prefix followed by what the memory type adds |
| Memory.PrefixFirst | src/claude_code_comfyui_nodes/claude_code_memory.py:63-65 | before the strip, a non-empty `append_to` and `\n\n` come first |
| Memory.TextMode | src/claude_code_comfyui_nodes/claude_code_memory.py:68-70 | text mode is the strip of the prefix followed by the text |
| Memory.ClaudeMdMode | src/claude_code_comfyui_nodes/claude_code_memory.py:83-85 | claude_md mode is the strip of the prefix followed by the CLAUDE.md text |
| Memory.FileMode | src/claude_code_comfyui_nodes/claude_code_memory.py:72-81 | an empty path adds nothing; a missing file adds `Error: File not found: <path>`; a readable file adds its text |
| Memory.FileJoined | src/claude_code_comfyui_nodes/claude_code_memory.py:72-81 | the file branch's parts join to `FileText` |
| Memory.CombinedJoined | src/claude_code_comfyui_nodes/claude_code_memory.py:87-105 | the combined branch's parts join to `CombinedText` |
| Memory.SourceJoined | src/claude_code_comfyui_nodes/claude_code_memory.py:67-105 | each mode's parts join to `SourceText` |
| Memory.CombinedMode | src/claude_code_comfyui_nodes/claude_code_memory.py:87-105 | combined mode: CLAUDE.md text, then `## Additional Context`, then `## File Content`, each only when its source is there |
| Memory.UnknownMode | src/claude_code_comfyui_nodes/claude_code_memory.py:60-107 | any other memory type gives only the stripped `append_to` |
| Context.Extensions | src/claude_code_comfyui_nodes/claude_code_context.py:85 | one stripped extension per comma-separated piece of the filter |
| Context.MatchedPaths | src/claude_code_comfyui_nodes/claude_code_context.py:88-95 | the matched set is exactly the folder's paths that match some extension |
| Context.PathLessIsStrictTotal | src/claude_code_comfyui_nodes/claude_code_context.py:95 | `pathlib`'s component-wise order is a strict total order |
| Context.SortedPaths | src/claude_code_comfyui_nodes/claude_code_context.py:95 | `sorted(set(all_files))` is strictly sorted and holds exactly the matched paths |
| Context.Lookup | src/claude_code_comfyui_nodes/claude_code_context.py:109-114 | the record found for a path is a record of the folder under that path; nothing is found iff no record has that path |
| Context.Contents | src/claude_code_comfyui_nodes/claude_code_context.py:106-126 | one `file_contents` entry per kept file |
| Context.CollectFiles | src/claude_code_comfyui_nodes/claude_code_context.py:106-126 | the loop's `+=` and dictionary stores give `Listing(Kept(..))` and `Contents(Kept(..))` |
| Context.KeptFrom | src/claude_code_comfyui_nodes/claude_code_context.py:109-111 | every kept record is a folder file under a walked path, and is not the metadata file |
| Context.KeptSorted | src/claude_code_comfyui_nodes/claude_code_context.py:109-111 | walking sorted paths keeps the kept paths sorted |
| Context.KeptComplete | src/claude_code_comfyui_nodes/claude_code_context.py:109-111 | every walked path that has a record and is not the metadata file is kept |
| Context.KeptFiles | src/claude_code_comfyui_nodes/claude_code_context.py:88-111 | the reported files are every matched path except the metadata file, each once, in sorted order |
| Context.ContentsDistinct | src/claude_code_comfyui_nodes/claude_code_context.py:122-126 | no two `file_contents` entries share a key |
| Context.TooLargeNotRead | src/claude_code_comfyui_nodes/claude_code_context.py:119-126 | a file over `max_file_size_kb*1024` bytes is stored as `[File too large: N bytes]`, whatever its content |
| Context.BuiltContext | src/claude_code_comfyui_nodes/claude_code_context.py:63-180 | a blank folder name gives `base_memory`; a missing folder gives the not-found error; an existing folder whose metadata cannot be decoded raises |
| Context.BuildContext | src/claude_code_comfyui_nodes/claude_code_context.py:63-180 | the imperative build gives `BuiltContext(..)` |
| Context.AppendMode | src/claude_code_comfyui_nodes/claude_code_context.py:135-177 | each mode appends `ModeParts` |
| Context.AppendBlocks | src/claude_code_comfyui_nodes/claude_code_context.py:137-138 | one block per entry is appended, in order |
| Context.AppendKeyBlocks | src/claude_code_comfyui_nodes/claude_code_context.py:156-163 | one `### ` block per entry is appended, each with its content truncated |
| Context.ContentsText | src/claude_code_comfyui_nodes/claude_code_context.py:167-169 | `file_contents_str +=` one block per entry |
| Context.FileListIgnoresContent | src/claude_code_comfyui_nodes/claude_code_context.py:140-147 | file_list mode gives the same text for two folders whose files differ only in content |
| Context.FullContentLayout | src/claude_code_comfyui_nodes/claude_code_context.py:135-138 | full_content mode is the base prefix, a heading naming the folder, then one `## rel` block per kept file in sorted order |
| Context.FullContentText | src/claude_code_comfyui_nodes/claude_code_context.py:131-138 | full_content text is the memory paragraph, the heading, and the blocks joined |
| Context.BlockOpening | src/claude_code_comfyui_nodes/claude_code_context.py:138 | each block opens with its heading marks, the path and a code fence |
| Context.SummaryFirstFive | src/claude_code_comfyui_nodes/claude_code_context.py:149-163 | summary mode looks only at the contents of the first five files |
| Context.TruncatedShape | src/claude_code_comfyui_nodes/claude_code_context.py:161-162 | a content of more than 1000 characters is cut to its first 1000 followed by `\n... [truncated]`; a shorter one is kept |
| Context.CustomFirstFive | src/claude_code_comfyui_nodes/claude_code_context.py:165-177 | custom mode looks only at the contents of the first five files |
| Context.TemplateWithContents | src/claude_code_comfyui_nodes/claude_code_context.py:165-177 | a template whose only placeholder is one `{file_contents}` becomes that template with the blocks of the first five files in its place |
| Context.TemplateWithoutPlaceholders | src/claude_code_comfyui_nodes/claude_code_context.py:171-175 | a template without any of the four placeholders comes back as it is |
| Context.BaseFirst | src/claude_code_comfyui_nodes/claude_code_context.py:131-133 | every result past the folder checks starts with the base memory and `\n\n` when there is one |
| Context.NothingAdded | src/claude_code_comfyui_nodes/claude_code_context.py:165-180 | an unknown mode, or custom mode with an empty template, gives only the base prefix |
| Reader.LastDot | src/claude_code_comfyui_nodes/claude_code_reader.py:92 | the position of the last dot, with no dot after it; none iff there is no dot |
| Reader.ExtensionShape | src/claude_code_comfyui_nodes/claude_code_reader.py:92 | `splitext(path)[1]` is empty or a dot followed by dot-free, slash-free text that ends the path; a base name without a dot has none |
| Reader.VisibleFiles | src/claude_code_comfyui_nodes/claude_code_reader.py:83 | the kept files are exactly the glob results not ending in the metadata name |
| Reader.ReadOutput | src/claude_code_comfyui_nodes/claude_code_reader.py:55-127 | the imperative node gives `ReadOutcome(..)` |
| Reader.ListInfos | src/claude_code_comfyui_nodes/claude_code_reader.py:86-94 | the loop appends one entry per shown file, in order |
| Reader.ListFiles | src/claude_code_comfyui_nodes/claude_code_reader.py:99-102 | the `+=` loop gives `Listing` |
| Reader.ReadAll | src/claude_code_comfyui_nodes/claude_code_reader.py:104-113 | the loop appends one section per shown file, in order |
| Reader.OutcomeFacts | src/claude_code_comfyui_nodes/claude_code_reader.py:65-94 | a missing folder gives the error text, an empty list and empty metadata; an unreadable metadata file raises; otherwise at most `max_files` entries, none of them the metadata file, and the metadata output is the metadata text or `""` |
| Reader.EntriesInGlobOrder | src/claude_code_comfyui_nodes/claude_code_reader.py:86-94 | entry `k` describes the `k`-th visible glob result: its path, its size and its extension |
| Reader.ListingLines | src/claude_code_comfyui_nodes/claude_code_reader.py:99-102 | list_files output is the header followed by exactly one `- path (size bytes)` line per entry |
| Reader.ReadAllSections | src/claude_code_comfyui_nodes/claude_code_reader.py:104-114 | read_all output is one `=== rel ===` section per listed entry, joined with `\n` |
| Reader.SpecificFile | src/claude_code_comfyui_nodes/claude_code_reader.py:116-125 | an empty `specific_file` leaves the output empty; a missing file gives `File '<x>' not found in output folder` |
| Reddit.RedditUrl | src/claude_code_comfyui_nodes/claude_reddit_scraper.py:171-193 | for source type `url` or an unknown type, the source verbatim |
| Reddit.UrlKinds | src/claude_code_comfyui_nodes/claude_reddit_scraper.py:178-191 | subreddit gives the listing URL of the cleaned name; search appends the source after `?q=` unencoded; user appends the cleaned user name |
| Reddit.ListingUrlShape | src/claude_code_comfyui_nodes/claude_reddit_scraper.py:181-184 | the listing URL starts `https://reddit.com/r/<name>/<sort>/` and carries `?t=<filter>` iff the sort is top or controversial |
| Reddit.SubredditNameShape | src/claude_code_comfyui_nodes/claude_reddit_scraper.py:180 | the name is the stripped source with its whole leading run of `/` and `r` characters removed; it does not start with either |
| Reddit.UserNameOnce | src/claude_code_comfyui_nodes/claude_reddit_scraper.py:190 | the two chained `lstrip` calls act as one: the whole leading run of `/` and `u` characters of the stripped source is removed |
| Reddit.RustLosesLetter | src/claude_code_comfyui_nodes/claude_reddit_scraper.py:180 | as written, subreddit `rust` gives the URL for `ust` |
| Reddit.UserLosesLetter | src/claude_code_comfyui_nodes/claude_reddit_scraper.py:190 | as written, user `ulysses` gives `https://reddit.com/user/lysses` |
| Reddit.CleanName | src/claude_code_comfyui_nodes/claude_reddit_scraper.py:180 | the intended cleaning removes at most three leading characters and keeps a suffix |
| Reddit.IntendedUrl | src/claude_code_comfyui_nodes/claude_reddit_scraper.py:171-193 | the corrected URL agrees with the original for every source type other than subreddit and user |
| Reddit.IntendedKeepsName | src/claude_code_comfyui_nodes/claude_reddit_scraper.py:180 | the intended cleaning keeps a bare name, and removes exactly a `/r/` or `r/` prefix (`/u/` or `u/` for users) |
| Reddit.IntendedRust | src/claude_code_comfyui_nodes/claude_reddit_scraper.py:178-184 | with the intended cleaning, subreddit `rust` gives the URL for `rust` |
| Reddit.BuildScrapingPrompt | src/claude_code_comfyui_nodes/claude_reddit_scraper.py:195-334 | the appends to `parts`, joined, give `ScrapingPrompt(..)` |
| Reddit.PromptText | src/claude_code_comfyui_nodes/claude_reddit_scraper.py:205-334 | the prompt is the chosen sections, in source order: memory, command, posts, comments, subreddit metadata, data processing, output |
| Reddit.MemoryPresent | src/claude_code_comfyui_nodes/claude_reddit_scraper.py:208-211 | the memory section is a part iff memory is non-empty |
| Reddit.PostsPresent | src/claude_code_comfyui_nodes/claude_reddit_scraper.py:222-235 | the Posts section is a part iff the mode is posts or both |
| Reddit.PostsMetadata | src/claude_code_comfyui_nodes/claude_reddit_scraper.py:228-235 | the metadata bullets follow the post fields only when `include_metadata` |
| Reddit.CommentsPresent | src/claude_code_comfyui_nodes/claude_reddit_scraper.py:237-259 | the Comments section is a part iff the mode is comments or both |
| Reddit.CommentsDepth | src/claude_code_comfyui_nodes/claude_reddit_scraper.py:246 | the Comments section names `max_comment_depth` |
| Reddit.SubredditPresent | src/claude_code_comfyui_nodes/claude_reddit_scraper.py:261-268 | the Subreddit Metadata section is a part iff the mode is metadata |
| Reddit.PromptOpensWithMemory | src/claude_code_comfyui_nodes/claude_reddit_scraper.py:208-214 | with memory, the prompt opens with the memory section and then `# Command\n` |
| Reddit.PromptOpensWithCommand | src/claude_code_comfyui_nodes/claude_reddit_scraper.py:213-215 | without memory, the prompt opens with `# Command\n` and the line naming the URL |
| Reddit.PromptClosing | src/claude_code_comfyui_nodes/claude_reddit_scraper.py:319-334 | the prompt names the output folder for `reddit_data.json` and ends with the closing line |
| Reddit.Len | src/claude_code_comfyui_nodes/claude_reddit_scraper.py:362-366 | `len()` succeeds exactly on lists, dicts and strings |
| Reddit.ReadScrapedData | src/claude_code_comfyui_nodes/claude_reddit_scraper.py:345-387 | the step-by-step reassignments give `ReadScraped(..)` |
| Reddit.ReadDataFile | src/claude_code_comfyui_nodes/claude_reddit_scraper.py:351-371 | the data-file half gives `DataAndCount(..)` |
| Reddit.SummaryAgreesWithCount | src/claude_code_comfyui_nodes/claude_reddit_scraper.py:381-387 | a positive count never comes with a `No data` summary; a zero count keeps the summary read; a positive count keeps a summary that does not start with `No data` |
| Reddit.ScrapedParts | src/claude_code_comfyui_nodes/claude_reddit_scraper.py:345-387 | the data and the item count never depend on the summary file: they are what the data file gives |
| Reddit.CountMissing | src/claude_code_comfyui_nodes/claude_reddit_scraper.py:347-353 | no data file: the empty dict, no items, the summary read |
| Reddit.CountFailed | src/claude_code_comfyui_nodes/claude_reddit_scraper.py:369-370 | an unreadable or undecodable data file: the error dict and no items |
| Reddit.CountList | src/claude_code_comfyui_nodes/claude_reddit_scraper.py:359-360 | a list counts its entries |
| Reddit.CountPosts | src/claude_code_comfyui_nodes/claude_reddit_scraper.py:361-363 | a dict with `posts` counts that entry; an entry without a length gives the error dict and no items |
| Reddit.CountData | src/claude_code_comfyui_nodes/claude_reddit_scraper.py:364-365 | otherwise a dict with `data` counts that entry, with the same failure case |
| Reddit.CountOtherDict | src/claude_code_comfyui_nodes/claude_reddit_scraper.py:366-367 | any other dict is one item |
| Reddit.CountScalar | src/claude_code_comfyui_nodes/claude_reddit_scraper.py:358-367 | a scalar JSON value is kept and counts nothing |
| Reddit.ScrapeArgvShape | src/claude_code_comfyui_nodes/claude_reddit_scraper.py:436-447 | the argv is `claude -p --max-turns 15 --allowedTools mcp__playwright --dangerously-skip-permissions`, followed by `--model m` iff the model is not "default" |
| Strings.Strip | src/claude_code_comfyui_nodes/claude_code_tools.py:78 | `strip()` leaves no surrounding whitespace and invents no character; it is empty iff the input is blank; a stripped string is unchanged |
| Strings.TrimStart | src/claude_code_comfyui_nodes/claude_reddit_scraper.py:180 | `lstrip(chars)` drops a leading run of characters from `chars` and stops at the first character not in it |
| Strings.JoinSplit | src/claude_code_comfyui_nodes/claude_code_execute.py:247 | joining the pieces of a split with the separator gives the text back |
| Strings.SplitJoin | src/claude_code_comfyui_nodes/claude_code_tools.py:107 | splitting comma-free pieces joined with a comma gives the pieces back |
| Strings.SplitTwo | src/claude_code_comfyui_nodes/claude_code_execute.py:247 | a text that splits into two parts is the first part, the separator, then the second, and neither part holds the separator |
| Strings.SplitOnce | src/claude_code_comfyui_nodes/claude_code_execute.py:247 | a text holding the separator once splits into the two sides |
| Strings.Find | src/claude_code_comfyui_nodes/claude_code_execute.py:246-247 | the first occurrence of a pattern; none iff the pattern does not occur |
| Strings.ReplaceOnce | src/claude_code_comfyui_nodes/claude_code_execute.py:107 | `replace` on a text with a single occurrence replaces exactly that occurrence |
| Strings.ReplaceAbsent | src/claude_code_comfyui_nodes/claude_code_execute.py:107 | `replace` of a pattern that does not occur changes nothing |
| Strings.Lower | src/claude_code_comfyui_nodes/claude_code_execute.py:248 | `lower()` keeps the length and lowers each character |
| Strings.Take | src/claude_code_comfyui_nodes/claude_code_reader.py:87 | `s[:n]` is a prefix of length `min(n, len(s))`, counted from the end for a negative `n` |
| Ordering.SortedOf | src/claude_code_comfyui_nodes/claude_code_tools.py:106 | `sorted(set)` is strictly sorted, holds exactly the set's elements and has its size |
| Ordering.SortedUnique | src/claude_code_comfyui_nodes/claude_code_tools.py:106 | two strictly sorted lists with the same elements are equal, so the sorted list is unique |
| Ordering.StrLessIsStrictTotal | src/claude_code_comfyui_nodes/claude_code_tools.py:106 | Python's string order, code point by code point, is a strict total order |

## Left out

- Subprocess calls (`claude`, `claude mcp ...`): the model takes their outcome
  as input (exit code, stdout, stderr, or an exception message).
- File system I/O (`exists`, `open`, `glob`, `stat`, `makedirs`): as inputs.
  - A folder is a list of records (relative path, size, text or read error).
  - The reader's glob results come in glob order, with `file_pattern` already
    applied.
  - The context node's recursive glob is approximated as a suffix test on the
    relative path.
  - `os.path.join` and `relpath` are not modelled; the resulting paths are
    given.
- Output-folder names (`output_<time>_<uuid>`, `reddit_scrape_<time>_<uuid>`):
  they need the clock and `uuid4`, so the folder name and path are inputs.
- JSON text: decoding is given as a decoded value or an error message.
  `json.dumps` with its indentation is not modelled: the arguments node is
  modelled up to the value it serialises, and the metadata text is a string
  input. `Json.Repr` leaves out string escaping.
- Progress messages (`PromptServer`) are not modelled, with one exception: the
  created-files line, which the model returns as `createdNote`.
- Durations and `isoformat` timestamps. `RunMetadata` leaves out the
  `execution_time` and `timestamp` keys of a completed run. The error metadata
  leaves out `timestamp`.
- The MCP node, node registration and the UI schema: they are not part of this
  model.
- The orchestration in `scrape_reddit` is not modelled, beyond the argv: it
  consists of MCP setup via the CLI, the folder, the run and the metadata file.
- Python `len` and slicing count code points; the model counts `char`s. There
  is no Unicode case mapping: `lower()` maps only A-Z.
- The fixed wording of the Reddit prompt. The sections take their text from a
  `Wording` value, and `Reddit.SourceWording` holds the node's own text. The
  section lemmas are proved for every wording.
- Reddit.SubredditNameShape: the name is characterised by its shape. The
  literal result for the node's default inputs is not computed.
- Execute.ParseConfigText: it holds only when no tool name contains
  `|skip_permissions:`. Otherwise the source's own unpacking raises; that case
  is modelled, and `Execute.ParseTools` states when it happens.
- JSON numbers are integers only. Floats, their `str()` text when an argument
  value is substituted into the prompt, and `len()` applied to a float
  `posts` or `data` value of the scraped data are not modelled.
- Execute.Finish: after a completed run, failures of the metadata `json.dump`,
  of the raw-output writes and of `Path.glob` are not modelled. The source
  turns them into `Execution error: ...` as well; in the model only a failed
  subprocess run gives the error outcome.
- Reader.ExtensionShape: stated for the relative path. `splitext` on the
  absolute path gives the same extension, because the base name is the same.

## Findings

| source | as written | input that shows it | evidently intended | confidence | as-written member | corrected member |
|---|---|---|---|---|---|---|
| src/claude_code_comfyui_nodes/claude_reddit_scraper.py:180 | `source.strip().lstrip("/r/")` removes every leading `/` and `r` character | subreddit `rust` gives `https://reddit.com/r/ust/...` | remove a leading `/r/` or `r/` prefix only | high, not executed | Reddit.RustLosesLetter | Reddit.IntendedRust |
| src/claude_code_comfyui_nodes/claude_reddit_scraper.py:190 | `lstrip("/u/").lstrip("u/")` removes every leading `/` and `u` character | user `ulysses` gives `https://reddit.com/user/lysses` | remove a leading `/u/` or `u/` prefix only | high, not executed | Reddit.UserLosesLetter | Reddit.IntendedKeepsName |
