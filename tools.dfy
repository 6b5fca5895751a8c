/** The tool-permission node (`ClaudeCodeTools.configure_tools`): a preset's
    tools, the on/off toggles of the "none" preset, added and removed tools,
    sorted and joined into the string the execute node reads back. */
module Tools {
  import opened Wrappers
  import opened Strings
  import opened Ordering

  /** Separates the tool list from the permission flag in the tools string. */
  const SkipMarker: string := "|skip_permissions:"

  /** `PRESETS`, each entry as the tools its comma-separated string names. */
  function PresetNames(preset: string): Option<seq<string>> {
    if preset == "all" then
      Some(["Read", "Write", "Edit", "MultiEdit", "Bash", "Grep", "Glob", "LS", "WebFetch", "WebSearch"])
    else if preset == "read_only" then Some(["Read", "Grep", "Glob", "LS"])
    else if preset == "file_ops" then Some(["Read", "Write", "Edit", "MultiEdit", "Grep", "Glob", "LS"])
    else if preset == "code_dev" then Some(["Read", "Write", "Edit", "MultiEdit", "Bash", "Grep", "Glob", "LS"])
    else if preset == "web" then Some(["WebFetch", "WebSearch"])
    else if preset == "minimal" then Some(["Read", "Write"])
    else if preset == "none" then Some([])
    else None
  }

  /** `PRESETS.get(preset, "")`. */
  function PresetText(preset: string): string {
    match PresetNames(preset)
    case Some(names) => Join(names, ",")
    case None => ""
  }

  /** A usable tool name: not blank, no surrounding whitespace, no comma. */
  predicate WellFormedName(t: string) {
    |t| > 0 && IsStripped(t) && ',' !in t
  }

  /** The stripped pieces that are not blank, in order. */
  function NonBlankStripped(parts: seq<string>): (r: seq<string>)
    ensures forall k :: 0 <= k < |r| ==> |r[k]| > 0 && IsStripped(r[k])
    ensures |r| <= |parts|
    decreases |parts|
  {
    if |parts| == 0 then []
    else
      var t := Strip(parts[0]);
      var rest := NonBlankStripped(parts[1..]);
      if |t| == 0 then rest else [t] + rest
  }

  /** A character no piece contains is in no entry either. */
  lemma {:induction false} NonBlankStrippedAvoids(parts: seq<string>, c: char)
    requires forall j :: 0 <= j < |parts| ==> c !in parts[j]
    ensures forall k :: 0 <= k < |NonBlankStripped(parts)| ==> c !in NonBlankStripped(parts)[k]
    decreases |parts|
  {
    if |parts| > 0 {
      NonBlankStrippedAvoids(parts[1..], c);
    }
  }

  /** `[t.strip() for t in s.split(",") if t.strip()]`. */
  function Entries(s: string): (r: seq<string>)
    ensures forall k :: 0 <= k < |r| ==> WellFormedName(r[k])
  {
    SplitNoComma(s);
    NonBlankStripped(Split(s, ","))
  }

  lemma SplitNoComma(s: string)
    ensures forall k :: 0 <= k < |NonBlankStripped(Split(s, ","))| ==> ',' !in NonBlankStripped(Split(s, ","))[k]
  {
    var parts := Split(s, ",");
    SplitAvoids(s, ",");
    forall j | 0 <= j < |parts| ensures ',' !in parts[j] {
      ContainsChar(parts[j], ',');
    }
    NonBlankStrippedAvoids(parts, ',');
  }

  /** `set(t.strip() for t in s.split(",") if t.strip())`. */
  function NameSet(s: string): (r: set<string>)
    ensures forall t :: t in r ==> WellFormedName(t)
  {
    set t | t in Entries(s)
  }

  /** The option switches of the node, in its order. */
  datatype Toggles = Toggles(fileRead: bool, fileWrite: bool, fileEdit: bool,
                             bash: bool, search: bool, web: bool)

  /** The switches applied, one after the other, to the set `s`. */
  function WithToggles(s: set<string>, t: Toggles): set<string> {
    var s1 := if t.fileRead then s + {"Read", "LS"} else s;
    var s2 := if t.fileWrite then s1 + {"Write"} else s1;
    var s3 := if t.fileEdit then s2 + {"Edit", "MultiEdit"} else s2;
    var s4 := if t.bash then s3 + {"Bash"} else s3;
    var s5 := if t.search then s4 + {"Grep", "Glob"} else s4;
    if t.web then s5 + {"WebFetch", "WebSearch"} else s5
  }

  /** The preset's tools; an unknown preset has none. */
  function BaseTools(preset: string): set<string> {
    NameSet(PresetText(preset))
  }

  /** The tools the node allows, as a set. */
  function ResolvedTools(preset: string, customTools: string, removeTools: string, toggles: Toggles): set<string> {
    var base := BaseTools(preset);
    ((if preset == "none" then WithToggles(base, toggles) else base) + NameSet(customTools))
    - NameSet(removeTools)
  }

  /** `sorted(tools)`. */
  function SortedNames(tools: set<string>): (r: seq<string>)
    ensures StrictlySorted(r, StrLess)
    ensures forall t :: t in r <==> t in tools
    ensures |r| == |tools|
  {
    StrLessIsStrictTotal();
    SortedOf(tools, StrLess)
  }

  /** The `tools_list` output. */
  function ListText(tools: set<string>): string {
    Join(SortedNames(tools), ",")
  }

  /** The `tools` output: the list, the marker and Python's `str` of the flag. */
  function ConfigText(tools: set<string>, skipPermissions: bool): string {
    ListText(tools) + SkipMarker + BoolToString(skipPermissions)
  }

  /** `configure_tools`: the set is built up in place, then sorted and joined. */
  method ConfigureTools(preset: string, customTools: string, removeTools: string,
                        toggles: Toggles, skipPermissions: bool)
    returns (toolsConfig: string, toolsList: string, skip: bool)
    ensures toolsList == ListText(ResolvedTools(preset, customTools, removeTools, toggles))
    ensures toolsConfig == toolsList + SkipMarker + BoolToString(skipPermissions)
    ensures toolsConfig == ConfigText(ResolvedTools(preset, customTools, removeTools, toggles), skipPermissions)
    ensures skip == skipPermissions
  {
    var toolsSet := BaseTools(preset);
    if preset == "none" {
      toolsSet := ApplyToggles(toolsSet, toggles);
    }
    ghost var toggled := toolsSet;
    if |customTools| > 0 {
      toolsSet := toolsSet + NameSet(customTools);
    }
    ghost var added := toolsSet;
    if |removeTools| > 0 {
      toolsSet := toolsSet - NameSet(removeTools);
    }
    ResolvedSteps(preset, customTools, removeTools, toggles, toggled, added, toolsSet);
    toolsList := Join(SortedNames(toolsSet), ",");
    toolsConfig := toolsList + SkipMarker + BoolToString(skipPermissions);
    skip := skipPermissions;
  }

  /** The updates of `configure_tools`, one after the other, give `ResolvedTools`. */
  lemma ResolvedSteps(preset: string, customTools: string, removeTools: string, toggles: Toggles,
                      toggled: set<string>, added: set<string>, result: set<string>)
    requires toggled == if preset == "none" then WithToggles(BaseTools(preset), toggles) else BaseTools(preset)
    requires added == if |customTools| > 0 then toggled + NameSet(customTools) else toggled
    requires result == if |removeTools| > 0 then added - NameSet(removeTools) else added
    ensures result == ResolvedTools(preset, customTools, removeTools, toggles)
  {
    UnionBlank(customTools, toggled, added);
    DifferenceBlank(removeTools, added, result);
  }

  lemma UnionBlank(s: string, before: set<string>, after: set<string>)
    requires after == if |s| > 0 then before + NameSet(s) else before
    ensures after == before + NameSet(s)
  {
    if |s| == 0 {
      EmptyNameSet(s);
      UnionEmpty(before, NameSet(s));
    }
  }

  lemma DifferenceBlank(s: string, before: set<string>, after: set<string>)
    requires after == if |s| > 0 then before - NameSet(s) else before
    ensures after == before - NameSet(s)
  {
    if |s| == 0 {
      EmptyNameSet(s);
      UnionEmpty(before, NameSet(s));
    }
  }

  lemma UnionEmpty(a: set<string>, b: set<string>)
    requires b == {}
    ensures a + b == a && a - b == a
  {
  }

  /** The switches of the "none" preset, each adding its tools in place. */
  method ApplyToggles(tools: set<string>, toggles: Toggles) returns (toolsSet: set<string>)
    ensures toolsSet == WithToggles(tools, toggles)
  {
    toolsSet := tools;
    if toggles.fileRead {
      toolsSet := toolsSet + {"Read", "LS"};
    }
    if toggles.fileWrite {
      toolsSet := toolsSet + {"Write"};
    }
    if toggles.fileEdit {
      toolsSet := toolsSet + {"Edit", "MultiEdit"};
    }
    if toggles.bash {
      toolsSet := toolsSet + {"Bash"};
    }
    if toggles.search {
      toolsSet := toolsSet + {"Grep", "Glob"};
    }
    if toggles.web {
      toolsSet := toolsSet + {"WebFetch", "WebSearch"};
    }
  }

  lemma EmptyNameSet(s: string)
    requires |s| == 0
    ensures |Entries(s)| == 0
    ensures NameSet(s) == {}
  {
    assert Split(s, ",") == [s];
    assert |Strip(s)| == 0;
    assert NonBlankStripped([s]) == NonBlankStripped([s][1..]);
  }

  lemma {:induction false} NonBlankStrippedOfNames(names: seq<string>)
    requires forall k :: 0 <= k < |names| ==> |names[k]| > 0 && IsStripped(names[k])
    ensures NonBlankStripped(names) == names
    decreases |names|
  {
    if |names| > 0 {
      NonBlankStrippedOfNames(names[1..]);
      assert names == [names[0]] + names[1..];
    }
  }

  /** Well-formed names written with commas read back as the same names. */
  lemma EntriesOfJoin(names: seq<string>)
    requires forall k :: 0 <= k < |names| ==> WellFormedName(names[k])
    ensures Entries(Join(names, ",")) == names
  {
    if |names| == 0 {
      EmptyNameSet([]);
    } else {
      SplitJoin(names, ',');
      assert Split(Join(names, ","), ",") == names;
      NonBlankStrippedOfNames(names);
    }
  }

  /** A single well-formed name is a one-tool list. */
  lemma SingleName(name: string)
    requires WellFormedName(name)
    ensures NameSet(name) == {name}
  {
    assert Join([name], ",") == name;
    EntriesOfJoin([name]);
  }

  /** Every tool name a preset or a switch can contribute. */
  const BuiltinTools: set<string> :=
    {"Read", "Write", "Edit", "MultiEdit", "Bash", "Grep", "Glob", "LS", "WebFetch", "WebSearch"}

  lemma BuiltinToolsWellFormed()
    ensures forall t :: t in BuiltinTools ==> WellFormedName(t)
  {
  }

  lemma BuiltinToolsShort()
    ensures forall t :: t in BuiltinTools ==> |t| < |SkipMarker|
  {
  }

  lemma PresetNamesBuiltin(preset: string)
    ensures PresetNames(preset).Some? ==>
      forall k :: 0 <= k < |PresetNames(preset).value| ==> PresetNames(preset).value[k] in BuiltinTools
  {
  }

  /** The tools of each preset; an unknown preset gives the empty set, not an error. */
  lemma PresetTools(preset: string)
    ensures PresetNames(preset).Some? ==> BaseTools(preset) == set t | t in PresetNames(preset).value
    ensures PresetNames(preset).None? ==> BaseTools(preset) == {}
    ensures BaseTools(preset) <= BuiltinTools
  {
    PresetNamesBuiltin(preset);
    match PresetNames(preset)
    case None =>
      EmptyNameSet([]);
    case Some(names) =>
      BuiltinNamesTools(names);
  }

  /** Built-in names written with commas name exactly those tools. */
  lemma BuiltinNamesTools(names: seq<string>)
    requires forall k :: 0 <= k < |names| ==> names[k] in BuiltinTools
    ensures NameSet(Join(names, ",")) == set t | t in names
  {
    BuiltinToolsWellFormed();
    EntriesOfJoin(names);
  }

  /** The tools the switches turn on, on their own. */
  function ToggledTools(toggles: Toggles): set<string> {
    WithToggles({}, toggles)
  }

  lemma WithTogglesUnion(s: set<string>, toggles: Toggles)
    ensures WithToggles(s, toggles) == s + ToggledTools(toggles)
    ensures ToggledTools(toggles) <= BuiltinTools
  {
  }

  /** `file_read` turns on both Read and LS, `web` both WebFetch and WebSearch. */
  lemma ToggleExamples()
    ensures ToggledTools(Toggles(true, false, false, false, false, false)) == {"Read", "LS"}
    ensures ToggledTools(Toggles(false, false, false, false, false, true)) == {"WebFetch", "WebSearch"}
    ensures ToggledTools(Toggles(false, false, true, false, false, false)) == {"Edit", "MultiEdit"}
    ensures ToggledTools(Toggles(false, false, false, false, true, false)) == {"Grep", "Glob"}
  {
  }

  /** Which tools the node allows: those of the preset, of the switches (only for
      the "none" preset) and of `custom_tools`, less those of `remove_tools`. */
  lemma ResolvedMembers(preset: string, customTools: string, removeTools: string, toggles: Toggles, t: string)
    ensures t in ResolvedTools(preset, customTools, removeTools, toggles) <==>
      (t in BaseTools(preset) || (preset == "none" && t in ToggledTools(toggles)) || t in NameSet(customTools))
      && t !in NameSet(removeTools)
  {
    WithTogglesUnion(BaseTools(preset), toggles);
  }

  /** The switches matter only for the "none" preset. */
  lemma TogglesOnlyForNone(preset: string, customTools: string, removeTools: string, t1: Toggles, t2: Toggles)
    requires preset != "none"
    ensures ResolvedTools(preset, customTools, removeTools, t1) == ResolvedTools(preset, customTools, removeTools, t2)
  {
  }

  /** Every resolved tool is a usable name and, unless `custom_tools` supplied it,
      a built-in one. */
  lemma ResolvedWellFormed(preset: string, customTools: string, removeTools: string, toggles: Toggles)
    ensures forall t :: t in ResolvedTools(preset, customTools, removeTools, toggles) ==>
      WellFormedName(t) && (t in BuiltinTools || t in NameSet(customTools))
  {
    WithTogglesUnion(BaseTools(preset), toggles);
    PresetTools(preset);
    BuiltinToolsWellFormed();
  }

  /** `tools_list`, split on commas and stripped, gives back the sorted tools. */
  lemma ListTextEntries(tools: set<string>)
    requires forall t :: t in tools ==> WellFormedName(t)
    ensures Entries(ListText(tools)) == SortedNames(tools)
  {
    var names := SortedNames(tools);
    assert forall k :: 0 <= k < |names| ==> names[k] in tools;
    EntriesOfJoin(names);
  }

  /** What `tools_list` lists: strictly sorted (so no duplicates), usable names,
      exactly the resolved tools. Removal wins over the preset and the additions. */
  lemma ToolsListContents(preset: string, customTools: string, removeTools: string, toggles: Toggles)
    ensures var names := Entries(ListText(ResolvedTools(preset, customTools, removeTools, toggles)));
      && StrictlySorted(names, StrLess)
      && (forall k :: 0 <= k < |names| ==> WellFormedName(names[k]))
      && (forall t :: t in names <==>
            (t in BaseTools(preset) || (preset == "none" && t in ToggledTools(toggles)) || t in NameSet(customTools))
            && t !in NameSet(removeTools))
  {
    var tools := ResolvedTools(preset, customTools, removeTools, toggles);
    ResolvedWellFormed(preset, customTools, removeTools, toggles);
    ListTextEntries(tools);
    forall t ensures t in tools <==>
      (t in BaseTools(preset) || (preset == "none" && t in ToggledTools(toggles)) || t in NameSet(customTools))
      && t !in NameSet(removeTools)
    {
      ResolvedMembers(preset, customTools, removeTools, toggles, t);
    }
  }

  /** A tool named in `remove_tools` is never allowed. */
  lemma RemovalWins(preset: string, customTools: string, removeTools: string, toggles: Toggles, t: string)
    requires t in NameSet(removeTools)
    ensures t !in Entries(ListText(ResolvedTools(preset, customTools, removeTools, toggles)))
  {
    ToolsListContents(preset, customTools, removeTools, toggles);
  }

  /** A tool named in `custom_tools` and not removed is always allowed. */
  lemma CustomToolsKept(preset: string, customTools: string, removeTools: string, toggles: Toggles, t: string)
    requires t in NameSet(customTools) && t !in NameSet(removeTools)
    ensures t in Entries(ListText(ResolvedTools(preset, customTools, removeTools, toggles)))
  {
    ToolsListContents(preset, customTools, removeTools, toggles);
  }

  /** Listing the custom tools in another order, or repeating one, changes nothing. */
  lemma CustomOrderIrrelevant(preset: string, xs: seq<string>, ys: seq<string>, removeTools: string, toggles: Toggles)
    requires |xs| > 0 && |ys| > 0
    requires forall k :: 0 <= k < |xs| ==> ',' !in xs[k]
    requires forall k :: 0 <= k < |ys| ==> ',' !in ys[k]
    requires forall x :: x in xs <==> x in ys
    ensures ResolvedTools(preset, Join(xs, ","), removeTools, toggles)
         == ResolvedTools(preset, Join(ys, ","), removeTools, toggles)
  {
    SplitJoin(xs, ',');
    SplitJoin(ys, ',');
    assert Split(Join(xs, ","), ",") == xs;
    assert Split(Join(ys, ","), ",") == ys;
    NonBlankStrippedSameSet(xs, ys);
  }

  lemma {:induction false} NonBlankStrippedMembers(parts: seq<string>, t: string)
    ensures t in NonBlankStripped(parts) <==> exists j :: 0 <= j < |parts| && |Strip(parts[j])| > 0 && t == Strip(parts[j])
    decreases |parts|
  {
    if |parts| > 0 {
      NonBlankStrippedMembers(parts[1..], t);
      if t in NonBlankStripped(parts[1..]) {
        var j :| 0 <= j < |parts[1..]| && |Strip(parts[1..][j])| > 0 && t == Strip(parts[1..][j]);
        assert parts[j + 1] == parts[1..][j];
      }
      if exists j :: 0 <= j < |parts| && |Strip(parts[j])| > 0 && t == Strip(parts[j]) {
        var j :| 0 <= j < |parts| && |Strip(parts[j])| > 0 && t == Strip(parts[j]);
        if j > 0 {
          assert parts[1..][j - 1] == parts[j];
        }
      }
    }
  }

  lemma NonBlankStrippedSameSet(xs: seq<string>, ys: seq<string>)
    requires forall x :: x in xs <==> x in ys
    ensures forall t :: t in NonBlankStripped(xs) <==> t in NonBlankStripped(ys)
  {
    forall t ensures t in NonBlankStripped(xs) <==> t in NonBlankStripped(ys) {
      NonBlankStrippedMembers(xs, t);
      NonBlankStrippedMembers(ys, t);
      if t in NonBlankStripped(xs) {
        var j :| 0 <= j < |xs| && |Strip(xs[j])| > 0 && t == Strip(xs[j]);
        assert xs[j] in ys;
        var i :| 0 <= i < |ys| && ys[i] == xs[j];
      }
      if t in NonBlankStripped(ys) {
        var j :| 0 <= j < |ys| && |Strip(ys[j])| > 0 && t == Strip(ys[j]);
        assert ys[j] in xs;
        var i :| 0 <= i < |xs| && xs[i] == ys[j];
      }
    }
  }

  /** `read_only` with Write both added and removed allows exactly Glob, Grep, LS, Read. */
  lemma ReadOnlyExample(preset: string, name: string, toggles: Toggles, skip: bool)
    requires preset == "read_only" && name == "Write"
    ensures ListText(ResolvedTools(preset, name, name, toggles)) == "Glob,Grep,LS,Read"
    ensures ConfigText(ResolvedTools(preset, name, name, toggles), skip)
         == "Glob,Grep,LS,Read" + SkipMarker + (if skip then "True" else "False")
  {
    var tools := ResolvedTools(preset, name, name, toggles);
    var sorted := ["Glob", "Grep", "LS", "Read"];
    ReadOnlyTools(preset, name, toggles);
    ReadOnlySorted();
    assert ListText(tools) == Join(sorted, ",");
    ReadOnlyText();
  }

  lemma ReadOnlyText()
    ensures Join(["Glob", "Grep", "LS", "Read"], ",") == "Glob,Grep,LS,Read"
  {
    JoinFour("Glob", "Grep", "LS", "Read", ",");
  }

  lemma JoinFour(a: string, b: string, c: string, d: string, sep: string)
    ensures Join([a, b, c, d], sep) == a + sep + b + sep + c + sep + d
  {
    assert [c, d][1..] == [d];
    assert Join([c, d], sep) == c + sep + d;
    assert [b, c, d][1..] == [c, d];
    assert Join([b, c, d], sep) == b + sep + c + sep + d;
    assert [a, b, c, d][1..] == [b, c, d];
  }

  lemma ReadOnlyTools(preset: string, name: string, toggles: Toggles)
    requires preset == "read_only" && name == "Write"
    ensures ResolvedTools(preset, name, name, toggles) == {"Read", "Grep", "Glob", "LS"}
  {
    AddThenRemove({"Read", "Grep", "Glob", "LS"}, name);
    ReadOnlyBase(preset);
    WriteName(name);
  }

  lemma WriteName(name: string)
    requires name == "Write"
    ensures NameSet(name) == {name}
  {
    BuiltinToolsWellFormed();
    SingleName(name);
  }

  lemma ReadOnlyBase(preset: string)
    requires preset == "read_only"
    ensures BaseTools(preset) == {"Read", "Grep", "Glob", "LS"}
  {
    PresetTools(preset);
    FourNames("Read", "Grep", "Glob", "LS");
  }

  lemma FourNames(a: string, b: string, c: string, d: string)
    ensures (set t | t in [a, b, c, d]) == {a, b, c, d}
  {
  }

  lemma AddThenRemove(s: set<string>, x: string)
    requires x !in s
    ensures (s + {x}) - {x} == s
  {
  }

  lemma ReadOnlySorted()
    ensures SortedNames({"Read", "Grep", "Glob", "LS"}) == ["Glob", "Grep", "LS", "Read"]
  {
    var sorted := ["Glob", "Grep", "LS", "Read"];
    StrLessIsStrictTotal();
    assert StrLess("Glob", "Grep") && StrLess("Grep", "LS") && StrLess("LS", "Read");
    SortedByNeighbours(sorted, StrLess);
    SortedUnique(SortedNames({"Read", "Grep", "Glob", "LS"}), sorted, StrLess);
  }
}
