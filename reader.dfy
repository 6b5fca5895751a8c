/** The reader node (`ClaudeCodeReader.read_output`): it lists and reads the
    files of an output folder. The folder is an input: whether it exists, its
    metadata file, and the files the glob pattern matches, in glob order. */
module Reader {
  import opened Wrappers
  import opened Strings
  import opened Folders

  /** An entry of the `file_list` output: the dict with keys `path`, `size` and
      `type`. */
  datatype FileInfo = FileInfo(path: string, size: nat, kind: string)

  /** The three outputs of the node. */
  datatype Outputs = Outputs(fileContents: string, fileList: seq<FileInfo>, metadata: string)

  /** The folder as the node sees it. */
  datatype OutputFolder = OutputFolder(present: bool, metadata: FileRead, matches: seq<FileRecord>)

  // ---------------------------------------------------------------------------
  // File names

  /** Position of the last `.` in `s`. */
  function LastDot(s: string): (r: Option<nat>)
    ensures r.Some? ==> r.value < |s| && s[r.value] == '.' && '.' !in s[r.value + 1..]
    ensures r.None? ==> '.' !in s
    decreases |s|
  {
    if |s| == 0 then None
    else if s[|s| - 1] == '.' then Some(|s| - 1)
    else
      match LastDot(s[..|s| - 1])
      case None => (assert s == s[..|s| - 1] + [s[|s| - 1]]; None)
      case Some(d) => (assert s[d + 1..] == s[..|s| - 1][d + 1..] + [s[|s| - 1]]; Some(d))
  }

  /** `os.path.splitext(path)[1]`: the file name from its last dot on, unless
      only dots come before that dot. */
  function Extension(path: string): string {
    var name := Basename(path);
    match LastDot(name)
    case None => ""
    case Some(d) => if forall i :: 0 <= i < d ==> name[i] == '.' then "" else name[d..]
  }

  /** An extension is a dot and what follows the last dot of the base name, and
      a base name without a dot has none. */
  lemma ExtensionShape(path: string)
    ensures var r := Extension(path);
      && (|r| > 0 ==> r[0] == '.' && '.' !in r[1..] && '/' !in r && EndsWith(path, r))
      && ('.' !in Basename(path) ==> |r| == 0)
  {
    var name := Basename(path);
    match LastDot(name)
    case None =>
    case Some(d) =>
      if !(forall i :: 0 <= i < d ==> name[i] == '.') {
        DotSuffix(path, name, d);
      }
  }

  /** The part of a base name from its last dot on is a dot-led suffix of the path. */
  lemma DotSuffix(path: string, name: string, d: nat)
    requires '/' !in name && EndsWith(path, name)
    requires d < |name| && name[d] == '.' && '.' !in name[d + 1..]
    ensures var e := name[d..]; e[0] == '.' && '.' !in e[1..] && '/' !in e && EndsWith(path, e)
  {
    assert name[d..][1..] == name[d + 1..];
    assert forall c :: c in name[d..] ==> c in name;
    assert path[|path| - |name|..][|name| - |name[d..]|..] == path[|path| - |name[d..]|..];
  }

  /** Whether a matched path survives the metadata filter. */
  predicate Visible(r: FileRecord) {
    !EndsWith(r.relPath, MetadataName)
  }

  /** `[f for f in files if not f.endswith(...)]`. */
  function VisibleFiles(matches: seq<FileRecord>): (r: seq<FileRecord>)
    ensures |r| <= |matches|
    ensures forall x :: x in r <==> x in matches && Visible(x)
  {
    if |matches| == 0 then []
    else
      var rest := VisibleFiles(matches[1..]);
      assert forall x :: x in matches <==> x == matches[0] || x in matches[1..];
      if Visible(matches[0]) then [matches[0]] + rest else rest
  }

  function Info(r: FileRecord): FileInfo {
    FileInfo(r.relPath, r.size, Extension(r.relPath))
  }

  function Infos(rs: seq<FileRecord>): (r: seq<FileInfo>)
    ensures |r| == |rs|
  {
    seq(|rs|, k requires 0 <= k < |rs| => Info(rs[k]))
  }

  // ---------------------------------------------------------------------------
  // The read modes

  function Line(info: FileInfo): string {
    "- " + info.path + " (" + NatToString(info.size) + " bytes)\n"
  }

  /** `file_contents` of list_files mode after the loop: the header, then `+=`
      one line per entry. */
  function Listing(header: string, infos: seq<FileInfo>): string
    decreases |infos|
  {
    if |infos| == 0 then header else Listing(header, infos[..|infos| - 1]) + Line(infos[|infos| - 1])
  }

  /** One file of read_all mode. */
  function Section(r: FileRecord): string {
    match r.content
    case Ok(text) => "=== " + r.relPath + " ===\n" + text + "\n"
    case Raised(message) => "=== " + r.relPath + " ===\n" + ("Error reading file: " + message) + "\n"
  }

  function Sections(rs: seq<FileRecord>): (r: seq<string>)
    ensures |r| == |rs|
  {
    seq(|rs|, k requires 0 <= k < |rs| => Section(rs[k]))
  }

  /** read_specific mode: what opening the named file finds. */
  function SpecificText(specificFile: string, specific: FileRead): string {
    match specific
    case NotFound => "File '" + specificFile + "' not found in output folder"
    case Content(text) => text
    case Unreadable(message) => "Error reading file: " + message
  }

  /** The files the node handles: the first `max_files` that pass the filter. */
  function Shown(folder: OutputFolder, maxFiles: int): seq<FileRecord> {
    Take(VisibleFiles(folder.matches), maxFiles)
  }

  /** What `read_output` returns, or the exception reading the metadata raises.
      `specific` is what opening `specific_file` in the folder finds. */
  function ReadOutcome(outputFolder: string, readMode: string, specificFile: string, maxFiles: int,
                       folder: OutputFolder, specific: FileRead): (r: Result<Outputs>)
  {
    if !folder.present then Ok(Outputs("Error: Output folder '" + outputFolder + "' not found", [], ""))
    else if folder.metadata.Unreadable? then Raised(folder.metadata.message)
    else
      var shown := Shown(folder, maxFiles);
      var infos := Infos(shown);
      var text :=
        if readMode == "list_files" then Listing("Files in " + outputFolder + ":\n", infos)
        else if readMode == "read_all" then Join(Sections(shown), "\n")
        else if readMode == "read_specific" && |specificFile| > 0 then SpecificText(specificFile, specific)
        else "";
      Ok(Outputs(text, infos, if folder.metadata.Content? then folder.metadata.text else ""))
  }

  // ---------------------------------------------------------------------------
  // The node

  /** `read_output`. */
  method ReadOutput(outputFolder: string, readMode: string, specificFile: string, maxFiles: int,
                    folder: OutputFolder, specific: FileRead)
    returns (r: Result<Outputs>)
    ensures r == ReadOutcome(outputFolder, readMode, specificFile, maxFiles, folder, specific)
  {
    if !folder.present {
      return Ok(Outputs("Error: Output folder '" + outputFolder + "' not found", [], ""));
    }
    var metadata := "";
    if folder.metadata.Unreadable? {
      return Raised(folder.metadata.message);
    } else if folder.metadata.Content? {
      metadata := folder.metadata.text;
    }
    var shown := Take(VisibleFiles(folder.matches), maxFiles);
    var fileList := ListInfos(shown);
    var fileContents := "";
    if readMode == "list_files" {
      fileContents := ListFiles(outputFolder, fileList);
    } else if readMode == "read_all" {
      var parts := ReadAll(shown);
      fileContents := Join(parts, "\n");
    } else if readMode == "read_specific" && |specificFile| > 0 {
      fileContents := SpecificText(specificFile, specific);
    }
    return Ok(Outputs(fileContents, fileList, metadata));
  }

  /** The loop that builds `file_list`. */
  method ListInfos(shown: seq<FileRecord>) returns (fileList: seq<FileInfo>)
    ensures fileList == Infos(shown)
  {
    fileList := [];
    for i := 0 to |shown|
      invariant |fileList| == i
      invariant forall k :: 0 <= k < i ==> fileList[k] == Info(shown[k])
    {
      fileList := fileList + [Info(shown[i])];
    }
  }

  /** list_files mode: the header, then one line per entry. */
  method ListFiles(outputFolder: string, fileList: seq<FileInfo>) returns (text: string)
    ensures text == Listing("Files in " + outputFolder + ":\n", fileList)
  {
    text := "Files in " + outputFolder + ":\n";
    for i := 0 to |fileList|
      invariant text == Listing("Files in " + outputFolder + ":\n", fileList[..i])
    {
      assert fileList[..i + 1][..i] == fileList[..i];
      text := text + Line(fileList[i]);
    }
    assert fileList[..|fileList|] == fileList;
  }

  /** read_all mode: one section per shown file, in order. */
  method ReadAll(shown: seq<FileRecord>) returns (parts: seq<string>)
    ensures parts == Sections(shown)
  {
    parts := [];
    for i := 0 to |shown|
      invariant |parts| == i
      invariant forall k :: 0 <= k < i ==> parts[k] == Section(shown[k])
    {
      parts := parts + [Section(shown[i])];
    }
  }

  // ---------------------------------------------------------------------------
  // Properties

  /** A missing folder gives the error text and empty outputs; otherwise the
      listing has at most `max_files` entries, never the metadata file, and
      the metadata output is the metadata file's text or `""`. */
  lemma OutcomeFacts(outputFolder: string, readMode: string, specificFile: string, maxFiles: int,
                     folder: OutputFolder, specific: FileRead)
    ensures var r := ReadOutcome(outputFolder, readMode, specificFile, maxFiles, folder, specific);
      && (!folder.present ==> r == Ok(Outputs("Error: Output folder '" + outputFolder + "' not found", [], "")))
      && (r.Raised? <==> folder.present && folder.metadata.Unreadable?)
      && (r.Ok? && folder.present ==>
           && |r.value.fileList| <= |VisibleFiles(folder.matches)|
           && (maxFiles >= 0 ==> |r.value.fileList| <= maxFiles)
           && (forall k :: 0 <= k < |r.value.fileList| ==> !EndsWith(r.value.fileList[k].path, MetadataName))
           && r.value.metadata == (if folder.metadata.Content? then folder.metadata.text else ""))
  {
    var shown := Shown(folder, maxFiles);
    forall k | 0 <= k < |shown| ensures Visible(shown[k]) {
      assert shown[k] in VisibleFiles(folder.matches);
    }
  }

  /** Each entry describes the matching visible file at the same position, in
      glob order: its path, size and extension. */
  lemma EntriesInGlobOrder(outputFolder: string, readMode: string, specificFile: string, maxFiles: int,
                           folder: OutputFolder, specific: FileRead)
    requires folder.present && !folder.metadata.Unreadable?
    ensures var list := ReadOutcome(outputFolder, readMode, specificFile, maxFiles, folder, specific).value.fileList;
      forall k :: 0 <= k < |list| ==>
        var r := VisibleFiles(folder.matches)[k];
        list[k] == FileInfo(r.relPath, r.size, Extension(r.relPath))
  {
  }

  function Lines(infos: seq<FileInfo>): (r: seq<string>)
    ensures |r| == |infos|
  {
    seq(|infos|, k requires 0 <= k < |infos| => Line(infos[k]))
  }

  /** list_files: the header, then exactly one line per entry. */
  lemma {:induction false} ListingLines(header: string, infos: seq<FileInfo>)
    ensures Listing(header, infos) == header + Concat(Lines(infos))
    decreases |infos|
  {
    if |infos| > 0 {
      var init := infos[..|infos| - 1];
      var line := Line(infos[|infos| - 1]);
      ListingLines(header, init);
      assert Lines(infos) == Lines(init) + [line];
      ConcatAppend(Lines(init), [line]);
      Concat2(line, "");
      AppendAssoc(header, Concat(Lines(init)), line);
    } else {
      assert header + "" == header;
    }
  }

  lemma AppendAssoc(a: string, b: string, c: string)
    ensures a + b + c == a + (b + c)
  {
  }

  /** read_all: one section per entry of `file_list`, each headed by the path. */
  lemma ReadAllSections(outputFolder: string, specificFile: string, maxFiles: int,
                        folder: OutputFolder, specific: FileRead)
    requires folder.present && !folder.metadata.Unreadable?
    ensures var out := ReadOutcome(outputFolder, "read_all", specificFile, maxFiles, folder, specific).value;
      var sections := Sections(Shown(folder, maxFiles));
      && out.fileContents == Join(sections, "\n")
      && |sections| == |out.fileList|
      && forall k :: 0 <= k < |sections| ==> StartsWith(sections[k], "=== " + out.fileList[k].path + " ===\n")
  {
    var shown := Shown(folder, maxFiles);
    forall k | 0 <= k < |shown| ensures StartsWith(Section(shown[k]), "=== " + shown[k].relPath + " ===\n") {
      var opening := "=== " + shown[k].relPath + " ===\n";
      match shown[k].content
      case Ok(text) =>
        StartsWithExtend(opening, text, opening);
        StartsWithExtend(opening + text, "\n", opening);
      case Raised(message) =>
        StartsWithExtend(opening, "Error reading file: " + message, opening);
        StartsWithExtend(opening + ("Error reading file: " + message), "\n", opening);
    }
  }

  /** read_specific: nothing for an empty name, a not-found line for a missing file. */
  lemma SpecificFile(outputFolder: string, specificFile: string, maxFiles: int, folder: OutputFolder, specific: FileRead)
    requires folder.present && !folder.metadata.Unreadable?
    ensures |specificFile| == 0 ==>
      ReadOutcome(outputFolder, "read_specific", specificFile, maxFiles, folder, specific).value.fileContents == ""
    ensures |specificFile| > 0 && specific.NotFound? ==>
      ReadOutcome(outputFolder, "read_specific", specificFile, maxFiles, folder, specific).value.fileContents
      == "File '" + specificFile + "' not found in output folder"
  {
  }
}
