/** The context node (`ClaudeCodeContext.build_context`): it turns an output
    folder into memory text for a later command. The folder is an input: its
    files as records and its metadata file. Glob patterns are approximated by
    a test on the end of each file's path. */
module Context {
  import opened Wrappers
  import opened Strings
  import opened Ordering
  import opened Folders

  /** The output folder: whether it exists, the files under it, and its metadata
      file (absent, its JSON re-serialised as text, or the error `json.load`
      raises on it). */
  datatype Folder = Folder(present: bool, files: seq<FileRecord>, metadata: Option<Result<string>>)

  // ---------------------------------------------------------------------------
  // Which files

  /** `[ext.strip() for ext in file_filter.split(",")]`. */
  function Extensions(fileFilter: string): (r: seq<string>)
    ensures |r| == |Split(fileFilter, ",")|
    ensures forall k :: 0 <= k < |r| ==> r[k] == Strip(Split(fileFilter, ",")[k])
  {
    var pieces := Split(fileFilter, ",");
    seq(|pieces|, k requires 0 <= k < |pieces| => Strip(pieces[k]))
  }

  /** The ending a file name needs to match the recursive glob built from
      `ext`: `ext` itself when it starts with `*`, otherwise `*.ext`. */
  function Suffix(ext: string): string {
    if |ext| > 0 && ext[0] == '*' then ext[1..] else "." + ext
  }

  predicate Matches(path: string, extensions: seq<string>) {
    exists k :: 0 <= k < |extensions| && EndsWith(path, Suffix(extensions[k]))
  }

  /** `set(all_files)`: every path that one of the patterns matches. */
  function MatchedPaths(files: seq<FileRecord>, extensions: seq<string>): (r: set<string>)
    ensures forall p :: p in r <==> (exists i :: 0 <= i < |files| && files[i].relPath == p) && Matches(p, extensions)
  {
    set i | 0 <= i < |files| && Matches(files[i].relPath, extensions) :: files[i].relPath
  }

  /** How `pathlib` orders two paths: component by component. */
  function PathLess(p: string, q: string): bool {
    LexLess(Split(p, "/"), Split(q, "/"), StrLess)
  }

  lemma PathLessIsStrictTotal()
    ensures StrictTotalOrder(PathLess)
  {
    StrLessIsStrictTotal();
    forall a: string ensures !PathLess(a, a) {
      LexLessIrreflexive(Split(a, "/"), StrLess);
    }
    forall a: string, b: string, c: string | PathLess(a, b) && PathLess(b, c) ensures PathLess(a, c) {
      LexLessTransitive(Split(a, "/"), Split(b, "/"), Split(c, "/"), StrLess);
    }
    forall a: string, b: string | a != b ensures PathLess(a, b) || PathLess(b, a) {
      JoinSplit(a, "/");
      JoinSplit(b, "/");
      LexLessTotal(Split(a, "/"), Split(b, "/"), StrLess);
    }
  }

  /** `sorted(set(all_files))`. */
  function SortedPaths(files: seq<FileRecord>, extensions: seq<string>): (r: seq<string>)
    ensures StrictlySorted(r, PathLess)
    ensures forall p :: p in r <==> p in MatchedPaths(files, extensions)
  {
    PathLessIsStrictTotal();
    SortedOf(MatchedPaths(files, extensions), PathLess)
  }

  /** The record of the file at `p`. */
  function Lookup(files: seq<FileRecord>, p: string): (r: Option<FileRecord>)
    ensures r.Some? ==> r.value in files && r.value.relPath == p
    ensures r.None? <==> forall i :: 0 <= i < |files| ==> files[i].relPath != p
  {
    if |files| == 0 then None
    else if files[0].relPath == p then Some(files[0])
    else Lookup(files[1..], p)
  }

  /** The records the loop over `paths` handles: the metadata file is skipped. */
  function Kept(files: seq<FileRecord>, paths: seq<string>): seq<FileRecord>
    decreases |paths|
  {
    if |paths| == 0 then []
    else
      var rest := Kept(files, paths[..|paths| - 1]);
      match Lookup(files, paths[|paths| - 1])
      case None => rest
      case Some(r) => if Basename(r.relPath) == MetadataName then rest else rest + [r]
  }

  // ---------------------------------------------------------------------------
  // What is said about each file

  function ListLine(r: FileRecord): string {
    "- " + r.relPath + " (" + NatToString(r.size) + " bytes)\n"
  }

  /** `file_list_str` after the loop: one line per file, `+=` in order. */
  function Listing(kept: seq<FileRecord>): string
    decreases |kept|
  {
    if |kept| == 0 then "" else Listing(kept[..|kept| - 1]) + ListLine(kept[|kept| - 1])
  }

  /** What `file_contents` holds for a file: its text, the read error, or a
      note that it is over the size bound. */
  function Stored(r: FileRecord, maxFileSizeKb: int): string {
    if r.size <= maxFileSizeKb * 1024 then
      match r.content
      case Ok(text) => text
      case Raised(message) => "[Error reading file: " + message + "]"
    else "[File too large: " + NatToString(r.size) + " bytes]"
  }

  /** `file_contents` after the loop. Its keys are the distinct paths of the
      kept files, so every assignment adds a new key at the end. */
  function Contents(kept: seq<FileRecord>, maxFileSizeKb: int): (r: seq<(string, string)>)
    ensures |r| == |kept|
  {
    seq(|kept|, k requires 0 <= k < |kept| => (kept[k].relPath, Stored(kept[k], maxFileSizeKb)))
  }

  // ---------------------------------------------------------------------------
  // The modes

  /** One file as a heading and a fenced block. */
  function Block(marks: string, entry: (string, string)): string {
    marks + entry.0 + "\n\n```\n" + entry.1 + "\n```\n\n"
  }

  function Blocks(marks: string, entries: seq<(string, string)>): (r: seq<string>)
    ensures |r| == |entries|
  {
    seq(|entries|, k requires 0 <= k < |entries| => Block(marks, entries[k]))
  }

  /** `file_contents_str` of custom mode: the blocks, `+=` in order. */
  function BlocksText(entries: seq<(string, string)>): string
    decreases |entries|
  {
    if |entries| == 0 then "" else BlocksText(entries[..|entries| - 1]) + Block("### ", entries[|entries| - 1])
  }

  /** A content longer than 1000 characters is cut to 1000 and marked. */
  function Truncated(entry: (string, string)): (string, string) {
    (entry.0, if |entry.1| > 1000 then entry.1[..1000] + "\n... [truncated]" else entry.1)
  }

  function TruncatedAll(entries: seq<(string, string)>): (r: seq<(string, string)>)
    ensures |r| == |entries|
  {
    seq(|entries|, k requires 0 <= k < |entries| => Truncated(entries[k]))
  }

  function MetadataParts(metadata: string): seq<string> {
    if |metadata| > 0 then ["## Execution Metadata\n\n```json\n", metadata, "\n```\n"] else []
  }

  /** The placeholders of a custom template, filled in this order. */
  function Formatted(template: string, listing: string, contentsText: string, metadata: string,
                     outputFolder: string): string {
    var a := Replace(template, "{file_list}", listing);
    var b := Replace(a, "{file_contents}", contentsText);
    var c := Replace(b, "{metadata}", metadata);
    Replace(c, "{output_folder}", outputFolder)
  }

  /** What one context mode appends to `context_parts`. */
  function ModeParts(contextMode: string, outputFolder: string, template: string, listing: string,
                     contents: seq<(string, string)>, metadata: string): seq<string> {
    if contextMode == "full_content" then
      ["# Files from " + outputFolder + "\n\n"] + Blocks("## ", contents)
    else if contextMode == "file_list" then
      ["# Files created in " + outputFolder + "\n\n", listing, "\n"] + MetadataParts(metadata)
    else if contextMode == "summary" then
      ["# Previous execution: " + outputFolder + "\n\n", "## Files created:\n", listing, "\n"]
      + (if |contents| > 0 then ["## Key file contents:\n\n"] + Blocks("### ", TruncatedAll(Take(contents, 5)))
         else [])
    else if contextMode == "custom" && |template| > 0 then
      [Formatted(template, listing, BlocksText(Take(contents, 5)), metadata, outputFolder)]
    else []
  }

  /** The metadata text: `""` when there is no metadata file. */
  function MetadataText(folder: Folder): string {
    if folder.metadata.Some? && folder.metadata.value.Ok? then folder.metadata.value.value else ""
  }

  /** What `build_context` returns, or the exception it raises. */
  function BuiltContext(outputFolder: string, contextMode: string, baseMemory: string, fileFilter: string,
                        customTemplate: string, maxFileSizeKb: int, folder: Folder): (r: Result<string>)
    ensures IsBlank(outputFolder) ==> r == Ok(baseMemory)
    ensures !IsBlank(outputFolder) && !folder.present ==>
      r == Ok("Error: Output folder '" + outputFolder + "' not found")
    ensures r.Raised? <==> !IsBlank(outputFolder) && folder.present
                           && folder.metadata.Some? && folder.metadata.value.Raised?
  {
    if IsBlank(outputFolder) then Ok(baseMemory)
    else if !folder.present then Ok("Error: Output folder '" + outputFolder + "' not found")
    else if folder.metadata.Some? && folder.metadata.value.Raised? then Raised(folder.metadata.value.error)
    else
      var kept := Kept(folder.files, SortedPaths(folder.files, Extensions(fileFilter)));
      Ok(Concat(ParagraphParts(baseMemory)
                + ModeParts(contextMode, outputFolder, customTemplate, Listing(kept),
                            Contents(kept, maxFileSizeKb), MetadataText(folder))))
  }

  // ---------------------------------------------------------------------------
  // The node

  /** `build_context`. */
  method BuildContext(outputFolder: string, contextMode: string, baseMemory: string, fileFilter: string,
                      customTemplate: string, maxFileSizeKb: int, folder: Folder)
    returns (r: Result<string>)
    ensures r == BuiltContext(outputFolder, contextMode, baseMemory, fileFilter, customTemplate, maxFileSizeKb, folder)
  {
    if IsBlank(outputFolder) {
      return Ok(baseMemory);
    }
    if !folder.present {
      return Ok("Error: Output folder '" + outputFolder + "' not found");
    }
    var extensions := Extensions(fileFilter);
    var paths := SortedPaths(folder.files, extensions);
    var metadata := "";
    if folder.metadata.Some? {
      match folder.metadata.value
      case Raised(message) =>
        return Raised(message);
      case Ok(text) =>
        metadata := text;
    }
    var listing, contents := CollectFiles(folder.files, paths, maxFileSizeKb);
    var parts: seq<string> := [];
    if |baseMemory| > 0 {
      parts := parts + [baseMemory, "\n\n"];
    }
    assert parts == ParagraphParts(baseMemory);
    assert metadata == MetadataText(folder);
    parts := AppendMode(parts, contextMode, outputFolder, customTemplate, listing, contents, metadata);
    r := Ok(Concat(parts));
    BuiltFromParts(outputFolder, contextMode, baseMemory, fileFilter, customTemplate, maxFileSizeKb, folder);
  }

  /** When the folder is there and its metadata file reads, the context is the joined parts. */
  lemma BuiltFromParts(outputFolder: string, contextMode: string, baseMemory: string, fileFilter: string,
                       customTemplate: string, maxFileSizeKb: int, folder: Folder)
    requires !IsBlank(outputFolder) && folder.present
    requires !(folder.metadata.Some? && folder.metadata.value.Raised?)
    ensures var kept := Kept(folder.files, SortedPaths(folder.files, Extensions(fileFilter)));
      BuiltContext(outputFolder, contextMode, baseMemory, fileFilter, customTemplate, maxFileSizeKb, folder)
      == Ok(Concat(ParagraphParts(baseMemory)
                   + ModeParts(contextMode, outputFolder, customTemplate, Listing(kept),
                               Contents(kept, maxFileSizeKb), MetadataText(folder))))
  {
  }

  /** The loop over the sorted files: one listing line and one dictionary entry
      per file other than the metadata file. */
  method CollectFiles(files: seq<FileRecord>, paths: seq<string>, maxFileSizeKb: int)
    returns (listing: string, contents: seq<(string, string)>)
    ensures listing == Listing(Kept(files, paths))
    ensures contents == Contents(Kept(files, paths), maxFileSizeKb)
  {
    listing := "";
    contents := [];
    for i := 0 to |paths|
      invariant listing == Listing(Kept(files, paths[..i]))
      invariant contents == Contents(Kept(files, paths[..i]), maxFileSizeKb)
    {
      assert paths[..i + 1][..i] == paths[..i];
      ghost var before := Kept(files, paths[..i]);
      match Lookup(files, paths[i])
      case None =>
      case Some(record) =>
        if Basename(record.relPath) != MetadataName {
          listing := listing + ListLine(record);
          contents := contents + [(record.relPath, Stored(record, maxFileSizeKb))];
          assert Kept(files, paths[..i + 1]) == before + [record];
          assert (before + [record])[..|before|] == before;
          assert contents == Contents(before + [record], maxFileSizeKb);
        }
    }
    assert paths[..|paths|] == paths;
  }

  /** What `build_context` appends for the chosen mode. */
  method AppendMode(parts: seq<string>, contextMode: string, outputFolder: string, template: string,
                    listing: string, contents: seq<(string, string)>, metadata: string)
    returns (r: seq<string>)
    ensures r == parts + ModeParts(contextMode, outputFolder, template, listing, contents, metadata)
  {
    r := parts;
    if contextMode == "full_content" {
      r := r + ["# Files from " + outputFolder + "\n\n"];
      r := AppendBlocks(r, "## ", contents);
    } else if contextMode == "file_list" {
      r := r + ["# Files created in " + outputFolder + "\n\n", listing, "\n"];
      if |metadata| > 0 {
        r := r + ["## Execution Metadata\n\n```json\n", metadata, "\n```\n"];
      }
    } else if contextMode == "summary" {
      r := r + ["# Previous execution: " + outputFolder + "\n\n", "## Files created:\n", listing, "\n"];
      var keyFiles := Take(contents, 5);
      if |keyFiles| > 0 {
        r := r + ["## Key file contents:\n\n"];
        r := AppendKeyBlocks(r, keyFiles);
      }
    } else if contextMode == "custom" && |template| > 0 {
      var contentsText := ContentsText(Take(contents, 5));
      var formatted := Replace(template, "{file_list}", listing);
      formatted := Replace(formatted, "{file_contents}", contentsText);
      formatted := Replace(formatted, "{metadata}", metadata);
      formatted := Replace(formatted, "{output_folder}", outputFolder);
      r := r + [formatted];
    }
  }

  /** full_content mode: one block per file, in order. */
  method AppendBlocks(parts: seq<string>, marks: string, entries: seq<(string, string)>) returns (r: seq<string>)
    ensures r == parts + Blocks(marks, entries)
  {
    r := parts;
    for i := 0 to |entries|
      invariant r == parts + Blocks(marks, entries[..i])
    {
      r := r + [Block(marks, entries[i])];
      assert Blocks(marks, entries[..i + 1]) == Blocks(marks, entries[..i]) + [Block(marks, entries[i])];
    }
    assert entries[..|entries|] == entries;
  }

  /** summary mode: the first files, each content cut to 1000 characters. */
  method AppendKeyBlocks(parts: seq<string>, entries: seq<(string, string)>) returns (r: seq<string>)
    ensures r == parts + Blocks("### ", TruncatedAll(entries))
  {
    r := parts;
    for i := 0 to |entries|
      invariant |r| == |parts| + i && r[..|parts|] == parts
      invariant forall k :: 0 <= k < i ==> r[|parts| + k] == Block("### ", Truncated(entries[k]))
    {
      var content := entries[i].1;
      if |content| > 1000 {
        content := content[..1000] + "\n... [truncated]";
      }
      assert (entries[i].0, content) == Truncated(entries[i]);
      r := r + [Block("### ", (entries[i].0, content))];
    }
    var blocks := Blocks("### ", TruncatedAll(entries));
    assert forall k :: 0 <= k < |entries| ==> blocks[k] == Block("### ", Truncated(entries[k]));
    assert r == parts + blocks;
  }

  /** custom mode: `file_contents_str +=` one block per file. */
  method ContentsText(entries: seq<(string, string)>) returns (text: string)
    ensures text == BlocksText(entries)
  {
    text := "";
    for i := 0 to |entries|
      invariant text == BlocksText(entries[..i])
    {
      assert entries[..i + 1][..i] == entries[..i];
      text := text + Block("### ", entries[i]);
    }
    assert entries[..|entries|] == entries;
  }

  // ---------------------------------------------------------------------------
  // Properties

  function KeptPaths(kept: seq<FileRecord>): (r: seq<string>)
    ensures |r| == |kept|
    ensures forall k :: 0 <= k < |kept| ==> r[k] == kept[k].relPath
  {
    seq(|kept|, k requires 0 <= k < |kept| => kept[k].relPath)
  }

  /** Each kept record comes from the folder, under one of the walked paths,
      and is not the metadata file. */
  lemma {:induction false} KeptFrom(files: seq<FileRecord>, paths: seq<string>)
    ensures forall r :: r in Kept(files, paths) ==> r in files && r.relPath in paths && Basename(r.relPath) != MetadataName
    decreases |paths|
  {
    if |paths| > 0 {
      var init := paths[..|paths| - 1];
      KeptFrom(files, init);
      assert forall p :: p in init ==> p in paths;
    }
  }

  /** Walking sorted paths keeps the kept ones sorted. */
  lemma {:induction false} KeptSorted(files: seq<FileRecord>, paths: seq<string>)
    requires StrictlySorted(paths, PathLess)
    ensures StrictlySorted(KeptPaths(Kept(files, paths)), PathLess)
    decreases |paths|
  {
    if |paths| > 0 {
      var init := paths[..|paths| - 1];
      var last := paths[|paths| - 1];
      assert StrictlySorted(init, PathLess);
      KeptSorted(files, init);
      var rest := Kept(files, init);
      match Lookup(files, last)
      case None =>
      case Some(record) =>
        if Basename(record.relPath) != MetadataName {
          assert KeptPaths(Kept(files, paths)) == KeptPaths(rest) + [last];
          forall m | 0 <= m < |init| ensures PathLess(init[m], last) {
            assert init[m] == paths[m];
          }
          KeptBelow(files, init, last);
          SortedSnoc(KeptPaths(rest), last, PathLess);
        }
    }
  }

  /** Records kept from paths below a bound stay below it. */
  lemma KeptBelow(files: seq<FileRecord>, paths: seq<string>, bound: string)
    requires forall m :: 0 <= m < |paths| ==> PathLess(paths[m], bound)
    ensures forall k :: 0 <= k < |Kept(files, paths)| ==> PathLess(Kept(files, paths)[k].relPath, bound)
  {
    var kept := Kept(files, paths);
    KeptFrom(files, paths);
    forall k | 0 <= k < |kept| ensures PathLess(kept[k].relPath, bound) {
      assert kept[k] in kept;
      var m :| 0 <= m < |paths| && paths[m] == kept[k].relPath;
    }
  }

  /** Only the metadata file is skipped. */
  lemma {:induction false} KeptComplete(files: seq<FileRecord>, paths: seq<string>)
    ensures forall p :: p in paths && Lookup(files, p).Some? && Basename(p) != MetadataName
                        ==> p in KeptPaths(Kept(files, paths))
    decreases |paths|
  {
    if |paths| > 0 {
      var init := paths[..|paths| - 1];
      var last := paths[|paths| - 1];
      KeptComplete(files, init);
      var rest := Kept(files, init);
      assert forall p :: p in paths ==> p in init || p == last by {
        assert paths == init + [last];
      }
      match Lookup(files, last)
      case None =>
      case Some(record) =>
        if Basename(record.relPath) != MetadataName {
          assert KeptPaths(Kept(files, paths)) == KeptPaths(rest) + [last];
        }
    }
  }

  /** The files the node reports: every matched path, each once, sorted as
      paths, except the metadata file; each with its record from the folder. */
  lemma KeptFiles(files: seq<FileRecord>, extensions: seq<string>)
    ensures StrictlySorted(KeptPaths(Kept(files, SortedPaths(files, extensions))), PathLess)
    ensures forall p :: p in KeptPaths(Kept(files, SortedPaths(files, extensions)))
                        <==> p in MatchedPaths(files, extensions) && Basename(p) != MetadataName
    ensures forall r :: r in Kept(files, SortedPaths(files, extensions)) ==> r in files
  {
    var paths := SortedPaths(files, extensions);
    var kept := Kept(files, paths);
    KeptFrom(files, paths);
    KeptSorted(files, paths);
    KeptComplete(files, paths);
    forall p | p in KeptPaths(kept) ensures p in MatchedPaths(files, extensions) && Basename(p) != MetadataName {
      var m :| 0 <= m < |kept| && KeptPaths(kept)[m] == p;
      assert kept[m] in kept;
    }
  }

  /** No two entries of `file_contents` share a key. */
  lemma ContentsDistinct(files: seq<FileRecord>, extensions: seq<string>, maxFileSizeKb: int)
    ensures var c := Contents(Kept(files, SortedPaths(files, extensions)), maxFileSizeKb);
            forall i, j :: 0 <= i < j < |c| ==> c[i].0 != c[j].0
  {
    var kept := Kept(files, SortedPaths(files, extensions));
    KeptFiles(files, extensions);
    PathLessIsStrictTotal();
    forall i, j | 0 <= i < j < |kept| ensures kept[i].relPath != kept[j].relPath {
      assert PathLess(KeptPaths(kept)[i], KeptPaths(kept)[j]);
    }
  }

  /** A file over the size bound is represented by a note of its size, never by
      its content. */
  lemma TooLargeNotRead(kept: seq<FileRecord>, maxFileSizeKb: int, k: nat)
    requires k < |kept| && kept[k].size > maxFileSizeKb * 1024
    ensures Contents(kept, maxFileSizeKb)[k] == (kept[k].relPath, "[File too large: " + NatToString(kept[k].size) + " bytes]")
    ensures forall c :: Stored(kept[k].(content := c), maxFileSizeKb) == Contents(kept, maxFileSizeKb)[k].1
  {
  }

  /** Files that agree on path and size. */
  predicate SameShape(a: seq<FileRecord>, b: seq<FileRecord>) {
    |a| == |b| && forall k :: 0 <= k < |a| ==> a[k].relPath == b[k].relPath && a[k].size == b[k].size
  }

  lemma {:induction false} LookupShape(a: seq<FileRecord>, b: seq<FileRecord>, p: string)
    requires SameShape(a, b)
    ensures Lookup(a, p).Some? <==> Lookup(b, p).Some?
    ensures Lookup(a, p).Some? ==> Lookup(a, p).value.size == Lookup(b, p).value.size
    decreases |a|
  {
    if |a| > 0 && a[0].relPath != p {
      assert SameShape(a[1..], b[1..]);
      LookupShape(a[1..], b[1..], p);
    }
  }

  lemma {:induction false} KeptShape(a: seq<FileRecord>, b: seq<FileRecord>, paths: seq<string>)
    requires SameShape(a, b)
    ensures SameShape(Kept(a, paths), Kept(b, paths))
    ensures Listing(Kept(a, paths)) == Listing(Kept(b, paths))
    decreases |paths|
  {
    if |paths| > 0 {
      var init := paths[..|paths| - 1];
      KeptShape(a, b, init);
      LookupShape(a, b, paths[|paths| - 1]);
      var ka := Kept(a, paths);
      var kb := Kept(b, paths);
      if |ka| > |Kept(a, init)| {
        assert ka[..|ka| - 1] == Kept(a, init) && kb[..|kb| - 1] == Kept(b, init);
      }
    }
  }

  /** file_list mode never shows a file's content: two folders whose files
      agree on paths and sizes give the same text. */
  lemma FileListIgnoresContent(outputFolder: string, baseMemory: string, fileFilter: string, customTemplate: string,
                               maxFileSizeKb: int, folder: Folder, other: Folder)
    requires folder.present == other.present && folder.metadata == other.metadata
    requires SameShape(folder.files, other.files)
    ensures BuiltContext(outputFolder, "file_list", baseMemory, fileFilter, customTemplate, maxFileSizeKb, folder)
         == BuiltContext(outputFolder, "file_list", baseMemory, fileFilter, customTemplate, maxFileSizeKb, other)
  {
    var extensions := Extensions(fileFilter);
    assert MatchedPaths(folder.files, extensions) == MatchedPaths(other.files, extensions) by {
      forall p ensures p in MatchedPaths(folder.files, extensions) ==> p in MatchedPaths(other.files, extensions) {
        if p in MatchedPaths(folder.files, extensions) {
          var i :| 0 <= i < |folder.files| && folder.files[i].relPath == p;
          assert other.files[i].relPath == p;
        }
      }
      forall p ensures p in MatchedPaths(other.files, extensions) ==> p in MatchedPaths(folder.files, extensions) {
        if p in MatchedPaths(other.files, extensions) {
          var i :| 0 <= i < |other.files| && other.files[i].relPath == p;
          assert folder.files[i].relPath == p;
        }
      }
    }
    KeptShape(folder.files, other.files, SortedPaths(folder.files, extensions));
  }

  /** full_content mode: a heading naming the folder, then one block per kept
      file in sorted order, each opening with the file's path. */
  lemma FullContentLayout(outputFolder: string, baseMemory: string, fileFilter: string, customTemplate: string,
                          maxFileSizeKb: int, folder: Folder)
    requires !IsBlank(outputFolder) && folder.present && !(folder.metadata.Some? && folder.metadata.value.Raised?)
    ensures var kept := Kept(folder.files, SortedPaths(folder.files, Extensions(fileFilter)));
            BuiltContext(outputFolder, "full_content", baseMemory, fileFilter, customTemplate, maxFileSizeKb, folder)
            == Ok(Paragraph(baseMemory) + (("# Files from " + outputFolder + "\n\n")
                                          + Concat(Blocks("## ", Contents(kept, maxFileSizeKb)))))
    ensures var kept := Kept(folder.files, SortedPaths(folder.files, Extensions(fileFilter)));
            forall k :: 0 <= k < |kept| ==>
              StartsWith(Blocks("## ", Contents(kept, maxFileSizeKb))[k], "## " + kept[k].relPath + "\n\n```\n")
  {
    var kept := Kept(folder.files, SortedPaths(folder.files, Extensions(fileFilter)));
    FullContentText(baseMemory, outputFolder, customTemplate, Listing(kept), Contents(kept, maxFileSizeKb),
                    MetadataText(folder));
    forall k | 0 <= k < |kept|
      ensures StartsWith(Blocks("## ", Contents(kept, maxFileSizeKb))[k], "## " + kept[k].relPath + "\n\n```\n")
    {
      BlockOpening("## ", Contents(kept, maxFileSizeKb)[k]);
    }
  }

  lemma FullContentText(baseMemory: string, outputFolder: string, template: string, listing: string,
                        contents: seq<(string, string)>, metadata: string)
    ensures Concat(ParagraphParts(baseMemory) + ModeParts("full_content", outputFolder, template, listing, contents, metadata))
         == Paragraph(baseMemory) + (("# Files from " + outputFolder + "\n\n") + Concat(Blocks("## ", contents)))
  {
    var heading := "# Files from " + outputFolder + "\n\n";
    var blocks := Blocks("## ", contents);
    ConcatAppend(ParagraphParts(baseMemory), [heading] + blocks);
    ConcatAppend([heading], blocks);
    Concat2(heading, "");
    ParagraphJoined(baseMemory);
  }

  lemma BlockOpening(marks: string, entry: (string, string))
    ensures StartsWith(Block(marks, entry), marks + entry.0 + "\n\n```\n")
  {
    var opening := marks + entry.0 + "\n\n```\n";
    StartsWithExtend(opening, entry.1, opening);
    StartsWithExtend(opening + entry.1, "\n```\n\n", opening);
  }

  /** summary mode looks at the contents of the first five files only. */
  lemma SummaryFirstFive(outputFolder: string, template: string, listing: string,
                         contents: seq<(string, string)>, others: seq<(string, string)>, metadata: string)
    requires Take(contents, 5) == Take(others, 5)
    ensures ModeParts("summary", outputFolder, template, listing, contents, metadata)
         == ModeParts("summary", outputFolder, template, listing, others, metadata)
  {
    assert |contents| > 0 <==> |Take(contents, 5)| > 0;
    assert |others| > 0 <==> |Take(others, 5)| > 0;
  }

  /** A truncated content keeps its first 1000 characters and says so. */
  lemma TruncatedShape(entry: (string, string))
    ensures Truncated(entry).0 == entry.0
    ensures |entry.1| <= 1000 ==> Truncated(entry).1 == entry.1
    ensures |entry.1| > 1000 ==>
      && StartsWith(Truncated(entry).1, entry.1[..1000])
      && EndsWith(Truncated(entry).1, "\n... [truncated]")
      && |Truncated(entry).1| == 1016
  {
  }

  /** Every outcome past the folder checks starts with the base memory and a
      blank line when there is base memory. */
  lemma BaseFirst(outputFolder: string, contextMode: string, baseMemory: string, fileFilter: string,
                  customTemplate: string, maxFileSizeKb: int, folder: Folder)
    requires !IsBlank(outputFolder) && folder.present
    ensures var r := BuiltContext(outputFolder, contextMode, baseMemory, fileFilter, customTemplate, maxFileSizeKb, folder);
            r.Ok? ==> StartsWith(r.value, Paragraph(baseMemory))
  {
    if !(folder.metadata.Some? && folder.metadata.value.Raised?) {
      var kept := Kept(folder.files, SortedPaths(folder.files, Extensions(fileFilter)));
      var mode := ModeParts(contextMode, outputFolder, customTemplate, Listing(kept),
                            Contents(kept, maxFileSizeKb), MetadataText(folder));
      ConcatAppend(ParagraphParts(baseMemory), mode);
      ParagraphJoined(baseMemory);
      StartsWithExtend(Paragraph(baseMemory), Concat(mode), Paragraph(baseMemory));
    }
  }

  /** An unknown mode, or custom mode with an empty template, adds nothing. */
  lemma NothingAdded(outputFolder: string, contextMode: string, baseMemory: string, fileFilter: string,
                     customTemplate: string, maxFileSizeKb: int, folder: Folder)
    requires !IsBlank(outputFolder) && folder.present && !(folder.metadata.Some? && folder.metadata.value.Raised?)
    requires contextMode != "full_content" && contextMode != "file_list" && contextMode != "summary"
    requires contextMode != "custom" || |customTemplate| == 0
    ensures BuiltContext(outputFolder, contextMode, baseMemory, fileFilter, customTemplate, maxFileSizeKb, folder)
         == Ok(Paragraph(baseMemory))
  {
    assert ParagraphParts(baseMemory) + [] == ParagraphParts(baseMemory);
    ParagraphJoined(baseMemory);
  }

  /** A template without placeholders comes back as it is. */
  lemma TemplateWithoutPlaceholders(template: string, listing: string, contentsText: string, metadata: string,
                                    outputFolder: string)
    requires !Contains(template, "{file_list}") && !Contains(template, "{file_contents}")
    requires !Contains(template, "{metadata}") && !Contains(template, "{output_folder}")
    ensures Formatted(template, listing, contentsText, metadata, outputFolder) == template
  {
    ReplaceAbsent(template, "{file_list}", listing);
    ReplaceAbsent(template, "{file_contents}", contentsText);
    ReplaceAbsent(template, "{metadata}", metadata);
    ReplaceAbsent(template, "{output_folder}", outputFolder);
  }

  /** custom mode, like summary mode, looks at the contents of the first five files only. */
  lemma CustomFirstFive(outputFolder: string, template: string, listing: string,
                        contents: seq<(string, string)>, others: seq<(string, string)>, metadata: string)
    requires Take(contents, 5) == Take(others, 5)
    ensures ModeParts("custom", outputFolder, template, listing, contents, metadata)
         == ModeParts("custom", outputFolder, template, listing, others, metadata)
  {
  }

  /**
   * A custom template whose only placeholder is one `{file_contents}` becomes the template
   * with the blocks of the first five contents in its place.
   */
  lemma TemplateWithContents(a: string, b: string, outputFolder: string, listing: string,
                             contents: seq<(string, string)>, metadata: string)
    requires '{' !in a && !Contains(b, "{file_contents}")
    requires !Contains(a + "{file_contents}" + b, "{file_list}")
    requires !Contains(a + BlocksText(Take(contents, 5)) + b, "{metadata}")
    requires !Contains(a + BlocksText(Take(contents, 5)) + b, "{output_folder}")
    ensures ModeParts("custom", outputFolder, a + "{file_contents}" + b, listing, contents, metadata)
         == [a + BlocksText(Take(contents, 5)) + b]
  {
    var t := BlocksText(Take(contents, 5));
    ReplaceAbsent(a + "{file_contents}" + b, "{file_list}", listing);
    ReplaceFreePrefix(a, "{file_contents}", t, b);
    ReplaceAbsent(a + t + b, "{metadata}", metadata);
    ReplaceAbsent(a + t + b, "{output_folder}", outputFolder);
  }
}
