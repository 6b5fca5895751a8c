/** The memory node (`ClaudeCodeMemory.build_memory`): the pieces of memory
    text are appended to `memory_parts` according to the memory type, then
    joined and stripped. The file at `file_path` is an input: what opening it
    finds. */
module Memory {
  import opened Wrappers
  import opened Strings

  /** What the file contributes in "file" mode. */
  function FileParts(filePath: string, file: FileRead): seq<string> {
    if |filePath| == 0 then []
    else match file
      case NotFound => ["Error: File not found: " + filePath]
      case Content(content) => [content]
      case Unreadable(message) => ["Error reading file " + filePath + ": " + message]
  }

  /** What the file contributes in "combined" mode: a missing file adds nothing. */
  function CombinedFileParts(filePath: string, file: FileRead): seq<string> {
    if |filePath| == 0 then []
    else match file
      case NotFound => []
      case Content(content) => ["## File Content\n\n", content]
      case Unreadable(message) => ["Error reading file: " + message]
  }

  /** The pieces one memory type contributes, in order. */
  function SourceParts(memoryType: string, textMemory: string, filePath: string, claudeMdContent: string,
                       file: FileRead): seq<string> {
    if memoryType == "text" then
      if |textMemory| > 0 then [textMemory] else []
    else if memoryType == "file" then FileParts(filePath, file)
    else if memoryType == "claude_md" then
      if |claudeMdContent| > 0 then [claudeMdContent] else []
    else if memoryType == "combined" then CombinedParts(textMemory, filePath, claudeMdContent, file)
    else []
  }

  /** What "combined" mode contributes: every source that is there, in order. */
  function CombinedParts(textMemory: string, filePath: string, claudeMdContent: string, file: FileRead)
    : seq<string> {
    (if |claudeMdContent| > 0 then [claudeMdContent, "\n\n"] else [])
    + (if |textMemory| > 0 then ["## Additional Context\n\n", textMemory, "\n\n"] else [])
    + CombinedFileParts(filePath, file)
  }

  /** `memory_parts` as `build_memory` leaves it. */
  function MemoryParts(memoryType: string, textMemory: string, filePath: string, claudeMdContent: string,
                       appendTo: string, file: FileRead): seq<string> {
    ParagraphParts(appendTo) + SourceParts(memoryType, textMemory, filePath, claudeMdContent, file)
  }

  /** The memory text: the parts joined, then stripped. */
  function Memory(memoryType: string, textMemory: string, filePath: string, claudeMdContent: string,
                  appendTo: string, file: FileRead): (r: string)
    ensures IsStripped(r)
  {
    Strip(Joined(memoryType, textMemory, filePath, claudeMdContent, appendTo, file))
  }

  /** `"".join(memory_parts)`, before the strip. */
  function Joined(memoryType: string, textMemory: string, filePath: string, claudeMdContent: string,
                  appendTo: string, file: FileRead): string {
    Concat(MemoryParts(memoryType, textMemory, filePath, claudeMdContent, appendTo, file))
  }

  /** `build_memory`: both outputs carry the same memory text. */
  method BuildMemory(memoryType: string, textMemory: string, filePath: string, claudeMdContent: string,
                     appendTo: string, file: FileRead)
    returns (memory: string, memoryText: string)
    ensures memory == memoryText == Memory(memoryType, textMemory, filePath, claudeMdContent, appendTo, file)
  {
    var parts: seq<string> := [];
    if |appendTo| > 0 {
      parts := parts + [appendTo, "\n\n"];
    }
    assert parts == ParagraphParts(appendTo);
    ghost var source := SourceParts(memoryType, textMemory, filePath, claudeMdContent, file);
    if memoryType == "text" {
      if |textMemory| > 0 {
        parts := parts + [textMemory];
      }
    } else if memoryType == "file" {
      parts := AppendFile(parts, filePath, file);
    } else if memoryType == "claude_md" {
      if |claudeMdContent| > 0 {
        parts := parts + [claudeMdContent];
      }
    } else if memoryType == "combined" {
      parts := AppendCombined(parts, textMemory, filePath, claudeMdContent, file);
    }
    assert parts == ParagraphParts(appendTo) + source;
    memory := Strip(Concat(parts));
    memoryText := memory;
  }

  /** The "file" branch of `build_memory`. */
  method AppendFile(parts: seq<string>, filePath: string, file: FileRead) returns (r: seq<string>)
    ensures r == parts + FileParts(filePath, file)
  {
    r := parts;
    if |filePath| > 0 {
      match file
      case Content(content) =>
        r := r + [content];
      case Unreadable(message) =>
        r := r + ["Error reading file " + filePath + ": " + message];
      case NotFound =>
        r := r + ["Error: File not found: " + filePath];
    }
  }

  /** The "combined" branch of `build_memory`. */
  method AppendCombined(parts: seq<string>, textMemory: string, filePath: string, claudeMdContent: string,
                        file: FileRead)
    returns (r: seq<string>)
    ensures r == parts + CombinedParts(textMemory, filePath, claudeMdContent, file)
  {
    r := parts;
    if |claudeMdContent| > 0 {
      r := r + [claudeMdContent, "\n\n"];
    }
    if |textMemory| > 0 {
      r := r + ["## Additional Context\n\n", textMemory, "\n\n"];
    }
    ghost var before := r;
    if |filePath| > 0 {
      match file
      case Content(content) =>
        r := r + ["## File Content\n\n", content];
      case Unreadable(message) =>
        r := r + ["Error reading file: " + message];
      case NotFound =>
    }
    assert r == before + CombinedFileParts(filePath, file);
  }

  // ---------------------------------------------------------------------------
  // Properties

  /** What "file" mode adds: a not-found line naming the path, the file's text
      or the read error; nothing for an empty path. */
  function FileText(filePath: string, file: FileRead): string {
    if |filePath| == 0 then ""
    else match file
      case NotFound => "Error: File not found: " + filePath
      case Content(content) => content
      case Unreadable(message) => "Error reading file " + filePath + ": " + message
  }

  /** What "combined" mode adds: CLAUDE.md text, then the additional context,
      then the file content, each only when its source is there. */
  function CombinedText(textMemory: string, filePath: string, claudeMdContent: string, file: FileRead): string {
    (if |claudeMdContent| > 0 then claudeMdContent + "\n\n" else "")
    + (if |textMemory| > 0 then "## Additional Context\n\n" + textMemory + "\n\n" else "")
    + (if |filePath| > 0 && file.Content? then "## File Content\n\n" + file.text
       else if |filePath| > 0 && file.Unreadable? then "Error reading file: " + file.message
       else "")
  }

  /** The text each memory type adds after the prefix. */
  function SourceText(memoryType: string, textMemory: string, filePath: string, claudeMdContent: string,
                      file: FileRead): string {
    if memoryType == "text" then textMemory
    else if memoryType == "file" then FileText(filePath, file)
    else if memoryType == "claude_md" then claudeMdContent
    else if memoryType == "combined" then CombinedText(textMemory, filePath, claudeMdContent, file)
    else ""
  }

  lemma FileJoined(filePath: string, file: FileRead)
    ensures Concat(FileParts(filePath, file)) == FileText(filePath, file)
  {
    if |filePath| > 0 {
      match file
      case NotFound => Concat2("Error: File not found: " + filePath, "");
      case Content(content) => Concat2(content, "");
      case Unreadable(message) => Concat2("Error reading file " + filePath + ": " + message, "");
    }
  }

  lemma CombinedJoined(textMemory: string, filePath: string, claudeMdContent: string, file: FileRead)
    ensures Concat(CombinedParts(textMemory, filePath, claudeMdContent, file))
         == CombinedText(textMemory, filePath, claudeMdContent, file)
  {
    var a := if |claudeMdContent| > 0 then [claudeMdContent, "\n\n"] else [];
    var b := if |textMemory| > 0 then ["## Additional Context\n\n", textMemory, "\n\n"] else [];
    var c := CombinedFileParts(filePath, file);
    ConcatAppend(a + b, c);
    ConcatAppend(a, b);
    Concat2(claudeMdContent, "\n\n");
    Concat3("## Additional Context\n\n", textMemory, "\n\n");
    match file
    case Content(content) => Concat2("## File Content\n\n", content);
    case Unreadable(message) => Concat2("Error reading file: " + message, "");
    case NotFound =>
  }

  lemma SourceJoined(memoryType: string, textMemory: string, filePath: string, claudeMdContent: string,
                     file: FileRead)
    ensures Concat(SourceParts(memoryType, textMemory, filePath, claudeMdContent, file))
         == SourceText(memoryType, textMemory, filePath, claudeMdContent, file)
  {
    Concat2(textMemory, "");
    Concat2(claudeMdContent, "");
    FileJoined(filePath, file);
    CombinedJoined(textMemory, filePath, claudeMdContent, file);
  }

  /** Joined, the parts are the prefix followed by what the type adds. */
  lemma JoinedParts(memoryType: string, textMemory: string, filePath: string, claudeMdContent: string,
                    appendTo: string, file: FileRead)
    ensures Joined(memoryType, textMemory, filePath, claudeMdContent, appendTo, file)
         == Paragraph(appendTo) + SourceText(memoryType, textMemory, filePath, claudeMdContent, file)
  {
    ConcatAppend(ParagraphParts(appendTo), SourceParts(memoryType, textMemory, filePath, claudeMdContent, file));
    ParagraphJoined(appendTo);
    SourceJoined(memoryType, textMemory, filePath, claudeMdContent, file);
  }

  /** Before the strip, a non-empty `append_to` and a blank line come first. */
  lemma PrefixFirst(memoryType: string, textMemory: string, filePath: string, claudeMdContent: string,
                    appendTo: string, file: FileRead)
    requires |appendTo| > 0
    ensures StartsWith(Joined(memoryType, textMemory, filePath, claudeMdContent, appendTo, file), appendTo + "\n\n")
  {
    JoinedParts(memoryType, textMemory, filePath, claudeMdContent, appendTo, file);
  }

  /** "text" mode: the strip of the prefix plus the text. */
  lemma TextMode(textMemory: string, filePath: string, claudeMdContent: string, appendTo: string, file: FileRead)
    ensures Memory("text", textMemory, filePath, claudeMdContent, appendTo, file)
         == Strip(Paragraph(appendTo) + textMemory)
  {
    JoinedParts("text", textMemory, filePath, claudeMdContent, appendTo, file);
  }

  /** "claude_md" mode: the strip of the prefix plus the CLAUDE.md text. */
  lemma ClaudeMdMode(textMemory: string, filePath: string, claudeMdContent: string, appendTo: string, file: FileRead)
    ensures Memory("claude_md", textMemory, filePath, claudeMdContent, appendTo, file)
         == Strip(Paragraph(appendTo) + claudeMdContent)
  {
    JoinedParts("claude_md", textMemory, filePath, claudeMdContent, appendTo, file);
  }

  /** "file" mode: an empty path adds nothing; a missing file adds a
      not-found line naming the path; a readable file adds its text. */
  lemma FileMode(textMemory: string, filePath: string, claudeMdContent: string, appendTo: string, file: FileRead)
    ensures Memory("file", textMemory, filePath, claudeMdContent, appendTo, file)
         == Strip(Paragraph(appendTo) + FileText(filePath, file))
    ensures |filePath| == 0 ==> FileText(filePath, file) == ""
    ensures |filePath| > 0 && file.NotFound? ==> FileText(filePath, file) == "Error: File not found: " + filePath
    ensures |filePath| > 0 && file.Content? ==> FileText(filePath, file) == file.text
  {
    JoinedParts("file", textMemory, filePath, claudeMdContent, appendTo, file);
  }

  /** "combined" mode: CLAUDE.md first, then the additional context, then the file. */
  lemma CombinedMode(textMemory: string, filePath: string, claudeMdContent: string, appendTo: string, file: FileRead)
    ensures Memory("combined", textMemory, filePath, claudeMdContent, appendTo, file)
         == Strip(Paragraph(appendTo) + CombinedText(textMemory, filePath, claudeMdContent, file))
  {
    JoinedParts("combined", textMemory, filePath, claudeMdContent, appendTo, file);
  }

  /** Any other memory type gives only the stripped `append_to`. */
  lemma UnknownMode(memoryType: string, textMemory: string, filePath: string, claudeMdContent: string,
                    appendTo: string, file: FileRead)
    requires memoryType != "text" && memoryType != "file" && memoryType != "claude_md" && memoryType != "combined"
    ensures Memory(memoryType, textMemory, filePath, claudeMdContent, appendTo, file) == Strip(appendTo)
  {
    JoinedParts(memoryType, textMemory, filePath, claudeMdContent, appendTo, file);
    assert Paragraph(appendTo) + "" == Paragraph(appendTo);
    if |appendTo| > 0 {
      assert IsBlank("\n\n");
      StripBlankSuffix(appendTo, "\n\n");
    }
  }
}
