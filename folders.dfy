/** What the nodes that read an output folder see of it. */
module Folders {
  import opened Wrappers

  /** The metadata file the execute node writes into each output folder; the
      reading nodes never list it. */
  const MetadataName: string := "_claude_code_metadata.json"

  /** One file under a folder: its path relative to the folder, its size in
      bytes and what reading it as text gives. */
  datatype FileRecord = FileRecord(relPath: string, size: nat, content: Result<string>)
}
