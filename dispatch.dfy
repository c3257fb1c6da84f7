/** `execute_tool` of the v1, v2 and v3 agents, for the four file tools they
    share. A tool name is matched as a string; a required argument that is
    missing raises `KeyError`, which no caller catches. */
module Dispatch {
  import opened Wrappers
  import opened Text
  import opened Paths
  import opened Tools
  import opened Protocol
  import opened Todo

  /** Running a shell command: what the process does to the given files. */
  type Shell = (string, Files) -> Run

  /** `args[key]`: the value, or the text of the `KeyError`. */
  function Arg(args: Args, key: string): (r: Result<string, string>)
    ensures r.Ok? <==> key in args.text
    ensures r.Err? ==> r.error == "'" + key + "'"
  {
    if key in args.text then Ok(args.text[key]) else Err("'" + key + "'")
  }

  const FileToolNames: seq<string> := ["bash", "read_file", "write_file", "edit_file"]

  /** The file tools' branches of `execute_tool`; `None` for any other name. */
  function FileTool(rev: Revision, root: Path, files: Files, shell: Shell, name: string, args: Args)
    : (r: Option<Result<Outcome, string>>)
    requires ValidPath(root)
    ensures r.Some? <==> name in FileToolNames
  {
    if name == "bash" then
      Some(match Arg(args, "command")
           case Err(e) => Err(e)
           case Ok(cmd) => Ok(RunBash(rev, files, cmd, shell(cmd, files))))
    else if name == "read_file" then
      Some(match Arg(args, "path")
           case Err(e) => Err(e)
           case Ok(path) => Ok(Outcome(RunRead(rev, root, files, path, args.limit), files)))
    else if name == "write_file" then
      Some(match Arg(args, "path")
           case Err(e) => Err(e)
           case Ok(path) =>
             match Arg(args, "content")
             case Err(e) => Err(e)
             case Ok(content) => Ok(RunWrite(root, files, path, content)))
    else if name == "edit_file" then
      Some(match Arg(args, "path")
           case Err(e) => Err(e)
           case Ok(path) =>
             match Arg(args, "old_text")
             case Err(e) => Err(e)
             case Ok(pat) =>
               match Arg(args, "new_text")
               case Err(e) => Err(e)
               case Ok(rep) => Ok(RunEdit(root, files, path, pat, rep)))
    else None
  }

  /** v1's `execute_tool`, and the shared part of v2's and v3's. */
  function Execute(rev: Revision, root: Path, files: Files, shell: Shell, name: string, args: Args)
    : (r: Result<Outcome, string>)
    requires ValidPath(root)
    ensures name !in FileToolNames ==> r == Ok(Outcome("Unknown tool: " + name, files))
  {
    match FileTool(rev, root, files, shell, name, args)
    case Some(res) => res
    case None => Ok(Outcome("Unknown tool: " + name, files))
  }

  /** What the tools of v2 and v3 act on: the files and the global task
      list. */
  datatype World = World(files: Files, items: seq<Item>)

  /** `execute_tool` of revision `rev` as a step of a run over the files. */
  function Dispatcher(rev: Revision, root: Path, shell: Shell): (step: ToolStep<Files, string>)
    requires ValidPath(root)
  {
    (f: Files, c: ToolCall) =>
      match Execute(rev, root, f, shell, c.name, c.args)
      case Ok(o) => Ok((o.text, o.files))
      case Err(e) => Err(e)
  }

  /** Only the writing tools change files: calls that are all reads or
      unknown tools leave the files as they were, whatever they print. */
  lemma {:induction false} ReadOnlyCalls(rev: Revision, root: Path, files: Files, shell: Shell, calls: seq<ToolCall>)
    requires ValidPath(root)
    requires forall k :: 0 <= k < |calls| ==> calls[k].name !in ["bash", "write_file", "edit_file"]
    ensures RunAll(Dispatcher(rev, root, shell), files, calls).Final() == files
    decreases |calls|
  {
    if calls != [] {
      OnlyWritersChangeFiles(rev, root, files, shell, calls[0].name, calls[0].args);
      ReadOnlyCalls(rev, root, files, shell, calls[1..]);
    }
  }

  /** Only bash, write_file and edit_file can change the files; a read, an
      unknown tool, and a call that raises leave them as they were. */
  lemma OnlyWritersChangeFiles(rev: Revision, root: Path, files: Files, shell: Shell, name: string, args: Args)
    requires ValidPath(root)
    requires name != "bash" && name != "write_file" && name != "edit_file"
    ensures Execute(rev, root, files, shell, name, args).Ok? ==>
      Execute(rev, root, files, shell, name, args).value.files == files
  {
  }

  /** A known tool whose required argument is missing raises the `KeyError`
      for the first missing key in the order the source reads them. */
  lemma MissingArgumentRaises(rev: Revision, root: Path, files: Files, shell: Shell, name: string, args: Args)
    requires ValidPath(root) && name in FileToolNames
    requires "path" !in args.text && name != "bash"
    ensures Execute(rev, root, files, shell, name, args) == Err("'path'")
  {
    assert "'" + "path" + "'" == "'path'";
  }
}
