/** The file and shell tools of the v1, v2 and v3 agents: `run_bash`,
    `run_read`, `run_write` and `run_edit`.

    The disk is a map from resolved paths to file contents; a path that is a
    proper prefix of a stored path is a directory. Running a command is not
    modelled: what the process printed, whether it timed out, and the files
    it left behind arrive as a `Run` value. Every exception a tool catches
    becomes "Error: " followed by the exception's text. */
module Tools {
  import opened Wrappers
  import opened Text
  import opened Paths

  type Files = map<Path, string>

  datatype Revision = V1 | V2 | V3

  /** Every tool result is cut to this many characters (`[:50000]`). */
  const OutputCap: nat := 50000

  /** What a tool call produced: its text and the files afterwards. */
  datatype Outcome = Outcome(text: string, files: Files)

  // ---------------------------------------------------------------------
  // bash
  // ---------------------------------------------------------------------

  /** How `subprocess.run` ended. */
  datatype Exit =
    | Completed(stdout: string, stderr: string)
    | TimedOut
    | Raised(message: string)

  /** The process's exit and the files it left behind. */
  datatype Run = Run(exit: Exit, after: Files)

  function DenyList(rev: Revision): seq<string>
  {
    match rev
    case V1 => ["rm -rf /", "sudo", "shutdown", "reboot", "> /dev/"]
    case V2 => ["rm -rf /", "sudo", "shutdown", "reboot"]
    case V3 => ["rm -rf /", "sudo", "shutdown"]
  }

  /** `any(d in cmd for d in dangerous)`. */
  predicate Dangerous(rev: Revision, cmd: string)
  {
    exists k :: 0 <= k < |DenyList(rev)| && Contains(cmd, DenyList(rev)[k])
  }

  function Refusal(rev: Revision): string
  {
    if rev == V3 then "Error: Dangerous command" else "Error: Dangerous command blocked"
  }

  /** v3: `((stdout + stderr).strip() or "(no output)")[:50000]`. */
  function ShapeV3(combined: string): string
  {
    var o := Strip(combined);
    Take(if o == "" then "(no output)" else o, OutputCap)
  }

  /** v1 and v2: `output[:50000] if output else "(no output)"` on the stripped output. */
  function ShapeV12(combined: string): string
  {
    var o := Strip(combined);
    if o != "" then Take(o, OutputCap) else "(no output)"
  }

  function TimeoutMessage(rev: Revision, cmd: string): string
  {
    match rev
    case V1 => "Error: Command timed out (60s)"
    case V2 => "Error: Timeout"
    case V3 => "Error: Command '" + cmd + "' timed out after 60 seconds"
  }

  /** `run_bash`: a command containing a denied fragment is refused and never
      run; otherwise the process's output is shaped. */
  function RunBash(rev: Revision, files: Files, cmd: string, run: Run): (r: Outcome)
    ensures Dangerous(rev, cmd) ==> r == Outcome(Refusal(rev), files)
    ensures !Dangerous(rev, cmd) ==> r.files == run.after
  {
    if Dangerous(rev, cmd) then Outcome(Refusal(rev), files)
    else
      var text :=
        match run.exit
        case Completed(out, err) =>
          if rev == V3 then ShapeV3(out + err) else ShapeV12(out + err)
        case TimedOut => TimeoutMessage(rev, cmd)
        case Raised(m) => "Error: " + m;
      Outcome(text, run.after)
  }

  /** A refused command's result does not depend on what running it would
      have done. */
  lemma RefusedCommandIsNotRun(rev: Revision, files: Files, cmd: string, run1: Run, run2: Run)
    requires Dangerous(rev, cmd)
    ensures RunBash(rev, files, cmd, run1) == RunBash(rev, files, cmd, run2)
    ensures RunBash(rev, files, cmd, run1).files == files
  {
  }

  /** Each revision's deny-list contains the next one's: v1 refuses whatever
      v2 refuses, and v2 whatever v3 refuses. */
  lemma DenyListsNested(cmd: string)
    ensures Dangerous(V3, cmd) ==> Dangerous(V2, cmd)
    ensures Dangerous(V2, cmd) ==> Dangerous(V1, cmd)
  {
    if Dangerous(V3, cmd) {
      var k :| 0 <= k < |DenyList(V3)| && Contains(cmd, DenyList(V3)[k]);
      assert DenyList(V2)[k] == DenyList(V3)[k];
    }
    if Dangerous(V2, cmd) {
      var k :| 0 <= k < |DenyList(V2)| && Contains(cmd, DenyList(V2)[k]);
      assert DenyList(V1)[k] == DenyList(V2)[k];
    }
  }

  /** A fragment of `d` never occurs in a string shorter than `d`. */
  lemma ShorterNeverContains(s: string, d: string)
    requires |s| < |d|
    ensures !Contains(s, d)
  {
  }

  /** The nesting is strict: "reboot" is refused by v2 but run by v3, and a
      redirect to "/dev/" is refused only by v1. */
  lemma DenyListsDiffer()
    ensures Dangerous(V2, "reboot") && !Dangerous(V3, "reboot")
    ensures Dangerous(V1, "> /dev/") && !Dangerous(V2, "> /dev/")
  {
    assert OccursAt("reboot", "reboot", 0);
    assert DenyList(V2)[3] == "reboot";
    assert OccursAt("> /dev/", "> /dev/", 0);
    assert DenyList(V1)[4] == "> /dev/";
    forall k | 0 <= k < |DenyList(V3)| ensures !Contains("reboot", DenyList(V3)[k]) {
      if k == 0 {
        ShorterNeverContains("reboot", "rm -rf /");
      } else {
        NotContainedWhenFirstCharAbsent("reboot", DenyList(V3)[k]);
      }
    }
    forall k | 0 <= k < |DenyList(V2)| ensures !Contains("> /dev/", DenyList(V2)[k]) {
      if k == 0 {
        ShorterNeverContains("> /dev/", "rm -rf /");
      } else {
        NotContainedWhenFirstCharAbsent("> /dev/", DenyList(V2)[k]);
      }
    }
  }

  /** A string without the first character of `d` does not contain `d`. */
  lemma NotContainedWhenFirstCharAbsent(s: string, d: string)
    requires d != [] && d[0] !in s
    ensures !Contains(s, d)
  {
  }

  /** Although written differently, v1, v2 and v3 shape a finished process's
      output identically. */
  lemma ShapingAgrees(combined: string)
    ensures ShapeV3(combined) == ShapeV12(combined)
  {
  }

  /** The shaped output is never empty, never longer than the cap, and is
      either the placeholder or a prefix of the stripped output. */
  lemma ShapedOutput(combined: string)
    ensures 0 < |ShapeV12(combined)| <= OutputCap
    ensures Strip(combined) == [] ==> ShapeV12(combined) == "(no output)"
    ensures Strip(combined) != [] ==> ShapeV12(combined) <= Strip(combined)
    ensures |Strip(combined)| <= OutputCap ==> Strip(combined) != [] ==> ShapeV12(combined) == Strip(combined)
  {
  }

  // ---------------------------------------------------------------------
  // Reading files
  // ---------------------------------------------------------------------

  /** `p` names a directory: some stored file lies below it. */
  predicate IsDirectory(files: Files, p: Path)
  {
    exists q :: q in files && p < q
  }

  /** `Path.read_text()`: the contents, or the text of the `OSError`. */
  function Load(files: Files, p: Path): (r: Result<string, string>)
    ensures r.Ok? <==> p in files
    ensures r.Ok? ==> r.value == files[p]
  {
    if p in files then Ok(files[p])
    else if IsDirectory(files, p) then Err("[Errno 21] Is a directory: '" + Render(p) + "'")
    else Err("[Errno 2] No such file or directory: '" + Render(p) + "'")
  }

  /** Python's `xs[:n]`, which counts a negative `n` from the end. */
  function PyHead(xs: seq<string>, n: int): (r: seq<string>)
    ensures r <= xs
    ensures 0 <= n ==> |r| == if n <= |xs| then n else |xs|
    ensures n < 0 ==> |r| == if -n <= |xs| then |xs| + n else 0
  {
    if 0 <= n then (if n <= |xs| then xs[..n] else xs)
    else if -n <= |xs| then xs[..|xs| + n] else []
  }

  /** Python truthiness of the optional `limit`: absent and 0 are false. */
  predicate Truthy(limit: Option<int>)
  {
    limit.Some? && limit.value != 0
  }

  function MoreMarker(rev: Revision, k: nat): string
  {
    if rev == V1 then "... (" + NatToString(k) + " more lines)" else "... (" + NatToString(k) + " more)"
  }

  /** The lines `run_read` returns before joining: v3 just slices; v1 and v2
      slice only when the limit is below the line count, and then add a
      marker counting the lines not shown as `total - limit`. */
  function ReadLines(rev: Revision, text: string, limit: Option<int>): seq<string>
  {
    var lines := SplitLines(text);
    if !Truthy(limit) then lines
    else if rev == V3 then PyHead(lines, limit.value)
    else if limit.value < |lines| then PyHead(lines, limit.value) + [MoreMarker(rev, |lines| - limit.value)]
    else lines
  }

  function ReadText(rev: Revision, text: string, limit: Option<int>): string
  {
    Take(Join(ReadLines(rev, text, limit), "\n"), OutputCap)
  }

  /** `run_read`. */
  function RunRead(rev: Revision, root: Path, files: Files, path: string, limit: Option<int>): (out: string)
    requires ValidPath(root)
    ensures SafePath(root, path).Err? ==> out == "Error: " + SafePath(root, path).error
  {
    match SafePath(root, path)
    case Err(e) => "Error: " + e
    case Ok(p) =>
      match Load(files, p)
      case Err(e) => "Error: " + e
      case Ok(text) => ReadText(rev, text, limit)
  }

  /** Text made of `\n`-separated lines with no other line break and no
      trailing newline. */
  predicate PlainText(t: string)
  {
    t != [] && t[|t| - 1] != '\n' && forall k :: 0 <= k < |t| ==> t[k] == '\n' || !IsLineBreak(t[k])
  }

  /** Without a limit every revision returns the whole of a plain text, cut
      at the cap. */
  lemma ReadWholeFile(rev: Revision, t: string, limit: Option<int>)
    requires PlainText(t) && !Truthy(limit)
    ensures ReadText(rev, t, limit) == Take(t, OutputCap)
  {
    SplitLinesIsSplitOnNewline(t);
    JoinSplit(t, '\n');
  }

  /** With a positive limit below the line count, v1 and v2 show exactly the
      first `limit` lines and a marker whose count is the number of lines
      left out; v3 shows the same lines without a marker. */
  lemma ReadWithPositiveLimit(rev: Revision, text: string, n: int)
    requires 0 < n < |SplitLines(text)|
    ensures rev != V3 ==>
      ReadLines(rev, text, Some(n)) == SplitLines(text)[..n] + [MoreMarker(rev, |SplitLines(text)[n..]|)]
    ensures ReadLines(V3, text, Some(n)) == SplitLines(text)[..n]
  {
  }

  /** With a limit of at least the line count nothing is cut and no marker
      is added. */
  lemma ReadWithLargeLimit(rev: Revision, text: string, n: int)
    requires |SplitLines(text)| <= n
    ensures ReadLines(rev, text, Some(n)) == SplitLines(text)
  {
  }

  /** A negative limit drops lines from the end, and v1/v2's marker then
      counts `total - limit` lines, more than the file has. */
  lemma NegativeLimitMarker(rev: Revision, text: string, n: int)
    requires rev != V3 && n < 0 && -n <= |SplitLines(text)|
    ensures var lines := SplitLines(text);
      ReadLines(rev, text, Some(n)) == lines[..|lines| + n] + [MoreMarker(rev, |lines| - n)]
  {
    PyHeadFromEnd(SplitLines(text), n);
  }

  lemma PyHeadFromEnd(xs: seq<string>, n: int)
    requires n < 0 && -n <= |xs|
    ensures PyHead(xs, n) == xs[..|xs| + n]
  {
  }

  lemma ReadCapped(rev: Revision, text: string, limit: Option<int>)
    ensures |ReadText(rev, text, limit)| <= OutputCap
    ensures ReadText(rev, text, limit) <= Join(ReadLines(rev, text, limit), "\n")
  {
  }

  // ---------------------------------------------------------------------
  // Writing and editing
  // ---------------------------------------------------------------------

  /** `run_write`: the message counts characters, as `len(content)` does. */
  function RunWrite(root: Path, files: Files, path: string, content: string): (r: Outcome)
    requires ValidPath(root)
    ensures SafePath(root, path).Err? ==> r == Outcome("Error: " + SafePath(root, path).error, files)
    ensures SafePath(root, path).Ok? ==> r.files == files[SafePath(root, path).value := content]
  {
    match SafePath(root, path)
    case Err(e) => Outcome("Error: " + e, files)
    case Ok(p) => Outcome("Wrote " + NatToString(|content|) + " bytes to " + path, files[p := content])
  }

  /** `run_edit`: the first occurrence of `pat` is replaced; when there is
      none, or the file cannot be read, nothing is written. */
  function RunEdit(root: Path, files: Files, path: string, pat: string, rep: string): (r: Outcome)
    requires ValidPath(root)
    ensures SafePath(root, path).Err? ==> r == Outcome("Error: " + SafePath(root, path).error, files)
    ensures SafePath(root, path).Ok? && SafePath(root, path).value !in files ==> r.files == files
  {
    match SafePath(root, path)
    case Err(e) => Outcome("Error: " + e, files)
    case Ok(p) =>
      match Load(files, p)
      case Err(e) => Outcome("Error: " + e, files)
      case Ok(text) =>
        if !Contains(text, pat) then Outcome("Error: Text not found in " + path, files)
        else Outcome("Edited " + path, files[p := ReplaceFirst(text, pat, rep)])
  }

  /** An edit whose text is absent reports it and leaves every file alone. */
  lemma EditNotFound(root: Path, files: Files, path: string, pat: string, rep: string)
    requires ValidPath(root) && SafePath(root, path).Ok?
    requires SafePath(root, path).value in files && !Contains(files[SafePath(root, path).value], pat)
    ensures RunEdit(root, files, path, pat, rep) == Outcome("Error: Text not found in " + path, files)
  {
  }

  /** A successful edit rewrites only the target file, replacing the first
      occurrence of `pat` and nothing else. */
  lemma EditFirstOccurrence(root: Path, files: Files, path: string, pat: string, rep: string, k: nat)
    requires ValidPath(root) && SafePath(root, path).Ok?
    requires SafePath(root, path).value in files
    requires OccursAt(files[SafePath(root, path).value], pat, k)
    requires forall j :: 0 <= j < k ==> !OccursAt(files[SafePath(root, path).value], pat, j)
    ensures var p, text := SafePath(root, path).value, files[SafePath(root, path).value];
      RunEdit(root, files, path, pat, rep) ==
        Outcome("Edited " + path, files[p := text[..k] + rep + text[k + |pat|..]])
  {
    var text := files[SafePath(root, path).value];
    ReplaceFirstAtFirstOccurrence(text, pat, rep, k);
  }

  /** Reading back what was just written gives the written text (cut at the
      cap), in every revision. */
  lemma ReadAfterWrite(rev: Revision, root: Path, files: Files, path: string, content: string)
    requires ValidPath(root) && SafePath(root, path).Ok? && PlainText(content)
    ensures RunRead(rev, root, RunWrite(root, files, path, content).files, path, None) == Take(content, OutputCap)
  {
    ReadWholeFile(rev, content, None);
  }
}
