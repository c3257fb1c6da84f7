/** The networked backend's `AgentSession`: the four file tools behind the
    string-prefix path guard, a file-system update callback after every tool
    that may have changed the workspace, and `step`, which recurses once per
    tool round.

    The session's two callbacks are recorded, in order, as the events they
    send: a log line or a file-system update. */
module Backend {
  import opened Wrappers
  import opened Text
  import opened Paths
  import opened Tools
  import opened Protocol
  import opened Dispatch

  const Esc: char := 27 as char
  const Reset: string := [Esc] + "[0m"
  const Red: string := [Esc] + "[31m"
  const Green: string := [Esc] + "[32m"
  const Yellow: string := [Esc] + "[33m"
  const White: string := [Esc] + "[37m"

  /** What the callbacks send: `log(content, color)`, the "$ name: args" line
      (its formatting of the arguments is not modelled), and an update. */
  datatype Event = Log(color: string, content: string) | CallLine(name: string, args: Args) | FsUpdate

  /** The text `log` hands to its callback. */
  function LogText(color: string, content: string): string
  {
    color + content + Reset
  }

  /** The log's preview of a tool output: at most 300 characters, then "...". */
  function Preview(output: string): (p: string)
    ensures |output| <= 300 ==> p == output
    ensures |output| > 300 ==> p == output[..300] + "..."
  {
    if |output| > 300 then output[..300] + "..." else output
  }

  /** The position of the last '.' in `s`, if any. */
  function LastDot(s: string): (r: Option<nat>)
    ensures r.None? <==> '.' !in s
    ensures r.Some? ==> r.value < |s| && s[r.value] == '.' && '.' !in s[r.value + 1..]
  {
    if s == [] then None
    else if s[|s| - 1] == '.' then Some(|s| - 1)
    else
      var r := LastDot(s[..|s| - 1]);
      assert s == s[..|s| - 1] + [s[|s| - 1]];
      r
  }

  /** `p.suffix.lstrip(".") or "text"`: the text after the last dot of the
      file name, when that dot is neither its first nor its last
      character. */
  function Extension(p: Path): string
  {
    var name := if p == [] then "" else p[|p| - 1];
    match LastDot(name)
    case Some(i) => if 0 < i < |name| - 1 then name[i + 1..] else "text"
    case None => "text"
  }

  /** The extension is a non-empty run of characters without a dot. */
  lemma ExtensionMeaning(p: Path)
    ensures Extension(p) != "" && '.' !in Extension(p)
  {
  }

  /** A file shown by read_file: its first 50000 characters in a fenced block
      labelled with the extension. */
  function Fenced(ext: string, content: string): string
  {
    "```" + ext + "\n" + Take(content, OutputCap) + "\n```"
  }

  /** What `execute_tool` does: the output text, the files afterwards, and
      whether it called the file-system update callback. */
  datatype Effect = Effect(output: string, files: Files, notify: bool)

  /** An exception `execute_tool` catches. */
  function Failure(name: string, e: string, files: Files): Effect
  {
    Effect("Error executing " + name + ": " + e, files, false)
  }

  function BashText(stdout: string, stderr: string): (s: string)
    ensures s != ""
  {
    var o := Strip(stdout) + Strip(stderr);
    if o == "" then "(no output)" else o
  }

  /** `AgentSession.execute_tool(name, args)`. */
  function Tool(root: Path, files: Files, shell: Shell, name: string, args: Args): Effect
    requires ValidPath(root)
  {
    if name == "bash" then
      match Arg(args, "command")
      case Err(k) => Failure(name, k, files)
      case Ok(cmd) =>
        if Dangerous(V3, cmd) then Effect("Error: Dangerous command", files, false)
        else
          var run := shell(cmd, files);
          match run.exit
          case Completed(out, err) => Effect(BashText(out, err), run.after, true)
          case TimedOut => Effect("Error: Command timed out after 60 seconds.", run.after, false)
          case Raised(m) => Failure(name, m, run.after)
    else if name == "read_file" then
      match Arg(args, "path")
      case Err(k) => Failure(name, k, files)
      case Ok(path) =>
        match PrefixSafePath(root, path)
        case Err(e) => Failure(name, e, files)
        case Ok(p) =>
          if p !in files && !IsDirectory(files, p) then Effect("Error: File not found", files, false)
          else
            match Load(files, p)
            case Err(e) => Failure(name, e, files)
            case Ok(text) => Effect(Fenced(Extension(p), text), files, false)
    else if name == "write_file" then
      match Arg(args, "path")
      case Err(k) => Failure(name, k, files)
      case Ok(path) =>
        match PrefixSafePath(root, path)
        case Err(e) => Failure(name, e, files)
        case Ok(p) =>
          match Arg(args, "content")
          case Err(k) => Failure(name, k, files)
          case Ok(content) =>
            Effect("Wrote " + NatToString(|content|) + " bytes to " + path, files[p := content], true)
    else if name == "edit_file" then
      match Arg(args, "path")
      case Err(k) => Failure(name, k, files)
      case Ok(path) =>
        match PrefixSafePath(root, path)
        case Err(e) => Failure(name, e, files)
        case Ok(p) =>
          match Load(files, p)
          case Err(e) => Failure(name, e, files)
          case Ok(text) =>
            match Arg(args, "old_text")
            case Err(k) => Failure(name, k, files)
            case Ok(pat) =>
              if !Contains(text, pat) then Effect("Error: Text not found in " + path, files, false)
              else
                match Arg(args, "new_text")
                case Err(k) => Failure(name, k, files)
                case Ok(rep) => Effect("Edited " + path, files[p := ReplaceFirst(text, pat, rep)], true)
    else Effect("Tool " + name + " not implemented in demo.", files, false)
  }

  /** The edit_file call finds its file inside the guard, has all its
      arguments, and the text to replace occurs in the file. */
  predicate EditApplies(root: Path, files: Files, args: Args)
    requires ValidPath(root)
  {
    "path" in args.text && "old_text" in args.text && "new_text" in args.text
    && PrefixSafePath(root, args.text["path"]).Ok?
    && PrefixSafePath(root, args.text["path"]).value in files
    && Contains(files[PrefixSafePath(root, args.text["path"]).value], args.text["old_text"])
  }

  /** The update callback fires exactly after a command that ran to
      completion, a write that happened and an edit that happened: never for
      a read, an unknown tool, a refused or failed command, or an edit whose
      text is missing. */
  lemma CallbackMeaning(root: Path, files: Files, shell: Shell, name: string, args: Args)
    requires ValidPath(root)
    ensures Tool(root, files, shell, name, args).notify <==>
      (name == "bash" && "command" in args.text && !Dangerous(V3, args.text["command"])
        && shell(args.text["command"], files).exit.Completed?)
      || (name == "write_file" && "path" in args.text && "content" in args.text
        && PrefixSafePath(root, args.text["path"]).Ok?)
      || (name == "edit_file" && EditApplies(root, files, args))
  {
  }

  /** Reads and unknown tools leave the files alone and never report an
      update; the guard and a missing argument stop every tool before it
      touches anything. */
  lemma QuietTools(root: Path, files: Files, shell: Shell, name: string, args: Args)
    requires ValidPath(root)
    requires name != "bash" && name != "write_file" && name != "edit_file"
    ensures Tool(root, files, shell, name, args).files == files
    ensures !Tool(root, files, shell, name, args).notify
    ensures name != "read_file" ==>
      Tool(root, files, shell, name, args).output == "Tool " + name + " not implemented in demo."
  {
  }

  /** Reading a stored file inside the guard shows its first 50000
      characters, fenced with its extension. */
  lemma ReadShowsFile(root: Path, files: Files, shell: Shell, args: Args)
    requires ValidPath(root) && "path" in args.text
    requires PrefixSafePath(root, args.text["path"]).Ok? && PrefixSafePath(root, args.text["path"]).value in files
    ensures var p := PrefixSafePath(root, args.text["path"]).value;
      Tool(root, files, shell, "read_file", args).output == Fenced(Extension(p), files[p])
  {
  }

  /** The backend accepts a sibling of the workspace whose name extends the
      workspace's last segment, which the command-line agents reject. */
  lemma GuardAdmitsSibling(root: Path, files: Files, shell: Shell, args: Args, m: string)
    requires ValidPath(root) && root != [] && ValidSegment(m) && root[|root| - 1] < m
    requires args.text == map["path" := "../" + m, "content" := ""]
    ensures Tool(root, files, shell, "write_file", args).files == files[root[..|root| - 1] + [m] := ""]
    ensures !(root <= root[..|root| - 1] + [m])
  {
    StringGuardAdmitsSibling(root, m);
  }

  /** The events one call of `step` sends: its "$ name: args" line, the
      update when the tool notifies, and the preview of its output. */
  function CallEvents(c: ToolCall, e: Effect): seq<Event>
  {
    [CallLine(c.name, c.args)] + (if e.notify then [FsUpdate] else []) + [Log(White, Preview(e.output))]
  }

  /** What the calls of one reply give, run in order from some files: the
      outputs, the files after the last call, and the events sent. */
  datatype ToolsRun = ToolsRun(outputs: seq<string>, files: Files, events: seq<Event>)

  /** The calls run one after the other through `execute_tool`, each on the
      files the one before it left. */
  function RunTools(root: Path, files: Files, shell: Shell, calls: seq<ToolCall>): (r: ToolsRun)
    requires ValidPath(root)
    ensures |r.outputs| == |calls|
    decreases |calls|
  {
    if calls == [] then ToolsRun([], files, [])
    else
      var r := RunTools(root, files, shell, calls[..|calls| - 1]);
      var c := calls[|calls| - 1];
      var e := Tool(root, r.files, shell, c.name, c.args);
      ToolsRun(r.outputs + [e.output], e.files, r.events + CallEvents(c, e))
  }

  /** One more call runs on the files the calls before it left. */
  lemma RunToolsSnoc(root: Path, files: Files, shell: Shell, calls: seq<ToolCall>, j: nat)
    requires ValidPath(root) && j < |calls|
    ensures var r := RunTools(root, files, shell, calls[..j]);
      var e := Tool(root, r.files, shell, calls[j].name, calls[j].args);
      RunTools(root, files, shell, calls[..j + 1]) ==
        ToolsRun(r.outputs + [e.output], e.files, r.events + CallEvents(calls[j], e))
  {
    assert calls[..j + 1][..j] == calls[..j];
  }

  /** The events one call adds, regrouped. A proof-cost helper only: it
      states nothing about the backend and is kept apart so that the
      solver proves it away from the tools. */
  lemma CallEventsSnoc(e0: seq<Event>, before: seq<Event>, c: ToolCall, e: Effect, e1: seq<Event>)
    requires e1 == e0 + before + [CallLine(c.name, c.args)] + (if e.notify then [FsUpdate] else [])
                  + [Log(White, Preview(e.output))]
    ensures e1 == e0 + (before + CallEvents(c, e))
  {
  }

  /** A tool that cannot touch the workspace. */
  predicate Quiet(name: string)
  {
    name != "bash" && name != "write_file" && name != "edit_file"
  }

  /** Calls to reads and unknown tools leave the files alone and send no
      update: each sends its line and its preview, nothing else. */
  lemma {:induction false} QuietRun(root: Path, files: Files, shell: Shell, calls: seq<ToolCall>)
    requires ValidPath(root)
    requires forall k :: 0 <= k < |calls| ==> Quiet(calls[k].name)
    ensures RunTools(root, files, shell, calls).files == files
    ensures FsUpdate !in RunTools(root, files, shell, calls).events
    ensures |RunTools(root, files, shell, calls).events| == 2 * |calls|
    decreases |calls|
  {
    if calls != [] {
      var init := calls[..|calls| - 1];
      var c := calls[|calls| - 1];
      QuietRun(root, files, shell, init);
      QuietTools(root, files, shell, c.name, c.args);
    }
  }

  /** The event a reply's text sends: a green log line when it is not empty. */
  function ReplyLog(r: Reply): seq<Event>
  {
    if r.content.Some? && r.content.value != "" then [Log(Green, r.content.value)] else []
  }

  /** The rounds `ts` of `step`, run from `files`: every reply has calls, and
      each call is answered, by id and in order, with its whole output. */
  ghost predicate RanRounds(root: Path, shell: Shell, files: Files, ts: seq<Turn>)
    requires ValidPath(root)
    decreases |ts|
  {
    ts == [] ||
    (var run := RunTools(root, files, shell, ts[0].reply.calls);
     && ts[0].reply.calls != []
     && ts[0].answers == Whole(ts[0].reply.calls, run.outputs)
     && RanRounds(root, shell, run.files, ts[1..]))
  }

  /** The files after some rounds and the events they sent. */
  datatype After = After(files: Files, events: seq<Event>)

  /** The rounds `ts` run from `files`: each logs its reply's text and then
      its calls' events. */
  function Rounds(root: Path, shell: Shell, files: Files, ts: seq<Turn>): After
    requires ValidPath(root)
    decreases |ts|
  {
    if ts == [] then After(files, [])
    else
      var run := RunTools(root, files, shell, ts[0].reply.calls);
      var rest := Rounds(root, shell, run.files, ts[1..]);
      After(rest.files, ReplyLog(ts[0].reply) + run.events + rest.events)
  }

  /** The events `step` sends after its last round: the final reply's text,
      the "System Error" line in red, or nothing when the fuel ran out. */
  function Closing(end: LoopEnd, last: Reply): seq<Event>
  {
    match end
    case Done => ReplyLog(last)
    case Crashed(m) => [Log(Red, "System Error: " + m)]
    case OutOfFuel => []
  }

  /** Every round of `step` has calls and answers each of them by id. */
  lemma {:induction false} RoundsAnswered(root: Path, shell: Shell, files: Files, ts: seq<Turn>)
    requires ValidPath(root) && RanRounds(root, shell, files, ts)
    ensures forall i :: 0 <= i < |ts| ==> ts[i].reply.calls != [] && Answers(ts[i].reply.calls, ts[i].answers)
    decreases |ts|
  {
    if ts != [] {
      var run := RunTools(root, files, shell, ts[0].reply.calls);
      RoundsAnswered(root, shell, run.files, ts[1..]);
      forall i | 0 <= i < |ts|
        ensures ts[i].reply.calls != [] && Answers(ts[i].reply.calls, ts[i].answers)
      {
        if i > 0 {
          assert ts[i] == ts[1..][i - 1];
        } else {
          assert ts[0].reply.calls[..|run.outputs|] == ts[0].reply.calls;
        }
      }
    }
  }

  /** A round in front of rounds that ran from the files it left. */
  lemma RoundsCons(root: Path, shell: Shell, files: Files, t: Turn, rest: seq<Turn>)
    requires ValidPath(root)
    ensures var run := RunTools(root, files, shell, t.reply.calls);
      var after := Rounds(root, shell, run.files, rest);
      && (RanRounds(root, shell, files, [t] + rest) <==>
            t.reply.calls != [] && t.answers == Whole(t.reply.calls, run.outputs) &&
            RanRounds(root, shell, run.files, rest))
      && Rounds(root, shell, files, [t] + rest) ==
           After(after.files, ReplyLog(t.reply) + run.events + after.events)
  {
    assert ([t] + rest)[0] == t && ([t] + rest)[1..] == rest;
  }

  /** What `step` promises after one round carries over from the recursive
      call to the round in front of it. */
  lemma StepAfterRound(root: Path, model: Model, shell: Shell, messages: seq<Message>, f0: Files, t: Turn,
                       grown: seq<Message>, rest: seq<Turn>, tail: seq<Message>, out: seq<Message>,
                       e0: seq<Event>, e1: seq<Event>, closing: seq<Event>, e2: seq<Event>)
    requires ValidPath(root)
    requires var run := RunTools(root, f0, shell, t.reply.calls);
      && t.reply.calls != [] && t.answers == Whole(t.reply.calls, run.outputs)
      && model(FileToolNames, messages) == Some(t.reply)
      && grown == messages + Round(PerCall, t.reply, t.answers)
      && e1 == e0 + ReplyLog(t.reply) + run.events
      && out == grown + Flatten(PerCall, rest) + tail
      && Asked(model, FileToolNames, PerCall, grown, rest)
      && RanRounds(root, shell, run.files, rest)
      && e2 == e1 + Rounds(root, shell, run.files, rest).events + closing
    ensures grown + Flatten(PerCall, rest) == messages + Flatten(PerCall, [t] + rest)
    ensures out == messages + Flatten(PerCall, [t] + rest) + tail
    ensures Asked(model, FileToolNames, PerCall, messages, [t] + rest)
    ensures RanRounds(root, shell, f0, [t] + rest)
    ensures Rounds(root, shell, f0, [t] + rest).files == Rounds(root, shell, RunTools(root, f0, shell, t.reply.calls).files, rest).files
    ensures e2 == e0 + Rounds(root, shell, f0, [t] + rest).events + closing
  {
    var run := RunTools(root, f0, shell, t.reply.calls);
    FlattenFront(messages, t, rest, grown);
    AskedCons(model, FileToolNames, messages, t, rest);
    RoundsCons(root, shell, f0, t, rest);
    EventsAfterRound(e0, ReplyLog(t.reply), run.events, Rounds(root, shell, run.files, rest).events, closing,
                     e1, e2, Rounds(root, shell, f0, [t] + rest).events);
  }

  /** The events of a round followed by those of the rounds after it are
      the events of all of them. A proof-cost helper only: it states
      nothing about the backend and is kept apart so that the solver
      regroups the sequences away from the rounds. */
  lemma EventsAfterRound(e0: seq<Event>, log: seq<Event>, calls: seq<Event>, later: seq<Event>,
                         closing: seq<Event>, e1: seq<Event>, e2: seq<Event>, all: seq<Event>)
    requires e1 == e0 + log + calls && e2 == e1 + later + closing && all == log + calls + later
    ensures e2 == e0 + all + closing
  {
    assert e0 + log + calls == e0 + (log + calls);
    assert e0 + (log + calls) + later == e0 + (log + calls + later);
  }

  /** No rounds add no messages. A proof-cost helper only: the step's
      exits that run no round call it so that the solver need not unfold
      `Flatten` there. */
  lemma NoRounds(messages: seq<Message>)
    ensures messages + Flatten(PerCall, []) == messages
  {
  }

  class AgentSession {
    const workdir: Path
    var files: Files
    var events: seq<Event>

    constructor (workdir: Path, files: Files)
      requires ValidPath(workdir)
      ensures this.workdir == workdir && this.files == files && events == []
    {
      this.workdir := workdir;
      this.files := files;
      events := [];
    }

    /** `execute_tool`: it never raises; the files become those `Tool`
        computes, and the update callback is called when `Tool` says so. */
    method ExecuteTool(name: string, args: Args, shell: Shell) returns (output: string)
      requires ValidPath(workdir)
      modifies this
      ensures var e := Tool(workdir, old(files), shell, name, args);
        output == e.output && files == e.files &&
        events == old(events) + (if e.notify then [FsUpdate] else [])
    {
      var e := Tool(workdir, files, shell, name, args);
      files := e.files;
      if e.notify {
        events := events + [FsUpdate];
      }
      return e.output;
    }

    /** The `for` loop of `step` over the reply's calls: each call is logged,
        run on the files the calls before it left, its preview logged, and
        its whole output appended as a tool message tagged with the call's
        id. */
    method RunCalls(messages: seq<Message>, calls: seq<ToolCall>, shell: Shell)
      returns (out: seq<Message>, answers: seq<Answer>)
      requires ValidPath(workdir)
      modifies this
      ensures var run := RunTools(workdir, old(files), shell, calls);
        && answers == Whole(calls, run.outputs) && out == messages + ToolMsgs(answers)
        && files == run.files && events == old(events) + run.events
    {
      out, answers := messages, [];
      var j := 0;
      while j < |calls|
        invariant 0 <= j <= |calls|
        invariant var run := RunTools(workdir, old(files), shell, calls[..j]);
          && answers == Whole(calls, run.outputs) && out == messages + ToolMsgs(answers)
          && files == run.files && events == old(events) + run.events
      {
        ghost var run := RunTools(workdir, old(files), shell, calls[..j]);
        ghost var e := Tool(workdir, run.files, shell, calls[j].name, calls[j].args);
        RunToolsSnoc(workdir, old(files), shell, calls, j);
        events := events + [CallLine(calls[j].name, calls[j].args)];
        var output := ExecuteTool(calls[j].name, calls[j].args, shell);
        events := events + [Log(White, Preview(output))];
        CallEventsSnoc(old(events), run.events, calls[j], e, events);
        var a := Answer(calls[j].id, output);
        WholeSnoc(calls, run.outputs, output);
        ToolMsgsSnoc(messages, answers, a, out);
        answers := answers + [a];
        out := out + [ToolMsg(a)];
        j := j + 1;
      }
      assert calls[..j] == calls;
    }

    /** One pass of `step`: ask the model, append its reply and log its
        text, and when it has tool calls run them. `None` means `step`
        recurses after the complete round `t`; a model failure is logged as
        "System Error" and appends nothing. */
    method Ask(messages: seq<Message>, model: Model, shell: Shell)
      returns (grown: seq<Message>, stop: Option<LoopEnd>, ghost t: Turn)
      requires ValidPath(workdir)
      modifies this
      ensures stop != Some(OutOfFuel)
      ensures stop.None? ==>
        var run := RunTools(workdir, old(files), shell, t.reply.calls);
        && t.reply.calls != [] && model(FileToolNames, messages) == Some(t.reply)
        && t.answers == Whole(t.reply.calls, run.outputs)
        && grown == messages + Round(PerCall, t.reply, t.answers)
        && files == run.files && events == old(events) + ReplyLog(t.reply) + run.events
      ensures stop == Some(Done) ==>
        && t.reply.calls == [] && model(FileToolNames, messages) == Some(t.reply)
        && grown == messages + [AssistantMsg(t.reply)]
        && files == old(files) && events == old(events) + ReplyLog(t.reply)
      ensures stop.Some? && !stop.value.Done? ==>
        && stop.value == Crashed(ApiFailure) && model(FileToolNames, messages).None?
        && grown == messages && files == old(files)
        && events == old(events) + [Log(Red, "System Error: " + ApiFailure)]
    {
      var reply := model(FileToolNames, messages);
      if reply.None? {
        events := events + [Log(Red, "System Error: " + ApiFailure)];
        return messages, Some(Crashed(ApiFailure)), Turn(Reply(None, [], false), []);
      }
      var r := reply.value;
      grown := messages + [AssistantMsg(r)];
      events := events + ReplyLog(r);
      if r.calls == [] {
        return grown, Some(Done), Turn(r, []);
      }
      var answers;
      grown, answers := RunCalls(grown, r.calls, shell);
      return grown, None, Turn(r, answers);
    }

    /** `step(messages)`, at most `fuel` model calls deep. The reply is
        always appended; a reply without tool calls ends the recursion, one
        with calls gets one tool message per call and the next step. A model
        failure is caught by the innermost step, logged as "System Error",
        and the messages gathered so far are returned. Unlike the command-
        line agents, it looks at the calls and not at the finish reason.

        Each round's reply is the model's reply to the messages before it,
        and its calls ran on the files the round before left; the files
        and the events are those the rounds give, followed by the closing
        event. The fuel runs out only after `fuel` rounds. */
    method Step(messages: seq<Message>, model: Model, shell: Shell, fuel: nat)
      returns (out: seq<Message>, end: LoopEnd, ghost turns: seq<Turn>, ghost tail: seq<Message>,
               ghost last: Reply)
      requires ValidPath(workdir)
      modifies this
      decreases fuel
      ensures out == messages + Flatten(PerCall, turns) + tail
      ensures Asked(model, FileToolNames, PerCall, messages, turns) && RanRounds(workdir, shell, old(files), turns)
      ensures end.OutOfFuel? <==> |turns| == fuel
      ensures files == Rounds(workdir, shell, old(files), turns).files
      ensures events == old(events) + Rounds(workdir, shell, old(files), turns).events + Closing(end, last)
      ensures end.Done? ==>
        tail == [AssistantMsg(last)] && last.calls == [] &&
        model(FileToolNames, messages + Flatten(PerCall, turns)) == Some(last)
      ensures !end.Done? ==> tail == []
      ensures end.Crashed? ==>
        end.message == ApiFailure && model(FileToolNames, messages + Flatten(PerCall, turns)).None?
    {
      if fuel == 0 {
        NoRounds(messages);
        return messages, OutOfFuel, [], [], Reply(None, [], false);
      }
      ghost var f0, e0 := files, events;
      var grown, stop, t := Ask(messages, model, shell);
      if stop.Some? {
        NoRounds(messages);
        if stop.value.Done? {
          return grown, Done, [], [AssistantMsg(t.reply)], t.reply;
        }
        return grown, stop.value, [], [], t.reply;
      }
      ghost var e1 := events;
      ghost var rest;
      out, end, rest, tail, last := Step(grown, model, shell, fuel - 1);
      StepAfterRound(workdir, model, shell, messages, f0, t, grown, rest, tail, out, e0, e1, Closing(end, last), events);
      turns := [t] + rest;
    }
  }
}
