/** The v1 agent: one conversation history, four file tools, and the loop
    that alternates model calls with tool calls until the model stops asking
    for tools. */
module AgentV1 {
  import opened Wrappers
  import opened Text
  import opened Paths
  import opened Tools
  import opened Protocol
  import opened Dispatch

  /** Round `t` ran as `tr` from the files `before` to the files `after`:
      its calls ran in order through `execute_tool`, none raised, and each
      answer is its call's output cut to 50000 characters. */
  ghost predicate RanRound(root: Path, shell: Shell, before: Files, t: Turn, tr: Trace<Files, string>, after: Files)
    requires ValidPath(root)
  {
    Traced(Dispatcher(V1, root, shell), t.reply.calls, tr) && tr.states[0] == before && tr.Final() == after &&
    tr.raised.None? && t.answers == Tagged(t.reply.calls, tr.outputs, OutputCap)
  }

  /** Round `t` ran as `tr` from `before` to `after` until a call raised
      `error`; the calls before it are answered with their outputs. */
  ghost predicate Broke(root: Path, shell: Shell, before: Files, t: Turn, tr: Trace<Files, string>, after: Files,
                        error: string)
    requires ValidPath(root)
  {
    Traced(Dispatcher(V1, root, shell), t.reply.calls, tr) && tr.states[0] == before && tr.Final() == after &&
    tr.raised == Some(error) && t.answers == Tagged(t.reply.calls, tr.outputs, OutputCap)
  }

  /** The rounds `ts` ran one after the other as `trs`, round `i` from the
      files `fs[i]` to the files `fs[i + 1]`. */
  ghost predicate RanRounds(root: Path, shell: Shell, fs: seq<Files>, ts: seq<Turn>, trs: seq<Trace<Files, string>>)
    requires ValidPath(root)
  {
    |fs| == |ts| + 1 && |trs| == |ts| &&
    forall i :: 0 <= i < |ts| ==> RanRound(root, shell, fs[i], ts[i], trs[i], fs[i + 1])
  }

  /** One more round that ran from the last files extends the rounds. */
  lemma RanRoundsSnoc(root: Path, shell: Shell, fs: seq<Files>, ts: seq<Turn>, trs: seq<Trace<Files, string>>,
                      t: Turn, tr: Trace<Files, string>, f: Files)
    requires ValidPath(root) && RanRounds(root, shell, fs, ts, trs)
    requires RanRound(root, shell, fs[|ts|], t, tr, f)
    ensures RanRounds(root, shell, fs + [f], ts + [t], trs + [tr]) && (fs + [f])[0] == fs[0]
  {
    forall i | 0 <= i < |ts| + 1
      ensures RanRound(root, shell, (fs + [f])[i], (ts + [t])[i], (trs + [tr])[i], (fs + [f])[i + 1])
    {
      if i < |ts| {
        assert (fs + [f])[i + 1] == fs[i + 1];
      }
    }
  }

  /** A loop that has run the rounds `ts` and now runs round `t` has run
      `ts + [t]`: the history, the replies asked and the files all agree. */
  lemma Advance(model: Model, root: Path, shell: Shell, h0: seq<Message>, ts: seq<Turn>, fs: seq<Files>,
                trs: seq<Trace<Files, string>>, t: Turn, tr: Trace<Files, string>, h1: seq<Message>, f: Files)
    requires ValidPath(root)
    requires AllAnswered(ts) && AllBounded(ts, OutputCap) && t.reply.wantsTools
    requires Asked(model, FileToolNames, PerCall, h0, ts) && RanRounds(root, shell, fs, ts, trs)
    requires model(FileToolNames, h0 + Flatten(PerCall, ts)) == Some(t.reply)
    requires RanRound(root, shell, fs[|ts|], t, tr, f)
    requires h1 == h0 + Flatten(PerCall, ts) + Round(PerCall, t.reply, t.answers)
    ensures h1 == h0 + Flatten(PerCall, ts + [t])
    ensures AllAnswered(ts + [t]) && AllBounded(ts + [t], OutputCap)
    ensures Asked(model, FileToolNames, PerCall, h0, ts + [t])
    ensures RanRounds(root, shell, fs + [f], ts + [t], trs + [tr]) && (fs + [f])[0] == fs[0]
    ensures (fs + [f])[|ts + [t]|] == f
  {
    AllCallsAnswered(t.reply.calls, t.answers);
    AppendRound(h0, ts, t, h1, OutputCap);
    AskedSnoc(model, FileToolNames, PerCall, h0, ts, t);
    RanRoundsSnoc(root, shell, fs, ts, trs, t, tr, f);
  }

  class Agent {
    const root: Path
    var files: Files
    var history: seq<Message>

    /** `main`'s history starts as the system prompt alone. */
    constructor (root: Path, files: Files, system: string)
      requires ValidPath(root)
      ensures this.root == root && this.files == files && history == [SystemMsg(system)]
    {
      this.root := root;
      this.files := files;
      history := [SystemMsg(system)];
    }

    /** `agent_loop(messages)`, at most `fuel` model calls.

        The history grows by complete tool rounds and then by `tail`. Each
        round's reply is the model's reply to the history before it, and
        each round ran its calls in order on the files the round before
        left (`trs`), every call answered once, by id, with its output cut
        to 50000 characters. On `Done` the tail is the model's final reply,
        which does not ask for tools. On a crash the tail is empty, when the
        model call failed, or the last reply and the answers given before
        the call that raised (`lastRun`), and it stays in the history. The
        loop runs out of fuel only after `fuel` complete rounds. */
    method AgentLoop(model: Model, shell: Shell, fuel: nat)
      returns (end: LoopEnd, ghost turns: seq<Turn>, ghost tail: seq<Message>, ghost last: Turn,
               ghost fs: seq<Files>, ghost trs: seq<Trace<Files, string>>, ghost lastRun: Trace<Files, string>)
      requires ValidPath(root)
      modifies this
      ensures history == old(history) + Flatten(PerCall, turns) + tail
      ensures AllAnswered(turns) && AllBounded(turns, OutputCap)
      ensures Asked(model, FileToolNames, PerCall, old(history), turns)
      ensures RanRounds(root, shell, fs, turns, trs) && fs[0] == old(files)
      ensures end.OutOfFuel? <==> |turns| == fuel
      ensures end.Done? || end.OutOfFuel? ==> files == fs[|turns|]
      ensures end.OutOfFuel? ==> tail == []
      ensures end.Done? ==>
        tail == [AssistantMsg(last.reply)] && !last.reply.wantsTools &&
        model(FileToolNames, old(history) + Flatten(PerCall, turns)) == Some(last.reply)
      ensures end.Crashed? && tail == [] ==>
        model(FileToolNames, old(history) + Flatten(PerCall, turns)).None? && files == fs[|turns|]
      ensures end.Crashed? && tail != [] ==>
        Unfinished(tail, last) && model(FileToolNames, old(history) + Flatten(PerCall, turns)) == Some(last.reply) &&
        Broke(root, shell, fs[|turns|], last, lastRun, files, end.message)
    {
      turns, tail, last, fs, trs := [], [], Turn(Reply(None, [], false), []), [files], [];
      lastRun := Trace([files], [], None);
      var n := 0;
      while n < fuel
        invariant n == |turns| <= fuel
        invariant AllAnswered(turns) && AllBounded(turns, OutputCap)
        invariant history == old(history) + Flatten(PerCall, turns)
        invariant Asked(model, FileToolNames, PerCall, old(history), turns)
        invariant RanRounds(root, shell, fs, turns, trs) && fs[0] == old(files) && files == fs[|turns|]
      {
        var stop, t, added, tr := Step(model, shell);
        if stop.Some? {
          return stop.value, turns, added, t, fs, trs, tr;
        }
        Advance(model, root, shell, old(history), turns, fs, trs, t, tr, history, files);
        turns, fs, trs := turns + [t], fs + [files], trs + [tr];
        n := n + 1;
      }
      return OutOfFuel, turns, [], last, fs, trs, lastRun;
    }

    /** One pass of `agent_loop`'s `while True`: ask the model, append its
        reply, and when it asks for tools run them (`tr`) and append their
        answers. `None` means the loop goes on after the complete round `t`. */
    method Step(model: Model, shell: Shell)
      returns (stop: Option<LoopEnd>, ghost t: Turn, ghost added: seq<Message>, ghost tr: Trace<Files, string>)
      requires ValidPath(root)
      modifies this
      ensures history == old(history) + added && stop != Some(OutOfFuel)
      ensures stop.None? ==>
        t.reply.wantsTools && model(FileToolNames, old(history)) == Some(t.reply) &&
        added == Round(PerCall, t.reply, t.answers) && RanRound(root, shell, old(files), t, tr, files)
      ensures stop == Some(Done) ==>
        !t.reply.wantsTools && model(FileToolNames, old(history)) == Some(t.reply) &&
        added == [AssistantMsg(t.reply)] && files == old(files)
      ensures stop.Some? && stop.value.Crashed? && added == [] ==>
        model(FileToolNames, old(history)).None? && files == old(files)
      ensures stop.Some? && stop.value.Crashed? && added != [] ==>
        Unfinished(added, t) && model(FileToolNames, old(history)) == Some(t.reply) &&
        Broke(root, shell, old(files), t, tr, files, stop.value.message)
    {
      tr := Trace([files], [], None);
      var reply := model(FileToolNames, history);
      if reply.None? {
        return Some(Crashed(ApiFailure)), Turn(Reply(None, [], false), []), [], tr;
      }
      var r := reply.value;
      history := history + [AssistantMsg(r)];
      if !r.wantsTools {
        return Some(Done), Turn(r, []), [AssistantMsg(r)], tr;
      }
      var answers, raised;
      answers, raised, tr := RunCalls(r.calls, shell);
      if raised.Some? {
        return Some(Crashed(raised.value)), Turn(r, answers), Round(PerCall, r, answers), tr;
      }
      return None, Turn(r, answers), Round(PerCall, r, answers), tr;
    }

    /** The `for` loop over a reply's tool calls: each call runs in order on
        the files the calls before it left, and its output, cut to 50000
        characters, is appended as a tool message tagged with the call's id.
        A call that raises stops the loop with the calls before it answered.
        `tr` is the run, which `TracedIsRunAll` shows is `RunAll`'s. */
    method RunCalls(calls: seq<ToolCall>, shell: Shell)
      returns (answers: seq<Answer>, raised: Option<string>, ghost tr: Trace<Files, string>)
      requires ValidPath(root)
      modifies this
      ensures history == old(history) + ToolMsgs(answers)
      ensures Traced(Dispatcher(V1, root, shell), calls, tr) && tr.states[0] == old(files) && files == tr.Final()
      ensures raised == tr.raised && answers == Tagged(calls, tr.outputs, OutputCap)
      ensures Bounded(answers, OutputCap)
      ensures raised.None? ==> Answers(calls, answers)
      ensures raised.Some? ==> |answers| < |calls| && Answers(calls[..|answers|], answers)
    {
      answers, tr := [], Trace([files], [], None);
      var j := 0;
      while j < |calls|
        invariant j <= |calls| && TracedSoFar(Dispatcher(V1, root, shell), calls, j, tr)
        invariant tr.states[0] == old(files) && files == tr.Final()
        invariant answers == Tagged(calls, tr.outputs, OutputCap)
        invariant history == old(history) + ToolMsgs(answers)
      {
        var out := ExecuteTool(calls[j].name, calls[j].args, shell);
        if out.Err? {
          TraceStop(Dispatcher(V1, root, shell), calls, j, tr, out.error);
          return answers, Some(out.error), Trace(tr.states, tr.outputs, Some(out.error));
        }
        TraceNext(Dispatcher(V1, root, shell), calls, j, tr, (out.value, files));
        var a := Answer(calls[j].id, Take(out.value, OutputCap));
        TaggedSnoc(calls, tr.outputs, out.value, OutputCap);
        ToolMsgsSnoc(old(history), answers, a, history);
        answers := answers + [a];
        tr := Trace(tr.states + [files], tr.outputs + [out.value], None);
        history := history + [ToolMsg(a)];
        j := j + 1;
      }
      TraceEnd(Dispatcher(V1, root, shell), calls, tr);
      AllCallsAnswered(calls, answers);
      raised := None;
    }

    /** `execute_tool(name, args)`: the tool's text, or the `KeyError` a
        missing argument raises. */
    method ExecuteTool(name: string, args: Args, shell: Shell) returns (r: Result<string, string>)
      requires ValidPath(root)
      modifies this
      ensures history == old(history)
      ensures var e := Execute(V1, root, old(files), shell, name, args);
        (e.Err? ==> r == Err(e.error) && files == old(files))
        && (e.Ok? ==> r == Ok(e.value.text) && files == e.value.files)
    {
      var e := Execute(V1, root, files, shell, name, args);
      if e.Err? {
        return Err(e.error);
      }
      files := e.value.files;
      return Ok(e.value.text);
    }

    /** One pass of `main`'s REPL: a blank line or "exit"/"quit"/"q" ends
        the session; anything else is appended as a user message and the
        loop runs on it. A failure inside the loop is printed and the
        session goes on with the history as it stands. */
    method Submit(line: string, model: Model, shell: Shell, fuel: nat)
      returns (quit: bool, ghost end: LoopEnd, ghost turns: seq<Turn>, ghost tail: seq<Message>, ghost last: Turn,
               ghost fs: seq<Files>, ghost trs: seq<Trace<Files, string>>, ghost lastRun: Trace<Files, string>)
      requires ValidPath(root)
      modifies this
      ensures quit <==> IsQuit(Strip(line))
      ensures quit ==> history == old(history) && files == old(files)
      ensures !quit ==>
        var asked := old(history) + [UserMsg(Strip(line))];
        && history == asked + Flatten(PerCall, turns) + tail
        && AllAnswered(turns) && AllBounded(turns, OutputCap)
        && Asked(model, FileToolNames, PerCall, asked, turns)
        && RanRounds(root, shell, fs, turns, trs) && fs[0] == old(files)
        && (end.OutOfFuel? <==> |turns| == fuel)
        && (end.Done? || end.OutOfFuel? ==> files == fs[|turns|])
        && (end.OutOfFuel? ==> tail == [])
        && (end.Done? ==>
              tail == [AssistantMsg(last.reply)] && !last.reply.wantsTools &&
              model(FileToolNames, asked + Flatten(PerCall, turns)) == Some(last.reply))
        && (end.Crashed? && tail == [] ==>
              model(FileToolNames, asked + Flatten(PerCall, turns)).None? && files == fs[|turns|])
        && (end.Crashed? && tail != [] ==>
              Unfinished(tail, last) && model(FileToolNames, asked + Flatten(PerCall, turns)) == Some(last.reply) &&
              Broke(root, shell, fs[|turns|], last, lastRun, files, end.message))
    {
      var input := Strip(line);
      if IsQuit(input) {
        return true, Done, [], [], Turn(Reply(None, [], false), []), [files], [], Trace([files], [], None);
      }
      history := history + [UserMsg(input)];
      end, turns, tail, last, fs, trs, lastRun := AgentLoop(model, shell, fuel);
      quit := false;
    }
  }
}
