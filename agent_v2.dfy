/** The v2 agent: v1 plus the TodoWrite tool, a counter of tool rounds since
    the last TodoWrite call, and reminders prepended to the user's message. */
module AgentV2 {
  import opened Wrappers
  import opened Text
  import opened Paths
  import opened Tools
  import opened Todo
  import opened Protocol
  import opened Dispatch

  const InitialReminder := "<reminder>Use TodoWrite for multi-step tasks.</reminder>"
  const NagReminder := "<reminder>10+ turns without todo update. Please update todos.</reminder>"

  /** The tools offered to the model. */
  const ToolNames: seq<string> := FileToolNames + ["TodoWrite"]

  /** Whether some call in `calls` is a TodoWrite call: the flag `used_todo`
      that `agent_loop` raises while it walks a reply's calls in order. */
  predicate CallsTodo(calls: seq<ToolCall>)
    decreases |calls|
  {
    calls != [] && (CallsTodo(calls[..|calls| - 1]) || calls[|calls| - 1].name == "TodoWrite")
  }

  /** The flag is raised exactly when some call is named TodoWrite. */
  lemma {:induction false} CallsTodoExists(calls: seq<ToolCall>)
    ensures CallsTodo(calls) <==> exists k :: 0 <= k < |calls| && calls[k].name == "TodoWrite"
    decreases |calls|
  {
    if calls != [] {
      var init := calls[..|calls| - 1];
      CallsTodoExists(init);
      if CallsTodo(init) {
        var k :| 0 <= k < |init| && init[k].name == "TodoWrite";
        assert calls[k] == init[k];
      }
      if exists k :: 0 <= k < |calls| && calls[k].name == "TodoWrite" {
        var k :| 0 <= k < |calls| && calls[k].name == "TodoWrite";
        if k < |init| {
          assert init[k] == calls[k];
        }
      }
    }
  }

  /** Whether a reply calls TodoWrite at least once. */
  predicate UsesTodo(r: Reply)
  {
    CallsTodo(r.calls)
  }

  /** `rounds_without_todo` after the tool rounds `ts`, starting from `c`: a
      round that calls TodoWrite resets it, any other round adds one. */
  function Counter(c: nat, ts: seq<Turn>): nat
    decreases |ts|
  {
    if ts == [] then c
    else if UsesTodo(ts[|ts| - 1].reply) then 0
    else Counter(c, ts[..|ts| - 1]) + 1
  }

  /** With no TodoWrite call in the rounds, the counter grows by one per round. */
  lemma {:induction false} CounterWithoutTodo(c: nat, ts: seq<Turn>)
    requires forall i :: 0 <= i < |ts| ==> !UsesTodo(ts[i].reply)
    ensures Counter(c, ts) == c + |ts|
    decreases |ts|
  {
    if ts != [] {
      CounterWithoutTodo(c, ts[..|ts| - 1]);
    }
  }

  /** After a round that calls TodoWrite, the counter is the number of rounds
      that came after it. */
  lemma {:induction false} CounterSinceTodo(c: nat, ts: seq<Turn>, i: nat)
    requires i < |ts| && UsesTodo(ts[i].reply)
    requires forall j :: i < j < |ts| ==> !UsesTodo(ts[j].reply)
    ensures Counter(c, ts) == |ts| - 1 - i
    decreases |ts|
  {
    if i < |ts| - 1 {
      CounterSinceTodo(c, ts[..|ts| - 1], i);
    }
  }

  /** The counter is carried across `agent_loop` calls: running two batches
      of rounds is running them one after the other. */
  lemma {:induction false} CounterAppend(c: nat, ts: seq<Turn>, us: seq<Turn>)
    ensures Counter(c, ts + us) == Counter(Counter(c, ts), us)
    decreases |us|
  {
    if us == [] {
      assert ts + us == ts;
    } else {
      var init := us[..|us| - 1];
      assert (ts + us)[..|ts + us| - 1] == ts + init;
      assert (ts + us)[|ts + us| - 1] == us[|us| - 1];
      CounterAppend(c, ts, init);
    }
  }

  /** From a fresh start, the counter reaches `m` exactly when there were
      at least `m` rounds and none of the last `m` called TodoWrite. */
  lemma {:induction false} CounterAtLeast(ts: seq<Turn>, m: nat)
    ensures Counter(0, ts) >= m <==>
      |ts| >= m && forall j :: |ts| - m <= j < |ts| ==> !UsesTodo(ts[j].reply)
    decreases |ts|
  {
    if ts != [] && m > 0 {
      var init := ts[..|ts| - 1];
      if !UsesTodo(ts[|ts| - 1].reply) {
        CounterAtLeast(init, m - 1);
        assert forall j :: 0 <= j < |ts| - 1 ==> ts[j] == init[j];
      }
    }
  }

  /** The nag is due (the counter is above ten) from a fresh start exactly
      when more than ten rounds went by and none of the last eleven called
      TodoWrite. */
  lemma NagMeansNoRecentTodo(ts: seq<Turn>)
    ensures Counter(0, ts) > 10 <==>
      |ts| > 10 && forall j :: |ts| - 11 <= j < |ts| ==> !UsesTodo(ts[j].reply)
  {
    CounterAtLeast(ts, 11);
  }

  lemma CounterSnoc(c: nat, ts: seq<Turn>, t: Turn)
    ensures Counter(c, ts + [t]) == if UsesTodo(t.reply) then 0 else Counter(c, ts) + 1
  {
    assert (ts + [t])[..|ts|] == ts;
  }

  /** The parts of the user message `main` sends: the first message carries
      the initial reminder, a later one the nag when more than ten rounds
      went by without TodoWrite; the input comes last. */
  function Reminded(first: bool, rounds: nat, input: string): (parts: seq<string>)
    ensures |parts| >= 1 && parts[|parts| - 1] == input
    ensures |parts| == 2 <==> first || rounds > 10
    ensures |parts| == 2 ==> parts[0] == if first then InitialReminder else NagReminder
  {
    if first then [InitialReminder, input]
    else if rounds > 10 then [NagReminder, input]
    else [input]
  }

  /** v2's `execute_tool` on the files and the todo list: TodoWrite goes to
      the todo list, which reports a refusal as text, and the file tools act
      as in v1. `Err` is the `KeyError` of a missing argument. */
  function Exec2(root: Path, shell: Shell, w: World, name: string, args: Args): (r: Result<(string, World), string>)
    requires ValidPath(root)
    ensures r.Ok? && name == "TodoWrite" ==> r.value.1.files == w.files
    ensures r.Ok? && name != "TodoWrite" ==> r.value.1.items == w.items
  {
    if name == "TodoWrite" then
      if args.items.None? then Err("'items'")
      else match Apply(Version.V2, args.items.value)
        case Err(e) => Ok(("Error: " + e, w))
        case Ok(items) => Ok((RenderV2(items), World(w.files, items)))
    else
      match Execute(Revision.V2, root, w.files, shell, name, args)
      case Err(e) => Err(e)
      case Ok(o) => Ok((o.text, World(o.files, w.items)))
  }

  /** `Exec2` as a step of a run. */
  function Dispatcher2(root: Path, shell: Shell): ToolStep<World, string>
    requires ValidPath(root)
  {
    (w: World, c: ToolCall) => Exec2(root, shell, w, c.name, c.args)
  }

  /** Round `t` ran as `tr` from `before` to `after`: its calls ran in order
      through `execute_tool`, none raised, and each answer is its call's
      output cut to 50000 characters. */
  ghost predicate RanRound(root: Path, shell: Shell, before: World, t: Turn, tr: Trace<World, string>, after: World)
    requires ValidPath(root)
  {
    Traced(Dispatcher2(root, shell), t.reply.calls, tr) && tr.states[0] == before && tr.Final() == after &&
    tr.raised.None? && t.answers == Tagged(t.reply.calls, tr.outputs, OutputCap)
  }

  /** Round `t` ran as `tr` from `before` to `after` until a call raised
      `error`; the calls before it are answered with their outputs. */
  ghost predicate Broke(root: Path, shell: Shell, before: World, t: Turn, tr: Trace<World, string>, after: World,
                        error: string)
    requires ValidPath(root)
  {
    Traced(Dispatcher2(root, shell), t.reply.calls, tr) && tr.states[0] == before && tr.Final() == after &&
    tr.raised == Some(error) && t.answers == Tagged(t.reply.calls, tr.outputs, OutputCap)
  }

  /** One pass of `agent_loop`'s `while True` from history `h`, world `w`
      and counter `c` to `h1`, `w1` and `c1`: `stop` is `None` after a
      complete tool round `t` (ran as `tr`), which resets the counter when it
      called TodoWrite and adds one otherwise; a final reply, a failed model
      call or a call that raised ends the loop and leaves the counter alone. */
  ghost predicate Pass(model: Model, root: Path, shell: Shell, h: seq<Message>, w: World, c: nat,
                       stop: Option<LoopEnd>, t: Turn, added: seq<Message>, tr: Trace<World, string>,
                       h1: seq<Message>, w1: World, c1: nat)
    requires ValidPath(root)
  {
    h1 == h + added &&
    match stop
    case None =>
      t.reply.wantsTools && model(ToolNames, h) == Some(t.reply) && added == Round(PerCall, t.reply, t.answers) &&
      RanRound(root, shell, w, t, tr, w1) && c1 == if UsesTodo(t.reply) then 0 else c + 1
    case Some(Done) =>
      !t.reply.wantsTools && model(ToolNames, h) == Some(t.reply) && added == [AssistantMsg(t.reply)] &&
      w1 == w && c1 == c
    case Some(OutOfFuel) => false
    case Some(Crashed(error)) =>
      c1 == c &&
      if added == [] then model(ToolNames, h).None? && w1 == w
      else Unfinished(added, t) && model(ToolNames, h) == Some(t.reply) && Broke(root, shell, w, t, tr, w1, error)
  }

  /** The rounds `ts` ran one after the other as `trs`, round `i` from
      `ws[i]` to `ws[i + 1]`. */
  ghost predicate RanRounds(root: Path, shell: Shell, ws: seq<World>, ts: seq<Turn>, trs: seq<Trace<World, string>>)
    requires ValidPath(root)
  {
    |ws| == |ts| + 1 && |trs| == |ts| &&
    forall i :: 0 <= i < |ts| ==> RanRound(root, shell, ws[i], ts[i], trs[i], ws[i + 1])
  }

  lemma RanRoundsSnoc(root: Path, shell: Shell, ws: seq<World>, ts: seq<Turn>, trs: seq<Trace<World, string>>,
                      t: Turn, tr: Trace<World, string>, w: World)
    requires ValidPath(root) && RanRounds(root, shell, ws, ts, trs)
    requires RanRound(root, shell, ws[|ts|], t, tr, w)
    ensures RanRounds(root, shell, ws + [w], ts + [t], trs + [tr]) && (ws + [w])[0] == ws[0]
  {
    forall i | 0 <= i < |ts| + 1
      ensures RanRound(root, shell, (ws + [w])[i], (ts + [t])[i], (trs + [tr])[i], (ws + [w])[i + 1])
    {
      if i < |ts| {
        assert (ws + [w])[i + 1] == ws[i + 1];
      }
    }
  }

  /** A loop that has run the rounds `ts` and now runs round `t` has run
      `ts + [t]`: the history, the replies asked, the files and the todo
      list all agree. */
  lemma Advance(model: Model, root: Path, shell: Shell, h0: seq<Message>, ts: seq<Turn>, ws: seq<World>,
                trs: seq<Trace<World, string>>, t: Turn, tr: Trace<World, string>, h1: seq<Message>, w: World)
    requires ValidPath(root)
    requires AllAnswered(ts) && AllBounded(ts, OutputCap) && t.reply.wantsTools
    requires Asked(model, ToolNames, PerCall, h0, ts) && RanRounds(root, shell, ws, ts, trs)
    requires model(ToolNames, h0 + Flatten(PerCall, ts)) == Some(t.reply)
    requires RanRound(root, shell, ws[|ts|], t, tr, w)
    requires h1 == h0 + Flatten(PerCall, ts) + Round(PerCall, t.reply, t.answers)
    ensures h1 == h0 + Flatten(PerCall, ts + [t])
    ensures AllAnswered(ts + [t]) && AllBounded(ts + [t], OutputCap)
    ensures Asked(model, ToolNames, PerCall, h0, ts + [t])
    ensures RanRounds(root, shell, ws + [w], ts + [t], trs + [tr]) && (ws + [w])[0] == ws[0]
    ensures (ws + [w])[|ts + [t]|] == w
  {
    AllCallsAnswered(t.reply.calls, t.answers);
    AppendRound(h0, ts, t, h1, OutputCap);
    AskedSnoc(model, ToolNames, PerCall, h0, ts, t);
    RanRoundsSnoc(root, shell, ws, ts, trs, t, tr, w);
  }

  /** A round that does not call TodoWrite leaves the todo list as it was:
      the rounds the counter counts are rounds in which the list could not
      change. */
  lemma QuietRound(root: Path, shell: Shell, before: World, t: Turn, tr: Trace<World, string>, after: World)
    requires ValidPath(root) && RanRound(root, shell, before, t, tr, after) && !UsesTodo(t.reply)
    ensures after.items == before.items
  {
    var calls := t.reply.calls;
    var step := Dispatcher2(root, shell);
    CallsTodoExists(calls);
    forall w: World, k | 0 <= k < |calls| && w.items == before.items && step(w, calls[k]).Ok?
      ensures step(w, calls[k]).value.1.items == before.items
    {
      assert calls[k].name != "TodoWrite";
    }
    TracedKeeps(step, calls, tr, (w: World) => w.items == before.items);
    assert after == tr.states[|tr.states| - 1];
  }

  /** Rounds none of which calls TodoWrite leave the todo list as it was and
      add one to the counter each. */
  lemma {:induction false} QuietRounds(root: Path, shell: Shell, ws: seq<World>, ts: seq<Turn>,
                                       trs: seq<Trace<World, string>>, c: nat)
    requires ValidPath(root) && RanRounds(root, shell, ws, ts, trs)
    requires forall i :: 0 <= i < |ts| ==> !UsesTodo(ts[i].reply)
    ensures ws[|ts|].items == ws[0].items && Counter(c, ts) == c + |ts|
    decreases |ts|
  {
    CounterWithoutTodo(c, ts);
    if ts != [] {
      var n := |ts| - 1;
      assert RanRounds(root, shell, ws[..n + 1], ts[..n], trs[..n]) by {
        forall i | 0 <= i < n
          ensures RanRound(root, shell, ws[..n + 1][i], ts[..n][i], trs[..n][i], ws[..n + 1][i + 1])
        {
          assert RanRound(root, shell, ws[i], ts[i], trs[i], ws[i + 1]);
        }
      }
      QuietRounds(root, shell, ws[..n + 1], ts[..n], trs[..n], c);
      QuietRound(root, shell, ws[n], ts[n], trs[n], ws[n + 1]);
    }
  }

  class Agent {
    const root: Path
    const todo: TodoManager
    var files: Files
    var history: seq<Message>
    var roundsWithoutTodo: nat
    var firstMessage: bool

    ghost predicate Valid()
      reads this, todo
    {
      ValidPath(root) && todo.version == Version.V2 && todo.Valid()
    }

    /** A fresh session: the system prompt, an empty task list, no rounds yet,
        and the next user message is the first. */
    constructor (root: Path, files: Files, system: string)
      requires ValidPath(root)
      ensures Valid() && fresh(todo)
      ensures this.root == root && this.files == files && history == [SystemMsg(system)]
      ensures todo.items == [] && roundsWithoutTodo == 0 && firstMessage
    {
      this.root := root;
      this.files := files;
      history := [SystemMsg(system)];
      todo := new TodoManager(Version.V2);
      roundsWithoutTodo := 0;
      firstMessage := true;
    }

    /** `execute_tool(name, args)`: TodoWrite goes to the todo list, which
        reports a refusal as text; the file tools act as in v1. `Err` is the
        `KeyError` of a missing argument. The call does to the files and the
        task list what `Exec2` says. */
    method ExecuteTool(name: string, args: Args, shell: Shell) returns (r: Result<string, string>)
      requires Valid()
      modifies this, todo
      ensures Valid()
      ensures history == old(history) && roundsWithoutTodo == old(roundsWithoutTodo)
      ensures firstMessage == old(firstMessage)
      ensures name == "TodoWrite" && args.items.None? ==>
        r == Err("'items'") && files == old(files) && todo.items == old(todo.items)
      ensures name == "TodoWrite" && args.items.Some? ==>
        files == old(files) && r.Ok? &&
        var a := Apply(Version.V2, args.items.value);
        (a.Err? ==> todo.items == old(todo.items) && r.value == "Error: " + a.error) &&
        (a.Ok? ==> todo.items == a.value && r.value == RenderV2(a.value))
      ensures name != "TodoWrite" ==>
        todo.items == old(todo.items) &&
        var e := Execute(Revision.V2, root, old(files), shell, name, args);
        (e.Err? ==> r == Err(e.error) && files == old(files)) &&
        (e.Ok? ==> r == Ok(e.value.text) && files == e.value.files)
      ensures var e := Exec2(root, shell, World(old(files), old(todo.items)), name, args);
        (e.Err? ==> r == Err(e.error) && World(files, todo.items) == World(old(files), old(todo.items))) &&
        (e.Ok? ==> r == Ok(e.value.0) && World(files, todo.items) == e.value.1)
    {
      if name == "TodoWrite" {
        if args.items.None? {
          return Err("'items'");
        }
        var out := todo.Run(args.items.value);
        return Ok(out);
      }
      var e := Execute(Revision.V2, root, files, shell, name, args);
      if e.Err? {
        return Err(e.error);
      }
      files := e.value.files;
      return Ok(e.value.text);
    }

    /** The `for` loop over a reply's tool calls, as in v1, noting whether
        any of them is a TodoWrite call. `tr` is the run over the files and
        the todo list. */
    method RunCalls(calls: seq<ToolCall>, shell: Shell)
      returns (answers: seq<Answer>, raised: Option<string>, ghost tr: Trace<World, string>)
      requires Valid()
      modifies this, todo
      ensures Valid()
      ensures roundsWithoutTodo == old(roundsWithoutTodo) && firstMessage == old(firstMessage)
      ensures history == old(history) + ToolMsgs(answers)
      ensures Traced(Dispatcher2(root, shell), calls, tr) && tr.states[0] == World(old(files), old(todo.items))
      ensures World(files, todo.items) == tr.Final()
      ensures raised == tr.raised && answers == Tagged(calls, tr.outputs, OutputCap)
    {
      answers, tr := [], Trace([World(files, todo.items)], [], None);
      var j := 0;
      while j < |calls|
        invariant j <= |calls| && Valid() && TracedSoFar(Dispatcher2(root, shell), calls, j, tr)
        invariant roundsWithoutTodo == old(roundsWithoutTodo) && firstMessage == old(firstMessage)
        invariant tr.states[0] == World(old(files), old(todo.items)) && World(files, todo.items) == tr.Final()
        invariant answers == Tagged(calls, tr.outputs, OutputCap)
        invariant history == old(history) + ToolMsgs(answers)
      {
        var out := ExecuteTool(calls[j].name, calls[j].args, shell);
        if out.Err? {
          TraceStop(Dispatcher2(root, shell), calls, j, tr, out.error);
          return answers, Some(out.error), Trace(tr.states, tr.outputs, Some(out.error));
        }
        TraceNext(Dispatcher2(root, shell), calls, j, tr, (out.value, World(files, todo.items)));
        var a := Answer(calls[j].id, Take(out.value, OutputCap));
        TaggedSnoc(calls, tr.outputs, out.value, OutputCap);
        ToolMsgsSnoc(old(history), answers, a, history);
        answers := answers + [a];
        tr := Trace(tr.states + [World(files, todo.items)], tr.outputs + [out.value], None);
        history := history + [ToolMsg(a)];
        j := j + 1;
      }
      TraceEnd(Dispatcher2(root, shell), calls, tr);
      raised := None;
    }

    /** One pass of `agent_loop`'s `while True`: ask the model, append its
        reply, and when it asks for tools run them (`tr`), append their
        answers and update the counter. `None` means the loop goes on after
        the complete round `t`; a round cut short leaves the counter alone. */
    method Step(model: Model, shell: Shell)
      returns (stop: Option<LoopEnd>, ghost t: Turn, ghost added: seq<Message>, ghost tr: Trace<World, string>)
      requires Valid()
      modifies this, todo
      ensures Valid() && firstMessage == old(firstMessage)
      ensures Pass(model, root, shell, old(history), World(old(files), old(todo.items)), old(roundsWithoutTodo),
                   stop, t, added, tr, history, World(files, todo.items), roundsWithoutTodo)
    {
      tr := Trace([World(files, todo.items)], [], None);
      var reply := model(ToolNames, history);
      if reply.None? {
        return Some(Crashed(ApiFailure)), Turn(Reply(None, [], false), []), [], tr;
      }
      var r := reply.value;
      history := history + [AssistantMsg(r)];
      if !r.wantsTools {
        return Some(Done), Turn(r, []), [AssistantMsg(r)], tr;
      }
      var raised, answers;
      raised, answers, tr := ToolRound(r, shell);
      stop := if raised.Some? then Some(Crashed(raised.value)) else None;
      t, added := Turn(r, answers), Round(PerCall, r, answers);
    }

    /** The tool part of a pass: run the reply's calls, then reset the
        counter when one of them was a TodoWrite call and add one to it
        otherwise; a call that raised skips the counter update. */
    method ToolRound(r: Reply, shell: Shell)
      returns (raised: Option<string>, answers: seq<Answer>, ghost tr: Trace<World, string>)
      requires Valid()
      modifies this, todo
      ensures Valid() && firstMessage == old(firstMessage)
      ensures history == old(history) + ToolMsgs(answers)
      ensures raised.None? ==>
        RanRound(root, shell, World(old(files), old(todo.items)), Turn(r, answers), tr, World(files, todo.items)) &&
        roundsWithoutTodo == if UsesTodo(r) then 0 else old(roundsWithoutTodo) + 1
      ensures raised.Some? ==>
        |answers| < |r.calls| && Answers(r.calls[..|answers|], answers) && roundsWithoutTodo == old(roundsWithoutTodo) &&
        Broke(root, shell, World(old(files), old(todo.items)), Turn(r, answers), tr, World(files, todo.items), raised.value)
    {
      answers, raised, tr := RunCalls(r.calls, shell);
      if raised.None? {
        roundsWithoutTodo := if CallsTodo(r.calls) then 0 else roundsWithoutTodo + 1;
      }
    }

    /** `agent_loop(messages)`, at most `fuel` model calls. The history
        grows as in v1: each round's reply is the model's reply to the
        history before it, and each round ran its calls in order on the
        files and the todo list the round before left (`ws`, `trs`). After
        each complete tool round the counter is reset when the round called
        TodoWrite and incremented otherwise; a round cut short by an
        exception leaves the counter as it was. The loop runs out of fuel
        only after `fuel` complete rounds. */
    method AgentLoop(model: Model, shell: Shell, fuel: nat)
      returns (end: LoopEnd, ghost turns: seq<Turn>, ghost tail: seq<Message>, ghost last: Turn,
               ghost ws: seq<World>, ghost trs: seq<Trace<World, string>>, ghost lastRun: Trace<World, string>)
      requires Valid()
      modifies this, todo
      ensures Valid() && firstMessage == old(firstMessage)
      ensures history == old(history) + Flatten(PerCall, turns) + tail
      ensures AllAnswered(turns) && AllBounded(turns, OutputCap)
      ensures Asked(model, ToolNames, PerCall, old(history), turns)
      ensures RanRounds(root, shell, ws, turns, trs) && ws[0] == World(old(files), old(todo.items))
      ensures roundsWithoutTodo == Counter(old(roundsWithoutTodo), turns)
      ensures end.OutOfFuel? <==> |turns| == fuel
      ensures end.Done? || end.OutOfFuel? ==> World(files, todo.items) == ws[|turns|]
      ensures end.OutOfFuel? ==> tail == []
      ensures end.Done? ==>
        tail == [AssistantMsg(last.reply)] && !last.reply.wantsTools &&
        model(ToolNames, old(history) + Flatten(PerCall, turns)) == Some(last.reply)
      ensures end.Crashed? && tail == [] ==>
        model(ToolNames, old(history) + Flatten(PerCall, turns)).None? && World(files, todo.items) == ws[|turns|]
      ensures end.Crashed? && tail != [] ==>
        Unfinished(tail, last) && model(ToolNames, old(history) + Flatten(PerCall, turns)) == Some(last.reply) &&
        Broke(root, shell, ws[|turns|], last, lastRun, World(files, todo.items), end.message)
    {
      turns, tail, last, ws, trs := [], [], Turn(Reply(None, [], false), []), [World(files, todo.items)], [];
      lastRun := Trace([World(files, todo.items)], [], None);
      var n := 0;
      while n < fuel
        invariant n == |turns| <= fuel
        invariant Valid() && firstMessage == old(firstMessage)
        invariant AllAnswered(turns) && AllBounded(turns, OutputCap)
        invariant history == old(history) + Flatten(PerCall, turns)
        invariant Asked(model, ToolNames, PerCall, old(history), turns)
        invariant RanRounds(root, shell, ws, turns, trs) && ws[0] == World(old(files), old(todo.items))
        invariant World(files, todo.items) == ws[|turns|]
        invariant roundsWithoutTodo == Counter(old(roundsWithoutTodo), turns)
      {
        var stop, t, added, tr := Step(model, shell);
        if stop.Some? {
          return stop.value, turns, added, t, ws, trs, tr;
        }
        Advance(model, root, shell, old(history), turns, ws, trs, t, tr, history, World(files, todo.items));
        CounterSnoc(old(roundsWithoutTodo), turns, t);
        turns, ws, trs := turns + [t], ws + [World(files, todo.items)], trs + [tr];
        n := n + 1;
      }
      return OutOfFuel, turns, [], last, ws, trs, lastRun;
    }

    /** One pass of `main`'s REPL: the quit test of v1, then the input sent
        as a multi-part user message with the reminder `Reminded` chooses;
        only the first message carries the initial reminder. */
    method Submit(line: string, model: Model, shell: Shell, fuel: nat)
      returns (quit: bool, ghost end: LoopEnd, ghost turns: seq<Turn>, ghost tail: seq<Message>, ghost last: Turn,
               ghost ws: seq<World>, ghost trs: seq<Trace<World, string>>, ghost lastRun: Trace<World, string>)
      requires Valid()
      modifies this, todo
      ensures Valid()
      ensures quit <==> IsQuit(Strip(line))
      ensures quit ==>
        history == old(history) && files == old(files) && todo.items == old(todo.items) &&
        firstMessage == old(firstMessage) && roundsWithoutTodo == old(roundsWithoutTodo)
      ensures !quit ==>
        var asked := old(history) + [UserParts(Reminded(old(firstMessage), old(roundsWithoutTodo), Strip(line)))];
        && !firstMessage
        && history == asked + Flatten(PerCall, turns) + tail
        && AllAnswered(turns) && AllBounded(turns, OutputCap)
        && Asked(model, ToolNames, PerCall, asked, turns)
        && RanRounds(root, shell, ws, turns, trs) && ws[0] == World(old(files), old(todo.items))
        && roundsWithoutTodo == Counter(old(roundsWithoutTodo), turns)
        && (end.OutOfFuel? <==> |turns| == fuel)
        && (end.Done? || end.OutOfFuel? ==> World(files, todo.items) == ws[|turns|])
        && (end.OutOfFuel? ==> tail == [])
        && (end.Done? ==>
              tail == [AssistantMsg(last.reply)] && !last.reply.wantsTools &&
              model(ToolNames, asked + Flatten(PerCall, turns)) == Some(last.reply))
        && (end.Crashed? && tail == [] ==>
              model(ToolNames, asked + Flatten(PerCall, turns)).None? && World(files, todo.items) == ws[|turns|])
        && (end.Crashed? && tail != [] ==>
              Unfinished(tail, last) && model(ToolNames, asked + Flatten(PerCall, turns)) == Some(last.reply) &&
              Broke(root, shell, ws[|turns|], last, lastRun, World(files, todo.items), end.message))
    {
      var input := Strip(line);
      if IsQuit(input) {
        var w := World(files, todo.items);
        return true, Done, [], [], Turn(Reply(None, [], false), []), [w], [], Trace([w], [], None);
      }
      var parts := Reminded(firstMessage, roundsWithoutTodo, input);
      firstMessage := false;
      history := history + [UserParts(parts)];
      end, turns, tail, last, ws, trs, lastRun := AgentLoop(model, shell, fuel);
      quit := false;
    }
  }
}
