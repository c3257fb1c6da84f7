/** The v3 agent: v2's tools, a global task list, and the Task tool, which
    runs a subagent of a named type in a fresh conversation of its own. The
    subagent uses the same `execute_tool`, so a Task call can reach another
    Task call; the model bounds that recursion by the same fuel that bounds
    the loops. */
module AgentV3 {
  import opened Wrappers
  import opened Text
  import opened Paths
  import opened Tools
  import opened Todo
  import opened Protocol
  import opened Dispatch

  /** One entry of `AGENT_TYPES`: `tools` is `None` for "*" (every base
      tool) and otherwise the names allowed. */
  datatype AgentType = AgentType(description: string, tools: Option<seq<string>>, prompt: string)

  const AgentTypes: map<string, AgentType> := map[
    "explore" := AgentType(
      "Read-only agent for exploring code, finding files, searching",
      Some(["bash", "read_file"]),
      "You are an exploration agent. Search and analyze, but never modify files. Return a concise summary."),
    "code" := AgentType(
      "Full agent for implementing features and fixing bugs",
      None,
      "You are a coding agent. Implement the requested changes efficiently."),
    "plan" := AgentType(
      "Planning agent for designing implementation strategies",
      Some(["bash", "read_file"]),
      "You are a planning agent. Analyze the codebase and output a numbered implementation plan. Do NOT make changes.")
  ]

  /** `BASE_TOOLS`, by name: what a subagent may be offered. */
  const BaseToolNames: seq<string> := FileToolNames + ["TodoWrite"]

  /** `ALL_TOOLS`: the main agent is offered the Task tool as well. */
  const AllToolNames: seq<string> := BaseToolNames + ["Task"]

  /** The names of `names` that are in `allowed`, in the order of `names`. */
  function Keep(names: seq<string>, allowed: seq<string>): (kept: seq<string>)
    ensures |kept| <= |names|
    ensures forall n :: n in kept <==> n in names && n in allowed
  {
    if names == [] then []
    else if names[0] in allowed then [names[0]] + Keep(names[1..], allowed)
    else Keep(names[1..], allowed)
  }

  /** `get_tools_for_agent(agent_type)`: the base tools the type allows; an
      unknown type, like "*", gets all of them. */
  function ToolsFor(agentType: string): (names: seq<string>)
  {
    var allowed := if agentType in AgentTypes then AgentTypes[agentType].tools else None;
    match allowed
    case None => BaseToolNames
    case Some(a) => Keep(BaseToolNames, a)
  }

  /** A subagent is never offered the Task tool; the read-only types are
      offered bash and read_file only, and the coding type, like an unknown
      type, every base tool. */
  lemma ToolsForMeaning(agentType: string)
    ensures forall n :: n in ToolsFor(agentType) ==> n in BaseToolNames
    ensures "Task" !in ToolsFor(agentType)
    ensures agentType == "explore" || agentType == "plan" ==>
      forall n :: n in ToolsFor(agentType) <==> n == "bash" || n == "read_file"
    ensures agentType == "code" || agentType !in AgentTypes ==> ToolsFor(agentType) == BaseToolNames
  {
    var allowed := if agentType in AgentTypes then AgentTypes[agentType].tools else None;
    if allowed.Some? {
      assert agentType == "explore" || agentType == "plan";
      assert allowed.value == ["bash", "read_file"];
    }
  }

  /** `run_task`'s answer for a type not in `AGENT_TYPES`. */
  function UnknownAgent(agentType: string): string
  {
    "Error: Unknown agent type '" + agentType + "'"
  }

  /** The subagent's system prompt. */
  function SubSystem(workdir: string, agentType: string, prompt: string): string
  {
    "You are a " + agentType + " subagent at " + workdir + ".\n\n" + prompt
      + "\n\nComplete the task and return a clear, concise summary."
  }

  /** What `run_task` returns for the subagent's last reply: its text, or a
      fixed note when the text is missing or empty. */
  function TaskText(final: Reply): (s: string)
    ensures s != ""
    ensures final.content.Some? && final.content.value != "" ==> s == final.content.value
  {
    if final.content.Some? && final.content.value != "" then final.content.value
    else "(subagent returned no text)"
  }


  /** The conversation a subagent starts from: its system prompt, built
      from the working directory and the type's prompt, and the task. */
  function Briefing(root: Path, agentType: string, prompt: string): seq<Message>
    requires agentType in AgentTypes
  {
    [SystemMsg(SubSystem(Render(root), agentType, AgentTypes[agentType].prompt)), UserMsg(prompt)]
  }

  /** An exception on its way out of `execute_tool`, with the world as it
      left it: a subagent may have changed files before something raised. */
  datatype Halt = Halt(end: LoopEnd, world: World)

  /** A subagent loop that ended with a reply asking for no tools: that
      reply, the tool rounds before it and the world they left. */
  datatype SubRun = SubRun(final: Reply, turns: seq<Turn>, world: World)

  /** A tool call's result and the world after it, in the form of a step. */
  function Effect(r: Result<string, LoopEnd>, w: World): (e: Result<(string, World), Halt>)
    ensures e.Ok? <==> r.Ok?
    ensures e.Ok? ==> e.value == (r.value, w)
    ensures e.Err? ==> e.error == Halt(r.error, w)
  {
    match r
    case Ok(text) => Ok((text, w))
    case Err(end) => Err(Halt(end, w))
  }

  /** v3's `execute_tool(name, args)` on the world `w`. Every subagent loop
      a Task call starts makes at most `fuel` model calls, and the tool calls
      of that subagent get `fuel - 1`: the fuel bounds the nesting too. */
  function Exec3(root: Path, model: Model, shell: Shell, fuel: nat, w: World, name: string, args: Args)
    : Result<(string, World), Halt>
    requires ValidPath(root)
    decreases fuel, 2
  {
    if name == "TodoWrite" then
      if args.items.None? then Err(Halt(Crashed("'items'"), w))
      else match Apply(Version.V3, args.items.value)
        case Err(e) => Ok(("Error: " + e, w))
        case Ok(items) => Ok((RenderV3(items), World(w.files, items)))
    else if name == "Task" then
      if "description" !in args.text then Err(Halt(Crashed("'description'"), w))
      else if "prompt" !in args.text then Err(Halt(Crashed("'prompt'"), w))
      else if "agent_type" !in args.text then Err(Halt(Crashed("'agent_type'"), w))
      else Task3(root, model, shell, fuel, w, args.text["prompt"], args.text["agent_type"])
    else match Execute(Revision.V3, root, w.files, shell, name, args)
      case Err(e) => Err(Halt(Crashed(e), w))
      case Ok(o) => Ok((o.text, World(o.files, w.items)))
  }

  /** `run_task(description, prompt, agent_type)` on the world `w`: the
      subagent may make `fuel` model calls, and the tools it calls get
      `fuel - 1`. */
  function Task3(root: Path, model: Model, shell: Shell, fuel: nat, w: World, prompt: string, agentType: string)
    : Result<(string, World), Halt>
    requires ValidPath(root)
    decreases fuel, 1
  {
    if agentType !in AgentTypes then Ok((UnknownAgent(agentType), w))
    else if fuel == 0 then Err(Halt(OutOfFuel, w))
    else match SubLoop(Step3(root, model, shell, fuel - 1), model, ToolsFor(agentType),
                       Briefing(root, agentType, prompt), [], w, fuel)
      case Ok(run) => Ok((TaskText(run.final), run.world))
      case Err(h) => Err(h)
  }

  /** `execute_tool` with `fuel` as a step of a run over the world. */
  function Step3(root: Path, model: Model, shell: Shell, fuel: nat): ToolStep<World, Halt>
    requires ValidPath(root)
    decreases fuel, 3
  {
    (w: World, c: ToolCall) => Exec3(root, model, shell, fuel, w, c.name, c.args)
  }

  /** The subagent's `while True` with the conversation `sub`, the rounds
      `done` it holds after the briefing, and `k` model calls left: the
      model answers `sub` with the tools offered, and a reply asking for
      none ends the loop. */
  function SubLoop(step: ToolStep<World, Halt>, model: Model, tools: seq<string>, sub: seq<Message>,
                   done: seq<Turn>, w: World, k: nat): Result<SubRun, Halt>
    decreases k, 1
  {
    if k == 0 then Err(Halt(OutOfFuel, w))
    else match model(tools, sub)
      case None => Err(Halt(Crashed(ApiFailure), w))
      case Some(reply) =>
        if !reply.wantsTools then Ok(SubRun(reply, done, w))
        else SubRound(step, model, tools, sub, done, w, k, reply)
  }

  /** One pass of the subagent's loop for a reply asking for tools: its
      calls run in order through `step`, whatever their names, and the
      reply and the calls' outputs, cut to 50000 characters, are appended
      to `sub`. */
  function SubRound(step: ToolStep<World, Halt>, model: Model, tools: seq<string>, sub: seq<Message>,
                    done: seq<Turn>, w: World, k: nat, reply: Reply): Result<SubRun, Halt>
    requires k > 0
    decreases k, 0
  {
    var tr := RunAll(step, w, reply.calls);
    match tr.raised
    case Some(h) => Err(h)
    case None =>
      var answers := Tagged(reply.calls, tr.outputs, OutputCap);
      SubLoop(step, model, tools, sub + Round(PerCall, reply, answers), done + [Turn(reply, answers)],
              tr.Final(), k - 1)
  }

  /** A step none of whose exceptions is a normal loop end. */
  ghost predicate NeverDone(step: ToolStep<World, Halt>)
  {
    forall w, c :: step(w, c).Err? ==> step(w, c).error.end != Done
  }

  /** No exception that leaves `execute_tool` is a normal loop end: a crash
      or the fuel bound, never `Done`. */
  lemma {:induction false} ExecNeverDone(root: Path, model: Model, shell: Shell, fuel: nat, w: World,
                                         name: string, args: Args)
    requires ValidPath(root)
    ensures Exec3(root, model, shell, fuel, w, name, args).Err? ==>
      Exec3(root, model, shell, fuel, w, name, args).error.end != Done
    decreases fuel
  {
    if name == "Task" && "description" in args.text && "prompt" in args.text && "agent_type" in args.text {
      var agentType := args.text["agent_type"];
      if agentType in AgentTypes && fuel > 0 {
        var step := Step3(root, model, shell, fuel - 1);
        forall w', c
          ensures step(w', c).Err? ==> step(w', c).error.end != Done
        {
          ExecNeverDone(root, model, shell, fuel - 1, w', c.name, c.args);
        }
        SubLoopNeverDone(step, model, ToolsFor(agentType), Briefing(root, agentType, args.text["prompt"]), [], w, fuel);
      }
    }
  }

  lemma {:induction false} SubLoopNeverDone(step: ToolStep<World, Halt>, model: Model, tools: seq<string>,
                                            sub: seq<Message>, done: seq<Turn>, w: World, k: nat)
    requires NeverDone(step)
    ensures SubLoop(step, model, tools, sub, done, w, k).Err? ==>
      SubLoop(step, model, tools, sub, done, w, k).error.end != Done
    decreases k, 1
  {
    if k > 0 {
      var reply := model(tools, sub);
      if reply.Some? && reply.value.wantsTools {
        RoundNeverDone(step, model, tools, sub, done, w, k, reply.value);
      }
    }
  }

  /** `SubLoopNeverDone` for a round that runs tools. */
  lemma {:induction false} RoundNeverDone(step: ToolStep<World, Halt>, model: Model, tools: seq<string>,
                                          sub: seq<Message>, done: seq<Turn>, w: World, k: nat, reply: Reply)
    requires NeverDone(step) && k > 0
    ensures SubRound(step, model, tools, sub, done, w, k, reply).Err? ==>
      SubRound(step, model, tools, sub, done, w, k, reply).error.end != Done
    decreases k, 0
  {
    var tr := RunAll(step, w, reply.calls);
    if tr.raised.Some? {
      RunAllTraced(step, w, reply.calls);
      var j := |tr.outputs|;
      assert step(tr.states[j], reply.calls[j]) == Err(tr.raised.value);
    } else {
      var answers := Tagged(reply.calls, tr.outputs, OutputCap);
      SubLoopNeverDone(step, model, tools, sub + Round(PerCall, reply, answers), done + [Turn(reply, answers)],
                       tr.Final(), k - 1);
    }
  }

  /** A subagent run from the briefing `base` that ended normally: it ended
      on a reply that asks for no tools; each of its replies, the last one
      included, is the model's reply to the subagent's own conversation as
      it stood, and every call is answered by id, in order, with its output
      cut to 50000 characters. */
  ghost predicate SubEnded(model: Model, tools: seq<string>, base: seq<Message>, run: SubRun)
  {
    Asked(model, tools, PerCall, base, run.turns) && AllAnswered(run.turns) && AllBounded(run.turns, OutputCap) &&
    !run.final.wantsTools && model(tools, base + Flatten(PerCall, run.turns)) == Some(run.final)
  }

  /** Each reply of a subagent run that ends normally, the last one
      included, is the model's reply to the subagent's conversation as it
      stood: the rounds the run adds to `done` are, from the front, replies
      to `sub` and to what each round left, and the last reply, which asks
      for no tools, answers what the last round left. */
  lemma {:induction false} SubLoopReplied(step: ToolStep<World, Halt>, model: Model, tools: seq<string>,
                                          sub: seq<Message>, done: seq<Turn>, w: World, k: nat)
    ensures var run := SubLoop(step, model, tools, sub, done, w, k);
      run.Ok? ==> && !run.value.final.wantsTools && |done| <= |run.value.turns|
                  && Replied(model, tools, sub, run.value.turns[|done|..], run.value.final)
    decreases k, 1
  {
    SubLoopGrows(step, model, tools, sub, done, w, k);
    if k > 0 {
      var reply := model(tools, sub);
      if reply.Some? && reply.value.wantsTools {
        RoundReplied(step, model, tools, sub, done, w, k, reply.value);
      } else if reply.Some? {
        assert SubLoop(step, model, tools, sub, done, w, k).value.turns[|done|..] == [];
      }
    }
  }

  /** `SubLoopReplied` for a round that runs tools. */
  lemma {:induction false} RoundReplied(step: ToolStep<World, Halt>, model: Model, tools: seq<string>,
                                        sub: seq<Message>, done: seq<Turn>, w: World, k: nat, reply: Reply)
    requires k > 0 && model(tools, sub) == Some(reply)
    ensures var run := SubRound(step, model, tools, sub, done, w, k, reply);
      run.Ok? ==> && !run.value.final.wantsTools && |done| <= |run.value.turns|
                  && Replied(model, tools, sub, run.value.turns[|done|..], run.value.final)
    decreases k, 0
  {
    var tr := RunAll(step, w, reply.calls);
    if tr.raised.None? {
      var t := Turn(reply, Tagged(reply.calls, tr.outputs, OutputCap));
      var sub' := sub + Round(PerCall, reply, t.answers);
      var run := SubLoop(step, model, tools, sub', done + [t], tr.Final(), k - 1);
      SubLoopReplied(step, model, tools, sub', done + [t], tr.Final(), k - 1);
      SubLoopGrows(step, model, tools, sub', done + [t], tr.Final(), k - 1);
      if run.Ok? {
        var turns := run.value.turns;
        assert turns[|done|] == (done + [t])[|done|] == t;
        DropCons(turns, |done|);
        assert Replied(model, tools, sub, turns[|done|..], run.value.final);
      }
    }
  }

  /** In a subagent run that ends normally every call of every round is
      answered by id, in order, with its output cut to 50000 characters. */
  lemma {:induction false} SubLoopAnswered(step: ToolStep<World, Halt>, model: Model, tools: seq<string>,
                                           sub: seq<Message>, done: seq<Turn>, w: World, k: nat)
    requires AllAnswered(done) && AllBounded(done, OutputCap)
    ensures SubLoop(step, model, tools, sub, done, w, k).Ok? ==>
      AllAnswered(SubLoop(step, model, tools, sub, done, w, k).value.turns) &&
      AllBounded(SubLoop(step, model, tools, sub, done, w, k).value.turns, OutputCap)
    decreases k, 1
  {
    if k > 0 {
      var reply := model(tools, sub);
      if reply.Some? && reply.value.wantsTools {
        RoundAnswered(step, model, tools, sub, done, w, k, reply.value);
      }
    }
  }

  /** `SubLoopAnswered` for a round that runs tools. */
  lemma {:induction false} RoundAnswered(step: ToolStep<World, Halt>, model: Model, tools: seq<string>,
                                         sub: seq<Message>, done: seq<Turn>, w: World, k: nat, reply: Reply)
    requires k > 0 && reply.wantsTools
    requires AllAnswered(done) && AllBounded(done, OutputCap)
    ensures SubRound(step, model, tools, sub, done, w, k, reply).Ok? ==>
      AllAnswered(SubRound(step, model, tools, sub, done, w, k, reply).value.turns) &&
      AllBounded(SubRound(step, model, tools, sub, done, w, k, reply).value.turns, OutputCap)
    decreases k, 0
  {
    var tr := RunAll(step, w, reply.calls);
    if tr.raised.None? {
      var t := Turn(reply, Tagged(reply.calls, tr.outputs, OutputCap));
      AllCallsAnswered(reply.calls, t.answers);
      AnsweredBoundedSnoc(done, t, OutputCap);
      SubLoopAnswered(step, model, tools, sub + Round(PerCall, reply, t.answers), done + [t], tr.Final(), k - 1);
    }
  }

  /** A subagent run that ends normally keeps the rounds it started from and
      adds fewer rounds than it had model calls. */
  lemma {:induction false} SubLoopGrows(step: ToolStep<World, Halt>, model: Model, tools: seq<string>,
                                        sub: seq<Message>, done: seq<Turn>, w: World, k: nat)
    ensures SubLoop(step, model, tools, sub, done, w, k).Ok? ==>
      done <= SubLoop(step, model, tools, sub, done, w, k).value.turns &&
      |SubLoop(step, model, tools, sub, done, w, k).value.turns| < |done| + k
    decreases k, 1
  {
    if k > 0 {
      var reply := model(tools, sub);
      if reply.Some? && reply.value.wantsTools {
        RoundGrows(step, model, tools, sub, done, w, k, reply.value);
      }
    }
  }

  /** `SubLoopGrows` for a round that runs tools. */
  lemma {:induction false} RoundGrows(step: ToolStep<World, Halt>, model: Model, tools: seq<string>,
                                      sub: seq<Message>, done: seq<Turn>, w: World, k: nat, reply: Reply)
    requires k > 0
    ensures SubRound(step, model, tools, sub, done, w, k, reply).Ok? ==>
      done <= SubRound(step, model, tools, sub, done, w, k, reply).value.turns &&
      |SubRound(step, model, tools, sub, done, w, k, reply).value.turns| < |done| + k
    decreases k, 0
  {
    var tr := RunAll(step, w, reply.calls);
    if tr.raised.None? {
      var answers := Tagged(reply.calls, tr.outputs, OutputCap);
      SubLoopGrows(step, model, tools, sub + Round(PerCall, reply, answers), done + [Turn(reply, answers)],
                   tr.Final(), k - 1);
      assert done <= done + [Turn(reply, answers)];
    }
  }

  /** A Task call with a known type answers with the text of the subagent's
      last reply, and that reply is the model's answer to the subagent's
      briefing and its answered rounds, offered the type's tools only; the
      subagent made at most `fuel` model calls. */
  lemma TaskAnswer(root: Path, model: Model, shell: Shell, fuel: nat, w: World, prompt: string, agentType: string)
    requires ValidPath(root) && agentType in AgentTypes && fuel > 0
    ensures var run := SubLoop(Step3(root, model, shell, fuel - 1), model, ToolsFor(agentType),
                               Briefing(root, agentType, prompt), [], w, fuel);
      var task := Task3(root, model, shell, fuel, w, prompt, agentType);
      (task.Ok? <==> run.Ok?) &&
      (run.Ok? ==>
        task.value == (TaskText(run.value.final), run.value.world) && |run.value.turns| < fuel &&
        SubEnded(model, ToolsFor(agentType), Briefing(root, agentType, prompt), run.value))
  {
    var step := Step3(root, model, shell, fuel - 1);
    var base := Briefing(root, agentType, prompt);
    SubLoopReplied(step, model, ToolsFor(agentType), base, [], w, fuel);
    var run := SubLoop(step, model, ToolsFor(agentType), base, [], w, fuel);
    if run.Ok? {
      assert run.value.turns[0..] == run.value.turns;
      RepliedAsked(model, ToolsFor(agentType), base, run.value.turns, run.value.final);
    }
    SubLoopAnswered(step, model, ToolsFor(agentType), base, [], w, fuel);
    SubLoopGrows(step, model, ToolsFor(agentType), base, [], w, fuel);
  }

  /** A round of a subagent whose calls all return: the run goes on from the
      conversation with the round's answers and from the state the last call
      left. */
  lemma SubLoopRound(step: ToolStep<World, Halt>, model: Model, tools: seq<string>, sub: seq<Message>,
                     done: seq<Turn>, w: World, k: nat, reply: Reply, tr: Trace<World, Halt>)
    requires k > 0 && model(tools, sub) == Some(reply) && reply.wantsTools
    requires tr == RunAll(step, w, reply.calls) && tr.raised.None?
    ensures var answers := Tagged(reply.calls, tr.outputs, OutputCap);
      SubLoop(step, model, tools, sub, done, w, k) ==
        SubLoop(step, model, tools, sub + Round(PerCall, reply, answers), done + [Turn(reply, answers)],
                tr.Final(), k - 1)
  {
  }

  /** A round of a subagent in which a call raises: the subagent ends with
      that exception. */
  lemma SubLoopRaised(step: ToolStep<World, Halt>, model: Model, tools: seq<string>, sub: seq<Message>,
                      done: seq<Turn>, w: World, k: nat, reply: Reply, tr: Trace<World, Halt>)
    requires k > 0 && model(tools, sub) == Some(reply) && reply.wantsTools
    requires tr == RunAll(step, w, reply.calls) && tr.raised.Some?
    ensures SubLoop(step, model, tools, sub, done, w, k) == Err(tr.raised.value)
  {
  }

  /** A first round of one call that returns: the subagent goes on from its
      briefing with that call answered, and from the state the call left. */
  lemma SubLoopOneCall(step: ToolStep<World, Halt>, model: Model, tools: seq<string>, base: seq<Message>,
                       w: World, k: nat, c: ToolCall, out: string, w': World)
    requires k > 0 && model(tools, base) == Some(Reply(None, [c], true))
    requires step(w, c) == Ok((out, w'))
    ensures var t := Turn(Reply(None, [c], true), [Answer(c.id, Take(out, OutputCap))]);
      SubLoop(step, model, tools, base, [], w, k) ==
        SubLoop(step, model, tools, base + Round(PerCall, t.reply, t.answers), [t], w', k - 1)
  {
    RunOne(step, w, c, out, w');
    var tr := RunAll(step, w, [c]);
    var t := Turn(Reply(None, [c], true), [Answer(c.id, Take(out, OutputCap))]);
    assert Tagged([c], tr.outputs, OutputCap) == t.answers;
    assert [] + [t] == [t];
  }

  /** The tool list of a subagent type is only what the model is offered:
      when an explore subagent's model calls write_file anyway, the call
      runs, and the Task call's answer is that of a subagent that goes on
      from the files it wrote. */
  lemma ExploreMayWrite(root: Path, model: Model, shell: Shell, fuel: nat, w: World, prompt: string,
                        c: ToolCall, o: Outcome)
    requires ValidPath(root) && fuel >= 2
    requires model(ToolsFor("explore"), Briefing(root, "explore", prompt)) == Some(Reply(None, [c], true))
    requires c.name == "write_file" && Execute(Revision.V3, root, w.files, shell, c.name, c.args) == Ok(o)
    ensures var t := Turn(Reply(None, [c], true), [Answer(c.id, Take(o.text, OutputCap))]);
      Task3(root, model, shell, fuel, w, prompt, "explore") ==
        match SubLoop(Step3(root, model, shell, fuel - 1), model, ToolsFor("explore"),
                      Briefing(root, "explore", prompt) + Round(PerCall, t.reply, t.answers), [t],
                      World(o.files, w.items), fuel - 1)
        case Ok(run) => Ok((TaskText(run.final), run.world))
        case Err(h) => Err(h)
  {
    ExploreRound(root, model, shell, fuel, w, prompt, c, o);
  }

  /** `ExploreMayWrite` for the subagent loop itself. */
  lemma ExploreRound(root: Path, model: Model, shell: Shell, fuel: nat, w: World, prompt: string,
                     c: ToolCall, o: Outcome)
    requires ValidPath(root) && fuel >= 2
    requires model(ToolsFor("explore"), Briefing(root, "explore", prompt)) == Some(Reply(None, [c], true))
    requires c.name == "write_file" && Execute(Revision.V3, root, w.files, shell, c.name, c.args) == Ok(o)
    ensures var t := Turn(Reply(None, [c], true), [Answer(c.id, Take(o.text, OutputCap))]);
      SubLoop(Step3(root, model, shell, fuel - 1), model, ToolsFor("explore"), Briefing(root, "explore", prompt),
              [], w, fuel) ==
        SubLoop(Step3(root, model, shell, fuel - 1), model, ToolsFor("explore"),
                Briefing(root, "explore", prompt) + Round(PerCall, t.reply, t.answers), [t],
                World(o.files, w.items), fuel - 1)
  {
    ExecWrites(root, model, shell, fuel - 1, w, c, o);
    SubLoopOneCall(Step3(root, model, shell, fuel - 1), model, ToolsFor("explore"), Briefing(root, "explore", prompt),
                   w, fuel, c, o.text, World(o.files, w.items));
  }

  /** A write_file call reaches the file tools unchanged. */
  lemma ExecWrites(root: Path, model: Model, shell: Shell, fuel: nat, w: World, c: ToolCall, o: Outcome)
    requires ValidPath(root)
    requires c.name == "write_file" && Execute(Revision.V3, root, w.files, shell, c.name, c.args) == Ok(o)
    ensures Step3(root, model, shell, fuel)(w, c) == Ok((o.text, World(o.files, w.items)))
  {
  }

  /** Round `t` of the main loop ran as `tr` from `before` to `after`: its
      calls ran in order through `execute_tool`, any subagent with `fuel`
      model calls, none raised, and each answer is its call's whole output. */
  ghost predicate RanRound3(root: Path, model: Model, shell: Shell, fuel: nat, before: World, t: Turn,
                            tr: Trace<World, Halt>, after: World)
    requires ValidPath(root)
  {
    Traced(Step3(root, model, shell, fuel), t.reply.calls, tr) && tr.states[0] == before &&
    tr.raised.None? && tr.Final() == after && t.answers == Whole(t.reply.calls, tr.outputs)
  }

  /** Round `t` ran as `tr` from `before` until a call raised `end`, which
      left the files and the todo list as `after`; the calls before it are
      answered with their outputs. */
  ghost predicate Broke3(root: Path, model: Model, shell: Shell, fuel: nat, before: World, t: Turn,
                         tr: Trace<World, Halt>, end: LoopEnd, after: World)
    requires ValidPath(root)
  {
    Traced(Step3(root, model, shell, fuel), t.reply.calls, tr) && tr.states[0] == before &&
    tr.raised == Some(Halt(end, after)) && t.answers == Whole(t.reply.calls, tr.outputs)
  }

  /** One pass of the main `agent_loop` from history `h` and world `w` to
      `h1` and `w1`, the model offered every tool. `stop` is `None` after a
      complete round `t`, appended as the reply and one message holding all
      results; a final reply is appended and ends the loop; a failed model
      call, or a call that raised `end` (a crash, or a subagent out of fuel),
      ends it with the history untouched and the files and task list as the
      calls left them. */
  ghost predicate Pass3(model: Model, root: Path, shell: Shell, fuel: nat, h: seq<Message>, w: World,
                        stop: Option<LoopEnd>, t: Turn, tr: Trace<World, Halt>, h1: seq<Message>, w1: World)
    requires ValidPath(root)
  {
    match stop
    case None =>
      t.reply.wantsTools && model(AllToolNames, h) == Some(t.reply) &&
      h1 == h + Round(Batched, t.reply, t.answers) && RanRound3(root, model, shell, fuel, w, t, tr, w1)
    case Some(Done) =>
      !t.reply.wantsTools && model(AllToolNames, h) == Some(t.reply) && h1 == h + [AssistantMsg(t.reply)] && w1 == w
    case Some(end) =>
      h1 == h &&
      if model(AllToolNames, h).None? then
        end == Crashed(ApiFailure) && w1 == w
      else
        t.reply.wantsTools && model(AllToolNames, h) == Some(t.reply) &&
        Broke3(root, model, shell, fuel, w, t, tr, end, w1)
  }

  /** The rounds `ts` of the main loop ran one after the other as `trs`,
      round `i` from `ws[i]` to `ws[i + 1]`. */
  ghost predicate RanRounds3(root: Path, model: Model, shell: Shell, fuel: nat, ws: seq<World>, ts: seq<Turn>,
                             trs: seq<Trace<World, Halt>>)
    requires ValidPath(root)
  {
    |ws| == |ts| + 1 && |trs| == |ts| &&
    forall i :: 0 <= i < |ts| ==> RanRound3(root, model, shell, fuel, ws[i], ts[i], trs[i], ws[i + 1])
  }

  lemma RanRounds3Snoc(root: Path, model: Model, shell: Shell, fuel: nat, ws: seq<World>, ts: seq<Turn>,
                       trs: seq<Trace<World, Halt>>, t: Turn, tr: Trace<World, Halt>, w: World)
    requires ValidPath(root) && RanRounds3(root, model, shell, fuel, ws, ts, trs)
    requires RanRound3(root, model, shell, fuel, ws[|ts|], t, tr, w)
    ensures RanRounds3(root, model, shell, fuel, ws + [w], ts + [t], trs + [tr]) && (ws + [w])[0] == ws[0]
  {
    forall i | 0 <= i < |ts| + 1
      ensures RanRound3(root, model, shell, fuel, (ws + [w])[i], (ts + [t])[i], (trs + [tr])[i], (ws + [w])[i + 1])
    {
      if i < |ts| {
        assert (ws + [w])[i + 1] == ws[i + 1];
      }
    }
  }

  /** A main loop that has run the rounds `ts` and now runs round `t` has
      run `ts + [t]`: the history, the replies asked, the files and the todo
      list all agree. */
  lemma Advance3(model: Model, root: Path, shell: Shell, fuel: nat, h0: seq<Message>, ts: seq<Turn>,
                 ws: seq<World>, trs: seq<Trace<World, Halt>>, t: Turn, tr: Trace<World, Halt>,
                 h1: seq<Message>, w: World)
    requires ValidPath(root)
    requires AllAnswered(ts) && t.reply.wantsTools
    requires Asked(model, AllToolNames, Batched, h0, ts) && RanRounds3(root, model, shell, fuel, ws, ts, trs)
    requires model(AllToolNames, h0 + Flatten(Batched, ts)) == Some(t.reply)
    requires RanRound3(root, model, shell, fuel, ws[|ts|], t, tr, w)
    requires h1 == h0 + Flatten(Batched, ts) + Round(Batched, t.reply, t.answers)
    ensures h1 == h0 + Flatten(Batched, ts + [t]) && AllAnswered(ts + [t])
    ensures Asked(model, AllToolNames, Batched, h0, ts + [t])
    ensures RanRounds3(root, model, shell, fuel, ws + [w], ts + [t], trs + [tr]) && (ws + [w])[0] == ws[0]
    ensures (ws + [w])[|ts + [t]|] == w
  {
    AllCallsAnswered(t.reply.calls, t.answers);
    AppendBatched(h0, ts, t, h1);
    AskedSnoc(model, AllToolNames, Batched, h0, ts, t);
    RanRounds3Snoc(root, model, shell, fuel, ws, ts, trs, t, tr, w);
  }

  class Agent {
    const root: Path
    const todo: TodoManager
    var files: Files
    var history: seq<Message>

    ghost predicate Valid()
      reads this, todo
    {
      ValidPath(root) && todo.version == Version.V3 && todo.Valid()
    }

    /** A fresh session: `main`'s history starts empty (the system prompt
        goes with every model call instead) and the todo list is empty. */
    constructor (root: Path, files: Files)
      requires ValidPath(root)
      ensures Valid() && fresh(todo)
      ensures this.root == root && this.files == files && history == [] && todo.items == []
    {
      this.root := root;
      this.files := files;
      history := [];
      todo := new TodoManager(Version.V3);
    }

    /** `execute_tool(name, args)`, shared by the main agent and every
        subagent: what it answers, and what it does to the files and the
        task list, is what `Exec3` says; an exception leaves them as they
        were when it was raised. No tool touches the caller's history, and
        no exception is a normal end of a loop. */
    method ExecuteTool(name: string, args: Args, model: Model, shell: Shell, fuel: nat)
      returns (r: Result<string, LoopEnd>)
      requires Valid()
      modifies this, todo
      ensures Valid() && history == old(history)
      ensures Effect(r, World(files, todo.items)) ==
        Exec3(root, model, shell, fuel, World(old(files), old(todo.items)), name, args)
      ensures r.Err? ==> r.error != Done
      decreases fuel, 2
    {
      ExecNeverDone(root, model, shell, fuel, World(files, todo.items), name, args);
      if name == "TodoWrite" {
        if args.items.None? {
          return Err(Crashed("'items'"));
        }
        var out := todo.Run(args.items.value);
        return Ok(out);
      }
      if name == "Task" {
        if "description" !in args.text {
          return Err(Crashed("'description'"));
        }
        if "prompt" !in args.text {
          return Err(Crashed("'prompt'"));
        }
        if "agent_type" !in args.text {
          return Err(Crashed("'agent_type'"));
        }
        r := RunTask(args.text["prompt"], args.text["agent_type"], model, shell, fuel);
        return;
      }
      var e := Execute(Revision.V3, root, files, shell, name, args);
      if e.Err? {
        return Err(Crashed(e.error));
      }
      files := e.value.files;
      return Ok(e.value.text);
    }

    /** `run_task(description, prompt, agent_type)`, at most `fuel` model
        calls of its own: the subagent's `while True` over a conversation of
        its own that starts from `Briefing`, offered only its type's tools.
        What it answers, and what it does to the shared files and task list,
        is what `Task3` says; the caller's history is never touched. */
    method RunTask(prompt: string, agentType: string, model: Model, shell: Shell, fuel: nat)
      returns (r: Result<string, LoopEnd>)
      requires Valid()
      modifies this, todo
      ensures Valid() && history == old(history)
      ensures Effect(r, World(files, todo.items)) ==
        Task3(root, model, shell, fuel, World(old(files), old(todo.items)), prompt, agentType)
      decreases fuel, 1
    {
      if agentType !in AgentTypes {
        return Ok(UnknownAgent(agentType));
      }
      if fuel == 0 {
        return Err(OutOfFuel);
      }
      var tools := ToolsFor(agentType);
      var sub := Briefing(root, agentType, prompt);
      ghost var step := Step3(root, model, shell, fuel - 1);
      ghost var run := SubLoop(step, model, tools, sub, [], World(files, todo.items), fuel);
      ghost var done: seq<Turn> := [];
      var k := fuel;
      while k > 0
        invariant Valid() && history == old(history)
        invariant run == SubLoop(step, model, tools, sub, done, World(files, todo.items), k)
      {
        var reply := model(tools, sub);
        if reply.None? {
          return Err(Crashed(ApiFailure));
        }
        var rep := reply.value;
        if !rep.wantsTools {
          return Ok(TaskText(rep));
        }
        ghost var w := World(files, todo.items);
        var outputs, raised, tr := RunCalls(rep.calls, model, shell, fuel - 1, step);
        if raised.Some? {
          SubLoopRaised(step, model, tools, sub, done, w, k, rep, tr);
          return Err(raised.value);
        }
        SubLoopRound(step, model, tools, sub, done, w, k, rep, tr);
        var answers := Tagged(rep.calls, outputs, OutputCap);
        sub, done := sub + Round(PerCall, rep, answers), done + [Turn(rep, answers)];
        k := k - 1;
      }
      return Err(OutOfFuel);
    }

    /** The `for` loop over one reply's tool calls, in the subagent and in
        the main loop alike: the calls run in order through `execute_tool`
        (`tr`) until one raises; their outputs come back whole, for the
        caller to cut or not. */
    method RunCalls(calls: seq<ToolCall>, model: Model, shell: Shell, fuel: nat, ghost step: ToolStep<World, Halt>)
      returns (outputs: seq<string>, raised: Option<LoopEnd>, ghost tr: Trace<World, Halt>)
      requires Valid() && step == Step3(root, model, shell, fuel)
      modifies this, todo
      ensures Valid() && history == old(history)
      ensures Traced(step, calls, tr) && tr.states[0] == World(old(files), old(todo.items))
      ensures tr == RunAll(step, tr.states[0], calls)
      ensures outputs == tr.outputs
      ensures raised.None? ==> tr.raised.None? && World(files, todo.items) == tr.Final()
      ensures raised.Some? ==> raised.value != Done && tr.raised == Some(Halt(raised.value, World(files, todo.items)))
      decreases fuel, 3
    {
      outputs, tr := [], Trace([World(files, todo.items)], [], None);
      var j := 0;
      while j < |calls|
        invariant j <= |calls| && Valid() && history == old(history)
        invariant TracedSoFar(step, calls, j, tr) && tr.states[0] == World(old(files), old(todo.items))
        invariant World(files, todo.items) == tr.Final() && outputs == tr.outputs
      {
        ghost var w := World(files, todo.items);
        var out := ExecuteTool(calls[j].name, calls[j].args, model, shell, fuel);
        assert step(w, calls[j]) == Effect(out, World(files, todo.items));
        if out.Err? {
          TraceStop(step, calls, j, tr, Halt(out.error, World(files, todo.items)));
          tr := Trace(tr.states, tr.outputs, Some(Halt(out.error, World(files, todo.items))));
          TracedIsUnique(step, calls, tr);
          return outputs, Some(out.error), tr;
        }
        TraceNext(step, calls, j, tr, (out.value, World(files, todo.items)));
        tr := Trace(tr.states + [World(files, todo.items)], tr.outputs + [out.value], None);
        outputs := outputs + [out.value];
        j := j + 1;
      }
      TraceEnd(step, calls, tr);
      TracedIsUnique(step, calls, tr);
      raised := None;
    }

    /** One pass of the main `agent_loop`'s `while True`, as `Pass3` says:
        ask the model with every tool; append a reply that asks for none;
        otherwise run the calls and append the reply and their whole outputs
        together. */
    method Step(model: Model, shell: Shell, fuel: nat)
      returns (stop: Option<LoopEnd>, ghost t: Turn, ghost tr: Trace<World, Halt>)
      requires Valid()
      modifies this, todo
      ensures Valid()
      ensures Pass3(model, root, shell, fuel, old(history), World(old(files), old(todo.items)),
                    stop, t, tr, history, World(files, todo.items))
    {
      tr := Trace([World(files, todo.items)], [], None);
      var reply := model(AllToolNames, history);
      if reply.None? {
        return Some(Crashed(ApiFailure)), Turn(Reply(None, [], false), []), tr;
      }
      var r := reply.value;
      if !r.wantsTools {
        history := history + [AssistantMsg(r)];
        return Some(Done), Turn(r, []), tr;
      }
      var outputs, raised;
      outputs, raised, tr := RunCalls(r.calls, model, shell, fuel, Step3(root, model, shell, fuel));
      var answers := Whole(r.calls, outputs);
      t := Turn(r, answers);
      if raised.Some? {
        return raised, t, tr;
      }
      history := history + Round(Batched, r, answers);
      stop := None;
    }

    /** `agent_loop(messages)`, at most `fuel` passes, each subagent with
        `fuel` model calls of its own. Each round's reply is the model's
        reply to the history before it, and each round ran its calls in
        order on the files and the todo list the round before left (`ws`,
        `trs`). The loop runs out of fuel itself only after `fuel` complete
        rounds; before that, the pass that ended it is described by
        `Pass3`, an end out of fuel included, which is then a subagent's. */
    method AgentLoop(model: Model, shell: Shell, fuel: nat)
      returns (end: LoopEnd, ghost turns: seq<Turn>, ghost tail: seq<Message>, ghost last: Turn,
               ghost ws: seq<World>, ghost trs: seq<Trace<World, Halt>>, ghost lastRun: Trace<World, Halt>)
      requires Valid()
      modifies this, todo
      ensures Valid()
      ensures history == old(history) + Flatten(Batched, turns) + tail
      ensures AllAnswered(turns) && Asked(model, AllToolNames, Batched, old(history), turns)
      ensures RanRounds3(root, model, shell, fuel, ws, turns, trs) && ws[0] == World(old(files), old(todo.items))
      ensures |turns| <= fuel
      ensures |turns| == fuel ==> end == OutOfFuel && tail == [] && World(files, todo.items) == ws[|turns|]
      ensures |turns| < fuel ==>
        Pass3(model, root, shell, fuel, old(history) + Flatten(Batched, turns), ws[|turns|], Some(end), last,
              lastRun, history, World(files, todo.items))
    {
      turns, tail, last, ws, trs := [], [], Turn(Reply(None, [], false), []), [World(files, todo.items)], [];
      lastRun := Trace([World(files, todo.items)], [], None);
      var n := 0;
      while n < fuel
        invariant n == |turns| <= fuel && Valid()
        invariant AllAnswered(turns) && history == old(history) + Flatten(Batched, turns)
        invariant Asked(model, AllToolNames, Batched, old(history), turns)
        invariant RanRounds3(root, model, shell, fuel, ws, turns, trs) && ws[0] == World(old(files), old(todo.items))
        invariant World(files, todo.items) == ws[|turns|]
      {
        var stop, t, tr := Step(model, shell, fuel);
        if stop.Some? {
          return stop.value, turns, if stop.value == Done then [AssistantMsg(t.reply)] else [], t, ws, trs, tr;
        }
        Advance3(model, root, shell, fuel, old(history), turns, ws, trs, t, tr, history, World(files, todo.items));
        turns, ws, trs := turns + [t], ws + [World(files, todo.items)], trs + [tr];
        n := n + 1;
      }
      return OutOfFuel, turns, [], last, ws, trs, lastRun;
    }

    /** One pass of `main`'s REPL: the quit test of v1 and v2; anything else
        is appended as a user message and the loop runs on it. */
    method Submit(line: string, model: Model, shell: Shell, fuel: nat)
      returns (quit: bool, ghost end: LoopEnd, ghost turns: seq<Turn>, ghost tail: seq<Message>, ghost last: Turn,
               ghost ws: seq<World>, ghost trs: seq<Trace<World, Halt>>, ghost lastRun: Trace<World, Halt>)
      requires Valid()
      modifies this, todo
      ensures Valid()
      ensures quit <==> IsQuit(Strip(line))
      ensures quit ==> history == old(history) && files == old(files) && todo.items == old(todo.items)
      ensures !quit ==>
        var asked := old(history) + [UserMsg(Strip(line))];
        && history == asked + Flatten(Batched, turns) + tail
        && AllAnswered(turns) && Asked(model, AllToolNames, Batched, asked, turns)
        && RanRounds3(root, model, shell, fuel, ws, turns, trs) && ws[0] == World(old(files), old(todo.items))
        && |turns| <= fuel
        && (|turns| == fuel ==> end == OutOfFuel && tail == [] && World(files, todo.items) == ws[|turns|])
        && (|turns| < fuel ==>
              Pass3(model, root, shell, fuel, asked + Flatten(Batched, turns), ws[|turns|], Some(end), last,
                    lastRun, history, World(files, todo.items)))
    {
      var input := Strip(line);
      if IsQuit(input) {
        var w := World(files, todo.items);
        return true, Done, [], [], Turn(Reply(None, [], false), []), [w], [], Trace([w], [], None);
      }
      history := history + [UserMsg(input)];
      end, turns, tail, last, ws, trs, lastRun := AgentLoop(model, shell, fuel);
      quit := false;
    }
  }
}
