# A verified model of the learn-claude-code agent engine

This project models, in Dafny, the core of a small teaching repository. It
builds coding agents on a chat-completion API. Four programs make up the
core:

- **The command-line agents.** Each reads a line from the user and hands the
  conversation to the language model. It runs the tools the model asks for
  and feeds their results back, until the model stops asking.
  - `v1_basic_agent.py` has bash, read_file, write_file and edit_file.
  - `v2_todo_agent.py` adds a validated todo list (TodoWrite) and reminders.
  - `v3_subagent.py` adds a Task tool. It runs a sub-agent of a given type
    with its own history. The sub-agent's model is offered only its type's
    tools, but `execute_tool` runs any tool name the model calls.
- **The backend agent session (`backend/agent_core.py`).** This is the same
  loop, made asynchronous. It reports progress through a log callback and a
  file-system-update callback.
- **The web server (`backend/main.py`).** Each uploaded project is a session
  directory. A WebSocket endpoint per session relays chat messages to the
  agent session, serves the sorted file tree, and reads and saves files
  under a path guard. The server also packs a workspace into a zip archive.
- **The browser front end.** It covers the chat screen with its ANSI-stripping
  log formatter (`App.tsx`), the code editor with its unsaved-changes flag
  and mode choice (`CodeEditor.tsx`), and the file explorer that turns the
  server's tree into tree-view items (`FileExplorer.tsx`).

## How the model is built

- **Files.** The workspace is a map from normalised absolute paths (sequences
  of segments) to file contents. Path resolution is lexical. Two guards are
  modelled side by side:
  - the agents' `is_relative_to`, a component-wise prefix;
  - the backend's `str(path).startswith(str(root))`, a string prefix.

  `Paths.StringGuardIff` proves that the string prefix is the same as a
  segment-wise prefix. `Paths.PrefixGuardIsComponentGuardPlusSiblings` proves
  that it admits exactly the workspace plus its "sibling" directories.
- **Oracles.** The language model is an oracle of type `Protocol.Model`. It
  maps the offered tool names and the history to a reply, or to `None` when
  the API call raises. A shell command is an oracle of type `Tools.Shell`. It
  maps a command and the files to an exit (output, time-out or exception) and
  the files afterwards.
- **Loops.** The `while True` loops that wait for the model, and the
  backend's recursive `step`, carry a fuel bound. Each loop's contract ties
  what it leaves behind to the model and the tools:
  - the history is the start, then `Protocol.Flatten` of the tool rounds
    run, then the final reply or the round cut short;
  - each reply is the model's reply to the history as it stood before it
    (`Protocol.Asked`);
  - each answer is its call's output, by id and in order. It is cut to
    50000 characters in v1, v2 and the sub-agents, and whole in v3's main
    loop and the backend;
  - the files, and in v2 and v3 the todo list, are what the calls left,
    each call running on the state the one before it left;
  - a loop runs out of fuel exactly when it has run `fuel` complete rounds;
  - the backend's log events are those its rounds send (`Backend.Rounds`),
    then one closing event.
- **Stateful objects.** These are classes whose methods change fields:
  - the todo manager;
  - each agent (history, files, todo, counters);
  - the backend `AgentSession`;
  - the server, with its session-to-socket table, closed sockets and the
    frames sent, in order;
  - the React components' state.
- **Pure computations.** These are functions with lemmas: the path guards,
  the tool functions, todo validation and rendering, the file tree and its
  sort, the zip filter, `formatLog`, `getMode` and the tree-view transform.

## Model

| member | source | states |
|---|---|---|
| Text.FindFirst | v1_basic_agent.py:203 | `old_text in content` holds iff a first occurrence exists; it is returned with no earlier one |
| Text.ReplaceFirst | v1_basic_agent.py:206 | `replace(old, new, 1)` leaves a string without the pattern unchanged |
| Text.ReplaceFirstAtFirstOccurrence | v1_basic_agent.py:206 | the replacement happens at the first occurrence only; the text before and after it is kept |
| Text.ReplaceFirstKeepsLaterOccurrence | v1_basic_agent.py:206 | a later non-overlapping occurrence survives, shifted by the length change |
| Text.LStripShape | v1_basic_agent.py:277 | `lstrip()` keeps a suffix of the input and cuts only whitespace, up to the first non-space |
| Text.RStripShape | v1_basic_agent.py:277 | `rstrip()` keeps a prefix of the input and cuts only whitespace, back to the last non-space |
| Text.StripShape | v1_basic_agent.py:277 | `strip()` removes only whitespace at both ends, keeps a slice of the input, and is empty iff the input is all whitespace |
| Text.StripIdempotent | v1_basic_agent.py:277 | stripping twice is stripping once |
| Text.Take | v1_basic_agent.py:164 | `s[:n]` is a prefix of length min(n, len) |
| Text.NatToString | v1_basic_agent.py:192 | `str(n)` is decimal digits with no leading zero |
| Text.NatToStringRoundTrip | v1_basic_agent.py:192 | the digits of `str(n)` read back as n |
| Text.NatToStringInjective | v1_basic_agent.py:192 | distinct lengths print differently |
| Text.SplitOn | frontend/src/components/CodeEditor.tsx:31 | `split` always yields at least one piece |
| Text.SplitJoin | frontend/src/components/CodeEditor.tsx:31 | splitting a join of separator-free pieces gives the pieces back |
| Text.JoinSplit | frontend/src/components/CodeEditor.tsx:31 | joining the pieces of a split gives the string back |
| Text.SplitOnPiecesFree | frontend/src/components/CodeEditor.tsx:31 | no piece of a split contains the separator |
| Text.SplitLines | v1_basic_agent.py:175 | `splitlines()` pieces hold no line boundary and are empty iff the text is |
| Text.SplitLinesIsSplitOnNewline | v1_basic_agent.py:175 | on `\n`-only text without a final newline, `splitlines()` is `split("\n")` |
| Text.LexLeTotal | backend/main.py:51 | string order compares any two names |
| Text.LexLeTransitive | backend/main.py:51 | string order is transitive |
| Text.LexLeAntisymmetric | backend/main.py:51 | string order is antisymmetric |
| Paths.Normalize | v1_basic_agent.py:143 | lexical normalisation yields a valid path (no empty, "." or ".." segment) |
| Paths.Resolve | v1_basic_agent.py:143 | `(root / p).resolve()` yields a valid absolute path |
| Paths.SafePath | v1_basic_agent.py:142-146 | accepted iff the resolved path is below the root component-wise; the result then lies below the root; otherwise it is "Path escapes workspace: p" |
| Paths.PrefixSafePath | backend/agent_core.py:96-100 | accepted iff the resolved path is a segment-wise prefix extension of the root; otherwise the same message |
| Paths.SlashedPrefix | backend/main.py:55 | the string-prefix test on rendered paths is exactly the segment-wise prefix test |
| Paths.StringGuardIff | backend/agent_core.py:98 | `str(path).startswith(str(root))` iff segment-wise prefix |
| Paths.ComponentGuardImpliesStringGuard | backend/agent_core.py:98 | everything `is_relative_to` accepts, the string guard accepts |
| Paths.SegmentwisePrefixCases | backend/agent_core.py:98 | segment-wise prefixes are exactly the descendants plus the siblings |
| Paths.PrefixGuardIsComponentGuardPlusSiblings | backend/agent_core.py:96-100 | the backend guard accepts what the agents' guard accepts plus siblings, and agrees with it there |
| Paths.StringGuardAdmitsSibling | backend/agent_core.py:98 | from `/ws/s1`, the request `../s10` passes the string guard and fails `is_relative_to` |
| Paths.NormalizeExtends | v1_basic_agent.py:143 | parts without ".." only extend the base |
| Paths.RelativeWithoutDotDotIsSafe | v1_basic_agent.py:142-146 | a relative request with no ".." segment is always accepted |
| Paths.DotDotEscapes | v1_basic_agent.py:144-145 | ".." is refused in any workspace below "/" |
| Tools.RunBash | v1_basic_agent.py:149-169 | a denied command is refused with the revision's message and the files unchanged; otherwise the files are what the process left |
| Tools.RefusedCommandIsNotRun | v1_basic_agent.py:150-152 | a refused command's result does not depend on the process at all |
| Tools.DenyListsNested | v2_todo_agent.py:231 | v1 refuses whatever v2 refuses, and v2 whatever v3 refuses |
| Tools.DenyListsDiffer | v1_basic_agent.py:150 | the nesting is strict: "reboot" only up to v2, "> /dev/" only in v1 |
| Tools.ShapingAgrees | v3_subagent.py:267 | v3's shaping of process output equals v1/v2's |
| Tools.ShapedOutput | v1_basic_agent.py:163-164 | shaped output is non-empty and at most 50000 long; it is "(no output)" or a prefix of the stripped output, and equals that output when short |
| Tools.Load | v1_basic_agent.py:174 | `read_text` succeeds iff the file exists, with its contents |
| Tools.PyHead | v1_basic_agent.py:178 | `lines[:n]` is a prefix; a negative n drops lines from the end |
| Tools.RunRead | v1_basic_agent.py:172-184 | a path refused by the guard gives "Error: " and the guard's message |
| Tools.ReadWholeFile | v1_basic_agent.py:181 | without a (truthy) limit a plain text comes back whole, cut at 50000 |
| Tools.ReadWithPositiveLimit | v1_basic_agent.py:177-179 | a limit below the line count keeps that many lines, plus the "more lines" marker in v1/v2 and none in v3 |
| Tools.ReadWithLargeLimit | v2_todo_agent.py:251 | a limit of at least the line count cuts nothing and adds no marker |
| Tools.NegativeLimitMarker | v1_basic_agent.py:177-179 | a negative limit drops lines from the end, and the marker counts `total - limit` lines |
| Tools.ReadCapped | v1_basic_agent.py:181 | the result never exceeds 50000 characters and is a prefix of the joined lines |
| Tools.RunWrite | v1_basic_agent.py:187-195 | refused path: error and files unchanged; otherwise exactly the target file holds the content |
| Tools.RunEdit | v1_basic_agent.py:198-211 | refused path: error and files unchanged; a missing file changes nothing |
| Tools.EditNotFound | v1_basic_agent.py:203-204 | absent text: "Error: Text not found in path" and every file unchanged |
| Tools.EditFirstOccurrence | v1_basic_agent.py:206-208 | a successful edit rewrites only the target, at the first occurrence, and reports "Edited path" |
| Tools.ReadAfterWrite | v1_basic_agent.py:172-195 | reading back what was written gives the written text cut at 50000, in every revision |
| Dispatch.Arg | v1_basic_agent.py:216 | `args[key]` gives the value iff the key is present, else the KeyError text `'key'` |
| Dispatch.FileTool | v1_basic_agent.py:214-222 | a handler exists exactly for the four file tool names |
| Dispatch.Execute | v1_basic_agent.py:214-223 | any other name answers "Unknown tool: name" with the files unchanged |
| Dispatch.OnlyWritersChangeFiles | v1_basic_agent.py:214-223 | only bash, write_file and edit_file can change files |
| Dispatch.MissingArgumentRaises | v1_basic_agent.py:218 | a file tool without "path" raises KeyError 'path' |
| Protocol.ToolMsgs | v1_basic_agent.py:250-252 | one "tool" message per answer, in order |
| Protocol.FlattenInjective | v1_basic_agent.py:225-252 | the history a loop leaves determines its tool rounds uniquely |
| Protocol.FlattenOnlyModelTraffic | v1_basic_agent.py:234-252 | tool rounds add only replies asking for tools and tool answers, never a user or system message |
| Protocol.FlattenCapped | v1_basic_agent.py:251 | every tool message a round adds is at most 50000 characters |
| Protocol.RoundShape | v1_basic_agent.py:234-252 | a round starts with the model's reply and has the length its calls dictate |
| Protocol.RunAllTraced | v1_basic_agent.py:241-252 | the calls' `for` loop, as a function, is a run taken one call at a time: each call on the state the one before it left, the first exception ending it |
| Protocol.TracedIsRunAll | v1_basic_agent.py:241-252 | a run taken one call at a time is exactly that function's run, and the other way round |
| Protocol.AskedAt | v1_basic_agent.py:225-252 | in rounds asked, round i's reply is the model's reply to the starting history plus the rounds before round i |
| Protocol.AskedOfEach | v1_basic_agent.py:225-252 | conversely, rounds each replied to that way are rounds asked |
| Protocol.RepliedAsked | v3_subagent.py:332-360 | rounds read from the front, each reply the model's reply to the conversation before it, are rounds asked, and the final reply answers the conversation after all of them |
| Todo.ParseStatus | v2_todo_agent.py:53 | a recognised status is one of the three names, and each name is recognised as its status |
| Todo.CheckMeaning | v2_todo_agent.py:46-56 | an entry passes iff its stripped content and activeForm are non-empty and its lower-cased status is valid; it then holds those values |
| Todo.Checks | v2_todo_agent.py:46-65 | one check outcome per entry |
| Todo.CountStatus | v2_todo_agent.py:88 | a status count never exceeds the list length |
| Todo.CollectOk | v2_todo_agent.py:46-65 | collection succeeds iff every check passed, yielding the checked entries in order |
| Todo.CollectErr | v2_todo_agent.py:51-56 | a refusal carries the message of the first refused entry |
| Todo.ValidatedOk | v2_todo_agent.py:46-65 | validation succeeds iff every entry passes, yielding the normalised entries in order |
| Todo.ValidatedErr | v2_todo_agent.py:51-56 | a refused list is refused with its first refused entry's message |
| Todo.ApplyRefused | v2_todo_agent.py:51-56 | a refused validation refuses the update |
| Todo.ChecksAgree | v3_subagent.py:73-80 | v2 and v3 accept the same entries and normalise them alike |
| Todo.UpdateWellFormed | v2_todo_agent.py:61-72 | a stored list has filled entries, at most 20 of them, and at most one in progress |
| Todo.UpdateV3Accepts | v3_subagent.py:90-93 | v3 accepts iff validation passes with at most one in progress, and stores the first min(n, 20) entries |
| Todo.ValidatedAgree | v2_todo_agent.py:46-65 | both revisions validate to the same list |
| Todo.UpdateV2VersusV3 | v2_todo_agent.py:67-70 | v2 accepts iff v3 accepts and there are at most 20 entries; both then store the same list; over 20, v2 says "Max 20 todos allowed" |
| Todo.RenderV3Lines | v3_subagent.py:96-105 | v3 rendering, line by line: one mark-and-content line per item, then "(d/n done)" |
| Todo.RenderV2Lines | v2_todo_agent.py:75-91 | v2 rendering, line by line: one line per item, a blank line, then "(c/n completed)" |
| Todo.TodoManager.constructor | v2_todo_agent.py:39-40 | a new manager holds no items |
| Todo.TodoManager.Update | v2_todo_agent.py:42-73 | on refusal the list is untouched and the message returned; on success the list is the validated list and the rendering is returned; the list stays well formed |
| Todo.TodoManager.Run | v2_todo_agent.py:280-284 | `run_todo`: the rendering, or "Error: " and the refusal, with the same state change |
| AgentV1.Agent.constructor | v1_basic_agent.py:273 | the history starts as the system prompt alone |
| AgentV1.Agent.AgentLoop | v1_basic_agent.py:225-252 | the history grows by complete rounds, then the final reply (Done), nothing (out of fuel, exactly after `fuel` rounds) or a round cut short by an exception; each reply is the model's reply to the history before it; each answer is its call's output cut to 50000; the files are what the calls left, round after round |
| AgentV1.Agent.Step | v1_basic_agent.py:227-252 | the model's reply to the history is appended; a reply asking for no tools ends the loop with the files unchanged; otherwise its calls run in order on the files and their capped outputs are appended; a failed model call adds nothing; a call that raises leaves the round cut short |
| AgentV1.Agent.RunCalls | v1_basic_agent.py:241-252 | each call runs on the files the calls before it left; one tool message per call, by id, in order, holding its output cut to 50000; an exception stops after the calls answered so far, with the files as they then were |
| AgentV1.Agent.ExecuteTool | v1_basic_agent.py:214-223 | the tool's text and files, or the KeyError with the files unchanged; the history is unchanged |
| AgentV1.Agent.Submit | v1_basic_agent.py:275-291 | an empty or exit line quits with nothing changed; otherwise the history is the old one, the stripped line as a user message, then the loop's rounds and tail, with every reply the model's reply to the history before it, the files as the rounds left them, and the ending as `AgentLoop` states it |
| AgentV2.CounterWithoutTodo | v2_todo_agent.py:338-341 | rounds without TodoWrite each add one to the counter |
| AgentV2.CounterSinceTodo | v2_todo_agent.py:338-341 | the counter is the number of rounds since the last TodoWrite |
| AgentV2.CounterAppend | v2_todo_agent.py:338-341 | counting over two stretches of rounds composes |
| AgentV2.CounterAtLeast | v2_todo_agent.py:338-341 | the counter reaches m iff the last m rounds exist and none used TodoWrite |
| AgentV2.NagMeansNoRecentTodo | v2_todo_agent.py:381-382 | the nag fires iff the last 11 rounds all went without TodoWrite |
| AgentV2.CounterSnoc | v2_todo_agent.py:338-341 | a round with TodoWrite resets the counter, any other adds one |
| AgentV2.Reminded | v2_todo_agent.py:376-384 | the user message ends with the input; it carries a reminder iff first message or counter above 10 (initial first, else nag) |
| AgentV2.CallsTodoExists | v2_todo_agent.py:321-327 | `used_todo` is raised iff some call of the round is named TodoWrite |
| AgentV2.Exec2 | v2_todo_agent.py:287-298 | TodoWrite never touches the files, and no other tool touches the todo list |
| AgentV2.QuietRounds | v2_todo_agent.py:321-341 | rounds that never call TodoWrite leave the todo list as it was and add one each to the counter |
| AgentV2.Agent.constructor | v2_todo_agent.py:364-365 | system prompt only, empty todo list, counter 0, first message pending |
| AgentV2.Agent.ExecuteTool | v2_todo_agent.py:287-298 | TodoWrite without items raises 'items'; with items, the todo update's result and state; other names go to the file tools with the todo list unchanged |
| AgentV2.Agent.RunCalls | v2_todo_agent.py:321-336 | each call runs on the files and the todo list the calls before it left; answers by id and in order, capped; an exception stops after the calls answered so far |
| AgentV2.Agent.AgentLoop | v2_todo_agent.py:303-341 | as v1, with v2's tools offered and over the files and the todo list, and the counter equal to the count over the rounds run |
| AgentV2.Agent.Step | v2_todo_agent.py:306-341 | one completion as in v1, over the files and the todo list; a completed round resets the counter when it called TodoWrite and adds one otherwise; a round cut short leaves it |
| AgentV2.Agent.ToolRound | v2_todo_agent.py:321-341 | runs the reply's calls in order, then resets or increments the counter; an exception skips the counter update |
| AgentV2.Agent.Submit | v2_todo_agent.py:367-392 | quit as v1, with the flag and counter kept; otherwise the first-message flag is cleared and the history is the old one, the reminded user message, then the loop's rounds and tail, each reply asked of the model; the files and todo list are as the rounds left them and the counter is `Counter` over the rounds |
| AgentV3.Keep | v3_subagent.py:250 | the kept tools are exactly those offered and allowed |
| AgentV3.ToolsForMeaning | v3_subagent.py:244-250 | a sub-agent never gets Task; explore and plan get exactly bash and read_file; code and unknown types get every base tool |
| AgentV3.TaskText | v3_subagent.py:373-376 | the sub-agent's answer is its final text, or the placeholder when empty; never empty |
| AgentV3.ExecNeverDone | v3_subagent.py:379-392 | no exception leaving `execute_tool` is a normal end of a loop |
| AgentV3.SubLoopNeverDone | v3_subagent.py:332-360 | an exception leaving a sub-agent is a crash or a fuel end, never a normal end |
| AgentV3.SubLoopReplied | v3_subagent.py:332-346 | each reply of a sub-agent run that ends normally, the last one included, is the model's reply to the sub-agent's conversation as it stood |
| AgentV3.SubLoopAnswered | v3_subagent.py:348-360 | in a sub-agent run that ends normally, every call of every round is answered by id, in order, cut to 50000 |
| AgentV3.SubLoopGrows | v3_subagent.py:332-360 | a sub-agent run keeps the rounds it started from and makes fewer rounds than it has model calls |
| AgentV3.SubLoopRound | v3_subagent.py:341-360 | a round whose calls all return: the sub-agent goes on from the conversation with that round added and the files and task list the calls left |
| AgentV3.SubLoopRaised | v3_subagent.py:348-360 | a call that raises ends the sub-agent with that exception |
| AgentV3.TaskAnswer | v3_subagent.py:310-376 | a Task call with a known type returns iff its sub-agent ends normally, with the text of its last reply and the files and task list it left; that reply asks for no tools and answers the briefing plus the answered rounds; every reply is the model's reply to the sub-agent conversation before it |
| AgentV3.ExecWrites | v3_subagent.py:384-385 | a write_file call goes to the file tools as it is |
| AgentV3.ExploreRound | v3_subagent.py:341-360 | when an explore sub-agent's model calls write_file, which it is not offered, the call runs and the loop goes on with the files it wrote |
| AgentV3.ExploreMayWrite | v3_subagent.py:379-392 | so the Task call's answer is that of an explore sub-agent that goes on from the files written |
| AgentV3.Agent.constructor | v3_subagent.py:460 | empty history, empty todo list |
| AgentV3.Agent.ExecuteTool | v3_subagent.py:379-392 | answer, files and task list as `Exec3` says: TodoWrite as v2 with v3's rules; Task with a missing key raises; a complete Task call answers what `RunTask` answers; other names go to the file tools, whatever tools were offered; the main history is never touched; no exception is a normal loop end |
| AgentV3.Agent.RunTask | v3_subagent.py:310-376 | answer, files and task list as `Task3` says: an unknown type answers the error text with nothing changed; otherwise the sub-agent's loop over its own briefing, offered its type's tools, and the text of its last reply (see `TaskAnswer`); the main history is untouched |
| AgentV3.Agent.RunCalls | v3_subagent.py:426-445 | the calls run in order through `execute_tool`, each on the files and task list the one before it left; the whole outputs come back; an exception leaves the world as it was when raised |
| AgentV3.Agent.AgentLoop | v3_subagent.py:399-448 | the history grows by batched rounds, then the final reply; each reply is the model's reply to the history before it, offered every tool; each round ran its calls on the world the round before left and is answered with their whole outputs; out of fuel only after `fuel` rounds; the last pass as `Step` says |
| AgentV3.Agent.Step | v3_subagent.py:406-448 | the model's reply to the history: a final reply is appended; a tool round appends the reply and one message holding every whole output, with the world the calls left; a failed model call or a raising call leaves the history untouched and the world as the calls left it |
| AgentV3.Agent.Submit | v3_subagent.py:462-478 | quit as v1; otherwise the history is the old one, the stripped line as a user message, then the batched rounds and tail, each reply asked of the model with every tool; each round ran on the world the one before left; the last pass as `Step` says |
| Backend.Preview | backend/agent_core.py:180 | the log preview is the output, or its first 300 characters and "..." |
| Backend.LastDot | backend/agent_core.py:123 | finds the last '.' of a name, if any |
| Backend.ExtensionMeaning | backend/agent_core.py:123 | the fence label is a non-empty dot-free extension, "text" by default |
| Backend.BashText | backend/agent_core.py:116 | bash output is never empty |
| Backend.CallbackMeaning | backend/agent_core.py:102-152 | the update callback runs iff bash completes an allowed command, write_file writes inside the guard, or edit_file applies |
| Backend.QuietTools | backend/agent_core.py:119-145 | read_file and unknown tools change no file and never notify; unknown tools say "not implemented in demo" |
| Backend.ReadShowsFile | backend/agent_core.py:119-124 | read_file shows the file's first 50000 characters fenced with its extension |
| Backend.GuardAdmitsSibling | backend/agent_core.py:96-100 | write_file with "../sibling" writes outside the workspace |
| Backend.QuietRun | backend/agent_core.py:102-152 | read_file and unknown-tool calls leave the files as they were, send no update, and send exactly two events each |
| Backend.RoundsAnswered | backend/agent_core.py:169-189 | every round of `step` has tool calls and answers each of them by id, in order |
| Backend.AgentSession.constructor | backend/agent_core.py:21-32 | a session over the workspace, with no events yet |
| Backend.AgentSession.ExecuteTool | backend/agent_core.py:102-152 | output and files as the tool function says, and an update event exactly when it notifies |
| Backend.AgentSession.RunCalls | backend/agent_core.py:172-187 | each call runs on the files the calls before it left; one tool message per call, by id and in order, with its whole output; the events grow by each call's line, its update when it notifies, and its preview |
| Backend.AgentSession.Ask | backend/agent_core.py:154-193 | the model's reply to the messages is appended and its text logged in green; no calls: the recursion ends with the files unchanged; calls: the round of whole outputs, files and events as the calls give them; an API failure: the messages unchanged and "System Error" logged in red |
| Backend.AgentSession.Step | backend/agent_core.py:154-193 | the messages grow by rounds with calls, then the final call-free reply; each reply is the model's reply to the messages before it; the files and events are those the rounds give, then the final text or the red "System Error"; fuel runs out only after `fuel` rounds |
| FileTree.KeyLeTotal | backend/main.py:51 | the sort key compares any two items |
| FileTree.KeyLeTransitive | backend/main.py:51 | the sort key is transitive |
| FileTree.Insert | backend/main.py:51 | insertion adds exactly the one item |
| FileTree.SortItems | backend/main.py:51 | the sort is a permutation |
| FileTree.InsertSorted | backend/main.py:51 | insertion keeps a level sorted |
| FileTree.SortItemsSorted | backend/main.py:51 | the sorted level is sorted (directories first, then by name) and a permutation |
| FileTree.GetFileTree | backend/main.py:31-51 | the loop with recursion computes the tree function |
| FileTree.CollectMembers | backend/main.py:33-50 | the loop keeps exactly the items of the visible entries |
| FileTree.TreeMembers | backend/main.py:31-51 | a tree item is the item of a visible entry, and every visible entry has its item |
| FileTree.TreeShape | backend/main.py:31-51 | at every depth: sorted, no hidden name, paths joined from the names above, children iff directory |
| FileTree.TreeLength | backend/main.py:33-51 | one item per visible entry, never more than the entries |
| Server.ReadFileContent | backend/main.py:53-59 | raises iff the string guard refuses; otherwise the content iff a file is there, else None |
| Server.WriteFile | backend/main.py:61-67 | raises iff the string guard refuses; otherwise the target file is added or replaced |
| Server.ReadAfterSave | backend/main.py:53-67 | a saved file reads back as saved; other paths read as before |
| Server.SaveReachesSibling | backend/main.py:63 | saving "../sibling" writes outside the session directory |
| Server.InvalidSessionId | backend/main.py:129-133 | for a slash-free id the guard refuses only "..", which always exists |
| Server.ZipWorkspace | backend/main.py:206-224 | the walk loop computes the archive's names |
| Server.ArchiveMembers | backend/main.py:209-224 | the archive holds exactly the relative paths of the non-excluded entries |
| Server.VenvSuffixExcluded | backend/main.py:219 | a file under any directory whose name ends in "venv" is excluded |
| Server.NestedBackendPackedButHidden | backend/main.py:221 | "src/backend/app.py" is packed although the tree hides "backend" |
| Server.Server.constructor | backend/main.py:29 | no connection, nothing sent |
| Server.Server.Send | backend/main.py:136-139 | a frame is sent iff the socket is open |
| Server.Server.Close | backend/main.py:125 | the close frame is sent and the socket closed |
| Server.Server.RemoveConnection | backend/main.py:88-91 | the session leaves the table; idempotent |
| Server.Server.Broadcast | backend/main.py:80-86 | no connection: nothing; open socket: one fs_update; closed socket: the connection is removed |
| Server.Server.SendLog | backend/main.py:135-139 | the log frame is sent, or the connection is removed on a closed socket |
| Server.Server.Forward | backend/main.py:141-144 | on a live connection the callbacks' events become frames, in order |
| Server.Server.WriteFileContent | backend/main.py:61-69 | files change iff the guard passes; a successful write broadcasts an update |
| Server.RunStep | backend/main.py:161 | `agent.step` on the appended history: replies asked of the model, each round's calls run on the files the round before left; the session's files become those `Rounds` leaves and its new events are the rounds' events then the closing event |
| Server.Server.UserMessage | backend/main.py:158-163 | echo "user", append the user message, run the step (replies asked of the model, calls run on the session's files); the files afterwards are those `Rounds` leaves, and the relayed frames are the rounds' events then the closing event, in order, then "ready" |
| Server.Server.FileTreeRequest | backend/main.py:165-167 | sends the sorted tree of the session directory |
| Server.Server.ReadRequest | backend/main.py:169-171 | sends the file content or null; a refused path ends the loop with nothing sent |
| Server.Server.SaveRequest | backend/main.py:173-176 | saves, then update, "Saved path", update; a refused path ends the loop with nothing changed |
| Server.Server.Handle | backend/main.py:156-176 | a missing type ends the loop; an unknown type changes nothing; only user_message grows the history |
| Server.Server.Serve | backend/main.py:144-176 | the init log and an update are sent first; at most all requests are handled |
| Server.Server.Endpoint | backend/main.py:119-183 | "Session not found" (1000) or "Invalid session ID" (1008) closes; otherwise it greets and serves; the connection is always removed |
| ClientApp.CodeRun | frontend/src/App.tsx:11 | the maximal run of `[0-9;]` characters |
| ClientApp.MatchAt | frontend/src/App.tsx:11 | a match of the colour pattern spans at least three characters |
| ClientApp.StripFrom | frontend/src/App.tsx:11 | the global replace never lengthens the text |
| ClientApp.PlainKept | frontend/src/App.tsx:11 | escape-free text is kept as it is |
| ClientApp.FormatLogWithoutEscape | frontend/src/App.tsx:5-12 | text without an escape is shown unchanged |
| ClientApp.CodeDropped | frontend/src/App.tsx:11 | a colour code is dropped whole |
| ClientApp.ShowsLoggedText | frontend/src/App.tsx:5-12 | a backend log line, in any of the backend's four colours, shows exactly the logged text |
| ClientApp.OnePassOnly | frontend/src/App.tsx:11 | a nested code leaves a colour code behind after one pass |
| ClientApp.App.constructor | frontend/src/App.tsx:15-21 | no session, no socket, empty logs and input, not busy |
| ClientApp.App.View | frontend/src/App.tsx:79 | upload screen iff the session id is missing or empty |
| ClientApp.App.Connected | frontend/src/App.tsx:43-44 | the session id is stored and the socket opened |
| ClientApp.App.Type | frontend/src/App.tsx:163 | the input box takes the text |
| ClientApp.App.HandleSend | frontend/src/App.tsx:71-76 | no socket, blank input or busy: nothing; else the raw input is sent, busy set, box cleared |
| ClientApp.App.OnMessage | frontend/src/App.tsx:56-66 | log/user lines appended with their kind; status "ready" clears busy; else nothing |
| ClientEditor.GetMode | frontend/src/components/CodeEditor.tsx:29-43 | the mode is one of the eight names |
| ClientEditor.LastPiece | frontend/src/components/CodeEditor.tsx:31 | `split('.').pop()` is the text after the last dot |
| ClientEditor.ModeByExtension | frontend/src/components/CodeEditor.tsx:31-42 | the mode is the switch applied to the text after the last dot |
| ClientEditor.ModeWithoutDot | frontend/src/components/CodeEditor.tsx:31 | a dotless name is its own extension ("md" is markdown) |
| ClientEditor.Editor.constructor | frontend/src/components/CodeEditor.tsx:20-22 | the buffer starts as the content, unmodified |
| ClientEditor.Editor.OnChange | frontend/src/components/CodeEditor.tsx:76-79 | the buffer takes the text and is marked modified |
| ClientEditor.Editor.HandleSave | frontend/src/components/CodeEditor.tsx:45-50 | with a path and changes, one save of path and buffer, then unmodified; else nothing; an enabled button always saves |
| ClientEditor.Editor.Rerender | frontend/src/components/CodeEditor.tsx:24-27 | a changed path or content resets the buffer and flag; otherwise both are kept |
| ClientExplorer.ViewOf | frontend/src/components/FileExplorer.tsx:53-61 | id and data are the path, label the name, type kept, children iff directory |
| ClientExplorer.Kids | frontend/src/components/FileExplorer.tsx:57 | a missing children key counts as none |
| ClientExplorer.ChildrenTransformed | frontend/src/components/FileExplorer.tsx:56-58 | a directory's children are the transform of its children |
| ClientExplorer.Transform | frontend/src/components/FileExplorer.tsx:52-62 | one view item per item, in order |
| ClientExplorer.ClickSelectsTopLevel | frontend/src/components/FileExplorer.tsx:69-110 | an item is selected iff its id is the selected path; clicking a top-level item of a backend tree selects it and no item one level down |
| ClientExplorer.DefaultExpanded | frontend/src/components/FileExplorer.tsx:108 | the expanded ids are the top-level ids, in order |
| ClientExplorer.OnlyTopLevelExpanded | frontend/src/components/FileExplorer.tsx:108 | for a backend tree, no second-level item starts expanded |

## Left out

- **The language model and the network.** The completion API is the oracle `Model`. Its text, tool choice and failures are inputs. The token limits, the `model_dump` serialisation and the timeout are not modelled.
- **The `while True` loops.** They carry a fuel bound. `OutOfFuel` is an end the real programs do not have: they loop until the model stops asking for tools.
- **Processes.** `subprocess.run` and `create_subprocess_shell` are the oracle `Shell`. Byte decoding, the 60-second timer and the working directory are part of that oracle. The files left after a time-out are what the oracle says.
- **Files on disk.** Only regular files are represented, so an empty directory is not. Symlinks are not modelled: `resolve()` is lexical. Neither is `mkdir` failing because a parent is a file, nor writing onto a directory path.
- **Text encoding.** `str.lower()` is modelled for ASCII letters only. Reading is exact on characters, with no encoding errors.
- **JSON.**
  - Tool arguments are decoded maps. Non-string values other than `limit` and `items` are not represented, and neither is a `json.loads` error.
  - `tool_calls` being `None` with a "tool_calls" finish reason is not modelled.
- **Console output.** Colours, panels and previews printed to the terminal are not modelled. For the backend, log events are kept, but the Python `repr` of the arguments in the "$ name: args" line is not: `CallFrame` carries the name and the decoded arguments.
- **v3 main loop.** It uses a different client API (`messages.create`, `stop_reason`, content blocks). It is modelled as batched rounds under the same oracle.
- **After a crash.** v1 and v2 leave a reply whose tool calls are partly answered in the history. This is stated (`Unfinished`) but not repaired.
- **Uploads and the file-system watcher.** `upload_project`, `unzip_file` and `filesystem_watcher` are not modelled: uuid generation, unzipping and change notification are I/O. `download_project` is represented only by `ZipWorkspace`, which produces the archive's member names, not their compressed contents.
- **Connections.**
  - One socket per session is modelled. Two sockets racing for the same session id are not: that is concurrency.
  - The client disconnecting is the end of the request sequence. An exception other than `RuntimeError` on send, and closing an already-closed socket, are not modelled.
- **Server.Server.Serve**: its contract states the greeting and liveness. The effect of each request is stated on `Handle` and the four request methods it calls, not restated over the whole request sequence.
- **Server.Server.Endpoint**: likewise states the refusals, the greeting and the removal of the connection, not the effect of each request.
- **Server.Server.Handle**: states the control flow (missing type, unknown type, liveness, which request grows the history). The per-type effects are the contracts of `UserMessage`, `FileTreeRequest`, `ReadRequest` and `SaveRequest`.
- **The directory listing.** `iterdir` is a `Lister` parameter, not derived from the file map. `session_dir.name` is taken to be the session id.
- **Session directory names.** `BASE_DIR / session_id` is rendered as the base, a "/" and the id. Of pathlib's normalisations only the id ".", which adds nothing, is modelled.
- **Tools.RunRead**: its contract states only the refused-path case. What it returns for a readable file is stated by `ReadWholeFile`, `ReadWithPositiveLimit`, `ReadWithLargeLimit`, `NegativeLimitMarker`, `ReadCapped` and `ReadAfterWrite`.
- **Rendering (JSX).** Markup, styles, scrolling and the yellow highlighting of "Wait"/"Error" lines are not modelled. `frontend/src/components/LogMessage.tsx` is not part of this model.

## Notes on the code's behaviour

The model follows the code as written, including these behaviours:

- **Upload screen.** `App.tsx` shows the upload screen for any falsy session id, so the empty string counts as no session.
- **Sending messages.** `App.tsx` sends the raw input text over the socket. The endpoint reads each frame with `receive_json` and dispatches on `data["type"]`. Plain text fails to parse, the endpoint's exception handler ends the connection, and the browser's messages never reach the agent. JSON parsing is not modelled: the model's requests are the parsed objects.
- **The backend guard.** It is a string prefix, so `/ws/s1` admits `../s10` (`Paths.StringGuardAdmitsSibling`, `Server.SaveReachesSibling`). The command-line agents' `is_relative_to` does not admit it.
- **The zip filter.**
  - It skips only a top-level `backend/`, while the tree hides "backend" at every depth (`Server.NestedBackendPackedButHidden`).
  - "venv/" is a substring test, so `myvenv/x` is skipped too (`Server.VenvSuffixExcluded`).
- **Editor mode.** `getMode` takes a dotless file name as its own extension (`ClientEditor.ModeWithoutDot`).
- **Editor reset.** The editor resets its buffer only when the path or the content prop changes (`ClientEditor.Editor.Rerender`).
- **v2 todo limit.** v2 refuses more than 20 todos, while v3 silently keeps the first 20 (`Todo.UpdateV2VersusV3`).
