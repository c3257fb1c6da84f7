/** Messages exchanged with the language model, and the shape of a
    conversation's history.

    The model itself is an oracle: a function from the tool names offered and
    the history so far to a reply, or to `None` when the API call raises.
    A reply asks for tools when its finish reason is "tool_calls" (its stop
    reason "tool_use" in the v3 main loop). */
module Protocol {
  import opened Wrappers
  import opened Text
  import opened Todo

  /** The arguments of one tool call after JSON decoding: the string-valued
      keys, the optional `limit`, and the optional TodoWrite `items`. */
  datatype Args = Args(text: map<string, string>, limit: Option<int>, items: Option<seq<RawItem>>)

  datatype ToolCall = ToolCall(id: string, name: string, args: Args)

  /** One completion: its text, the tool calls it carries, and whether it
      asks for them to be run. */
  datatype Reply = Reply(content: Option<string>, calls: seq<ToolCall>, wantsTools: bool)

  /** The result of one tool call, tagged with the call's id. */
  datatype Answer = Answer(callId: string, content: string)

  datatype Message =
    | SystemMsg(text: string)
    | UserMsg(text: string)
    | UserParts(parts: seq<string>)
    | AssistantMsg(reply: Reply)
    | ToolMsg(answer: Answer)
    | ResultsMsg(answers: seq<Answer>)

  /** The language model: offered tool names and history to a reply. */
  type Model = (seq<string>, seq<Message>) -> Option<Reply>

  /** What ended a conversation loop. `OutOfFuel` exists only in the model:
      the source loops until the model stops asking for tools. */
  datatype LoopEnd = Done | Crashed(message: string) | OutOfFuel

  /** How tool results are returned: one "tool" message per call (OpenAI
      style, v1, v2, the v3 subagent and the backend), or all results in one
      user message (the v3 main loop). */
  datatype Style = PerCall | Batched

  /** The text of the exception an API failure raises. */
  const ApiFailure := "model call failed"

  /** `answers` answers `calls` one for one, in order, by id. */
  predicate Answers(calls: seq<ToolCall>, answers: seq<Answer>)
  {
    |answers| == |calls| && forall k :: 0 <= k < |calls| ==> answers[k].callId == calls[k].id
  }

  /** One "tool" message per answer, in order. */
  function ToolMsgs(answers: seq<Answer>): (ms: seq<Message>)
    ensures |ms| == |answers|
    ensures forall k :: 0 <= k < |answers| ==> ms[k] == ToolMsg(answers[k])
  {
    seq(|answers|, k requires 0 <= k < |answers| => ToolMsg(answers[k]))
  }

  /** The messages one tool round appends. */
  function Round(style: Style, reply: Reply, answers: seq<Answer>): seq<Message>
  {
    match style
    case PerCall => [AssistantMsg(reply)] + ToolMsgs(answers)
    case Batched => [AssistantMsg(reply), ResultsMsg(answers)]
  }

  /** One completed tool round: a reply asking for tools and the answers
      given to its calls. */
  datatype Turn = Turn(reply: Reply, answers: seq<Answer>)

  /** Every call of the turn is answered exactly once, by id, in order. */
  predicate Answered(t: Turn)
  {
    t.reply.wantsTools && Answers(t.reply.calls, t.answers)
  }

  predicate AllAnswered(ts: seq<Turn>)
  {
    forall i :: 0 <= i < |ts| ==> Answered(ts[i])
  }

  /** The messages a sequence of tool rounds appends to the history. */
  function Flatten(style: Style, ts: seq<Turn>): seq<Message>
    decreases |ts|
  {
    if ts == [] then [] else Flatten(style, ts[..|ts| - 1]) + Round(style, ts[|ts| - 1].reply, ts[|ts| - 1].answers)
  }

  lemma FlattenSnoc(style: Style, ts: seq<Turn>, t: Turn)
    ensures Flatten(style, ts + [t]) == Flatten(style, ts) + Round(style, t.reply, t.answers)
  {
    assert (ts + [t])[..|ts|] == ts;
  }

  /** Read from the front, the rounds are the first turn's messages followed
      by the rest. */
  lemma {:induction false} FlattenCons(style: Style, ts: seq<Turn>)
    requires ts != []
    ensures Flatten(style, ts) == Round(style, ts[0].reply, ts[0].answers) + Flatten(style, ts[1..])
    decreases |ts|
  {
    if |ts| > 1 {
      var init := ts[..|ts| - 1];
      FlattenCons(style, init);
      assert init[1..] == ts[1..][..|ts| - 2];
      assert init[0] == ts[0];
    } else {
      assert ts[1..] == [];
    }
  }

  /** A loop that appended round `t` to `messages`, giving `grown`, and
      then the rounds `rest`, has appended the rounds `[t] + rest`. */
  lemma FlattenFront(messages: seq<Message>, t: Turn, rest: seq<Turn>, grown: seq<Message>)
    requires grown == messages + Round(PerCall, t.reply, t.answers)
    ensures grown + Flatten(PerCall, rest) == messages + Flatten(PerCall, [t] + rest)
  {
    RoundInFront(t, rest);
    ConcatAssoc(messages, Round(PerCall, t.reply, t.answers), Flatten(PerCall, rest));
  }

  lemma RoundInFront(t: Turn, rest: seq<Turn>)
    ensures Flatten(PerCall, [t] + rest) == Round(PerCall, t.reply, t.answers) + Flatten(PerCall, rest)
  {
    FlattenCons(PerCall, [t] + rest);
    assert ([t] + rest)[1..] == rest;
  }

  /** Concatenation regroups freely. A proof-cost helper only: it states
      nothing about the agent and is kept apart so that the solver proves
      it away from the definitions of the rounds. */
  lemma ConcatAssoc(a: seq<Message>, b: seq<Message>, c: seq<Message>)
    ensures a + b + c == a + (b + c)
  {
  }

  /** A conversation that holds its opening and every round so far grows by
      the next round into one that holds that round too. */
  lemma HistorySnoc(style: Style, h0: seq<Message>, ts: seq<Turn>, t: Turn)
    ensures h0 + Flatten(style, ts) + Round(style, t.reply, t.answers) == h0 + Flatten(style, ts + [t])
  {
    FlattenSnoc(style, ts, t);
  }

  function RoundLength(style: Style, reply: Reply): nat
  {
    if style == PerCall then |reply.calls| + 1 else 2
  }

  lemma RoundShape(style: Style, t: Turn)
    requires Answered(t)
    ensures |Round(style, t.reply, t.answers)| == RoundLength(style, t.reply)
    ensures Round(style, t.reply, t.answers)[0] == AssistantMsg(t.reply)
  {
  }

  /** The first turn's messages open the rounds, and the rest follow. */
  lemma FlattenHead(style: Style, ts: seq<Turn>)
    requires ts != [] && Answered(ts[0])
    ensures var h, n := Flatten(style, ts), RoundLength(style, ts[0].reply);
      n <= |h| && h[0] == AssistantMsg(ts[0].reply)
      && h[..n] == Round(style, ts[0].reply, ts[0].answers) && h[n..] == Flatten(style, ts[1..])
  {
    FlattenCons(style, ts);
    RoundShape(style, ts[0]);
  }

  /** The history a loop appends determines its rounds: two runs of answered
      rounds that append the same messages are the same rounds. */
  lemma {:induction false} FlattenInjective(style: Style, ts: seq<Turn>, us: seq<Turn>)
    requires AllAnswered(ts) && AllAnswered(us)
    requires Flatten(style, ts) == Flatten(style, us)
    ensures ts == us
    decreases |ts|
  {
    if ts != [] && us != [] {
      HeadsAgree(style, ts, us);
      AnsweredTail(ts);
      AnsweredTail(us);
      FlattenInjective(style, ts[1..], us[1..]);
      SameHeadSameTail(ts, us);
    } else if ts != [] {
      FlattenNonEmpty(style, ts);
    } else if us != [] {
      FlattenNonEmpty(style, us);
    }
  }

  lemma AnsweredTail(ts: seq<Turn>)
    requires ts != [] && AllAnswered(ts)
    ensures AllAnswered(ts[1..])
  {
    assert forall i :: 0 <= i < |ts| - 1 ==> ts[1..][i] == ts[i + 1];
  }

  /** Answered rounds always append something. */
  lemma FlattenNonEmpty(style: Style, ts: seq<Turn>)
    requires ts != [] && Answered(ts[0])
    ensures Flatten(style, ts) != []
  {
    FlattenHead(style, ts);
  }

  lemma SameHeadSameTail(ts: seq<Turn>, us: seq<Turn>)
    requires ts != [] && us != [] && ts[0] == us[0] && ts[1..] == us[1..]
    ensures ts == us
  {
    assert ts == [ts[0]] + ts[1..];
    assert us == [us[0]] + us[1..];
  }

  /** Equal histories of answered rounds start with the same round. */
  lemma HeadsAgree(style: Style, ts: seq<Turn>, us: seq<Turn>)
    requires ts != [] && us != [] && Answered(ts[0]) && Answered(us[0])
    requires Flatten(style, ts) == Flatten(style, us)
    ensures ts[0] == us[0] && Flatten(style, ts[1..]) == Flatten(style, us[1..])
  {
    FlattenHead(style, ts);
    FlattenHead(style, us);
    assert ts[0].reply == us[0].reply;
    SameRoundSameAnswers(style, ts[0], us[0]);
  }

  lemma SameRoundSameAnswers(style: Style, t: Turn, u: Turn)
    requires Answered(t) && Answered(u) && t.reply == u.reply
    requires Round(style, t.reply, t.answers) == Round(style, u.reply, u.answers)
    ensures t == u
  {
    if style == PerCall {
      var r := Round(style, t.reply, t.answers);
      forall k | 0 <= k < |t.answers| ensures t.answers[k] == u.answers[k] {
        assert r[k + 1] == ToolMsg(t.answers[k]) && r[k + 1] == ToolMsg(u.answers[k]);
      }
    }
  }

  /** `ext` is a per-call round cut short: the reply asks for tools and
      fewer answers than calls follow it, each for the call in its place. */
  predicate Unfinished(ext: seq<Message>, t: Turn)
  {
    t.reply.wantsTools && |t.answers| < |t.reply.calls|
    && Answers(t.reply.calls[..|t.answers|], t.answers)
    && ext == Round(PerCall, t.reply, t.answers)
  }

  /** A reply asking for tools or a tool answer: what a tool round adds. */
  predicate ModelTraffic(m: Message)
  {
    (m.AssistantMsg? && m.reply.wantsTools) || m.ToolMsg? || m.ResultsMsg?
  }

  /** Every message of `ms` is tool-round traffic. */
  predicate AllTraffic(ms: seq<Message>)
  {
    forall k :: 0 <= k < |ms| ==> ModelTraffic(ms[k])
  }

  /** Rounds add no user or system message. */
  lemma {:induction false} FlattenOnlyModelTraffic(style: Style, ts: seq<Turn>)
    requires AllAnswered(ts)
    ensures forall k :: 0 <= k < |Flatten(style, ts)| ==> ModelTraffic(Flatten(style, ts)[k])
    decreases |ts|
  {
    if ts != [] {
      var last := ts[|ts| - 1];
      FlattenOnlyModelTraffic(style, ts[..|ts| - 1]);
      assert Answered(last);
      TrafficAppend(Flatten(style, ts[..|ts| - 1]), Round(style, last.reply, last.answers));
    }
  }

  lemma TrafficAppend(a: seq<Message>, r: seq<Message>)
    requires AllTraffic(a) && r != [] && ModelTraffic(r[0]) && forall k :: 1 <= k < |r| ==> r[k].ToolMsg? || r[k].ResultsMsg?
    ensures AllTraffic(a + r)
  {
    forall k | 0 <= k < |a + r| ensures ModelTraffic((a + r)[k]) {
      if k < |a| {
        assert (a + r)[k] == a[k];
      } else {
        assert (a + r)[k] == r[k - |a|];
      }
    }
  }

  /** One more answer, for the next call, extends the calls answered. */
  lemma AnswerNext(calls: seq<ToolCall>, answers: seq<Answer>, a: Answer)
    requires |answers| < |calls| && Answers(calls[..|answers|], answers)
    requires a.callId == calls[|answers|].id
    ensures Answers(calls[..|answers| + 1], answers + [a])
  {
    assert calls[..|answers| + 1] == calls[..|answers|] + [calls[|answers|]];
  }

  /** Appending one more answer as a tool message extends the tool messages. */
  lemma ToolMsgsSnoc(h0: seq<Message>, answers: seq<Answer>, a: Answer, h1: seq<Message>)
    requires h1 == h0 + ToolMsgs(answers)
    ensures h1 + [ToolMsg(a)] == h0 + ToolMsgs(answers + [a])
  {
    assert ToolMsgs(answers + [a]) == ToolMsgs(answers) + [ToolMsg(a)];
  }

  /** One more answer, for the next call, appended as a tool message. */
  lemma AppendAnswer(h0: seq<Message>, calls: seq<ToolCall>, answers: seq<Answer>, a: Answer, h1: seq<Message>, cap: nat)
    requires |answers| < |calls| && Answers(calls[..|answers|], answers) && Bounded(answers, cap)
    requires a.callId == calls[|answers|].id && |a.content| <= cap
    requires h1 == h0 + ToolMsgs(answers)
    ensures Answers(calls[..|answers| + 1], answers + [a]) && Bounded(answers + [a], cap)
    ensures h1 + [ToolMsg(a)] == h0 + ToolMsgs(answers + [a])
  {
    assert ToolMsgs(answers + [a]) == ToolMsgs(answers) + [ToolMsg(a)];
    assert calls[..|answers| + 1] == calls[..|answers|] + [calls[|answers|]];
  }

  /** The answers a per-call loop gives to `calls` whose tools printed
      `outputs`: each output cut to `cap` characters and tagged with the id
      of the call in its place. */
  function Tagged(calls: seq<ToolCall>, outputs: seq<string>, cap: nat): (answers: seq<Answer>)
    requires |outputs| <= |calls|
    ensures |answers| == |outputs| && Bounded(answers, cap)
    ensures forall k :: 0 <= k < |outputs| ==> answers[k] == Answer(calls[k].id, Take(outputs[k], cap))
    ensures Answers(calls[..|outputs|], answers)
  {
    seq(|outputs|, k requires 0 <= k < |outputs| => Answer(calls[k].id, Take(outputs[k], cap)))
  }

  /** The answers when the outputs are passed on whole. */
  function Whole(calls: seq<ToolCall>, outputs: seq<string>): (answers: seq<Answer>)
    requires |outputs| <= |calls|
    ensures |answers| == |outputs|
    ensures forall k :: 0 <= k < |outputs| ==> answers[k] == Answer(calls[k].id, outputs[k])
    ensures Answers(calls[..|outputs|], answers)
  {
    seq(|outputs|, k requires 0 <= k < |outputs| => Answer(calls[k].id, outputs[k]))
  }

  /** One more output gives one more answer, for the next call. */
  lemma TaggedSnoc(calls: seq<ToolCall>, outputs: seq<string>, x: string, cap: nat)
    requires |outputs| < |calls|
    ensures Tagged(calls, outputs + [x], cap) == Tagged(calls, outputs, cap) + [Answer(calls[|outputs|].id, Take(x, cap))]
  {
  }

  lemma WholeSnoc(calls: seq<ToolCall>, outputs: seq<string>, x: string)
    requires |outputs| < |calls|
    ensures Whole(calls, outputs + [x]) == Whole(calls, outputs) + [Answer(calls[|outputs|].id, x)]
  {
  }

  /** Every call answered once its outputs are all there. */
  lemma AllCallsAnswered(calls: seq<ToolCall>, answers: seq<Answer>)
    requires |answers| == |calls| && Answers(calls[..|answers|], answers)
    ensures Answers(calls, answers)
  {
    assert calls[..|answers|] == calls;
  }

  /** The tool calls of one reply, run in order: the state before each call
      and after the last call that returned, the text each call that
      returned gave back, and the exception of the call that raised, which
      ends the run. */
  datatype Trace<S, E> = Trace(states: seq<S>, outputs: seq<string>, raised: Option<E>)
  {
    /** A run of `n` calls: all of them returned, or the one after the last
        output raised. */
    predicate Covers(n: nat)
    {
      |states| == |outputs| + 1 && |outputs| <= n && (raised.None? <==> |outputs| == n)
    }

    /** The state the run left. */
    function Final(): S
      requires |states| > 0
    {
      states[|states| - 1]
    }
  }

  /** What one tool call does to a state: the text it gives back and the
      state after it, or the exception it raises. */
  type ToolStep<!S, E> = (S, ToolCall) -> Result<(string, S), E>

  /** A reply's `for` loop over its tool calls, as a function: each call
      runs on the state the calls before it left, and the first exception
      ends the run. */
  function RunAll<S, E>(step: ToolStep<S, E>, s: S, calls: seq<ToolCall>): (tr: Trace<S, E>)
    ensures tr.Covers(|calls|) && tr.states[0] == s
    decreases |calls|
  {
    if calls == [] then Trace([s], [], None)
    else
      match step(s, calls[0])
      case Err(e) => Trace([s], [], Some(e))
      case Ok(o) =>
        var rest := RunAll(step, o.1, calls[1..]);
        Trace([s] + rest.states, [o.0] + rest.outputs, rest.raised)
  }

  /** A single call that returns: the run is that one step. */
  lemma RunOne<S, E>(step: ToolStep<S, E>, s: S, c: ToolCall, out: string, s': S)
    requires step(s, c) == Ok((out, s'))
    ensures RunAll(step, s, [c]) == Trace([s, s'], [out], None)
  {
    assert [c][1..] == [];
  }

  /** `tr` is a run of `calls` taken one call at a time: each call ran on the
      state the one before it left, each call that returned gave back what
      `step` gives, and the call that raised raised what `step` raises. */
  ghost predicate Traced<S, E>(step: ToolStep<S, E>, calls: seq<ToolCall>, tr: Trace<S, E>)
  {
    tr.Covers(|calls|) &&
    forall k {:trigger step(tr.states[k], calls[k])} :: 0 <= k < |tr.states| && k < |calls| ==>
      step(tr.states[k], calls[k]) ==
        if k < |tr.outputs| then Ok((tr.outputs[k], tr.states[k + 1])) else Err(tr.raised.value)
  }

  /** The calls before `calls[j]` have returned. */
  ghost predicate TracedSoFar<S, E>(step: ToolStep<S, E>, calls: seq<ToolCall>, j: nat, tr: Trace<S, E>)
  {
    j <= |calls| && tr.raised.None? && Traced(step, calls[..j], tr)
  }

  /** Call `j` returned `o`: the run so far has one more step. */
  lemma TraceNext<S, E>(step: ToolStep<S, E>, calls: seq<ToolCall>, j: nat, tr: Trace<S, E>, o: (string, S))
    requires j < |calls| && TracedSoFar(step, calls, j, tr)
    requires step(tr.states[j], calls[j]) == Ok(o)
    ensures TracedSoFar(step, calls, j + 1, Trace(tr.states + [o.1], tr.outputs + [o.0], tr.raised))
  {
    assert calls[..j + 1][..j] == calls[..j];
    forall k | 0 <= k < j
      ensures calls[..j + 1][k] == calls[..j][k]
    {
    }
  }

  /** Call `j` raised `e`: the run ends there. */
  lemma TraceStop<S, E>(step: ToolStep<S, E>, calls: seq<ToolCall>, j: nat, tr: Trace<S, E>, e: E)
    requires j < |calls| && TracedSoFar(step, calls, j, tr)
    requires step(tr.states[j], calls[j]) == Err(e)
    ensures Traced(step, calls, Trace(tr.states, tr.outputs, Some(e)))
  {
    forall k | 0 <= k < j
      ensures calls[..j][k] == calls[k]
    {
    }
  }

  /** Every call returned: the run is complete. */
  lemma TraceEnd<S, E>(step: ToolStep<S, E>, calls: seq<ToolCall>, tr: Trace<S, E>)
    requires TracedSoFar(step, calls, |calls|, tr)
    ensures Traced(step, calls, tr)
  {
    assert calls[..|calls|] == calls;
  }

  /** The run `RunAll` computes is a run taken one call at a time. */
  lemma {:induction false} RunAllTraced<S, E>(step: ToolStep<S, E>, s: S, calls: seq<ToolCall>)
    ensures Traced(step, calls, RunAll(step, s, calls))
    decreases |calls|
  {
    if calls != [] && step(s, calls[0]).Ok? {
      var o := step(s, calls[0]).value;
      var rest := RunAll(step, o.1, calls[1..]);
      RunAllTraced(step, o.1, calls[1..]);
      var tr := RunAll(step, s, calls);
      forall k | 0 < k < |tr.states| && k < |calls|
        ensures step(tr.states[k], calls[k]) ==
          if k < |tr.outputs| then Ok((tr.outputs[k], tr.states[k + 1])) else Err(tr.raised.value)
      {
        assert tr.states[k] == rest.states[k - 1] && calls[k] == calls[1..][k - 1];
      }
    }
  }

  /** A run taken one call at a time is the only one: it is the run
      `RunAll` computes from its first state. */
  lemma {:induction false} TracedIsUnique<S, E>(step: ToolStep<S, E>, calls: seq<ToolCall>, tr: Trace<S, E>)
    requires Traced(step, calls, tr)
    ensures tr == RunAll(step, tr.states[0], calls)
    decreases |calls|
  {
    if calls != [] && |tr.outputs| > 0 {
      var rest := Trace(tr.states[1..], tr.outputs[1..], tr.raised);
      forall k | 0 <= k < |rest.states| && k < |calls[1..]|
        ensures step(rest.states[k], calls[1..][k]) ==
          if k < |rest.outputs| then Ok((rest.outputs[k], rest.states[k + 1])) else Err(rest.raised.value)
      {
        assert step(tr.states[k + 1], calls[k + 1]) ==
          if k + 1 < |tr.outputs| then Ok((tr.outputs[k + 1], tr.states[k + 2])) else Err(tr.raised.value);
      }
      TracedIsUnique(step, calls[1..], rest);
      assert step(tr.states[0], calls[0]) == Ok((tr.outputs[0], tr.states[1]));
      assert tr.states == [tr.states[0]] + rest.states && tr.outputs == [tr.outputs[0]] + rest.outputs;
    } else if calls != [] {
      assert step(tr.states[0], calls[0]) == Err(tr.raised.value);
    }
  }

  /** A run taken one call at a time is the run `RunAll` computes, and the
      other way round. */
  lemma TracedIsRunAll<S, E>(step: ToolStep<S, E>, calls: seq<ToolCall>, tr: Trace<S, E>)
    requires |tr.states| > 0
    ensures Traced(step, calls, tr) <==> tr == RunAll(step, tr.states[0], calls)
  {
    if Traced(step, calls, tr) {
      TracedIsUnique(step, calls, tr);
    }
    if tr == RunAll(step, tr.states[0], calls) {
      RunAllTraced(step, tr.states[0], calls);
    }
  }

  /** A property of the state that each of the calls keeps holds at every
      state of a run of them. */
  lemma TracedKeeps<S, E>(step: ToolStep<S, E>, calls: seq<ToolCall>, tr: Trace<S, E>, inv: S -> bool)
    requires Traced(step, calls, tr) && inv(tr.states[0])
    requires forall s, k :: 0 <= k < |calls| && inv(s) && step(s, calls[k]).Ok? ==> inv(step(s, calls[k]).value.1)
    ensures forall k :: 0 <= k < |tr.states| ==> inv(tr.states[k])
  {
    var k := 0;
    while k < |tr.outputs|
      invariant k <= |tr.outputs| && forall i :: 0 <= i <= k ==> inv(tr.states[i])
    {
      assert step(tr.states[k], calls[k]) == Ok((tr.outputs[k], tr.states[k + 1]));
      k := k + 1;
    }
  }

  /** Every round's reply is the model's reply to the history as it stood
      before that round: the history the loop started from and the rounds
      before it. Defined from the last round back; `AskedAt` states it
      round by round. */
  predicate Asked(model: Model, tools: seq<string>, style: Style, h0: seq<Message>, ts: seq<Turn>)
    decreases |ts|
  {
    ts == [] ||
    (Asked(model, tools, style, h0, ts[..|ts| - 1]) &&
     model(tools, h0 + Flatten(style, ts[..|ts| - 1])) == Some(ts[|ts| - 1].reply))
  }

  /** Round by round: the model gave round `i`'s reply to the history
      after the rounds before it... */
  lemma {:induction false} AskedAt(model: Model, tools: seq<string>, style: Style, h0: seq<Message>, ts: seq<Turn>,
                                   i: nat)
    requires Asked(model, tools, style, h0, ts) && i < |ts|
    ensures model(tools, h0 + Flatten(style, ts[..i])) == Some(ts[i].reply)
    decreases |ts|
  {
    if i < |ts| - 1 {
      AskedAt(model, tools, style, h0, ts[..|ts| - 1], i);
      AskedBefore(model, tools, style, h0, ts, i);
    }
  }

  /** What `AskedAt` knows of round `i` from the rounds before the last. */
  lemma AskedBefore(model: Model, tools: seq<string>, style: Style, h0: seq<Message>, ts: seq<Turn>, i: nat)
    requires i < |ts| - 1
    requires model(tools, h0 + Flatten(style, ts[..|ts| - 1][..i])) == Some(ts[..|ts| - 1][i].reply)
    ensures model(tools, h0 + Flatten(style, ts[..i])) == Some(ts[i].reply)
  {
    assert ts[..|ts| - 1][..i] == ts[..i];
  }

  /** ... and rounds the model gave that way are rounds asked. */
  lemma {:induction false} AskedOfEach(model: Model, tools: seq<string>, style: Style, h0: seq<Message>,
                                       ts: seq<Turn>)
    requires forall i :: 0 <= i < |ts| ==> model(tools, h0 + Flatten(style, ts[..i])) == Some(ts[i].reply)
    ensures Asked(model, tools, style, h0, ts)
    decreases |ts|
  {
    if ts != [] {
      var n := |ts| - 1;
      forall i | 0 <= i < n
        ensures model(tools, h0 + Flatten(style, ts[..n][..i])) == Some(ts[..n][i].reply)
      {
        assert ts[..n][..i] == ts[..i];
      }
      AskedOfEach(model, tools, style, h0, ts[..n]);
    }
  }

  /** A round whose reply the model gave to the history after the rounds
      before it extends the rounds asked. */
  lemma AskedSnoc(model: Model, tools: seq<string>, style: Style, h0: seq<Message>, ts: seq<Turn>, t: Turn)
    requires Asked(model, tools, style, h0, ts)
    requires model(tools, h0 + Flatten(style, ts)) == Some(t.reply)
    ensures Asked(model, tools, style, h0, ts + [t])
  {
    assert (ts + [t])[..|ts|] == ts;
  }

  /** Read from the front: a round the model gave to `h0`, and then rounds
      it gave to the history that round left, are rounds it gave to `h0`. */
  lemma {:induction false} AskedCons(model: Model, tools: seq<string>, h0: seq<Message>, t: Turn, rest: seq<Turn>)
    requires model(tools, h0) == Some(t.reply)
    requires Asked(model, tools, PerCall, h0 + Round(PerCall, t.reply, t.answers), rest)
    ensures Asked(model, tools, PerCall, h0, [t] + rest)
    decreases |rest|
  {
    var ts := [t] + rest;
    if rest == [] {
      assert ts[..0] == [];
      assert h0 + Flatten(PerCall, []) == h0;
    } else {
      var n := |rest| - 1;
      AskedCons(model, tools, h0, t, rest[..n]);
      assert ts[..|ts| - 1] == [t] + rest[..n];
      RoundInFront(t, rest[..n]);
      ConcatAssoc(h0, Round(PerCall, t.reply, t.answers), Flatten(PerCall, rest[..n]));
    }
  }

  /** The same, read from the front and with the reply that ended the loop:
      the first reply is the model's reply to `h`, the rest are replies to
      the history its round left, and `final` is the reply to the history
      after the last round. */
  ghost predicate Replied(model: Model, tools: seq<string>, h: seq<Message>, ts: seq<Turn>, final: Reply)
    decreases |ts|
  {
    if ts == [] then model(tools, h) == Some(final)
    else
      && model(tools, h) == Some(ts[0].reply)
      && Replied(model, tools, h + Round(PerCall, ts[0].reply, ts[0].answers), ts[1..], final)
  }

  /** The turns from `n` on are turn `n` and the turns after it. */
  lemma DropCons(ts: seq<Turn>, n: nat)
    requires n < |ts|
    ensures ts[n..] == [ts[n]] + ts[n + 1..]
  {
  }

  /** Replies read from the front are replies read from the back, and the
      final reply answers the history with every round appended. */
  lemma {:induction false} RepliedAsked(model: Model, tools: seq<string>, h: seq<Message>, ts: seq<Turn>,
                                        final: Reply)
    requires Replied(model, tools, h, ts, final)
    ensures Asked(model, tools, PerCall, h, ts)
    ensures model(tools, h + Flatten(PerCall, ts)) == Some(final)
    decreases |ts|
  {
    if ts == [] {
      assert h + Flatten(PerCall, ts) == h;
    } else {
      var h' := h + Round(PerCall, ts[0].reply, ts[0].answers);
      RepliedAsked(model, tools, h', ts[1..], final);
      AskedCons(model, tools, h, ts[0], ts[1..]);
      FlattenFront(h, ts[0], ts[1..], h');
      assert [ts[0]] + ts[1..] == ts;
    }
  }

  /** Every per-call tool answer in `ext` is at most `cap` characters long. */
  predicate Capped(ext: seq<Message>, cap: nat)
  {
    forall k :: 0 <= k < |ext| && ext[k].ToolMsg? ==> |ext[k].answer.content| <= cap
  }

  /** Every answer's text is at most `cap` characters long. */
  predicate Bounded(answers: seq<Answer>, cap: nat)
  {
    forall k :: 0 <= k < |answers| ==> |answers[k].content| <= cap
  }

  /** A per-call round whose answers are bounded is capped. */
  lemma CappedRound(reply: Reply, answers: seq<Answer>, cap: nat)
    requires Bounded(answers, cap)
    ensures Capped(Round(PerCall, reply, answers), cap)
  {
    var m := Round(PerCall, reply, answers);
    forall k | 0 <= k < |m| && m[k].ToolMsg? ensures |m[k].answer.content| <= cap {
      assert m[k] == ToolMsg(answers[k - 1]);
    }
  }

  lemma CappedConcat(a: seq<Message>, b: seq<Message>, cap: nat)
    requires Capped(a, cap) && Capped(b, cap)
    ensures Capped(a + b, cap)
  {
    forall k | 0 <= k < |a + b| && (a + b)[k].ToolMsg? ensures |(a + b)[k].answer.content| <= cap {
      if k < |a| {
        assert (a + b)[k] == a[k];
      } else {
        assert (a + b)[k] == b[k - |a|];
      }
    }
  }

  /** Every answer of every round is at most `cap` characters long. */
  predicate AllBounded(ts: seq<Turn>, cap: nat)
  {
    forall i :: 0 <= i < |ts| ==> Bounded(ts[i].answers, cap)
  }

  /** A loop that has appended the rounds `ts` to `h0`, and then appends
      one more answered and bounded round, has appended `ts + [t]`. */
  lemma AppendRound(h0: seq<Message>, ts: seq<Turn>, t: Turn, h1: seq<Message>, cap: nat)
    requires AllAnswered(ts) && AllBounded(ts, cap) && Answered(t) && Bounded(t.answers, cap)
    requires h1 == h0 + Flatten(PerCall, ts) + Round(PerCall, t.reply, t.answers)
    ensures h1 == h0 + Flatten(PerCall, ts + [t])
    ensures AllAnswered(ts + [t]) && AllBounded(ts + [t], cap)
  {
    HistorySnoc(PerCall, h0, ts, t);
    AnsweredBoundedSnoc(ts, t, cap);
  }

  /** Adding an answered round with bounded answers keeps both properties. */
  lemma AnsweredBoundedSnoc(ts: seq<Turn>, t: Turn, cap: nat)
    requires AllAnswered(ts) && AllBounded(ts, cap) && Answered(t) && Bounded(t.answers, cap)
    ensures AllAnswered(ts + [t]) && AllBounded(ts + [t], cap)
  {
    forall i | 0 <= i < |ts + [t]| ensures Answered((ts + [t])[i]) && Bounded((ts + [t])[i].answers, cap) {
      if i < |ts| {
        assert (ts + [t])[i] == ts[i];
      }
    }
  }

  /** Per-call rounds whose answers are bounded append only capped tool
      messages. */
  lemma {:induction false} FlattenCapped(ts: seq<Turn>, cap: nat)
    requires AllBounded(ts, cap)
    ensures Capped(Flatten(PerCall, ts), cap)
    decreases |ts|
  {
    if ts != [] {
      var last := ts[|ts| - 1];
      FlattenCapped(ts[..|ts| - 1], cap);
      CappedRound(last.reply, last.answers, cap);
      CappedConcat(Flatten(PerCall, ts[..|ts| - 1]), Round(PerCall, last.reply, last.answers), cap);
    }
  }

  /** A loop that has appended the batched rounds `ts` to `h0`, and then
      appends one more answered round, has appended `ts + [t]`. */
  lemma AppendBatched(h0: seq<Message>, ts: seq<Turn>, t: Turn, h1: seq<Message>)
    requires AllAnswered(ts) && Answered(t)
    requires h1 == h0 + Flatten(Batched, ts) + Round(Batched, t.reply, t.answers)
    ensures h1 == h0 + Flatten(Batched, ts + [t])
    ensures AllAnswered(ts + [t])
  {
    HistorySnoc(Batched, h0, ts, t);
    AnsweredSnoc(ts, t);
  }

  lemma AnsweredSnoc(ts: seq<Turn>, t: Turn)
    requires AllAnswered(ts) && Answered(t)
    ensures AllAnswered(ts + [t])
  {
    forall i | 0 <= i < |ts + [t]| ensures Answered((ts + [t])[i]) {
      if i < |ts| {
        assert (ts + [t])[i] == ts[i];
      }
    }
  }

  /** The REPL's exit test on the stripped input line. */
  predicate IsQuit(input: string)
  {
    input == "" || Lower(input) in ["exit", "quit", "q"]
  }
}
