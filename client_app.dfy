/** The browser application's session screen: the log pane fed by the
    socket, the input box and its send guard, and `formatLog`, which removes
    ANSI colour codes from log lines before they are shown. */
module ClientApp {
  import opened Wrappers
  import opened Text
  import opened Backend

  // ---------------------------------------------------------------------
  // formatLog
  // ---------------------------------------------------------------------

  /** A character of the `[0-9;]` class. */
  predicate IsCodeChar(c: char)
  {
    ('0' <= c <= '9') || c == ';'
  }

  /** The length of the run of code characters starting at `i`. */
  function CodeRun(s: string, i: nat): (n: nat)
    requires i <= |s|
    ensures i + n <= |s|
    ensures forall k :: i <= k < i + n ==> IsCodeChar(s[k])
    ensures i + n == |s| || !IsCodeChar(s[i + n])
    decreases |s| - i
  {
    if i < |s| && IsCodeChar(s[i]) then 1 + CodeRun(s, i + 1) else 0
  }

  /** Where a match of `\x1b\[[0-9;]*m` starting at `i` ends, if one does.
      `[0-9;]*` cannot give back an 'm', so the greedy run decides. */
  function MatchAt(s: string, i: nat): (r: Option<nat>)
    requires i <= |s|
    ensures r.Some? ==> i + 3 <= r.value <= |s|
  {
    if i + 1 < |s| && s[i] == Esc && s[i + 1] == '[' then
      var j := i + 2 + CodeRun(s, i + 2);
      if j < |s| && s[j] == 'm' then Some(j + 1) else None
    else None
  }

  /** The global replace from position `i` on: a match is dropped and the
      scan resumes after it; otherwise one character is kept. */
  function StripFrom(s: string, i: nat): (r: string)
    requires i <= |s|
    ensures |r| <= |s| - i
    decreases |s| - i
  {
    if i == |s| then ""
    else match MatchAt(s, i)
      case Some(j) => StripFrom(s, j)
      case None => [s[i]] + StripFrom(s, i + 1)
  }

  /** `formatLog(text)`. */
  function FormatLog(text: string): string
  {
    StripFrom(text, 0)
  }

  /** Text without an escape character is kept as it is. */
  lemma {:induction false} PlainKept(s: string, i: nat, k: nat)
    requires i <= k <= |s| && Esc !in s[i..k]
    ensures StripFrom(s, i) == s[i..k] + StripFrom(s, k)
    decreases k - i
  {
    if i < k {
      assert s[i] == s[i..k][0];
      assert MatchAt(s, i).None?;
      PlainKept(s, i + 1, k);
      assert s[i..k] == [s[i]] + s[i + 1..k];
    }
  }

  lemma FormatLogWithoutEscape(text: string)
    requires Esc !in text
    ensures FormatLog(text) == text
  {
    assert text[0..|text|] == text;
    PlainKept(text, 0, |text|);
  }

  /** A colour code: escape, '[', code characters, 'm'. */
  predicate IsColorCode(code: string)
  {
    |code| >= 3 && code[0] == Esc && code[1] == '[' && code[|code| - 1] == 'm'
    && forall k :: 2 <= k < |code| - 1 ==> IsCodeChar(code[k])
  }

  /** A colour code at `i` is dropped whole. */
  lemma CodeDropped(s: string, i: nat, code: string)
    requires i + |code| <= |s| && s[i..i + |code|] == code && IsColorCode(code)
    ensures StripFrom(s, i) == StripFrom(s, i + |code|)
  {
    assert s[i] == code[0] && s[i + 1] == code[1];
    forall k | i + 2 <= k < i + |code| - 1
      ensures IsCodeChar(s[k])
    {
      assert s[k] == code[k - i];
    }
    assert s[i + |code| - 1] == code[|code| - 1];
    var n := CodeRun(s, i + 2);
    assert i + 2 + n == i + |code| - 1;
  }

  /** A log line the backend sends, in any of its colours, shows as exactly
      the text it logged: the colour in front and the reset behind are both
      removed. */
  lemma ShowsLoggedText(color: string, content: string)
    requires color == Red || color == Green || color == Yellow || color == White
    requires Esc !in content
    ensures FormatLog(LogText(color, content)) == content
  {
    assert IsColorCode(color);
    var s := LogText(color, content);
    var a := |color|;
    var b := a + |content|;
    assert s[0..a] == color;
    CodeDropped(s, 0, color);
    assert s[a..b] == content;
    PlainKept(s, a, b);
    assert IsColorCode(Reset);
    assert s[b..] == Reset;
    CodeDropped(s, b, Reset);
    assert b + |Reset| == |s|;
  }

  /** One pass is not enough for nested codes: removing the inner code of
      "\x1b[\x1b[mm" leaves the code "\x1b[m" behind. */
  lemma OnePassOnly()
    ensures FormatLog([Esc, '[', Esc, '[', 'm', 'm']) == [Esc, '[', 'm']
    ensures IsColorCode(FormatLog([Esc, '[', Esc, '[', 'm', 'm']))
  {
    var s := [Esc, '[', Esc, '[', 'm', 'm'];
    assert CodeRun(s, 2) == 0;
    assert MatchAt(s, 0).None?;
    assert MatchAt(s, 1).None?;
    assert CodeRun(s, 4) == 0;
    assert MatchAt(s, 2) == Some(5);
    assert MatchAt(s, 5).None?;
    assert StripFrom(s, 5) == ['m'];
    assert StripFrom(s, 2) == ['m'];
    assert StripFrom(s, 0) == [Esc, '['] + StripFrom(s, 2);
  }

  // ---------------------------------------------------------------------
  // The session screen
  // ---------------------------------------------------------------------

  datatype LogKind = LogLine | UserLine

  /** An entry of `logs`. */
  datatype Line = Line(kind: LogKind, content: string)

  /** A message the socket delivers, after `JSON.parse`: its `type` and
      its `content`. */
  datatype Inbound = Inbound(kind: string, content: string)

  datatype Screen = UploadScreen | ChatScreen

  class App {
    var sessionId: Option<string>
    var hasSocket: bool
    var logs: seq<Line>
    var input: string
    var processing: bool
    /** What `socket.send` has sent, in order. */
    var outbox: seq<string>

    /** The initial state: no session, no socket, nothing logged. */
    constructor ()
      ensures sessionId.None? && !hasSocket && logs == [] && input == "" && !processing && outbox == []
    {
      sessionId := None;
      hasSocket := false;
      logs := [];
      input := "";
      processing := false;
      outbox := [];
    }

    /** `if (!sessionId)`: the upload screen shows while there is no session
        id, and also for the empty id, which is falsy. */
    function View(): (v: Screen)
      reads this
      ensures v == UploadScreen <==> sessionId.None? || sessionId.value == ""
    {
      if sessionId.None? || sessionId.value == "" then UploadScreen else ChatScreen
    }

    /** The upload answered: the session id is stored and the socket opened. */
    method Connected(sid: string)
      modifies this
      ensures sessionId == Some(sid) && hasSocket
      ensures logs == old(logs) && input == old(input) && processing == old(processing) && outbox == old(outbox)
    {
      sessionId := Some(sid);
      hasSocket := true;
    }

    /** The input box's `onChange`. */
    method Type(text: string)
      modifies this
      ensures input == text
      ensures sessionId == old(sessionId) && hasSocket == old(hasSocket) && logs == old(logs)
      ensures processing == old(processing) && outbox == old(outbox)
    {
      input := text;
    }

    /** `handleSend`: nothing happens without a socket, with a blank input,
        or while the agent is working; otherwise the raw input is sent, the
        agent is marked busy, and the box is cleared. */
    method HandleSend()
      modifies this
      ensures sessionId == old(sessionId) && hasSocket == old(hasSocket) && logs == old(logs)
      ensures !old(hasSocket) || JsBlank(old(input)) || old(processing) ==>
        input == old(input) && processing == old(processing) && outbox == old(outbox)
      ensures old(hasSocket) && !JsBlank(old(input)) && !old(processing) ==>
        processing && outbox == old(outbox) + [old(input)] && input == ""
    {
      if !hasSocket || JsBlank(input) || processing {
        return;
      }
      processing := true;
      outbox := outbox + [input];
      input := "";
    }

    /** `ws.onmessage`: "log" and "user" messages are appended to the log
        with their kind; "status" with content "ready" ends the busy state;
        anything else changes nothing. */
    method OnMessage(m: Inbound)
      modifies this
      ensures sessionId == old(sessionId) && hasSocket == old(hasSocket)
      ensures input == old(input) && outbox == old(outbox)
      ensures m.kind == "log" ==> logs == old(logs) + [Line(LogLine, m.content)] && processing == old(processing)
      ensures m.kind == "user" ==> logs == old(logs) + [Line(UserLine, m.content)] && processing == old(processing)
      ensures m.kind == "status" && m.content == "ready" ==> logs == old(logs) && !processing
      ensures m.kind !in {"log", "user"} && !(m.kind == "status" && m.content == "ready") ==>
        logs == old(logs) && processing == old(processing)
    {
      if m.kind == "log" {
        logs := logs + [Line(LogLine, m.content)];
      } else if m.kind == "user" {
        logs := logs + [Line(UserLine, m.content)];
      } else if m.kind == "status" && m.content == "ready" {
        processing := false;
      }
    }
  }
}
