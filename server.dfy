/** The backend's web server: the table of open connections, the workspace
    read and write guards, the per-connection request loop, and the filter
    that decides what goes into a downloaded archive.

    Sockets are numbers. What the server sends is recorded, in order, as
    frames tagged with their socket; a socket in `closed` makes `send_json`
    raise `RuntimeError`. The workspace is the map of files shared with the
    agent. The directory listing behind `get_file_tree` is a parameter
    (`Lister`), as are the language model, the shell and the clock. */
module Server {
  import opened Wrappers
  import opened Text
  import opened Paths
  import opened Tools
  import opened Protocol
  import opened Dispatch
  import opened Backend
  import opened FileTree

  /** A JSON object sent to a socket (the `"type"` field names the
      constructor; a `CallFrame` is the log line "$ name: args" in yellow). */
  datatype Frame =
    | LogFrame(text: string)
    | CallFrame(name: string, args: Args)
    | UserFrame(content: string)
    | StatusFrame(content: string)
    | TreeFrame(tree: seq<TreeItem>)
    | ContentFrame(path: string, file: Option<string>)
    | FsUpdateFrame
    | CloseFrame(code: nat, reason: string)

  datatype Sent = Sent(socket: nat, frame: Frame)

  /** A received JSON object, with its string fields. */
  datatype Request = Request(fields: map<string, string>)

  /** How the file system lists a directory, given the files it holds. */
  type Lister = (Path, Files) -> seq<Node>

  /** The request types the endpoint answers. */
  const RequestTypes: set<string> := {"user_message", "get_file_tree", "read_file", "save_file"}

  const ReadRefusal := "Attempt to read file outside of workspace."
  const WriteRefusal := "Attempt to write file outside of workspace."

  // ---------------------------------------------------------------------
  // Reading and writing workspace files
  // ---------------------------------------------------------------------

  /** `read_file_content`: a request whose resolved path the string-prefix
      guard refuses raises; one naming no regular file gives `None`. */
  function ReadFileContent(dir: Path, files: Files, p: string): (r: Result<Option<string>, string>)
    requires ValidPath(dir)
    ensures r.Err? <==> !SegmentwisePrefix(Resolve(dir, p), dir)
    ensures r.Err? ==> r.error == ReadRefusal
    ensures r.Ok? ==> (r.value.Some? <==> Resolve(dir, p) in files)
    ensures r.Ok? && r.value.Some? ==> r.value.value == files[Resolve(dir, p)]
  {
    var full := Resolve(dir, p);
    StringGuardIff(full, dir);
    if !StringGuard(full, dir) then Err(ReadRefusal)
    else if full in files then Ok(Some(files[full]))
    else Ok(None)
  }

  /** The files after `write_file_content`, or the refusal it raises. */
  function WriteFile(dir: Path, files: Files, p: string, content: string): (r: Result<Files, string>)
    requires ValidPath(dir)
    ensures r.Err? <==> !SegmentwisePrefix(Resolve(dir, p), dir)
    ensures r.Err? ==> r.error == WriteRefusal
    ensures r.Ok? ==> r.value.Keys == files.Keys + {Resolve(dir, p)}
  {
    var full := Resolve(dir, p);
    StringGuardIff(full, dir);
    if !StringGuard(full, dir) then Err(WriteRefusal) else Ok(files[full := content])
  }

  /** A saved file reads back as what was saved, and every other file is
      untouched. */
  lemma ReadAfterSave(dir: Path, files: Files, p: string, content: string, q: string)
    requires ValidPath(dir) && WriteFile(dir, files, p, content).Ok?
    ensures ReadFileContent(dir, WriteFile(dir, files, p, content).value, p) == Ok(Some(content))
    ensures Resolve(dir, q) != Resolve(dir, p) ==>
      ReadFileContent(dir, WriteFile(dir, files, p, content).value, q) == ReadFileContent(dir, files, q)
  {
  }

  /** The guard lets a session write beside its own directory, into any
      directory whose name extends the session's (`s1` reaches `s10`). */
  lemma SaveReachesSibling(dir: Path, files: Files, m: string, content: string)
    requires ValidPath(dir) && dir != []
    requires ValidSegment(m) && dir[|dir| - 1] < m
    ensures WriteFile(dir, files, "../" + m, content).Ok?
    ensures WriteFile(dir, files, "../" + m, content).value == files[dir[..|dir| - 1] + [m] := content]
    ensures !(dir <= dir[..|dir| - 1] + [m])
  {
    StringGuardAdmitsSibling(dir, m);
    var path := dir[..|dir| - 1] + [m];
    SegmentwisePrefixCases(path, dir);
  }

  // ---------------------------------------------------------------------
  // Sessions
  // ---------------------------------------------------------------------

  /** `path.exists()`: a stored file, a directory holding one, or the base
      directory and the directories above it. */
  predicate Exists(base: Path, files: Files, p: Path)
  {
    p in files || IsDirectory(files, p) || p <= base
  }

  /** A session id is a single URL segment. Below the base, the endpoint's
      prefix check refuses exactly the id "..": every other id resolves to
      the base itself or a directory inside it. The refused id always
      exists, so it is the prefix check and not the existence check that
      closes the connection. */
  lemma InvalidSessionId(base: Path, files: Files, sid: string)
    requires ValidPath(base) && base != [] && '/' !in sid
    ensures StringGuard(Resolve(base, sid), base) <==> sid != ".."
    ensures sid == ".." ==> Exists(base, files, Resolve(base, sid))
  {
    SplitOnFree(sid, '/');
    assert !IsAbsolute(sid);
    var path := Resolve(base, sid);
    assert path == Normalize(base, [sid]);
    if sid == ".." {
      assert path == base[..|base| - 1];
    } else if sid == "" || sid == "." {
      assert path == base;
    } else {
      assert path == base + [sid];
      assert path[..|base|] == base;
    }
    StringGuardIff(path, base);
  }

  /** The text of `BASE_DIR / session_id`: the path joins the id as one
      more component, and a "." component adds nothing. */
  function SessionText(baseText: string, sid: string): string
  {
    if sid == "." then baseText else baseText + "/" + sid
  }

  /** The system prompt a connection's history starts with. */
  function Prompt(baseText: string, sid: string, now: string): string
  {
    "You are a coding agent working in " + SessionText(baseText, sid) + ". Help the user. Current time: " + now
  }

  /** The log frame the agent's callbacks send for one event. */
  function FrameOf(e: Event): Frame
  {
    match e
    case Log(color, content) => LogFrame(LogText(color, content))
    case CallLine(name, args) => CallFrame(name, args)
    case FsUpdate => FsUpdateFrame
  }

  /** The frames a live connection receives for the agent's events, in order. */
  function Frames(s: nat, evs: seq<Event>): (r: seq<Sent>)
    ensures |r| == |evs|
    ensures forall k :: 0 <= k < |evs| ==> r[k] == Sent(s, FrameOf(evs[k]))
  {
    if evs == [] then [] else Frames(s, evs[..|evs| - 1]) + [Sent(s, FrameOf(evs[|evs| - 1]))]
  }

  // ---------------------------------------------------------------------
  // The archive filter of zip_workspace
  // ---------------------------------------------------------------------

  /** An entry `rglob("*")` yields: its parts relative to the session
      directory, and whether it is a directory. */
  datatype Entry = Entry(parts: seq<string>, isDir: bool)

  function Rel(e: Entry): string
  {
    Join(e.parts, "/")
  }

  /** The entries `zip_workspace` skips. */
  predicate Excluded(e: Entry)
  {
    e.isDir
    || Rel(e) == "project.zip"
    || (exists k :: 0 <= k < |e.parts| && |e.parts[k]| > 0 && e.parts[k][0] == '.')
    || (|e.parts| > 0 && e.parts[|e.parts| - 1] == "venv")
    || Contains(Rel(e), "venv/")
    || "backend/" <= Rel(e)
  }

  /** The archive names of the packed entries, in walk order. */
  function Archive(walk: seq<Entry>): seq<string>
  {
    if walk == [] then []
    else
      var e := walk[|walk| - 1];
      Archive(walk[..|walk| - 1]) + (if Excluded(e) then [] else [Rel(e)])
  }

  /** `zip_workspace`'s loop: every entry not skipped is written under its
      relative path. */
  method ZipWorkspace(walk: seq<Entry>) returns (names: seq<string>)
    ensures names == Archive(walk)
  {
    names := [];
    for i := 0 to |walk|
      invariant names == Archive(walk[..i])
    {
      assert walk[..i + 1][..i] == walk[..i];
      var e := walk[i];
      if !Excluded(e) {
        names := names + [Rel(e)];
      }
    }
    assert walk[..|walk|] == walk;
  }

  /** A name is in the archive exactly when some entry not skipped has it. */
  lemma {:induction false} ArchiveMembers(walk: seq<Entry>, name: string)
    ensures name in Archive(walk) <==> exists k :: 0 <= k < |walk| && !Excluded(walk[k]) && Rel(walk[k]) == name
  {
    if walk != [] {
      var init := walk[..|walk| - 1];
      ArchiveMembers(init, name);
      if name in Archive(init) {
        var k :| 0 <= k < |init| && !Excluded(init[k]) && Rel(init[k]) == name;
        assert walk[k] == init[k];
      }
      if exists k :: 0 <= k < |walk| && !Excluded(walk[k]) && Rel(walk[k]) == name {
        var k :| 0 <= k < |walk| && !Excluded(walk[k]) && Rel(walk[k]) == name;
        if k < |walk| - 1 {
          assert init[k] == walk[k];
        }
      }
    }
  }

  /** The "venv/" test is on the whole relative path: any directory whose
      name ends in "venv" ("myvenv") keeps its contents out of the archive. */
  lemma VenvSuffixExcluded(dirName: string, rest: seq<string>)
    requires |dirName| >= 4 && dirName[|dirName| - 4..] == "venv" && rest != []
    ensures Excluded(Entry([dirName] + rest, false))
  {
    var parts := [dirName] + rest;
    assert parts[1..] == rest;
    var tail := Join(rest, "/");
    assert Rel(Entry(parts, false)) == dirName + "/" + tail;
    var i := |dirName| - 4;
    assert (dirName + "/" + tail)[i..i + 5] == "venv/";
    assert OccursAt(dirName + "/" + tail, "venv/", i);
  }

  /** Only a top-level "backend" directory is kept out of the archive, while
      `get_file_tree` hides a "backend" directory at any depth: a file below
      "src/backend" is downloaded but never listed. */
  lemma NestedBackendPackedButHidden()
    ensures !Excluded(Entry(["src", "backend", "app.py"], false))
    ensures Hidden("backend")
  {
    var e := Entry(["src", "backend", "app.py"], false);
    var r := Rel(e);
    assert r == "src/backend/app.py";
    assert 'v' !in r;
    NotContainedWhenFirstCharAbsent(r, "venv/");
    assert r[0] != "backend/"[0];
  }

  // ---------------------------------------------------------------------
  // The server
  // ---------------------------------------------------------------------

  /** What follows a sequence that was extended is the extension. A
      proof-cost helper only: kept apart so that the solver slices away
      from the step's contract. */
  lemma SuffixAfter(a: seq<Event>, b: seq<Event>)
    ensures (a + b)[|a|..] == b
  {
  }

  /** `await agent.step(history)`: the messages it returns, the rounds it
      ran, the session's files after them and the events its callbacks
      sent, closing event included. */
  method RunStep(agent: AgentSession, asked: seq<Message>, model: Model, shell: Shell, fuel: nat)
    returns (out: seq<Message>, evs: seq<Event>, ghost turns: seq<Turn>, ghost tail: seq<Message>,
             ghost end: LoopEnd, ghost last: Reply)
    requires ValidPath(agent.workdir)
    modifies agent
    ensures out == asked + Flatten(PerCall, turns) + tail
    ensures Asked(model, FileToolNames, PerCall, asked, turns) && RanRounds(agent.workdir, shell, old(agent.files), turns)
    ensures agent.events == old(agent.events) + evs
    ensures agent.files == Rounds(agent.workdir, shell, old(agent.files), turns).files
    ensures evs == Rounds(agent.workdir, shell, old(agent.files), turns).events + Closing(end, last)
  {
    ghost var before, logged := agent.files, agent.events;
    var mark := |agent.events|;
    var stop;
    out, stop, turns, tail, last := agent.Step(asked, model, shell, fuel);
    end := stop;
    evs := agent.events[mark..];
    SuffixAfter(logged, Rounds(agent.workdir, shell, before, turns).events + Closing(end, last));
  }

  class Server {
    /** `BASE_DIR.resolve()` and `str(BASE_DIR)`. */
    const base: Path
    const baseText: string
    var files: Files
    /** `active_connections`: the socket registered for each session. */
    var active: map<string, nat>
    var closed: set<nat>
    var sent: seq<Sent>

    constructor (base: Path, baseText: string, files: Files)
      requires ValidPath(base)
      ensures this.base == base && this.baseText == baseText && this.files == files
      ensures active == map[] && closed == {} && sent == []
    {
      this.base := base;
      this.baseText := baseText;
      this.files := files;
      active := map[];
      closed := {};
      sent := [];
    }

    /** The connection of `sid` is registered as `s` and `s` is open. */
    predicate Live(sid: string, s: nat)
      reads this
    {
      sid in active && active[sid] == s && s !in closed
    }

    /** `send_json`: it raises on a closed socket. */
    method Send(s: nat, f: Frame) returns (ok: bool)
      modifies this
      ensures ok <==> s !in closed
      ensures sent == old(sent) + (if ok then [Sent(s, f)] else [])
      ensures files == old(files) && active == old(active) && closed == old(closed)
    {
      ok := s !in closed;
      if ok {
        sent := sent + [Sent(s, f)];
      }
    }

    /** `websocket.close(code, reason)`. */
    method Close(s: nat, code: nat, reason: string)
      modifies this
      ensures sent == old(sent) + [Sent(s, CloseFrame(code, reason))] && closed == old(closed) + {s}
      ensures files == old(files) && active == old(active)
    {
      sent := sent + [Sent(s, CloseFrame(code, reason))];
      closed := closed + {s};
    }

    /** `remove_connection`: unregisters the session; a second removal
        changes nothing. */
    method RemoveConnection(sid: string)
      modifies this
      ensures active == old(active) - {sid}
      ensures sid !in old(active) ==> active == old(active)
      ensures files == old(files) && closed == old(closed) && sent == old(sent)
    {
      if sid in active {
        active := active - {sid};
      }
    }

    /** `broadcast_fs_update`: only a registered session is sent the
        update; a session whose socket raises is unregistered. */
    method Broadcast(sid: string)
      modifies this
      ensures files == old(files) && closed == old(closed)
      ensures sid !in old(active) ==> sent == old(sent) && active == old(active)
      ensures sid in old(active) && old(active)[sid] !in closed ==>
        sent == old(sent) + [Sent(old(active)[sid], FsUpdateFrame)] && active == old(active)
      ensures sid in old(active) && old(active)[sid] in closed ==>
        sent == old(sent) && active == old(active) - {sid}
    {
      if sid in active {
        var ok := Send(active[sid], FsUpdateFrame);
        if !ok {
          RemoveConnection(sid);
        }
      }
    }

    /** The endpoint's `send_log`: a socket that raises unregisters the
        session. */
    method SendLog(sid: string, s: nat, f: Frame)
      modifies this
      ensures files == old(files) && closed == old(closed)
      ensures s !in closed ==> sent == old(sent) + [Sent(s, f)] && active == old(active)
      ensures s in closed ==> sent == old(sent) && active == old(active) - {sid}
    {
      var ok := Send(s, f);
      if !ok {
        RemoveConnection(sid);
      }
    }

    /** The agent's callbacks during one `step`, replayed in order. */
    method Forward(sid: string, s: nat, evs: seq<Event>)
      modifies this
      ensures old(sent) <= sent
      ensures files == old(files)
      ensures old(Live(sid, s)) ==>
        Live(sid, s) && active == old(active) && closed == old(closed) &&
        sent == old(sent) + Frames(s, evs)
    {
      for i := 0 to |evs|
        invariant files == old(files) && old(sent) <= sent
        invariant old(Live(sid, s)) ==>
          Live(sid, s) && active == old(active) && closed == old(closed) &&
          sent == old(sent) + Frames(s, evs[..i])
      {
        assert evs[..i + 1][..i] == evs[..i];
        match evs[i]
        case Log(color, content) => SendLog(sid, s, LogFrame(LogText(color, content)));
        case CallLine(name, args) => SendLog(sid, s, CallFrame(name, args));
        case FsUpdate => Broadcast(sid);
      }
      assert evs[..|evs|] == evs;
    }

    /** `write_file_content`: a refused path raises before anything is
        written; otherwise the file is written and the session is sent an
        update. */
    method WriteFileContent(sid: string, dir: Path, p: string, content: string) returns (ok: bool)
      requires ValidPath(dir)
      modifies this
      ensures old(sent) <= sent
      ensures ok <==> WriteFile(dir, old(files), p, content).Ok?
      ensures ok ==> files == WriteFile(dir, old(files), p, content).value
      ensures !ok ==> files == old(files) && sent == old(sent) && active == old(active)
      ensures closed == old(closed)
      ensures ok && sid in old(active) && old(active)[sid] !in closed ==>
        sent == old(sent) + [Sent(old(active)[sid], FsUpdateFrame)] && active == old(active)
    {
      var w := WriteFile(dir, files, p, content);
      if w.Err? {
        return false;
      }
      files := w.value;
      Broadcast(sid);
      return true;
    }

    /** A "user_message": the echo, then the agent's `step` on the history
        with the message appended, its callbacks, and the "ready" status. */
    method UserMessage(sid: string, s: nat, agent: AgentSession, history: seq<Message>, content: string,
                       model: Model, shell: Shell, fuel: nat)
      returns (out: seq<Message>, go: bool, ghost turns: seq<Turn>, ghost tail: seq<Message>, ghost evs: seq<Event>,
               ghost end: LoopEnd, ghost last: Reply)
      requires ValidPath(agent.workdir)
      modifies this, agent
      ensures old(sent) <= sent
      ensures old(Live(sid, s)) ==>
        go && Live(sid, s) && active == old(active) && closed == old(closed) &&
        out == history + [UserMsg(content)] + Flatten(PerCall, turns) + tail &&
        Asked(model, FileToolNames, PerCall, history + [UserMsg(content)], turns) &&
        RanRounds(agent.workdir, shell, old(files), turns) &&
        agent.events == old(agent.events) + evs && files == agent.files &&
        files == Rounds(agent.workdir, shell, old(files), turns).files &&
        evs == Rounds(agent.workdir, shell, old(files), turns).events + Closing(end, last) &&
        sent == old(sent) + [Sent(s, UserFrame(content))] + Frames(s, evs) + [Sent(s, StatusFrame("ready"))]
    {
      turns, tail, evs, end, last := [], [], [], OutOfFuel, Reply(None, [], false);
      var ok := Send(s, UserFrame(content));
      if !ok {
        return history, false, turns, tail, evs, end, last;
      }
      var asked := history + [UserMsg(content)];
      agent.files := files;
      var relayed;
      out, relayed, turns, tail, end, last := RunStep(agent, asked, model, shell, fuel);
      evs := relayed;
      files := agent.files;
      Forward(sid, s, relayed);
      go := Send(s, StatusFrame("ready"));
    }

    /** A "get_file_tree" request: the tree of the session directory. */
    method FileTreeRequest(s: nat, dir: Path, lister: Lister) returns (go: bool)
      modifies this
      ensures old(sent) <= sent
      ensures files == old(files) && active == old(active) && closed == old(closed)
      ensures go <==> s !in closed
      ensures go ==> sent == old(sent) + [Sent(s, TreeFrame(Tree([], lister(dir, files))))]
    {
      var tree := GetFileTree([], lister(dir, files));
      go := Send(s, TreeFrame(tree));
    }

    /** A "read_file" request: the file's text, or `None`; a refused path
        ends the connection. */
    method ReadRequest(s: nat, dir: Path, path: string) returns (go: bool)
      requires ValidPath(dir)
      modifies this
      ensures old(sent) <= sent
      ensures files == old(files) && active == old(active) && closed == old(closed)
      ensures ReadFileContent(dir, files, path).Err? ==> !go && sent == old(sent)
      ensures ReadFileContent(dir, files, path).Ok? && s !in closed ==>
        go && sent == old(sent) + [Sent(s, ContentFrame(path, ReadFileContent(dir, files, path).value))]
    {
      var r := ReadFileContent(dir, files, path);
      if r.Err? {
        return false;
      }
      go := Send(s, ContentFrame(path, r.value));
    }

    /** A "save_file" request: the write and its update, "Saved path", and
        a second update; a refused path ends the connection. */
    method SaveRequest(sid: string, s: nat, dir: Path, path: string, content: string) returns (go: bool)
      requires ValidPath(dir)
      modifies this
      ensures old(sent) <= sent
      ensures WriteFile(dir, old(files), path, content).Err? ==>
        !go && files == old(files) && sent == old(sent) && active == old(active) && closed == old(closed)
      ensures WriteFile(dir, old(files), path, content).Ok? && old(Live(sid, s)) ==>
        go && Live(sid, s) && active == old(active) && closed == old(closed) &&
        files == WriteFile(dir, old(files), path, content).value &&
        sent == old(sent) + [Sent(s, FsUpdateFrame), Sent(s, StatusFrame("Saved " + path)), Sent(s, FsUpdateFrame)]
    {
      var ok := WriteFileContent(sid, dir, path, content);
      if !ok {
        return false;
      }
      go := Send(s, StatusFrame("Saved " + path));
      Broadcast(sid);
    }

    /** One pass of the endpoint's `while True`. A missing key or a refused
        path raises and ends the loop; an unknown type is ignored. */
    method Handle(sid: string, s: nat, dir: Path, agent: AgentSession, history: seq<Message>, req: Request,
                  model: Model, shell: Shell, lister: Lister, fuel: nat)
      returns (out: seq<Message>, go: bool)
      requires ValidPath(dir) && agent.workdir == dir
      modifies this, agent
      ensures old(sent) <= sent
      ensures old(Live(sid, s)) ==> Live(sid, s) && active == old(active) && closed == old(closed)
      ensures "type" !in req.fields ==> !go && files == old(files) && sent == old(sent)
      ensures "type" in req.fields && req.fields["type"] !in RequestTypes ==>
        go && out == history && files == old(files) && sent == old(sent)
      ensures out != history ==> "type" in req.fields && req.fields["type"] == "user_message"
    {
      out := history;
      if "type" !in req.fields {
        return history, false;
      }
      var kind := req.fields["type"];
      if kind == "user_message" {
        if "content" !in req.fields {
          return history, false;
        }
        ghost var turns, tail, evs, end, last;
        out, go, turns, tail, evs, end, last := UserMessage(sid, s, agent, history, req.fields["content"], model, shell, fuel);
      } else if kind == "get_file_tree" {
        go := FileTreeRequest(s, dir, lister);
      } else if kind == "read_file" {
        if "path" !in req.fields {
          return history, false;
        }
        go := ReadRequest(s, dir, req.fields["path"]);
      } else if kind == "save_file" {
        if "path" !in req.fields || "content" !in req.fields {
          return history, false;
        }
        go := SaveRequest(sid, s, dir, req.fields["path"], req.fields["content"]);
      } else {
        go := true;
      }
    }

    /** The part of `websocket_endpoint` after the checks: the agent and the
        history are set up, the client is greeted with a log line and an
        update, and requests are handled until one fails or the client goes
        away. The connection stays registered throughout. */
    method Serve(sid: string, s: nat, dir: Path, requests: seq<Request>, model: Model, shell: Shell,
                 lister: Lister, now: string, fuel: nat)
      returns (handled: nat)
      requires ValidPath(dir) && Live(sid, s)
      modifies this
      ensures Live(sid, s) && active == old(active) && handled <= |requests|
      ensures old(sent) + [Sent(s, LogFrame("Agent initialized in " + SessionText(baseText, sid))), Sent(s, FsUpdateFrame)] <= sent
    {
      var agent := new AgentSession(dir, files);
      var history := [SystemMsg(Prompt(baseText, sid, now))];
      SendLog(sid, s, LogFrame("Agent initialized in " + SessionText(baseText, sid)));
      Broadcast(sid);
      ghost var greeted := sent;
      var go := true;
      handled := 0;
      while handled < |requests| && go
        invariant handled <= |requests|
        invariant Live(sid, s) && active == old(active) && greeted <= sent
        invariant agent.workdir == dir
      {
        history, go := Handle(sid, s, dir, agent, history, requests[handled], model, shell, lister, fuel);
        handled := handled + 1;
      }
    }

    /** `websocket_endpoint`: the connection is registered on accept and
        unregistered on every way out. A missing session directory closes
        it with 1000, an id that resolves outside the base with 1008;
        otherwise it is greeted with a log line and an update, and requests
        are handled until one fails or the client goes away. */
    method Endpoint(sid: string, s: nat, requests: seq<Request>, model: Model, shell: Shell,
                    lister: Lister, now: string, fuel: nat)
      returns (handled: nat)
      requires ValidPath(base) && s !in closed
      modifies this
      ensures active == old(active) - {sid}
      ensures !Exists(base, old(files), Resolve(base, sid)) ==>
        files == old(files) && sent == old(sent) + [Sent(s, CloseFrame(1000, "Session not found"))]
      ensures Exists(base, old(files), Resolve(base, sid)) && !StringGuard(Resolve(base, sid), base) ==>
        files == old(files) && sent == old(sent) + [Sent(s, CloseFrame(1008, "Invalid session ID"))]
      ensures Exists(base, old(files), Resolve(base, sid)) && StringGuard(Resolve(base, sid), base) ==>
        handled <= |requests| &&
        old(sent) + [Sent(s, LogFrame("Agent initialized in " + SessionText(baseText, sid))), Sent(s, FsUpdateFrame)] <= sent
    {
      handled := 0;
      active := active[sid := s];
      var dir := Resolve(base, sid);
      if !Exists(base, files, dir) {
        Close(s, 1000, "Session not found");
        RemoveConnection(sid);
        return;
      }
      if !StringGuard(dir, base) {
        Close(s, 1008, "Invalid session ID");
        RemoveConnection(sid);
        return;
      }
      handled := Serve(sid, s, dir, requests, model, shell, lister, now, fuel);
      RemoveConnection(sid);
    }
  }
}
