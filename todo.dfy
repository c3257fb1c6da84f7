/** The todo list (`TodoManager`) of the v2 and v3 agents.

    `update` validates every submitted item (content and activeForm are
    stripped, the status is lower-cased and defaults to "pending"), counts the
    items in progress, and only after all checks replaces the stored list
    wholesale. The two revisions differ: v2 checks the three fields one by one
    and rejects lists of more than 20 items; v3 checks content and activeForm
    together and silently keeps the first 20 items of a longer valid list. */
module Todo {
  import opened Wrappers
  import opened Text

  datatype Status = Pending | InProgress | Completed

  /** One entry of a TodoWrite call as the model sent it; a key may be absent. */
  datatype RawItem = RawItem(content: Option<string>, status: Option<string>, activeForm: Option<string>)

  /** A validated entry of the stored list. */
  datatype Item = Item(content: string, status: Status, activeForm: string)

  datatype Version = V2 | V3

  /** Why one submitted entry was refused. */
  datatype Fault = MissingText | MissingContent | MissingActiveForm | BadStatus(status: string)

  function StatusName(st: Status): string
  {
    match st
    case Pending => "pending"
    case InProgress => "in_progress"
    case Completed => "completed"
  }

  /** Membership in `("pending", "in_progress", "completed")`. */
  function ParseStatus(s: string): (r: Option<Status>)
    ensures r.Some? ==> StatusName(r.value) == s
    ensures forall st :: StatusName(st) == s ==> r == Some(st)
  {
    if s == "pending" then Some(Pending)
    else if s == "in_progress" then Some(InProgress)
    else if s == "completed" then Some(Completed)
    else None
  }

  // ---------------------------------------------------------------------
  // One entry
  // ---------------------------------------------------------------------

  function ContentOf(r: RawItem): string { Strip(r.content.GetOr("")) }
  function StatusOf(r: RawItem): string { Lower(r.status.GetOr("pending")) }
  function ActiveFormOf(r: RawItem): string { Strip(r.activeForm.GetOr("")) }

  /** The checks on one entry, in each revision's order. */
  function Check(ver: Version, r: RawItem): Result<Item, Fault>
  {
    var content := ContentOf(r);
    var status := StatusOf(r);
    var active := ActiveFormOf(r);
    match ver
    case V3 =>
      if content == "" || active == "" then Err(MissingText)
      else if ParseStatus(status).None? then Err(BadStatus(status))
      else Ok(Item(content, ParseStatus(status).value, active))
    case V2 =>
      if content == "" then Err(MissingContent)
      else if ParseStatus(status).None? then Err(BadStatus(status))
      else if active == "" then Err(MissingActiveForm)
      else Ok(Item(content, ParseStatus(status).value, active))
  }

  /** An entry passes exactly when its stripped content and activeForm are
      non-empty and its lower-cased status is one of the three; the stored
      entry holds those normalised values. */
  lemma CheckMeaning(ver: Version, r: RawItem)
    ensures Check(ver, r).Ok? <==>
      ContentOf(r) != "" && ActiveFormOf(r) != "" && ParseStatus(StatusOf(r)).Some?
    ensures Check(ver, r).Ok? ==>
      Check(ver, r).value == Item(ContentOf(r), ParseStatus(StatusOf(r)).value, ActiveFormOf(r))
  {
  }

  /** The `ValueError` text for entry `i`. */
  function FaultMessage(ver: Version, i: nat, f: Fault): string
  {
    var head := "Item " + NatToString(i) + ": ";
    match f
    case MissingText => head + "content and activeForm required"
    case MissingContent => head + "content required"
    case MissingActiveForm => head + "activeForm required"
    case BadStatus(s) => if ver == V3 then head + "invalid status" else head + "invalid status '" + s + "'"
  }

  /** The outcome of the checks on every entry, in order. */
  function Checks(ver: Version, raw: seq<RawItem>): (rs: seq<Result<Item, Fault>>)
    ensures |rs| == |raw|
  {
    seq(|raw|, k requires 0 <= k < |raw| => Check(ver, raw[k]))
  }

  /** Walking the check outcomes left to right, stopping at the first refusal. */
  function Collect(ver: Version, rs: seq<Result<Item, Fault>>): Result<seq<Item>, string>
    decreases |rs|
  {
    if rs == [] then Ok([])
    else
      match Collect(ver, rs[..|rs| - 1])
      case Err(e) => Err(e)
      case Ok(v) =>
        match rs[|rs| - 1]
        case Err(f) => Err(FaultMessage(ver, |rs| - 1, f))
        case Ok(it) => Ok(v + [it])
  }

  /** The validation pass of `update`. */
  function Validated(ver: Version, raw: seq<RawItem>): Result<seq<Item>, string>
  {
    Collect(ver, Checks(ver, raw))
  }

  function CountStatus(items: seq<Item>, st: Status): (n: nat)
    ensures n <= |items|
  {
    if items == [] then 0
    else CountStatus(items[..|items| - 1], st) + (if items[|items| - 1].status == st then 1 else 0)
  }

  function Min(a: nat, b: nat): nat { if a <= b then a else b }

  /** What `update` stores, or the message it raises. */
  function Apply(ver: Version, raw: seq<RawItem>): Result<seq<Item>, string>
  {
    match Validated(ver, raw)
    case Err(e) => Err(e)
    case Ok(v) =>
      match ver
      case V2 =>
        if |v| > 20 then Err("Max 20 todos allowed")
        else if CountStatus(v, InProgress) > 1 then Err("Only one task can be in_progress at a time")
        else Ok(v)
      case V3 =>
        if CountStatus(v, InProgress) > 1 then Err("Only one task can be in_progress")
        else Ok(v[..Min(|v|, 20)])
  }

  /** Every entry has a non-empty content and activeForm. */
  predicate Filled(items: seq<Item>)
  {
    forall k :: 0 <= k < |items| ==> items[k].content != "" && items[k].activeForm != ""
  }

  /** The invariant of a stored list. */
  predicate WellFormed(items: seq<Item>)
  {
    |items| <= 20 && CountStatus(items, InProgress) <= 1 && Filled(items)
  }

  // ---------------------------------------------------------------------
  // Properties of validation and update
  // ---------------------------------------------------------------------

  /** Collecting succeeds exactly when every check passed, and then yields
      the checked entries in order. */
  lemma {:induction false} CollectOk(ver: Version, rs: seq<Result<Item, Fault>>)
    ensures Collect(ver, rs).Ok? <==> forall k :: 0 <= k < |rs| ==> rs[k].Ok?
    ensures Collect(ver, rs).Ok? ==>
      |Collect(ver, rs).value| == |rs|
      && forall k :: 0 <= k < |rs| ==> Collect(ver, rs).value[k] == rs[k].value
    decreases |rs|
  {
    if rs != [] {
      var init := rs[..|rs| - 1];
      CollectOk(ver, init);
      assert forall k :: 0 <= k < |init| ==> init[k] == rs[k];
    }
  }

  lemma {:induction false} CollectLength(ver: Version, rs: seq<Result<Item, Fault>>)
    ensures Collect(ver, rs).Ok? ==> |Collect(ver, rs).value| == |rs|
    decreases |rs|
  {
    if rs != [] {
      CollectLength(ver, rs[..|rs| - 1]);
    }
  }

  /** A refusal names the first refused entry. */
  lemma {:induction false} CollectErr(ver: Version, rs: seq<Result<Item, Fault>>, i: nat)
    requires i < |rs| && rs[i].Err?
    requires forall k :: 0 <= k < i ==> rs[k].Ok?
    ensures Collect(ver, rs) == Err(FaultMessage(ver, i, rs[i].error))
    decreases |rs|
  {
    var init := rs[..|rs| - 1];
    if i < |rs| - 1 {
      CollectErr(ver, init, i);
    } else {
      CollectOk(ver, init);
    }
  }

  /** Once a prefix is refused, the whole list is refused with the same message. */
  lemma {:induction false} CollectErrExtends(ver: Version, rs: seq<Result<Item, Fault>>, j: nat)
    requires j <= |rs| && Collect(ver, rs[..j]).Err?
    ensures Collect(ver, rs) == Collect(ver, rs[..j])
    decreases |rs| - j
  {
    if j < |rs| {
      assert rs[..j + 1][..j] == rs[..j];
      CollectErrExtends(ver, rs, j + 1);
    } else {
      assert rs[..j] == rs;
    }
  }

  /** A refused validation is the refusal of the update. */
  lemma ApplyRefused(ver: Version, raw: seq<RawItem>, e: string)
    requires Validated(ver, raw) == Err(e)
    ensures Apply(ver, raw) == Err(e)
  {
  }

  /** One more passed check extends the collected entries. */
  lemma CollectStep(ver: Version, rs: seq<Result<Item, Fault>>, i: nat, v: seq<Item>, it: Item)
    requires i < |rs| && Collect(ver, rs[..i]) == Ok(v) && rs[i] == Ok(it)
    ensures Collect(ver, rs[..i + 1]) == Ok(v + [it])
  {
    assert rs[..i + 1][..i] == rs[..i];
  }

  /** The first refused check decides the outcome of the whole list. */
  lemma CollectStop(ver: Version, rs: seq<Result<Item, Fault>>, i: nat, v: seq<Item>, f: Fault)
    requires i < |rs| && Collect(ver, rs[..i]) == Ok(v) && rs[i] == Err(f)
    ensures Collect(ver, rs) == Err(FaultMessage(ver, i, f))
  {
    assert rs[..i + 1][..i] == rs[..i];
    CollectErrExtends(ver, rs, i + 1);
  }

  lemma CountSnoc(items: seq<Item>, it: Item, st: Status)
    ensures CountStatus(items + [it], st) == CountStatus(items, st) + if it.status == st then 1 else 0
  {
    assert (items + [it])[..|items|] == items;
  }

  /** Validation succeeds exactly when every entry passes its checks, and then
      yields the normalised entries in order. */
  lemma ValidatedOk(ver: Version, raw: seq<RawItem>)
    ensures Validated(ver, raw).Ok? <==> forall k :: 0 <= k < |raw| ==> Check(ver, raw[k]).Ok?
    ensures Validated(ver, raw).Ok? ==>
      |Validated(ver, raw).value| == |raw|
      && forall k :: 0 <= k < |raw| ==> Validated(ver, raw).value[k] == Check(ver, raw[k]).value
  {
    var rs := Checks(ver, raw);
    CollectOk(ver, rs);
    assert forall k :: 0 <= k < |raw| ==> rs[k] == Check(ver, raw[k]);
  }

  /** A refused list is refused with the message of its first refused entry. */
  lemma ValidatedErr(ver: Version, raw: seq<RawItem>, i: nat)
    requires i < |raw| && Check(ver, raw[i]).Err?
    requires forall k :: 0 <= k < i ==> Check(ver, raw[k]).Ok?
    ensures Validated(ver, raw) == Err(FaultMessage(ver, i, Check(ver, raw[i]).error))
  {
    CollectErr(ver, Checks(ver, raw), i);
  }

  /** Both revisions accept the same entries and normalise them alike; only
      the order of the checks and the messages differ. */
  lemma ChecksAgree(r: RawItem)
    ensures Check(V2, r).Ok? <==> Check(V3, r).Ok?
    ensures Check(V2, r).Ok? ==> Check(V2, r).value == Check(V3, r).value
  {
    CheckMeaning(V2, r);
    CheckMeaning(V3, r);
  }

  lemma {:induction false} CountPrefix(items: seq<Item>, n: nat, st: Status)
    requires n <= |items|
    ensures CountStatus(items[..n], st) <= CountStatus(items, st)
    decreases |items|
  {
    if n < |items| {
      CountPrefix(items[..|items| - 1], n, st);
      assert items[..|items| - 1][..n] == items[..n];
    } else {
      assert items[..n] == items;
    }
  }

  /** Every entry that passes its checks has non-empty texts. */
  lemma ChecksFilled(ver: Version, raw: seq<RawItem>)
    ensures forall k :: 0 <= k < |raw| && Checks(ver, raw)[k].Ok? ==>
      Checks(ver, raw)[k].value.content != "" && Checks(ver, raw)[k].value.activeForm != ""
  {
    forall k | 0 <= k < |raw| {
      CheckMeaning(ver, raw[k]);
    }
  }

  lemma CollectFilled(ver: Version, rs: seq<Result<Item, Fault>>)
    requires forall k :: 0 <= k < |rs| && rs[k].Ok? ==> rs[k].value.content != "" && rs[k].value.activeForm != ""
    ensures Collect(ver, rs).Ok? ==> Filled(Collect(ver, rs).value)
  {
    CollectOk(ver, rs);
  }

  /** A successful update stores a well-formed list. */
  lemma UpdateWellFormed(ver: Version, raw: seq<RawItem>)
    requires Apply(ver, raw).Ok?
    ensures WellFormed(Apply(ver, raw).value)
  {
    var rs := Checks(ver, raw);
    ChecksFilled(ver, raw);
    CollectFilled(ver, rs);
    var v := Collect(ver, rs).value;
    if ver == V3 {
      var stored := v[..Min(|v|, 20)];
      CountPrefix(v, Min(|v|, 20), InProgress);
      assert forall k :: 0 <= k < |stored| ==> stored[k] == v[k];
    }
  }

  /** v3 accepts exactly the validated lists with at most one entry in
      progress, however long; it keeps the first 20 entries. Entries past the
      20th are still checked and still counted. */
  lemma UpdateV3Accepts(raw: seq<RawItem>)
    ensures Apply(V3, raw).Ok? <==>
      Validated(V3, raw).Ok? && CountStatus(Validated(V3, raw).value, InProgress) <= 1
    ensures Apply(V3, raw).Ok? ==>
      |Apply(V3, raw).value| == Min(|raw|, 20) && Apply(V3, raw).value <= Validated(V3, raw).value
  {
    var rs := Checks(V3, raw);
    CollectLength(V3, rs);
    if Validated(V3, raw).Ok? {
      var v := Validated(V3, raw).value;
      assert v[..Min(|raw|, 20)] <= v;
    }
  }

  /** v2 accepts exactly what v3 accepts, provided there are at most 20
      entries; then both store the same list. */
  lemma ValidatedAgree(raw: seq<RawItem>)
    ensures Validated(V2, raw).Ok? <==> Validated(V3, raw).Ok?
    ensures Validated(V2, raw).Ok? ==>
      Validated(V2, raw).value == Validated(V3, raw).value && |Validated(V2, raw).value| == |raw|
  {
    var r2, r3 := Checks(V2, raw), Checks(V3, raw);
    forall k | 0 <= k < |raw|
      ensures r2[k].Ok? <==> r3[k].Ok?
      ensures r2[k].Ok? ==> r2[k].value == r3[k].value
    {
      ChecksAgree(raw[k]);
    }
    CollectOk(V2, r2);
    CollectOk(V3, r3);
    if Collect(V2, r2).Ok? {
      assert Collect(V2, r2).value == Collect(V3, r3).value;
    }
  }

  lemma UpdateV2VersusV3(raw: seq<RawItem>)
    ensures Apply(V2, raw).Ok? <==> Apply(V3, raw).Ok? && |raw| <= 20
    ensures Apply(V2, raw).Ok? ==> Apply(V2, raw).value == Apply(V3, raw).value
    ensures Apply(V3, raw).Ok? && |raw| > 20 ==> Apply(V2, raw) == Err("Max 20 todos allowed")
  {
    ValidatedAgree(raw);
  }

  // ---------------------------------------------------------------------
  // Rendering
  // ---------------------------------------------------------------------

  function MarkV3(st: Status): string
  {
    match st
    case Completed => "[x]"
    case InProgress => "[>]"
    case Pending => "[ ]"
  }

  function LinesV3(items: seq<Item>): (lines: seq<string>)
  {
    seq(|items|, k requires 0 <= k < |items| => MarkV3(items[k].status) + " " + items[k].content)
  }

  function SummaryV3(items: seq<Item>): string
  {
    "(" + NatToString(CountStatus(items, Completed)) + "/" + NatToString(|items|) + " done)"
  }

  /** v3 `render`. */
  function RenderV3(items: seq<Item>): string
  {
    if items == [] then "No todos." else Join(LinesV3(items), "\n") + "\n" + SummaryV3(items)
  }

  function LineV2(it: Item): string
  {
    match it.status
    case Completed => "[x] " + it.content
    case InProgress => "[>] " + it.content + " <- " + it.activeForm
    case Pending => "[ ] " + it.content
  }

  function LinesV2(items: seq<Item>): (lines: seq<string>)
  {
    seq(|items|, k requires 0 <= k < |items| => LineV2(items[k]))
  }

  function SummaryV2(items: seq<Item>): string
  {
    "(" + NatToString(CountStatus(items, Completed)) + "/" + NatToString(|items|) + " completed)"
  }

  /** v2 `render`: the summary line is appended as "\n(c/n completed)", so a
      blank line separates it from the items. */
  function RenderV2(items: seq<Item>): string
  {
    if items == [] then "No todos." else Join(LinesV2(items) + ["\n" + SummaryV2(items)], "\n")
  }

  predicate SingleLineText(items: seq<Item>)
  {
    forall k :: 0 <= k < |items| ==> '\n' !in items[k].content && '\n' !in items[k].activeForm
  }

  lemma DigitsHaveNoNewline(n: nat)
    ensures '\n' !in NatToString(n)
  {
    var s := NatToString(n);
    forall k | 0 <= k < |s| ensures s[k] != '\n' {
      assert IsDigit(s[k]);
    }
  }

  /** Read line by line, the v3 rendering of a non-empty list is one line per
      item — its mark and content — then the "(d/n done)" summary. */
  lemma RenderV3Lines(items: seq<Item>)
    requires items != [] && SingleLineText(items)
    ensures SplitOn(RenderV3(items), '\n') == LinesV3(items) + [SummaryV3(items)]
  {
    var lines := LinesV3(items) + [SummaryV3(items)];
    JoinSnoc(LinesV3(items), SummaryV3(items), "\n");
    DigitsHaveNoNewline(CountStatus(items, Completed));
    DigitsHaveNoNewline(|items|);
    forall k | 0 <= k < |lines| ensures '\n' !in lines[k] {
      if k < |items| {
        assert lines[k] == MarkV3(items[k].status) + " " + items[k].content;
      }
    }
    SplitJoin(lines, '\n');
  }

  /** Read line by line, the v2 rendering of a non-empty list is one line per
      item, a blank line, then the "(c/n completed)" summary. */
  lemma RenderV2Lines(items: seq<Item>)
    requires items != [] && SingleLineText(items)
    ensures SplitOn(RenderV2(items), '\n') == LinesV2(items) + ["", SummaryV2(items)]
  {
    var lines := LinesV2(items) + ["", SummaryV2(items)];
    JoinBlankLine(LinesV2(items), "\n", SummaryV2(items));
    DigitsHaveNoNewline(CountStatus(items, Completed));
    DigitsHaveNoNewline(|items|);
    forall k | 0 <= k < |lines| ensures '\n' !in lines[k] {
      if k < |items| {
        assert lines[k] == LineV2(items[k]);
      }
    }
    SplitJoin(lines, '\n');
  }

  // ---------------------------------------------------------------------
  // The stored list
  // ---------------------------------------------------------------------

  /** `TodoManager`: one stored list, replaced only by a successful update. */
  class TodoManager {
    const version: Version
    var items: seq<Item>

    ghost predicate Valid()
      reads this
    {
      WellFormed(items)
    }

    constructor (ver: Version)
      ensures version == ver && items == [] && Valid()
    {
      version := ver;
      items := [];
    }

    /** `render()` of the stored list. */
    function Render(): string
      reads this
    {
      if version == V2 then RenderV2(items) else RenderV3(items)
    }

    /** `update(items)`: `Ok(rendering)`, or `Err(message)` for the
        `ValueError` it raises, with the stored list left untouched. */
    method Update(raw: seq<RawItem>) returns (r: Result<string, string>)
      requires Valid()
      modifies this
      ensures Valid()
      ensures Apply(version, raw).Err? ==> items == old(items) && r == Err(Apply(version, raw).error)
      ensures Apply(version, raw).Ok? ==> items == Apply(version, raw).value && r == Ok(Render())
    {
      ghost var rs := Checks(version, raw);
      var validated: seq<Item> := [];
      var inProgress := 0;
      var i := 0;
      while i < |raw|
        invariant 0 <= i <= |raw|
        invariant Collect(version, rs[..i]) == Ok(validated)
        invariant inProgress == CountStatus(validated, InProgress)
        invariant items == old(items)
      {
        match Check(version, raw[i]) {
          case Err(f) =>
            CollectStop(version, rs, i, validated, f);
            ApplyRefused(version, raw, FaultMessage(version, i, f));
            return Err(FaultMessage(version, i, f));
          case Ok(it) =>
            CollectStep(version, rs, i, validated, it);
            CountSnoc(validated, it, InProgress);
            if it.status == InProgress {
              inProgress := inProgress + 1;
            }
            validated := validated + [it];
        }
        i := i + 1;
      }
      assert rs[..|raw|] == rs;
      if version == V2 && |validated| > 20 {
        return Err("Max 20 todos allowed");
      }
      if inProgress > 1 {
        if version == V2 {
          return Err("Only one task can be in_progress at a time");
        }
        return Err("Only one task can be in_progress");
      }
      items := if version == V2 then validated else validated[..Min(|validated|, 20)];
      UpdateWellFormed(version, raw);
      r := Ok(Render());
    }

    /** `run_todo`: the rendering, or "Error: " and the refusal. */
    method Run(raw: seq<RawItem>) returns (out: string)
      requires Valid()
      modifies this
      ensures Valid()
      ensures Apply(version, raw).Err? ==> items == old(items) && out == "Error: " + Apply(version, raw).error
      ensures Apply(version, raw).Ok? ==> items == Apply(version, raw).value && out == Render()
    {
      var r := Update(raw);
      out := match r case Ok(s) => s case Err(e) => "Error: " + e;
    }
  }
}
