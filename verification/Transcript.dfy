/** The status fold over a transcript: statusAcc fed line by line, against what the whole
    sequence of lines says.

    A line is what the JSON decoder makes of it; the decoder itself is a parameter. */
module Transcript {
  import opened Tables

  datatype Block =
    | Text(text: string)
    | ToolUse(id: string, name: string, target: string)
    | ToolResult(toolUseId: string)
    | OtherBlock

  /** A message's content: a bare string, a block array, or anything else. */
  datatype Content = Bare | Blocks(blocks: seq<Block>) | OtherContent

  datatype Usage = Usage(input: int, output: int)
  datatype Message = Message(id: string, stopReason: string, usage: Option<Usage>, content: Content)
  datatype Kind = Assistant | User | OtherKind
  datatype Line = Line(kind: Kind, isSidechain: bool, message: Option<Message>)

  datatype AgentState = Working | Idle | Awaiting | Unknown | Blocked | Stuck
  datatype Status = Status(state: AgentState, tool: string, target: string, lastText: string, tokens: int)

  predicate HealthyState(s: AgentState) { s.Working? || s.Idle? || s.Awaiting? }

  /** decodeBlocks: nothing when the content is no block array. */
  function DecodeBlocks(c: Content): seq<Block> {
    match c case Blocks(bs) => bs case _ => []
  }

  const ASK_USER := "AskUserQuestion"

  // ---------------------------------------------------------------- the accumulator

  datatype Acc = Acc(
    pending: map<string, string>,
    seenMsg: set<string>,
    lastTool: string,
    lastTarget: string,
    lastText: string,
    stopReason: string,
    tokens: int,
    pendingPrompt: bool)

  const EMPTY := Acc(map[], {}, "", "", "", "", 0, false)

  function FeedUsage(a: Acc, m: Message): Acc {
    if m.usage.Some? && m.id !in a.seenMsg then
      a.(seenMsg := a.seenMsg + {m.id}, tokens := a.tokens + m.usage.value.input + m.usage.value.output)
    else a
  }

  function FeedBlock(a: Acc, b: Block): Acc {
    match b
    case Text(t) => if t != "" then a.(lastText := t) else a
    case ToolUse(id, name, target) => a.(lastTool := name, lastTarget := target, pending := a.pending[id := name])
    case _ => a
  }

  function FeedBlocks(a: Acc, bs: seq<Block>): Acc {
    if bs == [] then a else FeedBlock(FeedBlocks(a, bs[..|bs| - 1]), bs[|bs| - 1])
  }

  function FeedResult(a: Acc, b: Block): Acc {
    if b.ToolResult? then a.(pending := a.pending - {b.toolUseId}) else a
  }

  function FeedResults(a: Acc, bs: seq<Block>): Acc {
    if bs == [] then a else FeedResult(FeedResults(a, bs[..|bs| - 1]), bs[|bs| - 1])
  }

  function FeedAssistant(a: Acc, m: Message): Acc {
    var b := FeedUsage(a.(pendingPrompt := false), m);
    FeedBlocks(if m.stopReason != "" then b.(stopReason := m.stopReason) else b, DecodeBlocks(m.content))
  }

  /** feed: a line that does not parse, is on a sidechain or carries no message is skipped. */
  function Feed(a: Acc, line: Option<Line>): Acc {
    if line.None? || line.value.isSidechain || line.value.message.None? then a
    else
      var m := line.value.message.value;
      match line.value.kind
      case Assistant => FeedAssistant(a, m)
      case User => if m.content.Bare? then a.(pendingPrompt := true) else FeedResults(a, DecodeBlocks(m.content))
      case OtherKind => a
  }

  function Fold(lines: seq<Option<Line>>): Acc {
    if lines == [] then EMPTY else Feed(Fold(lines[..|lines| - 1]), lines[|lines| - 1])
  }

  function StateOf(a: Acc): AgentState {
    if a.pending != map[] then (if ASK_USER in a.pending.Values then Awaiting else Working)
    else if a.pendingPrompt then Working
    else if a.stopReason == "" then Unknown
    else if a.stopReason == "end_turn" then Idle
    else Working
  }

  function StatusOf(a: Acc): Status {
    Status(StateOf(a), a.lastTool, a.lastTarget, a.lastText, a.tokens)
  }

  lemma NoBlocks(a: Acc, bs: seq<Block>)
    ensures FeedBlocks(a, bs[..0]) == a
  {}

  lemma OneMoreBlock(a: Acc, bs: seq<Block>, i: nat)
    requires i < |bs|
    ensures FeedBlocks(a, bs[..i + 1]) == FeedBlock(FeedBlocks(a, bs[..i]), bs[i])
  {
    assert bs[..i + 1][..i] == bs[..i];
  }

  class StatusAcc {
    var pending: map<string, string>
    var seenMsg: set<string>
    var lastTool: string
    var lastTarget: string
    var lastText: string
    var stopReason: string
    var tokens: int
    var pendingPrompt: bool

    function Value(): Acc
      reads this
    {
      Acc(pending, seenMsg, lastTool, lastTarget, lastText, stopReason, tokens, pendingPrompt)
    }

    constructor ()
      ensures Value() == EMPTY
    {
      pending, seenMsg, tokens, pendingPrompt := map[], {}, 0, false;
      lastTool, lastTarget, lastText, stopReason := "", "", "", "";
    }

    method FeedLine(line: Option<Line>)
      modifies this
      ensures Value() == Feed(old(Value()), line)
    {
      if line.None? || line.value.isSidechain || line.value.message.None? { return; }
      var m := line.value.message.value;
      match line.value.kind
      case Assistant => FeedAssistantMessage(m);
      case User =>
        if m.content.Bare? {
          pendingPrompt := true;
          return;
        }
        var bs := DecodeBlocks(m.content);
        ghost var start := Value();
        var i := 0;
        while i < |bs|
          invariant 0 <= i <= |bs| && Value() == FeedResults(start, bs[..i])
        {
          assert bs[..i + 1][..i] == bs[..i];
          if bs[i].ToolResult? { pending := pending - {bs[i].toolUseId}; }
          i := i + 1;
        }
        assert bs[..|bs|] == bs;
      case OtherKind =>
    }

    method FeedAssistantMessage(m: Message)
      modifies this
      ensures Value() == FeedAssistant(old(Value()), m)
    {
      hide FeedBlocks;
      pendingPrompt := false;
      if m.usage.Some? && m.id !in seenMsg {
        seenMsg := seenMsg + {m.id};
        tokens := tokens + m.usage.value.input + m.usage.value.output;
      }
      if m.stopReason != "" { stopReason := m.stopReason; }
      var bs := DecodeBlocks(m.content);
      ghost var start := Value();
      NoBlocks(start, bs);
      var i := 0;
      while i < |bs|
        invariant 0 <= i <= |bs| && Value() == FeedBlocks(start, bs[..i])
      {
        OneMoreBlock(start, bs, i);
        match bs[i] {
          case Text(t) => if t != "" { lastText := t; }
          case ToolUse(id, name, target) =>
            lastTool, lastTarget := name, target;
            pending := pending[id := name];
          case _ =>
        }
        i := i + 1;
      }
      assert bs[..|bs|] == bs;
    }

    method State() returns (state: AgentState)
      ensures state == StateOf(Value())
    {
      if pending != map[] {
        var left := pending.Keys;
        while left != {}
          invariant left <= pending.Keys && forall id :: id in pending && id !in left ==> pending[id] != ASK_USER
          decreases left
        {
          var id :| id in left;
          if pending[id] == ASK_USER { return Awaiting; }
          left := left - {id};
        }
        return Working;
      }
      if pendingPrompt { return Working; }
      match stopReason
      case "" => return Unknown;
      case "end_turn" => return Idle;
      case _ => return Working;
    }

    method CurrentStatus() returns (st: Status)
      ensures st == StatusOf(Value())
    {
      var state := State();
      return Status(state, lastTool, lastTarget, lastText, tokens);
    }
  }

  // ---------------------------------------------------------------- what the lines say

  /** The message of a line that counts, if it counts. */
  function Spoken(line: Option<Line>, kind: Kind): Option<Message> {
    if line.Some? && !line.value.isSidechain && line.value.kind == kind then line.value.message else None
  }

  /** What happened to tools, in order. */
  datatype ToolEvent = Used(id: string, name: string) | Answered(id: string)

  function UsedIn(bs: seq<Block>): seq<ToolEvent> {
    if bs == [] then []
    else UsedIn(bs[..|bs| - 1]) + (match bs[|bs| - 1] case ToolUse(id, name, _) => [Used(id, name)] case _ => [])
  }

  function AnsweredIn(bs: seq<Block>): seq<ToolEvent> {
    if bs == [] then []
    else AnsweredIn(bs[..|bs| - 1]) + (match bs[|bs| - 1] case ToolResult(id) => [Answered(id)] case _ => [])
  }

  function ToolEventsOf(line: Option<Line>): seq<ToolEvent> {
    if Spoken(line, Assistant).Some? then UsedIn(DecodeBlocks(Spoken(line, Assistant).value.content))
    else if Spoken(line, User).Some? then AnsweredIn(DecodeBlocks(Spoken(line, User).value.content))
    else []
  }

  function ToolEvents(lines: seq<Option<Line>>): seq<ToolEvent> {
    if lines == [] then [] else ToolEvents(lines[..|lines| - 1]) + ToolEventsOf(lines[|lines| - 1])
  }

  /** evs[i] uses its tool id, and nothing after it answers or uses that id again. */
  ghost predicate LastUse(evs: seq<ToolEvent>, i: int) {
    0 <= i < |evs| && evs[i].Used? && forall j :: i < j < |evs| ==> evs[j].id != evs[i].id
  }

  /** pending holds exactly the tool uses without a later result, under their last name. */
  ghost predicate PendingIs(pending: map<string, string>, evs: seq<ToolEvent>) {
    && (forall id :: id in pending ==> exists i :: LastUse(evs, i) && evs[i] == Used(id, pending[id]))
    && (forall i :: 0 <= i < |evs| && evs[i].Used? && (forall j :: i < j < |evs| ==> evs[j] != Answered(evs[i].id)) ==>
          evs[i].id in pending)
  }

  function Happens(pending: map<string, string>, e: ToolEvent): map<string, string> {
    match e case Used(id, name) => pending[id := name] case Answered(id) => pending - {id}
  }

  function HappenAll(pending: map<string, string>, evs: seq<ToolEvent>): map<string, string> {
    if evs == [] then pending else Happens(HappenAll(pending, evs[..|evs| - 1]), evs[|evs| - 1])
  }

  lemma PendingHappens(pending: map<string, string>, evs: seq<ToolEvent>, e: ToolEvent)
    requires PendingIs(pending, evs)
    ensures PendingIs(Happens(pending, e), evs + [e])
  {
    var evs', pending' := evs + [e], Happens(pending, e);
    forall id | id in pending' ensures exists i :: LastUse(evs', i) && evs'[i] == Used(id, pending'[id]) {
      if e.Used? && e.id == id {
        assert LastUse(evs', |evs|);
      } else {
        var i :| LastUse(evs, i) && evs[i] == Used(id, pending[id]);
        assert LastUse(evs', i);
      }
    }
    forall i | 0 <= i < |evs'| && evs'[i].Used? && (forall j :: i < j < |evs'| ==> evs'[j] != Answered(evs'[i].id))
      ensures evs'[i].id in pending'
    {
      if i < |evs| {
        assert evs'[|evs|] != Answered(evs'[i].id);
        assert forall j :: i < j < |evs| ==> evs'[j] == evs[j];
      }
    }
  }

  lemma {:induction false} PendingHappensAll(pending: map<string, string>, evs: seq<ToolEvent>, more: seq<ToolEvent>)
    requires PendingIs(pending, evs)
    ensures PendingIs(HappenAll(pending, more), evs + more)
  {
    if more == [] {
      assert evs + more == evs;
    } else {
      var init := more[..|more| - 1];
      PendingHappensAll(pending, evs, init);
      PendingHappens(HappenAll(pending, init), evs + init, more[|more| - 1]);
      assert (evs + init) + [more[|more| - 1]] == evs + more;
    }
  }

  lemma HappenMore(pending: map<string, string>, evs: seq<ToolEvent>, e: ToolEvent)
    ensures HappenAll(pending, evs + [e]) == Happens(HappenAll(pending, evs), e)
  {}

  lemma {:induction false} FeedBlocksPending(a: Acc, bs: seq<Block>)
    ensures FeedBlocks(a, bs).pending == HappenAll(a.pending, UsedIn(bs))
  {
    if bs != [] {
      var init, b := bs[..|bs| - 1], bs[|bs| - 1];
      FeedBlocksPending(a, init);
      if b.ToolUse? { HappenMore(a.pending, UsedIn(init), Used(b.id, b.name)); }
      else { assert UsedIn(bs) == UsedIn(init); }
    }
  }

  lemma {:induction false} FeedResultsPending(a: Acc, bs: seq<Block>)
    ensures FeedResults(a, bs) == a.(pending := HappenAll(a.pending, AnsweredIn(bs)))
  {
    if bs != [] {
      var init, b := bs[..|bs| - 1], bs[|bs| - 1];
      FeedResultsPending(a, init);
      if b.ToolResult? { HappenMore(a.pending, AnsweredIn(init), Answered(b.toolUseId)); }
      else { assert AnsweredIn(bs) == AnsweredIn(init); }
    }
  }

  lemma FeedPending(a: Acc, line: Option<Line>)
    ensures Feed(a, line).pending == HappenAll(a.pending, ToolEventsOf(line))
  {
    if Spoken(line, Assistant).Some? {
      var m := Spoken(line, Assistant).value;
      var b := FeedUsage(a.(pendingPrompt := false), m);
      FeedBlocksPending(if m.stopReason != "" then b.(stopReason := m.stopReason) else b, DecodeBlocks(m.content));
    } else if Spoken(line, User).Some? {
      FeedResultsPending(a, DecodeBlocks(Spoken(line, User).value.content));
    }
  }

  /** After any lines, pending is what the lines leave unanswered. */
  lemma {:induction false} PendingMeaning(lines: seq<Option<Line>>)
    ensures PendingIs(Fold(lines).pending, ToolEvents(lines))
  {
    if lines != [] {
      var init := lines[..|lines| - 1];
      PendingMeaning(init);
      FeedPending(Fold(init), lines[|lines| - 1]);
      PendingHappensAll(Fold(init).pending, ToolEvents(init), ToolEventsOf(lines[|lines| - 1]));
    }
  }

  // ---------------------------------------------------------------- tokens

  datatype Spent = Spent(id: string, amount: int)

  function SpentOf(line: Option<Line>): seq<Spent> {
    var m := Spoken(line, Assistant);
    if m.Some? && m.value.usage.Some? then
      [Spent(m.value.id, m.value.usage.value.input + m.value.usage.value.output)]
    else []
  }

  function SpentIn(lines: seq<Option<Line>>): seq<Spent> {
    if lines == [] then [] else SpentIn(lines[..|lines| - 1]) + SpentOf(lines[|lines| - 1])
  }

  function Ids(us: seq<Spent>): set<string> { set u | u in us :: u.id }

  /** What the message's first line with a usage reports. */
  function FirstOf(us: seq<Spent>, id: string): int
    requires id in Ids(us)
  {
    if us[0].id == id then us[0].amount else FirstOf(us[1..], id)
  }

  ghost function SumFirst(us: seq<Spent>, ids: set<string>): int
    requires ids <= Ids(us)
  {
    if ids == {} then 0
    else
      var id :| id in ids;
      FirstOf(us, id) + SumFirst(us, ids - {id})
  }

  lemma {:induction false} SumAny(us: seq<Spent>, ids: set<string>, id: string)
    requires ids <= Ids(us) && id in ids
    ensures SumFirst(us, ids) == FirstOf(us, id) + SumFirst(us, ids - {id})
    decreases ids
  {
    var pick :| pick in ids && SumFirst(us, ids) == FirstOf(us, pick) + SumFirst(us, ids - {pick});
    if pick != id {
      SumAny(us, ids - {pick}, id);
      SumAny(us, ids - {id}, pick);
      assert ids - {pick} - {id} == ids - {id} - {pick};
    }
  }

  lemma {:induction false} FirstStays(us: seq<Spent>, u: Spent, id: string)
    requires id in Ids(us)
    ensures id in Ids(us + [u]) && FirstOf(us + [u], id) == FirstOf(us, id)
  {
    assert (us + [u])[0] == us[0];
    if us[0].id != id {
      assert (us + [u])[1..] == us[1..] + [u];
      FirstStays(us[1..], u, id);
    }
    var x :| x in us && x.id == id;
    assert x in us + [u];
  }

  lemma {:induction false} FirstNew(us: seq<Spent>, u: Spent)
    requires u.id !in Ids(us)
    ensures u.id in Ids(us + [u]) && FirstOf(us + [u], u.id) == u.amount
  {
    assert u in us + [u];
    if us != [] {
      assert us[0] in us && (us + [u])[1..] == us[1..] + [u];
      FirstNew(us[1..], u);
    }
  }

  lemma {:induction false} SumStays(us: seq<Spent>, u: Spent, ids: set<string>)
    requires ids <= Ids(us)
    ensures ids <= Ids(us + [u]) && SumFirst(us + [u], ids) == SumFirst(us, ids)
    decreases ids
  {
    forall id | id in ids ensures id in Ids(us + [u]) { FirstStays(us, u, id); }
    if ids != {} {
      var id :| id in ids;
      FirstStays(us, u, id);
      SumStays(us, u, ids - {id});
      SumAny(us, ids, id);
      SumAny(us + [u], ids, id);
    }
  }

  lemma SumMore(us: seq<Spent>, u: Spent)
    ensures Ids(us + [u]) == Ids(us) + {u.id}
    ensures SumFirst(us + [u], Ids(us + [u]))
      == SumFirst(us, Ids(us)) + (if u.id in Ids(us) then 0 else u.amount)
  {
    SumStays(us, u, Ids(us));
    assert u in us + [u];
    assert Ids(us + [u]) == Ids(us) + {u.id} by {
      forall x | x in us + [u] ensures x in us || x == u {}
    }
    if u.id in Ids(us) {
      assert Ids(us + [u]) == Ids(us);
    } else {
      FirstNew(us, u);
      SumAny(us + [u], Ids(us + [u]), u.id);
      assert Ids(us + [u]) - {u.id} == Ids(us);
    }
  }

  lemma {:induction false} FeedBlocksSpends(a: Acc, bs: seq<Block>)
    ensures FeedBlocks(a, bs).tokens == a.tokens && FeedBlocks(a, bs).seenMsg == a.seenMsg
    ensures FeedBlocks(a, bs).stopReason == a.stopReason && FeedBlocks(a, bs).pendingPrompt == a.pendingPrompt
  {
    if bs != [] { FeedBlocksSpends(a, bs[..|bs| - 1]); }
  }

  /** tokens is the sum, over the distinct message ids, of the usage each was first seen with:
      a message spread over several lines, or repeated, counts once. */
  lemma {:induction false} TokensMeaning(lines: seq<Option<Line>>)
    ensures Fold(lines).seenMsg == Ids(SpentIn(lines))
    ensures Fold(lines).tokens == SumFirst(SpentIn(lines), Ids(SpentIn(lines)))
  {
    if lines != [] {
      var init, line := lines[..|lines| - 1], lines[|lines| - 1];
      TokensMeaning(init);
      if Spoken(line, Assistant).Some? {
        var m, a := Spoken(line, Assistant).value, Fold(init);
        var b := FeedUsage(a.(pendingPrompt := false), m);
        FeedBlocksSpends(if m.stopReason != "" then b.(stopReason := m.stopReason) else b, DecodeBlocks(m.content));
        if m.usage.Some? { SumMore(SpentIn(init), SpentOf(line)[0]); }
        else { assert SpentIn(lines) == SpentIn(init); }
      } else {
        assert SpentIn(lines) == SpentIn(init);
        if Spoken(line, User).Some? {
          FeedResultsPending(Fold(init), DecodeBlocks(Spoken(line, User).value.content));
        }
      }
    }
  }

  // ---------------------------------------------------------------- the state

  ghost predicate Prompts(line: Option<Line>) {
    Spoken(line, User).Some? && Spoken(line, User).value.content.Bare?
  }

  /** The last of prompts and assistant lines is a prompt. */
  ghost predicate PromptOpen(lines: seq<Option<Line>>) {
    exists i :: && 0 <= i < |lines| && Prompts(lines[i])
                && forall j :: i < j < |lines| ==> Spoken(lines[j], Assistant).None?
  }

  /** stop is the last stop reason an assistant line gave, or empty if none gave any. */
  ghost predicate LastStop(lines: seq<Option<Line>>, stop: string) {
    if stop == "" then
      forall i :: 0 <= i < |lines| ==> NoStop(lines[i])
    else
      exists i :: 0 <= i < |lines| && Stops(lines[i], stop)
        && forall j :: i < j < |lines| ==> NoStop(lines[j])
  }

  ghost predicate NoStop(line: Option<Line>) {
    Spoken(line, Assistant).Some? ==> Spoken(line, Assistant).value.stopReason == ""
  }

  ghost predicate Stops(line: Option<Line>, stop: string) {
    Spoken(line, Assistant).Some? && Spoken(line, Assistant).value.stopReason == stop
  }

  lemma FeedTurn(a: Acc, line: Option<Line>)
    ensures Feed(a, line).pendingPrompt == (Prompts(line) || (a.pendingPrompt && Spoken(line, Assistant).None?))
    ensures Feed(a, line).stopReason ==
      if Spoken(line, Assistant).Some? && Spoken(line, Assistant).value.stopReason != "" then
        Spoken(line, Assistant).value.stopReason
      else a.stopReason
  {
    if Spoken(line, Assistant).Some? {
      var m := Spoken(line, Assistant).value;
      var b := FeedUsage(a.(pendingPrompt := false), m);
      FeedBlocksSpends(if m.stopReason != "" then b.(stopReason := m.stopReason) else b, DecodeBlocks(m.content));
    } else if Spoken(line, User).Some? {
      FeedResultsPending(a, DecodeBlocks(Spoken(line, User).value.content));
    }
  }

  lemma PromptOpenMore(lines: seq<Option<Line>>)
    requires lines != []
    ensures var init, line := lines[..|lines| - 1], lines[|lines| - 1];
      PromptOpen(lines) <==> Prompts(line) || (PromptOpen(init) && Spoken(line, Assistant).None?)
  {}

  lemma {:induction false} PromptMeaning(lines: seq<Option<Line>>)
    ensures Fold(lines).pendingPrompt <==> PromptOpen(lines)
  {
    if lines != [] {
      PromptMeaning(lines[..|lines| - 1]);
      FeedTurn(Fold(lines[..|lines| - 1]), lines[|lines| - 1]);
      PromptOpenMore(lines);
    }
  }

  lemma LastStopMore(lines: seq<Option<Line>>, stop: string)
    requires lines != [] && LastStop(lines[..|lines| - 1], stop)
    ensures var line := lines[|lines| - 1];
      LastStop(lines, if NoStop(line) then stop else Spoken(line, Assistant).value.stopReason)
  {
    var init, n := lines[..|lines| - 1], |lines| - 1;
    assert forall i :: 0 <= i < n ==> lines[i] == init[i];
    if !NoStop(lines[n]) {
      assert Stops(lines[n], Spoken(lines[n], Assistant).value.stopReason);
    } else if stop != "" {
      var i :| 0 <= i < n && Stops(init[i], stop) && forall j :: i < j < n ==> NoStop(init[j]);
      assert Stops(lines[i], stop);
    }
  }

  lemma {:induction false} StopMeaning(lines: seq<Option<Line>>)
    ensures LastStop(lines, Fold(lines).stopReason)
  {
    if lines != [] {
      StopMeaning(lines[..|lines| - 1]);
      FeedTurn(Fold(lines[..|lines| - 1]), lines[|lines| - 1]);
      LastStopMore(lines, Fold(lines[..|lines| - 1]).stopReason);
    }
  }

  lemma LastUsePends(pending: map<string, string>, evs: seq<ToolEvent>, i: int)
    requires PendingIs(pending, evs) && LastUse(evs, i)
    ensures evs[i].id in pending && pending[evs[i].id] == evs[i].name
  {}

  /** A question to the user is unanswered. */
  ghost predicate AskOpen(evs: seq<ToolEvent>) {
    exists i :: LastUse(evs, i) && evs[i].name == ASK_USER
  }

  ghost predicate NothingOpen(evs: seq<ToolEvent>) {
    forall i :: !LastUse(evs, i)
  }

  lemma StateCases(a: Acc, evs: seq<ToolEvent>)
    requires PendingIs(a.pending, evs)
    ensures StateOf(a).Awaiting? <==> AskOpen(evs)
    ensures StateOf(a).Idle? <==> NothingOpen(evs) && !a.pendingPrompt && a.stopReason == "end_turn"
    ensures StateOf(a).Unknown? <==> NothingOpen(evs) && !a.pendingPrompt && a.stopReason == ""
    ensures StateOf(a).Working? <==> !StateOf(a).Awaiting? && !StateOf(a).Idle? && !StateOf(a).Unknown?
  {}

  lemma OneLastStop(lines: seq<Option<Line>>, stop: string, stop': string)
    requires LastStop(lines, stop)
    ensures LastStop(lines, stop') <==> stop == stop'
  {
    if LastStop(lines, stop') && stop' != "" {
      var i :| 0 <= i < |lines| && Stops(lines[i], stop')
        && forall j :: i < j < |lines| ==> NoStop(lines[j]);
      if stop != "" {
        var k :| 0 <= k < |lines| && Stops(lines[k], stop)
          && forall j :: k < j < |lines| ==> NoStop(lines[j]);
        assert i == k;
      }
    }
  }

  // ---------------------------------------------------------------- tool, target and text

  /** What the agent said and did, block by block. */
  function Said(lines: seq<Option<Line>>): seq<Block> {
    if lines == [] then [] else Said(lines[..|lines| - 1]) + SaidIn(lines[|lines| - 1])
  }

  function SaidIn(line: Option<Line>): seq<Block> {
    if Spoken(line, Assistant).Some? then DecodeBlocks(Spoken(line, Assistant).value.content) else []
  }

  /** The last tool use is of this tool on this target; both are empty if there was none. */
  ghost predicate LastToolIs(bs: seq<Block>, tool: string, target: string) {
    if exists i :: 0 <= i < |bs| && bs[i].ToolUse? then
      exists i :: 0 <= i < |bs| && bs[i].ToolUse? && bs[i].name == tool && bs[i].target == target
        && forall j :: i < j < |bs| ==> !bs[j].ToolUse?
    else tool == target == ""
  }

  predicate Says(b: Block) { b.Text? && b.text != "" }

  /** The last text that is not empty; empty if there was none. */
  ghost predicate LastTextIs(bs: seq<Block>, text: string) {
    if exists i :: 0 <= i < |bs| && Says(bs[i]) then
      exists i :: 0 <= i < |bs| && Says(bs[i]) && bs[i].text == text && forall j :: i < j < |bs| ==> !Says(bs[j])
    else text == ""
  }

  lemma LastToolMore(bs: seq<Block>, b: Block, tool: string, target: string)
    requires LastToolIs(bs, tool, target)
    ensures if b.ToolUse? then LastToolIs(bs + [b], b.name, b.target) else LastToolIs(bs + [b], tool, target)
  {
    var bs' := bs + [b];
    assert bs'[|bs|] == b && forall i :: 0 <= i < |bs| ==> bs'[i] == bs[i];
  }

  lemma LastTextMore(bs: seq<Block>, b: Block, text: string)
    requires LastTextIs(bs, text)
    ensures LastTextIs(bs + [b], if Says(b) then b.text else text)
  {
    var bs' := bs + [b];
    assert bs'[|bs|] == b && forall i :: 0 <= i < |bs| ==> bs'[i] == bs[i];
  }

  lemma {:induction false} FeedBlocksShow(a: Acc, said: seq<Block>, bs: seq<Block>)
    requires LastToolIs(said, a.lastTool, a.lastTarget) && LastTextIs(said, a.lastText)
    ensures var b := FeedBlocks(a, bs);
      LastToolIs(said + bs, b.lastTool, b.lastTarget) && LastTextIs(said + bs, b.lastText)
  {
    hide LastToolIs, LastTextIs;
    if bs == [] {
      assert said + bs == said;
    } else {
      var init, last := bs[..|bs| - 1], bs[|bs| - 1];
      FeedBlocksShow(a, said, init);
      var b := FeedBlocks(a, init);
      LastToolMore(said + init, last, b.lastTool, b.lastTarget);
      LastTextMore(said + init, last, b.lastText);
      assert (said + init) + [last] == said + bs;
    }
  }

  lemma {:induction false} SaidMeaning(lines: seq<Option<Line>>)
    ensures LastToolIs(Said(lines), Fold(lines).lastTool, Fold(lines).lastTarget)
    ensures LastTextIs(Said(lines), Fold(lines).lastText)
  {
    hide LastToolIs, LastTextIs;
    if lines == [] {
      SaidNothing();
    } else {
      var init, line := lines[..|lines| - 1], lines[|lines| - 1];
      SaidMeaning(init);
      assert Said(init) + [] == Said(init);
      if Spoken(line, Assistant).Some? {
        var m := Spoken(line, Assistant).value;
        var b := FeedUsage(Fold(init).(pendingPrompt := false), m);
        FeedBlocksShow(if m.stopReason != "" then b.(stopReason := m.stopReason) else b, Said(init),
                       DecodeBlocks(m.content));
      } else if Spoken(line, User).Some? {
        FeedResultsPending(Fold(init), DecodeBlocks(Spoken(line, User).value.content));
      }
    }
  }

  lemma SaidNothing()
    ensures LastToolIs([], "", "") && LastTextIs([], "")
  {}

  /** The status of any transcript, read off its lines. The agent waits for its user exactly while
      a question to the user is unanswered. With no such question it works while a tool use is
      unanswered. With nothing unanswered it works while a prompt is open; else the last stop
      reason decides: an end_turn means idle, none at all means unknown, any other means working.
      The tool, its target and the text are the last there were, and every distinct message's
      tokens count once. */
  lemma StatusMeaning(lines: seq<Option<Line>>)
    ensures var st, evs := StatusOf(Fold(lines)), ToolEvents(lines);
      && (st.state.Awaiting? <==> AskOpen(evs))
      && (st.state.Working? <==>
            || (!NothingOpen(evs) && !AskOpen(evs))
            || (NothingOpen(evs)
                && (PromptOpen(lines) || (!LastStop(lines, "") && !LastStop(lines, "end_turn")))))
      && (st.state.Idle? <==> NothingOpen(evs) && !PromptOpen(lines) && LastStop(lines, "end_turn"))
      && (st.state.Unknown? <==> NothingOpen(evs) && !PromptOpen(lines) && LastStop(lines, ""))
      && LastToolIs(Said(lines), st.tool, st.target) && LastTextIs(Said(lines), st.lastText)
      && st.tokens == SumFirst(SpentIn(lines), Ids(SpentIn(lines)))
  {
    hide LastToolIs, LastTextIs, LastStop, PromptOpen, PendingIs, Fold, SumFirst, Ids, StateOf;
    PendingMeaning(lines);
    PromptMeaning(lines);
    StopMeaning(lines);
    StateCases(Fold(lines), ToolEvents(lines));
    OneLastStop(lines, Fold(lines).stopReason, "end_turn");
    OneLastStop(lines, Fold(lines).stopReason, "");
    SaidMeaning(lines);
    TokensMeaning(lines);
    if NothingOpen(ToolEvents(lines)) { assert !AskOpen(ToolEvents(lines)); }
  }

  // ---------------------------------------------------------------- reading only the end

  lemma {:induction false} ToolEventsSplit(lines: seq<Option<Line>>, k: nat)
    requires k <= |lines|
    ensures ToolEvents(lines) == ToolEvents(lines[..k]) + ToolEvents(lines[k..])
  {
    hide ToolEventsOf;
    if k == |lines| {
      assert lines[..k] == lines && lines[k..] == [];
    } else {
      var init, tail := lines[..|lines| - 1], lines[k..];
      ToolEventsSplit(init, k);
      assert init[..k] == lines[..k];
      assert tail[..|tail| - 1] == init[k..] && tail[|tail| - 1] == lines[|lines| - 1];
    }
  }

  lemma LastUseShifts(evs: seq<ToolEvent>, more: seq<ToolEvent>, i: int)
    requires LastUse(more, i)
    ensures LastUse(evs + more, |evs| + i) && (evs + more)[|evs| + i] == more[i]
  {}

  /** A tail of the lines has no tool pending that the whole has not, under the same name; so a
      tail that reads as awaiting input means the whole transcript does. */
  lemma TailUnderstates(lines: seq<Option<Line>>, k: nat)
    requires k <= |lines|
    ensures forall id :: id in Fold(lines[k..]).pending ==>
      id in Fold(lines).pending && Fold(lines).pending[id] == Fold(lines[k..]).pending[id]
    ensures StateOf(Fold(lines[k..])).Awaiting? ==> StateOf(Fold(lines)).Awaiting?
  {
    hide Fold, ToolEvents;
    PendingMeaning(lines);
    PendingMeaning(lines[k..]);
    ToolEventsSplit(lines, k);
    var evs, tail := ToolEvents(lines[..k]), ToolEvents(lines[k..]);
    var whole, part := Fold(lines).pending, Fold(lines[k..]).pending;
    forall id | id in part ensures id in whole && whole[id] == part[id] {
      var i :| LastUse(tail, i) && tail[i] == Used(id, part[id]);
      LastUseShifts(evs, tail, i);
      LastUsePends(whole, evs + tail, |evs| + i);
    }
    if ASK_USER in part.Values {
      var id :| id in part && part[id] == ASK_USER;
      assert whole[id] in whole.Values;
    }
  }
}
