/**
 The Amp turn translator (crates/amp-bridge/src/bridge.rs): `AmpTurnTranslator` turns the
 JSON lines of one amp process into thread items and notifications, and remembers the
 tools whose results are still due.
 */
module AmpTranslator {
  import opened Common

  /** A JSON member that should be a string. */
  datatype Member = Missing | NotString | Str(s: string)

  /** A content block; `uuid` is the fresh id the bridge draws when it needs one. */
  datatype Block =
    | TextBlock(text: Member, uuid: string)
    | ThinkingBlock(thinking: Member, data: Member, uuid: string)
    | ToolUse(id: Member, name: Member, input: Option<string>, uuid: string)
    | ToolResult(toolUseId: Member, content: Member, isError: Option<bool>)
    | OtherBlock

  /** One line from the amp process. `error` is the message of a failed result. */
  datatype Value =
    | Assistant(parent: Option<string>, content: seq<Block>, usage: bool, stopReason: Option<string>)
    | User(parent: Option<string>, content: seq<Block>)
    | Result(usage: bool, error: Option<string>)
    | OtherValue

  datatype ToolStatus = Running | Done | Broken

  datatype Item =
    | AgentMessage(id: string, text: string)
    | Reasoning(id: string, content: seq<string>)
    | DynamicTool(id: string, tool: string, arguments: string, status: ToolStatus,
                  output: Option<string>, success: Option<bool>)
    | UserMessage(id: string, input: string)

  datatype Note =
    | Started(item: Item, parent: Option<string>)
    | AgentDelta(id: string, delta: string, parent: Option<string>)
    | ReasoningDelta(id: string, delta: string, parent: Option<string>)
    | Completed(item: Item, parent: Option<string>)
    | TokenUsage

  datatype Pending = Pending(id: string, name: string, input: string, parent: Option<string>)

  /** The translator with everything it has sent: its notifications and completed items. */
  datatype State = State(items: seq<Item>, pending: map<string, Pending>,
                         notes: seq<Note>, completed: seq<Item>)

  function StrOr(m: Member, default: string): string {
    if m.Str? then m.s else default
  }

  function Say(s: State, notes: seq<Note>): State {
    s.(notes := s.notes + notes)
  }

  /** An item is done: it joins the items and the completed ones, and is announced. */
  function Finish(s: State, item: Item, parent: Option<string>): State {
    s.(items := s.items + [item], completed := s.completed + [item], notes := s.notes + [Completed(item, parent)])
  }

  function AssistantBlock(s: State, parent: Option<string>, b: Block): State {
    match b
    case TextBlock(member, uuid) =>
      var text := StrOr(member, "");
      if text == "" then s
      else
        Finish(Say(s, [Started(AgentMessage(uuid, ""), parent), AgentDelta(uuid, text, parent)]),
               AgentMessage(uuid, text), parent)
    case ThinkingBlock(thinking, data, uuid) =>
      var text := StrOr(if thinking.Missing? then data else thinking, "");
      if text == "" then s
      else
        Finish(Say(s, [Started(Reasoning(uuid, []), parent), ReasoningDelta(uuid, text, parent)]),
               Reasoning(uuid, [text]), parent)
    case ToolUse(id, name, input, uuid) =>
      var p := Pending(StrOr(id, uuid), StrOr(name, "unknown"), ValueOr(input, "{}"), parent);
      Say(s, [Started(DynamicTool(p.id, p.name, p.input, Running, None, None), parent)])
        .(pending := s.pending[p.id := p])
    case _ => s
  }

  function UserBlock(s: State, parent: Option<string>, b: Block): State {
    if !b.ToolResult? || !b.toolUseId.Str? then s
    else
      var id, failed := b.toolUseId.s, ValueOr(b.isError, false);
      var p := if id in s.pending then s.pending[id] else Pending(id, "unknown", "{}", parent);
      Finish(s.(pending := s.pending - {id}),
             DynamicTool(p.id, p.name, p.input, if failed then Broken else Done,
                         Some(StrOr(b.content, "")), Some(!failed)),
             p.parent)
  }

  function Blocks(s: State, parent: Option<string>, content: seq<Block>, fromUser: bool): State {
    if content == [] then s
    else
      var before, b := Blocks(s, parent, content[..|content| - 1], fromUser), content[|content| - 1];
      if fromUser then UserBlock(before, parent, b) else AssistantBlock(before, parent, b)
  }

  /** `order` lists the pending tools in the order the hash map drains them. */
  ghost predicate DrainOrder(order: seq<string>, pending: map<string, Pending>) {
    Distinct(order) && forall id :: id in order <==> id in pending
  }

  function AbandonedItem(p: Pending): Item {
    DynamicTool(p.id, p.name, p.input, Broken, Some("amp result arrived before tool result"), Some(false))
  }

  function Drain(s: State, order: seq<string>, pending: map<string, Pending>): State
    requires forall id :: id in order ==> id in pending
  {
    if order == [] then s
    else
      var p := pending[order[|order| - 1]];
      Finish(Drain(s, order[..|order| - 1], pending), AbandonedItem(p), p.parent)
  }

  function Usage(s: State, present: bool): State {
    if present then Say(s, [TokenUsage]) else s
  }

  function Translate(s: State, v: Value, order: seq<string>): State
    requires forall id :: id in order ==> id in s.pending
  {
    match v
    case Assistant(parent, content, usage, _) => Usage(Blocks(s, parent, content, false), usage)
    case User(parent, content) => Blocks(s, parent, content, true)
    case Result(usage, _) => Drain(Usage(s, usage), order, s.pending).(pending := map[])
    case OtherValue => s
  }

  /** `TranslateOutcome` */
  datatype Outcome = Outcome(notes: seq<Note>, completed: seq<Item>, closeStdin: bool,
                             resultSeen: bool, error: Option<string>)

  class AmpTurnTranslator {
    var items: seq<Item>
    var pendingTools: map<string, Pending>

    ghost function With(notes: seq<Note>, completed: seq<Item>): State
      reads this
    {
      State(items, pendingTools, notes, completed)
    }

    constructor (initialItems: seq<Item>)
      ensures With([], []) == State(initialItems, map[], [], [])
    {
      items, pendingTools := initialItems, map[];
    }

    method TranslateAssistant(parent: Option<string>, content: seq<Block>, usage: bool, stopReason: Option<string>)
      returns (out: Outcome)
      modifies this
      ensures With(out.notes, out.completed) == Usage(Blocks(old(With([], [])), parent, content, false), usage)
      ensures out.closeStdin == (stopReason.None? || stopReason.value == "end_turn" || stopReason.value == "max_tokens")
      ensures !out.resultSeen && out.error.None?
    {
      var notes: seq<Note>, completed: seq<Item> := [], [];
      for i := 0 to |content|
        invariant With(notes, completed) == Blocks(old(With([], [])), parent, content[..i], false)
      {
        assert content[..i + 1][..i] == content[..i];
        match content[i] {
          case TextBlock(member, uuid) =>
            var text := StrOr(member, "");
            if text != "" {
              var item := AgentMessage(uuid, text);
              notes := notes + [Started(AgentMessage(uuid, ""), parent), AgentDelta(uuid, text, parent)];
              items := items + [item];
              completed := completed + [item];
              notes := notes + [Completed(item, parent)];
            }
          case ThinkingBlock(thinking, data, uuid) =>
            var text := StrOr(if thinking.Missing? then data else thinking, "");
            if text != "" {
              var item := Reasoning(uuid, [text]);
              notes := notes + [Started(Reasoning(uuid, []), parent), ReasoningDelta(uuid, text, parent)];
              items := items + [item];
              completed := completed + [item];
              notes := notes + [Completed(item, parent)];
            }
          case ToolUse(id, name, input, uuid) =>
            var p := Pending(StrOr(id, uuid), StrOr(name, "unknown"), ValueOr(input, "{}"), parent);
            pendingTools := pendingTools[p.id := p];
            notes := notes + [Started(DynamicTool(p.id, p.name, p.input, Running, None, None), parent)];
          case _ =>
        }
      }
      assert content[..|content|] == content;
      if usage {
        notes := notes + [TokenUsage];
      }
      var close := match stopReason case None => true case Some(r) => r == "end_turn" || r == "max_tokens";
      out := Outcome(notes, completed, close, false, None);
    }

    method TranslateUser(parent: Option<string>, content: seq<Block>) returns (out: Outcome)
      modifies this
      ensures With(out.notes, out.completed) == Blocks(old(With([], [])), parent, content, true)
      ensures !out.closeStdin && !out.resultSeen && out.error.None?
    {
      var notes: seq<Note>, completed: seq<Item> := [], [];
      for i := 0 to |content|
        invariant With(notes, completed) == Blocks(old(With([], [])), parent, content[..i], true)
      {
        assert content[..i + 1][..i] == content[..i];
        var b := content[i];
        if b.ToolResult? && b.toolUseId.Str? {
          var id, failed := b.toolUseId.s, ValueOr(b.isError, false);
          var p := if id in pendingTools then pendingTools[id] else Pending(id, "unknown", "{}", parent);
          pendingTools := pendingTools - {id};
          var item := DynamicTool(p.id, p.name, p.input, if failed then Broken else Done,
                                  Some(StrOr(b.content, "")), Some(!failed));
          items := items + [item];
          completed := completed + [item];
          notes := notes + [Completed(item, p.parent)];
        }
      }
      assert content[..|content|] == content;
      out := Outcome(notes, completed, false, false, None);
    }

    method TranslateResult(usage: bool, error: Option<string>) returns (out: Outcome, ghost order: seq<string>)
      modifies this
      ensures DrainOrder(order, old(pendingTools))
      ensures With(out.notes, out.completed)
              == Drain(Usage(old(With([], [])), usage), order, old(pendingTools)).(pending := map[])
      ensures !out.closeStdin && out.resultSeen && out.error == error
    {
      var notes: seq<Note>, completed: seq<Item> := if usage then [TokenUsage] else [], [];
      var drained := pendingTools;
      pendingTools := map[];
      order := [];
      var left := drained.Keys;
      while left != {}
        invariant left <= drained.Keys && pendingTools == map[]
        invariant Distinct(order) && forall id :: id in order <==> id in drained && id !in left
        invariant With(notes, completed)
                  == Drain(Usage(old(With([], [])), usage), order, drained).(pending := map[])
        decreases |left|
      {
        var id :| id in left;
        DistinctAppend(order, id);
        assert (order + [id])[..|order|] == order;
        var p := drained[id];
        var item := AbandonedItem(p);
        items := items + [item];
        completed := completed + [item];
        notes := notes + [Completed(item, p.parent)];
        order, left := order + [id], left - {id};
      }
      out := Outcome(notes, completed, false, true, error);
    }

    /** `translate` */
    method TranslateValue(v: Value) returns (out: Outcome, ghost order: seq<string>)
      modifies this
      ensures DrainOrder(order, old(pendingTools))
      ensures With(out.notes, out.completed) == Translate(old(With([], [])), v, order)
      ensures out.resultSeen == v.Result?
      ensures out.error == if v.Result? then v.error else None
      ensures out.closeStdin <==>
              v.Assistant? && (v.stopReason.None? || v.stopReason.value in {"end_turn", "max_tokens"})
    {
      hide Blocks, Drain;
      if !v.Result? {
        order := KeysInSomeOrder(pendingTools);
      }
      match v {
        case Assistant(parent, content, usage, stopReason) =>
          out := TranslateAssistant(parent, content, usage, stopReason);
        case User(parent, content) =>
          out := TranslateUser(parent, content);
        case Result(usage, error) =>
          out, order := TranslateResult(usage, error);
        case OtherValue =>
          out := Outcome([], [], false, false, None);
      }
    }
  }

  ghost function KeysInSomeOrder(pending: map<string, Pending>): (order: seq<string>)
    ensures DrainOrder(order, pending)
    decreases |pending|
  {
    if pending == map[] then []
    else
      var id :| id in pending;
      var rest := KeysInSomeOrder(pending - {id});
      DistinctAppend(rest, id);
      rest + [id]
  }
}
