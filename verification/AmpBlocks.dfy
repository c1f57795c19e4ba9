/**
 What the amp translator says of each block, read off the lines alone: texts and thinking with
 their text, a call with its name and input, and a result with the name and input of the latest
 unanswered call with its id, its own content, and whether it failed.
 */
module AmpBlocks {
  import opened Common
  import opened AmpTranslator
  import opened AmpConservation

  /** A block of a line, a report of usage, or the end of the turn. */
  datatype Act = BlockAct(b: Block, parent: Option<string>, fromUser: bool) | UsageAct | EndAct

  function BlockActs(content: seq<Block>, parent: Option<string>, fromUser: bool): seq<Act> {
    seq(|content|, i requires 0 <= i < |content| => BlockAct(content[i], parent, fromUser))
  }

  /** An assistant line reports its usage last, a result line before it ends the turn. */
  function ActsOf(v: Value): seq<Act> {
    match v
    case Assistant(parent, content, usage, _) => BlockActs(content, parent, false) + if usage then [UsageAct] else []
    case User(parent, content) => BlockActs(content, parent, true)
    case Result(usage, _) => (if usage then [UsageAct] else []) + [EndAct]
    case OtherValue => []
  }

  function Acts(values: seq<Value>): seq<Act> {
    if values == [] then [] else Acts(values[..|values| - 1]) + ActsOf(values[|values| - 1])
  }

  /** A call of tool `id`. */
  predicate Calls(a: Act, id: string) {
    a.BlockAct? && !a.fromUser && a.b.ToolUse? && id == if a.b.id.Str? then a.b.id.s else a.b.uuid
  }

  /** A result for tool `id`. */
  predicate AnswersCall(a: Act, id: string) {
    a.BlockAct? && a.fromUser && a.b.ToolResult? && a.b.toolUseId == Str(id)
  }

  /** The call at `i` is the latest of this tool, and it is still unanswered. */
  predicate DueFrom(acts: seq<Act>, id: string, i: int): (due: bool)
    ensures due ==> 0 <= i < |acts| && acts[i].BlockAct? && acts[i].b.ToolUse?
  {
    && 0 <= i < |acts| && Calls(acts[i], id)
    && forall j :: i < j < |acts| ==> !Calls(acts[j], id) && !AnswersCall(acts[j], id) && !acts[j].EndAct?
  }

  ghost predicate IsDue(acts: seq<Act>, id: string) {
    exists i :: DueFrom(acts, id, i)
  }

  /** The item shows the call of block `b`. */
  predicate ShowsCall(item: Item, id: string, b: Block) {
    && item.DynamicTool? && b.ToolUse? && item.id == id
    && item.tool == (if b.name.Str? then b.name.s else "unknown")
    && item.arguments == (if b.input.Some? then b.input.value else "{}")
  }

  predicate ShowsResult(item: Item, b: Block) {
    && item.DynamicTool? && b.ToolResult?
    && item.output == Some(if b.content.Str? then b.content.s else "")
    && (if b.isError == Some(true) then item.status == Broken && item.success == Some(false)
        else item.status == Done && item.success == Some(true))
  }

  /** What one act makes the translator say. */
  ghost predicate Tells(before: seq<Act>, a: Act, notes: seq<Note>) {
    match a
    case UsageAct => notes == [TokenUsage]
    case EndAct => GivesUp(before, notes)
    case BlockAct(b, parent, fromUser) =>
      if fromUser then
        if b.ToolResult? && b.toolUseId.Str? then Answered(before, b, parent, notes) else notes == []
      else
        match b
        case TextBlock(text, uuid) => TellsText(text, uuid, parent, notes)
        case ThinkingBlock(thinking, data, uuid) =>
          TellsThinking(if thinking.Missing? then data else thinking, uuid, parent, notes)
        case ToolUse(id, _, _, uuid) =>
          && |notes| == 1 && notes[0].Started? && notes[0].parent == parent
          && ShowsCall(notes[0].item, if id.Str? then id.s else uuid, b)
          && notes[0].item.status == Running && notes[0].item.output.None? && notes[0].item.success.None?
        case _ => notes == []
  }

  /** Every call still due is given up, in some order. */
  ghost predicate GivesUp(before: seq<Act>, notes: seq<Note>) {
    && (forall k :: 0 <= k < |notes| ==> notes[k].Completed? && GivenUp(before, notes[k]))
    && Distinct(CompletedIds(notes))
    && (forall id :: IsDue(before, id) <==> id in CompletedIds(notes))
  }

  predicate TellsText(text: Member, uuid: string, parent: Option<string>, notes: seq<Note>) {
    if text.Str? && text.s != "" then
      notes == [Started(AgentMessage(uuid, ""), parent), AgentDelta(uuid, text.s, parent),
                Completed(AgentMessage(uuid, text.s), parent)]
    else notes == []
  }

  predicate TellsThinking(text: Member, uuid: string, parent: Option<string>, notes: seq<Note>) {
    if text.Str? && text.s != "" then
      notes == [Started(Reasoning(uuid, []), parent), ReasoningDelta(uuid, text.s, parent),
                Completed(Reasoning(uuid, [text.s]), parent)]
    else notes == []
  }

  /** A result completes the call that is due, under the parent of that call; or an unknown one. */
  ghost predicate Answered(before: seq<Act>, b: Block, parent: Option<string>, notes: seq<Note>)
    requires b.ToolResult? && b.toolUseId.Str?
  {
    var id := b.toolUseId.s;
    && |notes| == 1 && notes[0].Completed? && ShowsResult(notes[0].item, b)
    && (forall i :: DueFrom(before, id, i) ==>
          ShowsCall(notes[0].item, id, before[i].b) && notes[0].parent == before[i].parent)
    && (!IsDue(before, id) ==>
          && notes[0].item.id == id && notes[0].item.tool == "unknown" && notes[0].item.arguments == "{}"
          && notes[0].parent == parent)
  }

  ghost predicate GivenUp(before: seq<Act>, note: Note)
    requires note.Completed?
  {
    exists i :: DueFrom(before, note.item.id, i)
                && ShowsCall(note.item, note.item.id, before[i].b) && note.parent == before[i].parent
                && note.item.status == Broken && note.item.success == Some(false)
                && note.item.output == Some("amp result arrived before tool result")
  }

  // ---- The pending tools are the calls due ----

  function PendingOf(id: string, a: Act): Pending
    requires a.BlockAct? && a.b.ToolUse?
  {
    Pending(id, StrOr(a.b.name, "unknown"), ValueOr(a.b.input, "{}"), a.parent)
  }

  ghost predicate PendingFits(pending: map<string, Pending>, acts: seq<Act>) {
    && (forall id :: id in pending <==> IsDue(acts, id))
    && (forall id, i :: DueFrom(acts, id, i) ==> id in pending && pending[id] == PendingOf(id, acts[i]))
  }

  lemma DueStep(acts: seq<Act>, a: Act, id: string, i: int)
    ensures DueFrom(acts + [a], id, i) <==>
            if i == |acts| then Calls(a, id)
            else DueFrom(acts, id, i) && !Calls(a, id) && !AnswersCall(a, id) && !a.EndAct?
  {
    var more := acts + [a];
    hide Calls, AnswersCall;
    assert more[|acts|] == a && forall j :: 0 <= j < |acts| ==> more[j] == acts[j];
    if i != |acts| && DueFrom(acts, id, i) && !Calls(a, id) && !AnswersCall(a, id) && !a.EndAct? {
      assert forall j :: i < j < |more| ==> more[j] == if j < |acts| then acts[j] else a;
    }
  }

  lemma IsDueStep(acts: seq<Act>, a: Act, id: string)
    ensures IsDue(acts + [a], id) <==> Calls(a, id) || (IsDue(acts, id) && !AnswersCall(a, id) && !a.EndAct?)
  {
    hide Calls, AnswersCall, DueFrom;
    DueStep(acts, a, id, |acts|);
    if IsDue(acts, id) {
      var i :| DueFrom(acts, id, i);
      assert i < |acts| by {
        DueRange(acts, id, i);
      }
      DueStep(acts, a, id, i);
      if !Calls(a, id) && !AnswersCall(a, id) && !a.EndAct? {
        assert DueFrom(acts + [a], id, i);
      }
    }
    if IsDue(acts + [a], id) {
      var i :| DueFrom(acts + [a], id, i);
      DueStep(acts, a, id, i);
    }
    if Calls(a, id) {
      assert DueFrom(acts + [a], id, |acts|);
    }
  }

  lemma DueRange(acts: seq<Act>, id: string, i: int)
    requires DueFrom(acts, id, i)
    ensures 0 <= i < |acts| && Calls(acts[i], id)
  {
  }

  /** What the act does to the pending tools. */
  function NextPending(pending: map<string, Pending>, a: Act): map<string, Pending> {
    if a.EndAct? then map[]
    else if a.BlockAct? && !a.fromUser && a.b.ToolUse? then
      var id := StrOr(a.b.id, a.b.uuid);
      pending[id := PendingOf(id, a)]
    else if a.BlockAct? && a.fromUser && a.b.ToolResult? && a.b.toolUseId.Str? then pending - {a.b.toolUseId.s}
    else pending
  }

  lemma PendingStep(pending: map<string, Pending>, acts: seq<Act>, a: Act)
    requires PendingFits(pending, acts)
    ensures PendingFits(NextPending(pending, a), acts + [a])
  {
    var next, more := NextPending(pending, a), acts + [a];
    hide DueFrom, IsDue;
    forall id ensures id in next <==> IsDue(more, id) {
      IsDueStep(acts, a, id);
    }
    forall id, i | DueFrom(more, id, i) ensures id in next && next[id] == PendingOf(id, more[i]) {
      DueStep(acts, a, id, i);
      DueRange(more, id, i);
      if i < |acts| {
        assert DueFrom(acts, id, i) && more[i] == acts[i];
      }
    }
  }

  // ---- Act by act ----

  /** The state after one act. */
  function Do(s: State, a: Act, order: seq<string>): State
    requires a.EndAct? ==> forall id :: id in order ==> id in s.pending
  {
    match a
    case BlockAct(b, parent, fromUser) => if fromUser then UserBlock(s, parent, b) else AssistantBlock(s, parent, b)
    case UsageAct => Usage(s, true)
    case EndAct => Drain(s, order, s.pending).(pending := map[])
  }

  lemma BlockTells(s: State, acts: seq<Act>, b: Block, parent: Option<string>)
    ensures var n := AssistantBlock(s, parent, b);
            && s.notes <= n.notes && n.pending == NextPending(s.pending, BlockAct(b, parent, false))
            && Tells(acts, BlockAct(b, parent, false), n.notes[|s.notes|..])
  {
    var n := AssistantBlock(s, parent, b);
    match b
    case TextBlock(member, uuid) =>
      if StrOr(member, "") != "" {
        assert n.notes[|s.notes|..] == [Started(AgentMessage(uuid, ""), parent), AgentDelta(uuid, member.s, parent),
                                        Completed(AgentMessage(uuid, member.s), parent)];
      }
    case ThinkingBlock(thinking, data, uuid) =>
      var member := if thinking.Missing? then data else thinking;
      if StrOr(member, "") != "" {
        assert n.notes[|s.notes|..] == [Started(Reasoning(uuid, []), parent), ReasoningDelta(uuid, member.s, parent),
                                        Completed(Reasoning(uuid, [member.s]), parent)];
      }
    case _ =>
  }

  lemma ResultTells(s: State, acts: seq<Act>, b: Block, parent: Option<string>)
    requires PendingFits(s.pending, acts)
    ensures var n := UserBlock(s, parent, b);
            && s.notes <= n.notes && n.pending == NextPending(s.pending, BlockAct(b, parent, true))
            && Tells(acts, BlockAct(b, parent, true), n.notes[|s.notes|..])
  {
    hide DueFrom, IsDue;
    var n := UserBlock(s, parent, b);
    if b.ToolResult? && b.toolUseId.Str? {
      var id := b.toolUseId.s;
      var p := if id in s.pending then s.pending[id] else Pending(id, "unknown", "{}", parent);
      var note := n.notes[|s.notes|];
      assert n.notes[|s.notes|..] == [note];
      assert note.parent == p.parent && note.item.id == p.id;
      assert note.item.tool == p.name && note.item.arguments == p.input;
      forall i | DueFrom(acts, id, i)
        ensures ShowsCall(note.item, id, acts[i].b) && note.parent == acts[i].parent
      {
        DueRange(acts, id, i);
        assert p == PendingOf(id, acts[i]);
      }
    }
  }

  lemma {:induction false} DrainTells(s: State, acts: seq<Act>, order: seq<string>, pending: map<string, Pending>)
    requires PendingFits(pending, acts) && forall id :: id in order ==> id in pending
    ensures s.notes <= Drain(s, order, pending).notes
    ensures var notes := Drain(s, order, pending).notes[|s.notes|..];
            && |notes| == |order|
            && (forall k :: 0 <= k < |notes| ==>
                  notes[k].Completed? && notes[k].item.id == order[k] && GivenUp(acts, notes[k]))
  {
    hide PendingFits, GivenUp, AbandonedItem;
    if order != [] {
      var front, id := order[..|order| - 1], order[|order| - 1];
      DrainTells(s, acts, front, pending);
      var before, p := Drain(s, front, pending), pending[id];
      var note := Completed(AbandonedItem(p), p.parent);
      assert Drain(s, order, pending).notes == before.notes + [note];
      assert Drain(s, order, pending).notes[|s.notes|..] == before.notes[|s.notes|..] + [note];
      OneGivenUp(pending, acts, id);
    }
  }

  lemma OneGivenUp(pending: map<string, Pending>, acts: seq<Act>, id: string)
    requires PendingFits(pending, acts) && id in pending
    ensures var p := pending[id]; AbandonedItem(p).id == id && GivenUp(acts, Completed(AbandonedItem(p), p.parent))
  {
    assert IsDue(acts, id);
    var i :| DueFrom(acts, id, i);
    DueRange(acts, id, i);
    hide DueFrom;
    assert ShowsCall(AbandonedItem(pending[id]), id, acts[i].b);
  }

  lemma EndTells(s: State, acts: seq<Act>, order: seq<string>)
    requires PendingFits(s.pending, acts) && DrainOrder(order, s.pending)
    ensures var n := Do(s, EndAct, order);
            s.notes <= n.notes && n.pending == map[] && Tells(acts, EndAct, n.notes[|s.notes|..])
  {
    hide PendingFits, Drain, GivenUp, IsDue, Distinct, CompletedIds;
    DrainTells(s, acts, order, s.pending);
    DueInOrder(s.pending, acts, order);
    IdsInOrder(Drain(s, order, s.pending).notes[|s.notes|..], order);
  }

  lemma DueInOrder(pending: map<string, Pending>, acts: seq<Act>, order: seq<string>)
    requires PendingFits(pending, acts) && DrainOrder(order, pending)
    ensures Distinct(order) && forall id :: IsDue(acts, id) <==> id in order
  {
    hide Distinct, IsDue, DueFrom;
  }

  lemma {:induction false} IdsInOrder(notes: seq<Note>, order: seq<string>)
    requires |notes| == |order|
    requires forall k :: 0 <= k < |notes| ==> notes[k].Completed? && notes[k].item.id == order[k]
    ensures CompletedIds(notes) == order
  {
    if order != [] {
      var n := |order| - 1;
      IdsInOrder(notes[..n], order[..n]);
      assert order == order[..n] + [order[n]];
    }
  }

  lemma ActTells(s: State, acts: seq<Act>, a: Act, order: seq<string>)
    requires PendingFits(s.pending, acts) && (a.EndAct? ==> DrainOrder(order, s.pending))
    ensures var n := Do(s, a, order);
            s.notes <= n.notes && Tells(acts, a, n.notes[|s.notes|..]) && PendingFits(n.pending, acts + [a])
  {
    PendingStep(s.pending, acts, a);
    hide PendingFits, AssistantBlock, UserBlock, Drain, IsDue, GivenUp, Answered;
    match a
    case BlockAct(b, parent, fromUser) =>
      if fromUser {
        ResultTells(s, acts, b, parent);
      } else {
        BlockTells(s, acts, b, parent);
      }
    case UsageAct => assert Usage(s, true).notes[|s.notes|..] == [TokenUsage];
    case EndAct => EndTells(s, acts, order);
  }

  /** The notifications told so far, act by act. */
  ghost predicate ToldBy(acts: seq<Act>, parts: seq<seq<Note>>) {
    |parts| == |acts| && forall j :: 0 <= j < |acts| ==> Tells(acts[..j], acts[j], parts[j])
  }

  lemma ToldMore(acts: seq<Act>, parts: seq<seq<Note>>, a: Act, notes: seq<Note>)
    requires ToldBy(acts, parts) && Tells(acts, a, notes)
    ensures ToldBy(acts + [a], parts + [notes])
  {
    hide Tells;
    var more := acts + [a];
    forall j | 0 <= j < |more| ensures Tells(more[..j], more[j], (parts + [notes])[j]) {
      assert more[..j] == if j < |acts| then acts[..j] else acts;
    }
  }

  /** One more act, told. */
  lemma Tell(s: State, acts: seq<Act>, parts: seq<seq<Note>>, a: Act, order: seq<string>) returns (more: seq<seq<Note>>)
    requires PendingFits(s.pending, acts) && (a.EndAct? ==> DrainOrder(order, s.pending))
    requires ToldBy(acts, parts) && s.notes == Flatten(parts)
    ensures var n := Do(s, a, order);
            PendingFits(n.pending, acts + [a]) && ToldBy(acts + [a], more) && n.notes == Flatten(more)
  {
    hide PendingFits, Do, Tells;
    ActTells(s, acts, a, order);
    var notes := Do(s, a, order).notes[|s.notes|..];
    ToldMore(acts, parts, a, notes);
    FlattenAppend(parts, notes);
    more := parts + [notes];
  }

  lemma {:induction false} TellBlocks(s: State, acts: seq<Act>, parts: seq<seq<Note>>, parent: Option<string>,
                                      content: seq<Block>, fromUser: bool) returns (more: seq<seq<Note>>)
    requires PendingFits(s.pending, acts) && ToldBy(acts, parts) && s.notes == Flatten(parts)
    ensures var n, after := Blocks(s, parent, content, fromUser), acts + BlockActs(content, parent, fromUser);
            PendingFits(n.pending, after) && ToldBy(after, more) && n.notes == Flatten(more)
  {
    hide PendingFits, AssistantBlock, UserBlock, ToldBy;
    if content == [] {
      more := parts;
      assert acts + BlockActs(content, parent, fromUser) == acts;
    } else {
      var front, b := content[..|content| - 1], content[|content| - 1];
      var before := TellBlocks(s, acts, parts, parent, front, fromUser);
      var a, sofar := BlockAct(b, parent, fromUser), acts + BlockActs(front, parent, fromUser);
      more := Tell(Blocks(s, parent, front, fromUser), sofar, before, a, []);
      assert acts + BlockActs(content, parent, fromUser) == sofar + [a];
    }
  }

  lemma TellUsage(s: State, acts: seq<Act>, parts: seq<seq<Note>>, usage: bool) returns (more: seq<seq<Note>>)
    requires PendingFits(s.pending, acts) && ToldBy(acts, parts) && s.notes == Flatten(parts)
    ensures var n, after := Usage(s, usage), acts + if usage then [UsageAct] else [];
            n.pending == s.pending && PendingFits(n.pending, after) && ToldBy(after, more) && n.notes == Flatten(more)
  {
    hide PendingFits, ToldBy;
    if usage {
      more := Tell(s, acts, parts, UsageAct, []);
    } else {
      more := parts;
      assert acts + [] == acts;
    }
  }

  lemma TellLine(s: State, acts: seq<Act>, parts: seq<seq<Note>>, v: Value, order: seq<string>)
    returns (more: seq<seq<Note>>)
    requires PendingFits(s.pending, acts) && ToldBy(acts, parts) && s.notes == Flatten(parts)
    requires DrainOrder(order, s.pending)
    ensures var n := Translate(s, v, order);
            && PendingFits(n.pending, acts + ActsOf(v)) && ToldBy(acts + ActsOf(v), more) && n.notes == Flatten(more)
  {
    hide PendingFits, ToldBy, Blocks, Drain, BlockActs;
    match v
    case Assistant(parent, content, usage, _) =>
      more := TellBlocks(s, acts, parts, parent, content, false);
      more := TellUsage(Blocks(s, parent, content, false), acts + BlockActs(content, parent, false), more, usage);
      assert acts + BlockActs(content, parent, false) + (if usage then [UsageAct] else []) == acts + ActsOf(v);
    case User(parent, content) => more := TellBlocks(s, acts, parts, parent, content, true);
    case Result(usage, _) =>
      more := TellUsage(s, acts, parts, usage);
      var sofar := acts + if usage then [UsageAct] else [];
      more := Tell(Usage(s, usage), sofar, more, EndAct, order);
      assert sofar + [EndAct] == acts + ActsOf(v);
    case OtherValue =>
      more := parts;
      assert acts + [] == acts;
  }

  /**
   Over any lines, the notifications are, block by block, those the lines call for; the items of
   the turn are the initial ones and then the completed ones among them, in order.
   */
  lemma {:induction false} LinesTell(states: seq<State>, initial: seq<Item>, values: seq<Value>,
                                     orders: seq<seq<string>>, k: nat) returns (parts: seq<seq<Note>>)
    requires IsRun(states, initial, values, orders) && k <= |values|
    ensures ToldBy(Acts(values[..k]), parts) && states[k].notes == Flatten(parts)
    ensures states[k].items == initial + CompletedItems(states[k].notes)
    ensures PendingFits(states[k].pending, Acts(values[..k]))
  {
    hide Books, Balanced, ToldBy, ActsOf, Translate, CompletedItems, PendingFits;
    RunInvariant(states, initial, values, orders, k);
    if k == 0 {
      parts := [];
      NothingTold();
    } else {
      var before := LinesTell(states, initial, values, orders, k - 1);
      assert values[..k][..k - 1] == values[..k - 1];
      parts := TellLine(states[k - 1], Acts(values[..k - 1]), before, values[k - 1], orders[k - 1]);
    }
  }

  lemma NothingTold()
    ensures ToldBy([], []) && Flatten<Note>([]) == [] && PendingFits(map[], [])
  {
  }
}
