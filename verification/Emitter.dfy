/**
 The live emitter (crates/acp-bridge/src/streaming.rs): `TurnStreamEmitter`. It sends
 notifications while it builds the items stored for the turn. `State`, `Ingest`, `Run`
 and `FinishNotes` say what it does; the class does it with the id index of the source.
 The notification sink is the log `notes`.
 */
module Emitter {
  import opened Common
  import opened Ids
  import opened AcpProtocol
  import opened ToolCalls

  datatype Note =
    | Started(item: Item, at: int)
    | Delta(kind: TextKind, id: ItemId, text: string)
    | ItemDone(item: Item, at: int)

  datatype TextRun = TextRun(kind: TextKind, n: nat, text: string)

  datatype Inflight = Inflight(call: CallState, completed: bool)

  datatype State = State(items: seq<Item>, run: Option<TextRun>, textSeq: nat,
                         calls: map<string, Inflight>, plan: Option<seq<Payload>>,
                         commands: Option<seq<Payload>>, mode: Option<string>, notes: seq<Note>)

  const INITIAL := State([], None, 0, map[], None, None, None, [])

  /** `pluck_text` */
  function PluckText(content: Option<ContentBlock>): string {
    match content
    case None => ""
    case Some(Bare(s)) => s
    case Some(b) => ValueOr(b.text, "")
  }

  function RunItem(r: TextRun): Item {
    TextItem(r.kind, r.n, r.text)
  }

  function Emit(s: State, note: Note): State {
    s.(notes := s.notes + [note])
  }

  function PushItem(s: State, item: Item): State {
    s.(items := s.items + [item])
  }

  function FlushText(s: State, now: int): State {
    match s.run
    case None => s
    case Some(r) => Emit(PushItem(s.(run := None), RunItem(r)), ItemDone(RunItem(r), now))
  }

  function OpenRun(s: State, kind: TextKind, now: int): State {
    if s.run.Some? then s
    else
      var r := TextRun(kind, s.textSeq, "");
      Emit(s, Started(RunItem(r), now)).(run := Some(r), textSeq := s.textSeq + 1)
  }

  function ExtendRun(s: State, text: string): State
    requires s.run.Some?
  {
    var r := s.run.value;
    Emit(s, Delta(r.kind, RunItem(r).id, text)).(run := Some(r.(text := r.text + text)))
  }

  function HandleText(s: State, kind: TextKind, content: Option<ContentBlock>, now: int): State {
    var text := PluckText(content);
    if text == "" then s
    else
      var t := if s.run.Some? && s.run.value.kind != kind then FlushText(s, now) else s;
      ExtendRun(OpenRun(t, kind, now), text)
  }

  function HandleToolCall(s: State, fields: ToolFields, now: int): State {
    if ValueOr(fields.callId, "") == "" then s
    else
      var call := FromAnnounce(fields, now);
      PushItem(Emit(s, Started(Render(call), call.startedAt)), Render(call))
        .(calls := s.calls[fields.callId.value := Inflight(call, false)])
  }

  /** Merge an update into a known call and rewrite its slot. */
  function MergeInto(s: State, id: string, fields: ToolFields, now: int): State
    requires id in s.calls
  {
    var call := MergeUpdate(s.calls[id].call, fields, now);
    var item, done := Render(call), IsTerminal(call.status);
    var t := s.(calls := s.calls[id := Inflight(call, s.calls[id].completed || done)],
                items := ReplaceItem(s.items, call.itemId, item));
    if done then Emit(t, ItemDone(item, now)) else t
  }

  function HandleToolCallUpdate(s: State, fields: ToolFields, now: int): State {
    if ValueOr(fields.callId, "") == "" then s
    else
      var id := fields.callId.value;
      MergeInto(if id in s.calls then s else HandleToolCall(s, fields, now), id, fields, now)
  }

  function Ingest(s: State, f: Frame): State {
    if !f.isSessionUpdate || f.update.None? then s
    else
      match f.update.value
      case UserChunk(_) => FlushText(s, f.now)
      case TextChunk(kind, content) => HandleText(s, kind, content, f.now)
      case ToolCall(fields) => HandleToolCall(FlushText(s, f.now), fields, f.now)
      case ToolCallUpdate(fields) => HandleToolCallUpdate(FlushText(s, f.now), fields, f.now)
      case Plan(entries) =>
        var t := FlushText(s, f.now);
        if entries.Some? then t.(plan := entries) else t
      case Commands(commands) => if commands.Some? then s.(commands := commands) else s
      case Mode(id) => if id.Some? then s.(mode := id) else s
      case OtherUpdate => s
  }

  function Run(frames: seq<Frame>): State {
    if frames == [] then INITIAL
    else Ingest(Run(frames[..|frames| - 1]), frames[|frames| - 1])
  }

  /** `order` lists the calls in the order the hash map happens to drain them. */
  ghost predicate DrainOrder(order: seq<string>, calls: map<string, Inflight>) {
    Distinct(order) && forall c :: c in order <==> c in calls
  }

  /** The notifications of the drain at the end of the turn. */
  function DrainNotes(order: seq<string>, calls: map<string, Inflight>, now: int): seq<Note>
    requires forall c :: c in order ==> c in calls
  {
    if order == [] then []
    else
      var front, c := order[..|order| - 1], order[|order| - 1];
      DrainNotes(front, calls, now)
      + if calls[c].completed then [] else [ItemDone(Render(calls[c].call), now)]
  }

  /** The items after the drain rewrote the slots of the calls still open, in `order`. */
  function DrainItems(items: seq<Item>, order: seq<string>, calls: map<string, Inflight>): seq<Item>
    requires forall c :: c in order ==> c in calls
  {
    if order == [] then items
    else
      var front, c := order[..|order| - 1], order[|order| - 1];
      var rewritten := DrainItems(items, front, calls);
      if calls[c].completed then rewritten
      else ReplaceItem(rewritten, calls[c].call.itemId, Render(calls[c].call))
  }

  lemma DrainNext(items: seq<Item>, order: seq<string>, c: string, calls: map<string, Inflight>, now: int)
    requires c in calls && forall d :: d in order ==> d in calls
    ensures DrainNotes(order + [c], calls, now)
            == DrainNotes(order, calls, now) + if calls[c].completed then [] else [ItemDone(Render(calls[c].call), now)]
    ensures DrainItems(items, order + [c], calls)
            == if calls[c].completed then DrainItems(items, order, calls)
               else ReplaceItem(DrainItems(items, order, calls), calls[c].call.itemId, Render(calls[c].call))
  {
    hide Render, ReplaceItem;
    assert (order + [c])[..|order|] == order;
  }

  /** One call more in the order: what the drain has done so far, and that no call comes twice. */
  lemma DrainStep(items: seq<Item>, notes: seq<Note>, order: seq<string>, c: string,
                  calls: map<string, Inflight>, now: int)
    requires c in calls && c !in order && forall d :: d in order ==> d in calls
    ensures Distinct(order) ==> Distinct(order + [c])
    ensures notes + DrainNotes(order + [c], calls, now)
            == notes + DrainNotes(order, calls, now)
               + if calls[c].completed then [] else [ItemDone(Render(calls[c].call), now)]
    ensures DrainItems(items, order + [c], calls)
            == if calls[c].completed then DrainItems(items, order, calls)
               else ReplaceItem(DrainItems(items, order, calls), calls[c].call.itemId, Render(calls[c].call))
  {
    hide Render, ReplaceItem, DrainItems, DrainNotes, Distinct;
    DistinctAppend(order, c);
    DrainNext(items, order, c, calls, now);
  }

  /** `StreamFinish` */
  datatype StreamFinish = StreamFinish(items: seq<Item>, plan: Option<seq<Payload>>,
                                       commands: Option<seq<Payload>>, mode: Option<string>)

  class TurnStreamEmitter {
    var items: seq<Item>
    var itemIndex: map<ItemId, nat>
    var text: Option<TextRun>
    var textSeq: nat
    var toolCalls: map<string, Inflight>
    var plan: Option<seq<Payload>>
    var commands: Option<seq<Payload>>
    var mode: Option<string>
    var notes: seq<Note>

    /** The id index records the last position of every id, and nothing else. */
    ghost predicate Valid()
      reads this
    {
      && (forall id :: id in itemIndex <==> LastPos(items, id) >= 0)
      && (forall id :: id in itemIndex ==> itemIndex[id] == LastPos(items, id))
    }

    ghost function Value(): State
      reads this
    {
      State(items, text, textSeq, toolCalls, plan, commands, mode, notes)
    }

    constructor ()
      ensures Valid() && Value() == INITIAL
    {
      items, itemIndex, text, textSeq := [], map[], None, 0;
      toolCalls, plan, commands, mode, notes := map[], None, None, None, [];
    }

    method EmitNote(note: Note)
      modifies this`notes
      ensures notes == old(notes) + [note]
    {
      notes := notes + [note];
    }

    method Push(item: Item)
      requires Valid()
      modifies this`items, this`itemIndex
      ensures Valid() && items == old(items) + [item]
    {
      forall id ensures LastPos(items + [item], id) == if item.id == id then |items| else LastPos(items, id) {
        LastPosAppend(items, item, id);
      }
      var idx := |items|;
      items := items + [item];
      itemIndex := itemIndex[item.id := idx];
    }

    method Replace(id: ItemId, item: Item)
      requires Valid() && item.id == id
      modifies this`items, this`itemIndex
      ensures Valid() && items == ReplaceItem(old(items), id, item)
    {
      if id in itemIndex {
        var idx := itemIndex[id];
        forall other ensures LastPos(items[idx := item], other) == LastPos(items, other) {
          LastPosUpdate(items, idx, item, other);
        }
        items := items[idx := item];
      } else {
        Push(item);
      }
    }

    method Flush(now: int)
      requires Valid()
      modifies this
      ensures Valid() && Value() == FlushText(old(Value()), now)
    {
      if text.None? {
        return;
      }
      var item := RunItem(text.value);
      text := None;
      Push(item);
      EmitNote(ItemDone(item, now));
    }

    method Text(kind: TextKind, content: Option<ContentBlock>, now: int)
      requires Valid()
      modifies this
      ensures Valid() && Value() == HandleText(old(Value()), kind, content, now)
    {
      hide PluckText, LastPos;
      var chunk := PluckText(content);
      if chunk == "" {
        return;
      }
      if text.Some? && text.value.kind != kind {
        Flush(now);
      }
      if text.None? {
        var r := TextRun(kind, textSeq, "");
        textSeq := textSeq + 1;
        EmitNote(Started(RunItem(r), now));
        text := Some(r);
      }
      var r := text.value;
      text := Some(r.(text := r.text + chunk));
      EmitNote(Delta(kind, RunItem(r).id, chunk));
    }

    method Announce(fields: ToolFields, now: int)
      requires Valid()
      modifies this
      ensures Valid() && Value() == HandleToolCall(old(Value()), fields, now)
    {
      hide Render, LastPos;
      if fields.callId.None? || fields.callId.value == "" {
        return;
      }
      var call := FromAnnounce(fields, now);
      EmitNote(Started(Render(call), call.startedAt));
      Push(Render(call));
      toolCalls := toolCalls[fields.callId.value := Inflight(call, false)];
    }

    method MergeKnown(id: string, fields: ToolFields, now: int)
      requires Valid() && id in toolCalls
      modifies this
      ensures Valid() && Value() == MergeInto(old(Value()), id, fields, now)
    {
      hide Render, LastPos, ReplaceItem;
      var call := MergeUpdate(toolCalls[id].call, fields, now);
      var item, terminal := Render(call), IsTerminal(call.status);
      toolCalls := toolCalls[id := Inflight(call, toolCalls[id].completed || terminal)];
      Replace(call.itemId, item);
      if terminal {
        EmitNote(ItemDone(item, now));
      }
    }

    method Merge(fields: ToolFields, now: int)
      requires Valid()
      modifies this
      ensures Valid() && Value() == HandleToolCallUpdate(old(Value()), fields, now)
    {
      hide LastPos, MergeInto, Render;
      if fields.callId.None? || fields.callId.value == "" {
        return;
      }
      var id := fields.callId.value;
      if id !in toolCalls {
        Announce(fields, now);
      }
      MergeKnown(id, fields, now);
    }

    method IngestFrame(f: Frame)
      requires Valid()
      modifies this
      ensures Valid() && Value() == Ingest(old(Value()), f)
    {
      hide FlushText, HandleText, HandleToolCall, HandleToolCallUpdate, LastPos;
      if !f.isSessionUpdate || f.update.None? {
        return;
      }
      match f.update.value {
        case UserChunk(_) =>
          Flush(f.now);
        case TextChunk(kind, content) =>
          Text(kind, content, f.now);
        case ToolCall(fields) =>
          Flush(f.now);
          Announce(fields, f.now);
        case ToolCallUpdate(fields) =>
          Flush(f.now);
          Merge(fields, f.now);
        case Plan(entries) =>
          Flush(f.now);
          if entries.Some? {
            plan := entries;
          }
        case Commands(list) =>
          if list.Some? {
            commands := list;
          }
        case Mode(id) =>
          if id.Some? {
            mode := id;
          }
        case OtherUpdate =>
      }
    }

    /** One step of the drain: a call that is still open is rendered and completed. */
    method DrainOne(infl: Inflight, now: int)
      requires Valid()
      modifies this`items, this`itemIndex, this`notes
      ensures Valid()
      ensures items == if infl.completed then old(items)
                       else ReplaceItem(old(items), infl.call.itemId, Render(infl.call))
      ensures notes == old(notes) + if infl.completed then [] else [ItemDone(Render(infl.call), now)]
    {
      if !infl.completed {
        var item := Render(infl.call);
        Replace(infl.call.itemId, item);
        EmitNote(ItemDone(item, now));
      }
    }

    /** The drain of `finish`: each call in turn, in some order. */
    method Drain(drained: map<string, Inflight>, now: int) returns (ghost order: seq<string>)
      requires Valid()
      modifies this`items, this`itemIndex, this`notes
      ensures DrainOrder(order, drained)
      ensures notes == old(notes) + DrainNotes(order, drained, now)
      ensures items == DrainItems(old(items), order, drained)
    {
      hide Render, LastPos, ReplaceItem;
      order := [];
      var left := drained.Keys;
      while left != {}
        invariant Valid()
        invariant Distinct(order)
        invariant forall c :: c in order <==> c in drained && c !in left
        invariant left <= drained.Keys
        invariant notes == old(notes) + DrainNotes(order, drained, now)
        invariant items == DrainItems(old(items), order, drained)
        decreases |left|
      {
        hide Distinct, DrainNotes, DrainItems, Valid;
        var c :| c in left;
        DrainStep(old(items), old(notes), order, c, drained, now);
        DrainOne(drained[c], now);
        order, left := order + [c], left - {c};
      }
    }

    /** `finish`: `order` is the order in which the map of calls was drained. */
    method Finish(now: int) returns (out: StreamFinish, ghost order: seq<string>)
      requires Valid()
      modifies this
      ensures var last := FlushText(old(Value()), now);
              && DrainOrder(order, last.calls)
              && notes == last.notes + DrainNotes(order, last.calls, now)
              && out == StreamFinish(DrainItems(last.items, order, last.calls), last.plan, last.commands, last.mode)
    {
      hide FlushText, LastPos, DrainNotes, DrainItems, Distinct;
      Flush(now);
      var drained := toolCalls;
      toolCalls := map[];
      order := Drain(drained, now);
      out := StreamFinish(items, plan, commands, mode);
    }
  }
}
