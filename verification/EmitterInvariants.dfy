/**
 What holds of the live emitter after every prefix of every stream: started ids and
 stored items stay in step, and every call's slot shows the call's current state, so the
 rewrites at the end of the turn change nothing, whatever order the calls are drained in.
 */
module EmitterInvariants {
  import opened Common
  import opened Ids
  import opened AcpProtocol
  import opened ToolCalls
  import opened Emitter

  /** The ids announced by `item/started`, in order. */
  function StartedIds(notes: seq<Note>): seq<ItemId> {
    if notes == [] then []
    else
      var last := notes[|notes| - 1];
      StartedIds(notes[..|notes| - 1]) + if last.Started? then [last.item.id] else []
  }

  lemma StartedIdsAppend(notes: seq<Note>, note: Note)
    ensures StartedIds(notes + [note]) == StartedIds(notes) + if note.Started? then [note.item.id] else []
  {
    assert (notes + [note])[..|notes|] == notes;
  }

  function OpenIds(run: Option<TextRun>): seq<ItemId> {
    match run
    case None => []
    case Some(r) => [RunItem(r).id]
  }

  ghost predicate InStep(s: State) {
    StartedIds(s.notes) == ItemIds(s.items) + OpenIds(s.run)
  }

  /** The last item under a call's id is the rendering of the call's state. */
  ghost predicate SlotShows(items: seq<Item>, c: string, call: CallState) {
    var p := LastPos(items, ToolId(c));
    c != "" && call.itemId == ToolId(c) && p >= 0 && items[p] == Render(call)
  }

  ghost predicate SlotsShow(s: State) {
    forall c :: c in s.calls ==> SlotShows(s.items, c, s.calls[c].call)
  }

  ghost predicate Inv(s: State) {
    InStep(s) && SlotsShow(s)
  }

  lemma SlotAfterPush(items: seq<Item>, item: Item, c: string, call: CallState)
    requires SlotShows(items, c, call) && item.id != ToolId(c)
    ensures SlotShows(items + [item], c, call)
  {
    LastPosAppend(items, item, ToolId(c));
  }

  lemma SlotsAfterPush(s: State, item: Item)
    requires SlotsShow(s)
    ensures forall c :: c in s.calls && item.id != ToolId(c) ==> SlotShows(s.items + [item], c, s.calls[c].call)
  {
    forall c | c in s.calls && item.id != ToolId(c) ensures SlotShows(s.items + [item], c, s.calls[c].call) {
      SlotAfterPush(s.items, item, c, s.calls[c].call);
    }
  }

  lemma FlushInv(s: State, now: int)
    requires Inv(s)
    ensures Inv(FlushText(s, now)) && FlushText(s, now).run.None?
  {
    if s.run.Some? {
      var item := RunItem(s.run.value);
      StartedIdsAppend(s.notes, ItemDone(item, now));
      ItemIdsAppend(s.items, item);
      SlotsAfterPush(s, item);
    }
  }

  lemma OpenInv(s: State, kind: TextKind, now: int)
    requires Inv(s)
    ensures Inv(OpenRun(s, kind, now)) && OpenRun(s, kind, now).run.Some?
  {
    if s.run.None? {
      StartedIdsAppend(s.notes, Started(RunItem(TextRun(kind, s.textSeq, "")), now));
    }
  }

  lemma ExtendInv(s: State, text: string)
    requires Inv(s) && s.run.Some?
    ensures Inv(ExtendRun(s, text))
  {
    StartedIdsAppend(s.notes, Delta(s.run.value.kind, RunItem(s.run.value).id, text));
  }

  lemma TextInv(s: State, kind: TextKind, content: Option<ContentBlock>, now: int)
    requires Inv(s)
    ensures Inv(HandleText(s, kind, content, now))
  {
    hide Inv, FlushText, OpenRun, ExtendRun, PluckText;
    FlushInv(s, now);
    var t := if s.run.Some? && s.run.value.kind != kind then FlushText(s, now) else s;
    OpenInv(t, kind, now);
    ExtendInv(OpenRun(t, kind, now), PluckText(content));
  }

  lemma ToolCallInv(s: State, fields: ToolFields, now: int)
    requires Inv(s) && s.run.None?
    ensures var t := HandleToolCall(s, fields, now);
            && Inv(t) && t.run.None?
            && (ValueOr(fields.callId, "") != "" ==> fields.callId.value in t.calls)
  {
    hide Render;
    if ValueOr(fields.callId, "") != "" {
      var c, call := fields.callId.value, FromAnnounce(fields, now);
      StartedIdsAppend(s.notes, Started(Render(call), call.startedAt));
      ItemIdsAppend(s.items, Render(call));
      SlotsAfterPush(s, Render(call));
      LastPosAppend(s.items, Render(call), ToolId(c));
    }
  }

  lemma SlotAfterReplace(items: seq<Item>, id: string, item: Item, c: string, call: CallState)
    requires LastPos(items, ToolId(id)) >= 0 && item.id == ToolId(id)
    requires if c == id then c != "" && call.itemId == item.id && item == Render(call) else SlotShows(items, c, call)
    ensures SlotShows(ReplaceItem(items, ToolId(id), item), c, call)
  {
    hide Render;
    LastPosUpdate(items, LastPos(items, ToolId(id)), item, ToolId(c));
  }

  lemma MergeInv(s: State, id: string, fields: ToolFields, now: int)
    requires Inv(s) && s.run.None? && id in s.calls
    ensures Inv(MergeInto(s, id, fields, now)) && MergeInto(s, id, fields, now).run.None?
  {
    hide Render, IsTerminal;
    var call := MergeUpdate(s.calls[id].call, fields, now);
    var item := Render(call);
    var t := MergeInto(s, id, fields, now);
    assert SlotShows(s.items, id, s.calls[id].call);
    ItemIdsUpdate(s.items, LastPos(s.items, ToolId(id)), item);
    StartedIdsAppend(s.notes, ItemDone(item, now));
    forall c | c in t.calls ensures SlotShows(t.items, c, t.calls[c].call) {
      hide LastPos, ReplaceItem;
      SlotAfterReplace(s.items, id, item, c, t.calls[c].call);
    }
  }

  lemma UpdateInv(s: State, fields: ToolFields, now: int)
    requires Inv(s) && s.run.None?
    ensures Inv(HandleToolCallUpdate(s, fields, now))
  {
    hide Inv, HandleToolCall, MergeInto;
    if ValueOr(fields.callId, "") != "" {
      var id := fields.callId.value;
      ToolCallInv(s, fields, now);
      MergeInv(if id in s.calls then s else HandleToolCall(s, fields, now), id, fields, now);
    }
  }

  /** Plan, commands and mode play no part in the invariant. */
  lemma SettingsInv(s: State, t: State)
    requires Inv(s) && t.items == s.items && t.run == s.run && t.calls == s.calls && t.notes == s.notes
    ensures Inv(t)
  {
  }

  lemma IngestInv(s: State, f: Frame)
    requires Inv(s)
    ensures Inv(Ingest(s, f))
  {
    hide Inv, FlushText, HandleText, HandleToolCall, HandleToolCallUpdate;
    if f.isSessionUpdate && f.update.Some? {
      FlushInv(s, f.now);
      match f.update.value
      case TextChunk(kind, content) => TextInv(s, kind, content, f.now);
      case ToolCall(fields) => ToolCallInv(FlushText(s, f.now), fields, f.now);
      case ToolCallUpdate(fields) => UpdateInv(FlushText(s, f.now), fields, f.now);
      case Plan(_) => SettingsInv(FlushText(s, f.now), Ingest(s, f));
      case Commands(_) => SettingsInv(s, Ingest(s, f));
      case Mode(_) => SettingsInv(s, Ingest(s, f));
      case _ =>
    }
  }

  /** At every point of every run: the ids of the `item/started` notifications, in order,
      are the ids of the items followed by the open run's id, and every call in flight has
      a slot that shows its state. */
  lemma {:induction false} RunInv(frames: seq<Frame>)
    ensures Inv(Run(frames))
  {
    hide Ingest;
    if frames != [] {
      RunInv(frames[..|frames| - 1]);
      IngestInv(Run(frames[..|frames| - 1]), frames[|frames| - 1]);
    }
  }

  lemma {:induction false} DrainChangesNothing(items: seq<Item>, order: seq<string>, calls: map<string, Inflight>)
    requires forall c :: c in order ==> c in calls
    requires forall c :: c in calls ==> SlotShows(items, c, calls[c].call)
    ensures DrainItems(items, order, calls) == items
  {
    hide Render;
    if order != [] {
      var c := order[|order| - 1];
      DrainChangesNothing(items, order[..|order| - 1], calls);
      assert SlotShows(items, c, calls[c].call);
    }
  }

  /** The items a turn stores do not depend on the order in which the calls are drained:
      they are the items as they stood before the drain. */
  lemma FinishItems(frames: seq<Frame>, now: int, order: seq<string>)
    requires DrainOrder(order, FlushText(Run(frames), now).calls)
    ensures var last := FlushText(Run(frames), now);
            DrainItems(last.items, order, last.calls) == last.items
  {
    RunInv(frames);
    FlushInv(Run(frames), now);
    var last := FlushText(Run(frames), now);
    DrainChangesNothing(last.items, order, last.calls);
  }
}
