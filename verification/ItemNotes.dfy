/**
 What the live emitter's notifications carry: a started item is the announcement, a completed
 one is the item stored at that moment, deltas are the text of their chunk, and every one bears
 the clock of its frame. It is exact when the last completion of a call is its final item.
 */
module ItemNotes {
  import opened Common
  import opened Ids
  import opened AcpProtocol
  import opened ToolCalls
  import opened CallHistory
  import opened Emitter
  import opened EmitterInvariants
  import opened Rendering
  import opened ItemTexts
  import opened LiveBatch

  /** The item is the one stored under its id. */
  predicate IsStored(items: seq<Item>, item: Item) {
    LastPos(items, item.id) >= 0 && items[LastPos(items, item.id)] == item
  }

  /** The update this frame brings for call `c`, or its announcement. */
  predicate IsAbout(f: Frame, c: string) {
    c != "" && EventOf(f, c) != NoEvent
  }

  function FieldsOfEvent(f: Frame, c: string): ToolFields
    requires IsAbout(f, c)
  {
    EventOf(f, c).fields
  }

  /** What a notification sent for frame `f` carries; `n` is the state after the frame. */
  ghost predicate Carries(n: State, f: Frame, note: Note) {
    match note
    case Started(item, at) =>
      && at == f.now
      && (if IsToolItem(item) then
            && (exists c :: IsAbout(f, c) && item.id == ToolId(c) && Shows([Timed(FieldsOfEvent(f, c), f.now)], item))
            && (f.update.value.ToolCall? ==> IsStored(n.items, item))
          else
            && IsChunk(f) && n.run.Some? && n.run.value.kind == f.update.value.kind
            && item == TextItem(n.run.value.kind, n.run.value.n, ""))
    case Delta(kind, id, text) =>
      && IsChunk(f) && kind == f.update.value.kind && text != "" && LiveReads(f.update.value.content, text)
      && n.run.Some? && id == RunItem(n.run.value).id
    case ItemDone(item, at) =>
      && at == f.now && IsStored(n.items, item)
      && (IsToolItem(item) ==>
            && (exists c :: IsAbout(f, c) && item.id == ToolId(c))
            && ShownStatus(item) != InProgress)
  }

  /** The notifications sent since an earlier state. */
  function Since(e: State, n: State): seq<Note>
    requires e.notes <= n.notes
  {
    n.notes[|e.notes|..]
  }

  lemma StoredAppend(items: seq<Item>, item: Item, other: Item)
    ensures IsStored(items + [item], item)
    ensures item.id != other.id ==> (IsStored(items + [item], other) <==> IsStored(items, other))
  {
    LastPosAppend(items, item, item.id);
    LastPosAppend(items, item, other.id);
  }

  lemma StoredReplace(items: seq<Item>, item: Item, other: Item)
    requires LastPos(items, item.id) >= 0
    ensures IsStored(ReplaceItem(items, item.id, item), item)
    ensures item.id != other.id ==> (IsStored(ReplaceItem(items, item.id, item), other) <==> IsStored(items, other))
  {
    LastPosUpdate(items, LastPos(items, item.id), item, item.id);
    LastPosUpdate(items, LastPos(items, item.id), item, other.id);
  }

  /** A flush sends the run, which is stored. */
  ghost predicate Flushes(e: State, n: State, now: int) {
    && e.notes <= n.notes
    && forall i :: 0 <= i < |Since(e, n)| ==>
         var note := Since(e, n)[i];
         && note.ItemDone? && note.at == now && IsStored(n.items, note.item)
         && !IsToolItem(note.item) && !note.item.id.ToolId?
  }

  lemma FlushCarries(e: State, now: int)
    ensures Flushes(e, FlushText(e, now), now) && FlushText(e, now).calls == e.calls
    ensures e.run.None? ==> FlushText(e, now) == e
  {
    if e.run.Some? {
      StoredAppend(e.items, RunItem(e.run.value), RunItem(e.run.value));
    }
  }

  lemma TextCarries(e: State, f: Frame)
    requires IsChunk(f)
    ensures var n := Ingest(e, f); e.notes <= n.notes && forall note :: note in Since(e, n) ==> Carries(n, f, note)
  {
    var kind, content := f.update.value.kind, f.update.value.content;
    ReadersRead(content);
    FlushCarries(e, f.now);
    hide FlushText, PluckText, LiveReads, IsStored, IsToolItem;
    var text := PluckText(content);
    if text != "" {
      var t := if e.run.Some? && e.run.value.kind != kind then FlushText(e, f.now) else e;
      assert e.notes <= t.notes;
      var u := OpenRun(t, kind, f.now);
      var n := ExtendRun(u, text);
      assert n.items == t.items;
      forall note | note in Since(e, n) ensures Carries(n, f, note) {
        TextNote(e, t, u, n, f, text, note);
      }
    }
  }

  lemma TextNote(e: State, t: State, u: State, n: State, f: Frame, text: string, note: Note)
    requires IsChunk(f) && LiveReads(f.update.value.content, text) && text != ""
    requires e.notes <= t.notes && (t == e || Flushes(e, t, f.now))
    requires t.run.Some? ==> t.run.value.kind == f.update.value.kind
    requires u == OpenRun(t, f.update.value.kind, f.now) && n == ExtendRun(u, text)
    requires e.notes <= n.notes && note in Since(e, n)
    ensures Carries(n, f, note)
  {
    hide LiveReads, IsStored, IsToolItem, Carries, Flushes;
    var first := if t.run.Some? then [] else [Started(RunItem(TextRun(f.update.value.kind, t.textSeq, "")), f.now)];
    var delta := Delta(u.run.value.kind, RunItem(u.run.value).id, text);
    assert n.notes == t.notes + first + [delta];
    assert Since(e, n) == t.notes[|e.notes|..] + first + [delta];
    if note in t.notes[|e.notes|..] {
      FlushedNote(e, t, n, f, note);
    } else if note in first {
      StartNote(t, u, n, f, text, note);
    } else {
      DeltaNote(u, n, f, text);
    }
  }

  lemma DeltaNote(u: State, n: State, f: Frame, text: string)
    requires IsChunk(f) && LiveReads(f.update.value.content, text) && text != ""
    requires u.run.Some? && u.run.value.kind == f.update.value.kind && n == ExtendRun(u, text)
    ensures Carries(n, f, Delta(u.run.value.kind, RunItem(u.run.value).id, text))
  {
    hide LiveReads;
  }

  lemma FlushedNote(e: State, t: State, n: State, f: Frame, note: Note)
    requires e.notes <= t.notes && (t == e || Flushes(e, t, f.now)) && note in t.notes[|e.notes|..]
    requires n.items == t.items
    ensures Carries(n, f, note)
  {
    hide LiveReads, IsStored, IsToolItem;
    assert t != e;
    var i :| 0 <= i < |Since(e, t)| && Since(e, t)[i] == note;
  }

  lemma StartNote(t: State, u: State, n: State, f: Frame, text: string, note: Note)
    requires IsChunk(f) && t.run.None? && u == OpenRun(t, f.update.value.kind, f.now) && n == ExtendRun(u, text)
    requires note == Started(RunItem(TextRun(f.update.value.kind, t.textSeq, "")), f.now)
    ensures Carries(n, f, note)
  {
  }

  lemma CallCarries(e: State, f: Frame, fields: ToolFields)
    requires ValueOr(fields.callId, "") != ""
    ensures var n, c := HandleToolCall(e, fields, f.now), fields.callId.value;
            && n.notes == e.notes + [Started(Render(FromAnnounce(fields, f.now)), f.now)]
            && IsStored(n.items, Render(FromAnnounce(fields, f.now)))
            && Render(FromAnnounce(fields, f.now)).id == ToolId(c)
            && Shows([Timed(fields, f.now)], Render(FromAnnounce(fields, f.now)))
            && (forall other: Item :: !other.id.ToolId? && IsStored(e.items, other) ==> IsStored(n.items, other))
            && c in n.calls && n.calls[c].call == FromAnnounce(fields, f.now) && n.run == e.run
  {
    var told, item := [Timed(fields, f.now)], Render(FromAnnounce(fields, f.now));
    AnnouncedId(fields, f.now);
    MergeAllClosedForm(told[0], []);
    ClosedShown(told[0], []);
    assert told + [] == told;
    hide Render, FromAnnounce, ClosedState, IsStored, Shows;
    forall other: Item ensures IsStored(e.items + [item], item)
                               && (!other.id.ToolId? && IsStored(e.items, other) ==> IsStored(e.items + [item], other))
    {
      StoredAppend(e.items, item, other);
    }
  }

  lemma MergeCarries(e: State, id: string, fields: ToolFields, now: int)
    requires id in e.calls && SlotShows(e.items, id, e.calls[id].call)
    ensures var n := MergeInto(e, id, fields, now);
            var call := MergeUpdate(e.calls[id].call, fields, now);
            && n.notes == e.notes + (if IsTerminal(call.status) then [ItemDone(Render(call), now)] else [])
            && IsStored(n.items, Render(call)) && Render(call).id == ToolId(id)
            && (ShownStatus(Render(call)) != InProgress <==> IsTerminal(call.status))
            && (forall other: Item :: !other.id.ToolId? && IsStored(e.items, other) ==> IsStored(n.items, other))
            && n.run == e.run && id in n.calls
  {
    var call := MergeUpdate(e.calls[id].call, fields, now);
    var item := Render(call);
    MergeKeepsId(e.calls[id].call, fields, now);
    StatusTerminal(call);
    assert LastPos(e.items, ToolId(id)) >= 0;
    hide Render, MergeUpdate, IsTerminal, LastPos, IsStored, ReplaceItem;
    forall other: Item ensures IsStored(ReplaceItem(e.items, item.id, item), item)
                               && (!other.id.ToolId? && IsStored(e.items, other) ==>
                                     IsStored(ReplaceItem(e.items, item.id, item), other))
    {
      StoredReplace(e.items, item, other);
    }
    assert e.notes + [] == e.notes;
  }

  lemma StatusTerminal(call: CallState)
    ensures ShownStatus(Render(call)) != InProgress <==> IsTerminal(call.status)
  {
  }

  lemma ToolCallCarries(e: State, f: Frame)
    requires f.isSessionUpdate && f.update.Some? && f.update.value.ToolCall?
    ensures var n := Ingest(e, f); e.notes <= n.notes && forall note :: note in Since(e, n) ==> Carries(n, f, note)
  {
    var fields, t := f.update.value.fields, FlushText(e, f.now);
    FlushCarries(e, f.now);
    hide FlushText, Since, Flushes, Carries, Shows, IsStored, Render, FromAnnounce, HandleToolCall;
    assert Ingest(e, f) == HandleToolCall(t, fields, f.now);
    if ValueOr(fields.callId, "") == "" {
      assert HandleToolCall(t, fields, f.now) == t by {
        CallWithoutId(t, fields, f.now);
      }
      FlushedCarry(e, t, t, f);
    } else {
      CallCarries(t, f, fields);
      assert IsAbout(f, fields.callId.value) && FieldsOfEvent(f, fields.callId.value) == fields;
      CalledNotes(e, t, HandleToolCall(t, fields, f.now), f, Render(FromAnnounce(fields, f.now)));
    }
  }

  lemma CallWithoutId(t: State, fields: ToolFields, now: int)
    requires ValueOr(fields.callId, "") == ""
    ensures HandleToolCall(t, fields, now) == t
  {
  }

  lemma CalledNotes(e: State, t: State, n: State, f: Frame, announced: Item)
    requires f.update.Some? && f.update.value.ToolCall?
    requires Flushes(e, t, f.now) && n.notes == t.notes + [Started(announced, f.now)]
    requires IsToolItem(announced) && IsStored(n.items, announced)
    requires exists c :: IsAbout(f, c) && announced.id == ToolId(c)
                         && Shows([Timed(FieldsOfEvent(f, c), f.now)], announced)
    requires forall other: Item :: !other.id.ToolId? && IsStored(t.items, other) ==> IsStored(n.items, other)
    ensures e.notes <= n.notes && forall note :: note in Since(e, n) ==> Carries(n, f, note)
  {
    hide IsStored, Shows, IsAbout, IsToolItem;
    assert Since(e, n) == t.notes[|e.notes|..] + [Started(announced, f.now)];
    forall note | note in Since(e, n) ensures Carries(n, f, note) {
      if note in t.notes[|e.notes|..] {
        var i :| 0 <= i < |Since(e, t)| && Since(e, t)[i] == note;
      }
    }
  }

  /** Before an update is merged, the call is known, or has just been announced. */
  ghost predicate Announces(t: State, known: State, f: Frame, announced: Item) {
    known == t || (&& known.notes == t.notes + [Started(announced, f.now)] && IsToolItem(announced)
                   && exists c :: IsAbout(f, c) && announced.id == ToolId(c)
                                  && Shows([Timed(FieldsOfEvent(f, c), f.now)], announced))
  }

  lemma ToolUpdateCarries(e: State, f: Frame)
    requires SlotsShow(e)
    requires f.isSessionUpdate && f.update.Some? && f.update.value.ToolCallUpdate?
    ensures var n := Ingest(e, f); e.notes <= n.notes && forall note :: note in Since(e, n) ==> Carries(n, f, note)
  {
    var fields, t := f.update.value.fields, FlushText(e, f.now);
    FlushCarries(e, f.now);
    FlushSlots(e, f.now);
    hide FlushText, Since, Flushes, Announces, Carries, SlotShows, Shows;
    if ValueOr(fields.callId, "") == "" {
      assert Ingest(e, f) == t;
      FlushedCarry(e, t, t, f);
    } else {
      var id := fields.callId.value;
      var announced := Render(FromAnnounce(fields, f.now));
      var known := if id in t.calls then t else HandleToolCall(t, fields, f.now);
      assert Ingest(e, f) == MergeInto(known, id, fields, f.now);
      AnnounceFirst(t, f, fields);
      hide HandleToolCall, MergeInto;
      MergedNotes(e, t, known, f, fields, announced);
    }
  }

  lemma AnnounceFirst(t: State, f: Frame, fields: ToolFields)
    requires SlotsShow(t) && ValueOr(fields.callId, "") != ""
    requires f.isSessionUpdate && f.update == Some(ToolCallUpdate(fields))
    ensures var id := fields.callId.value;
            var known := if id in t.calls then t else HandleToolCall(t, fields, f.now);
            && id in known.calls && SlotShows(known.items, id, known.calls[id].call)
            && Announces(t, known, f, Render(FromAnnounce(fields, f.now)))
            && (forall other: Item :: !other.id.ToolId? && IsStored(t.items, other) ==> IsStored(known.items, other))
  {
    var id := fields.callId.value;
    hide SlotShows, Render, FromAnnounce, IsStored, Shows;
    if id !in t.calls {
      CallCarries(t, f, fields);
      AnnouncedSlot(t, fields, f.now);
      assert IsAbout(f, id) && FieldsOfEvent(f, id) == fields;
    }
  }

  lemma MergedNotes(e: State, t: State, known: State, f: Frame, fields: ToolFields, announced: Item)
    requires ValueOr(fields.callId, "") != "" && f.isSessionUpdate && f.update == Some(ToolCallUpdate(fields))
    requires var id := fields.callId.value; id in known.calls && SlotShows(known.items, id, known.calls[id].call)
    requires Flushes(e, t, f.now) && Announces(t, known, f, announced)
    requires forall other: Item :: !other.id.ToolId? && IsStored(t.items, other) ==> IsStored(known.items, other)
    ensures var n := MergeInto(known, fields.callId.value, fields, f.now);
            e.notes <= n.notes && forall note :: note in Since(e, n) ==> Carries(n, f, note)
  {
    var id := fields.callId.value;
    MergeCarries(known, id, fields, f.now);
    assert IsAbout(f, id);
    hide Since, Flushes, Announces, Carries, SlotShows, IsStored, Render, MergeUpdate, IsTerminal, MergeInto, IsAbout;
    var call := MergeUpdate(known.calls[id].call, fields, f.now);
    UpdateNotes(e, t, known, MergeInto(known, id, fields, f.now), f, announced, Render(call), IsTerminal(call.status));
  }

  /** A frame that only flushes. */
  lemma FlushedCarry(e: State, t: State, n: State, f: Frame)
    requires Flushes(e, t, f.now) && n.notes == t.notes && n.items == t.items
    ensures e.notes <= n.notes && forall note :: note in Since(e, n) ==> Carries(n, f, note)
  {
    hide IsStored, IsToolItem;
    forall note | note in Since(e, n) ensures Carries(n, f, note) {
      var i :| 0 <= i < |Since(e, t)| && Since(e, t)[i] == note;
    }
  }

  lemma FlushSlots(e: State, now: int)
    requires SlotsShow(e)
    ensures SlotsShow(FlushText(e, now))
  {
    hide SlotShows;
    if e.run.Some? {
      SlotsAfterPush(e, RunItem(e.run.value));
    }
  }

  lemma AnnouncedSlot(e: State, fields: ToolFields, now: int)
    requires ValueOr(fields.callId, "") != ""
    ensures var n, c := HandleToolCall(e, fields, now), fields.callId.value;
            c in n.calls && SlotShows(n.items, c, n.calls[c].call)
  {
    hide Render;
    LastPosAppend(e.items, Render(FromAnnounce(fields, now)), ToolId(fields.callId.value));
  }

  /** The notifications of an update, one after the other. */
  lemma UpdateNotes(e: State, t: State, known: State, n: State, f: Frame, announced: Item, merged: Item, done: bool)
    requires f.isSessionUpdate && f.update.Some? && f.update.value.ToolCallUpdate?
    requires Flushes(e, t, f.now) && Announces(t, known, f, announced)
    requires n.notes == known.notes + (if done then [ItemDone(merged, f.now)] else [])
    requires IsStored(n.items, merged) && IsToolItem(merged) && (done ==> ShownStatus(merged) != InProgress)
    requires exists c :: IsAbout(f, c) && merged.id == ToolId(c)
    requires forall other: Item :: !other.id.ToolId? && IsStored(t.items, other) ==> IsStored(n.items, other)
    ensures e.notes <= n.notes && forall note :: note in Since(e, n) ==> Carries(n, f, note)
  {
    hide IsStored, Shows;
    var first := if known == t then [] else [Started(announced, f.now)];
    var last := if done then [ItemDone(merged, f.now)] else [];
    assert n.notes == t.notes + first + last;
    assert Since(e, n) == t.notes[|e.notes|..] + first + last;
    forall note | note in Since(e, n) ensures Carries(n, f, note) {
      if note in t.notes[|e.notes|..] {
        var i :| 0 <= i < |Since(e, t)| && Since(e, t)[i] == note;
      }
    }
  }

  lemma OtherCarries(e: State, f: Frame)
    requires !IsChunk(f)
    requires !(f.isSessionUpdate && f.update.Some? && (f.update.value.ToolCall? || f.update.value.ToolCallUpdate?))
    ensures var n := Ingest(e, f); e.notes <= n.notes && forall note :: note in Since(e, n) ==> Carries(n, f, note)
  {
    FlushCarries(e, f.now);
    hide FlushText, Flushes, Carries, Since;
    var t, n := FlushText(e, f.now), Ingest(e, f);
    if f.isSessionUpdate && f.update.Some? && (f.update.value.UserChunk? || f.update.value.Plan?) {
      FlushedCarry(e, t, n, f);
    } else {
      NothingCarried(e, n, f);
    }
  }

  lemma NothingCarried(e: State, n: State, f: Frame)
    requires n.notes == e.notes
    ensures e.notes <= n.notes && forall note :: note in Since(e, n) ==> Carries(n, f, note)
  {
  }

  /** Every notification sent for a frame of a run carries what it should. */
  lemma FrameNotes(front: seq<Frame>, f: Frame)
    ensures var e, n := Run(front), Run(front + [f]);
            e.notes <= n.notes && forall note :: note in Since(e, n) ==> Carries(n, f, note)
  {
    assert (front + [f])[..|front|] == front;
    RunInv(front);
    hide Ingest, Carries, InStep, SlotShows;
    if IsChunk(f) {
      TextCarries(Run(front), f);
    } else if f.isSessionUpdate && f.update.Some? && f.update.value.ToolCall? {
      ToolCallCarries(Run(front), f);
    } else if f.isSessionUpdate && f.update.Some? && f.update.value.ToolCallUpdate? {
      ToolUpdateCarries(Run(front), f);
    } else {
      OtherCarries(Run(front), f);
    }
  }

  lemma {:induction false} DrainCarries(items: seq<Item>, order: seq<string>, calls: map<string, Inflight>, now: int)
    requires forall c :: c in order ==> c in calls && SlotShows(items, c, calls[c].call)
    ensures forall note :: note in DrainNotes(order, calls, now) ==>
              note.ItemDone? && note.at == now && IsStored(items, note.item)
  {
    hide Render;
    if order != [] {
      DrainCarries(items, order[..|order| - 1], calls, now);
      assert SlotShows(items, order[|order| - 1], calls[order[|order| - 1]].call);
    }
  }

  /** What `finish` sends are completions of stored items. */
  lemma FinishNotes(frames: seq<Frame>, now: int, order: seq<string>)
    requires DrainOrder(order, FlushText(Run(frames), now).calls)
    ensures var e, last := Run(frames), FlushText(Run(frames), now);
            && e.notes <= TurnNotes(frames, now, order)
            && forall note :: note in TurnNotes(frames, now, order)[|e.notes|..] ==>
                 note.ItemDone? && note.at == now && IsStored(last.items, note.item)
  {
    var e, last := Run(frames), FlushText(Run(frames), now);
    RunInv(frames);
    hide Run, FlushText, InStep, SlotShows, Distinct, IsToolItem, IsStored;
    FlushInv(e, now);
    FlushCarries(e, now);
    DrainCarries(last.items, order, last.calls, now);
    var drained := DrainNotes(order, last.calls, now);
    hide DrainNotes;
    assert TurnNotes(frames, now, order)[|e.notes|..] == Since(e, last) + drained;
    forall note | note in Since(e, last) + drained
      ensures note.ItemDone? && note.at == now && IsStored(last.items, note.item)
    {
      if note !in drained {
        var i :| 0 <= i < |Since(e, last)| && Since(e, last)[i] == note;
      }
    }
  }

  // ---- The last completion of a call ----

  /** The item of the last completion under this id. */
  function LastDone(notes: seq<Note>, id: ItemId): Option<Item> {
    if notes == [] then None
    else
      var last := notes[|notes| - 1];
      if last.ItemDone? && last.item.id == id then Some(last.item) else LastDone(notes[..|notes| - 1], id)
  }

  lemma DoneAppend(notes: seq<Note>, note: Note, id: ItemId)
    ensures LastDone(notes + [note], id)
            == if note.ItemDone? && note.item.id == id then Some(note.item) else LastDone(notes, id)
  {
    assert (notes + [note])[..|notes|] == notes;
  }

  /** A call counts as completed when a completion showed it ended; if it still is, that shows it now. */
  ghost predicate DoneFits(notes: seq<Note>, c: string, infl: Inflight) {
    var last := LastDone(notes, ToolId(c));
    infl.completed ==>
      && last.Some? && IsToolItem(last.value) && ShownStatus(last.value) != InProgress
      && (IsTerminal(infl.call.status) ==> last.value == Render(infl.call))
  }

  ghost predicate AllDoneFit(e: State) {
    forall c :: c in e.calls ==> DoneFits(e.notes, c, e.calls[c])
  }

  lemma NoteFits(e: State, note: Note, c: string)
    requires c in e.calls && DoneFits(e.notes, c, e.calls[c]) && (note.ItemDone? ==> note.item.id != ToolId(c))
    ensures DoneFits(e.notes + [note], c, e.calls[c])
  {
    hide Render, IsTerminal;
    DoneAppend(e.notes, note, ToolId(c));
  }

  lemma NoteAllFit(e: State, note: Note)
    requires AllDoneFit(e) && (note.ItemDone? ==> !note.item.id.ToolId?)
    ensures AllDoneFit(e.(notes := e.notes + [note]))
  {
    hide DoneFits;
    forall c | c in e.calls ensures DoneFits(e.notes + [note], c, e.calls[c]) {
      NoteFits(e, note, c);
    }
  }

  lemma SameFit(e: State, n: State)
    requires AllDoneFit(e) && n.notes == e.notes && n.calls == e.calls
    ensures AllDoneFit(n)
  {
    hide DoneFits;
  }

  lemma FlushFits(e: State, now: int)
    requires AllDoneFit(e)
    ensures AllDoneFit(FlushText(e, now)) && FlushText(e, now).calls == e.calls
  {
    hide AllDoneFit;
    if e.run.Some? {
      var note := ItemDone(RunItem(e.run.value), now);
      NoteAllFit(e, note);
      SameFit(e.(notes := e.notes + [note]), FlushText(e, now));
    }
  }

  lemma TextFits(e: State, kind: TextKind, content: Option<ContentBlock>, now: int)
    requires AllDoneFit(e)
    ensures AllDoneFit(HandleText(e, kind, content, now))
  {
    hide AllDoneFit, FlushText, PluckText;
    FlushFits(e, now);
    var text := PluckText(content);
    if text != "" {
      var t := if e.run.Some? && e.run.value.kind != kind then FlushText(e, now) else e;
      var u := OpenRun(t, kind, now);
      if t.run.None? {
        var note := Started(RunItem(TextRun(kind, t.textSeq, "")), now);
        NoteAllFit(t, note);
        SameFit(t.(notes := t.notes + [note]), u);
      }
      var delta := Delta(u.run.value.kind, RunItem(u.run.value).id, text);
      NoteAllFit(u, delta);
      SameFit(u.(notes := u.notes + [delta]), ExtendRun(u, text));
    }
  }

  lemma CallFits(e: State, fields: ToolFields, now: int)
    requires AllDoneFit(e)
    ensures AllDoneFit(HandleToolCall(e, fields, now))
  {
    if ValueOr(fields.callId, "") != "" {
      var n := HandleToolCall(e, fields, now);
      var note := Started(Render(FromAnnounce(fields, now)), FromAnnounce(fields, now).startedAt);
      NoteAllFit(e, note);
      hide DoneFits, Render, FromAnnounce;
      forall c | c in n.calls ensures DoneFits(n.notes, c, n.calls[c]) {
        if c == fields.callId.value {
          FreshFits(n.notes, c, n.calls[c]);
        }
      }
    }
  }

  lemma FreshFits(notes: seq<Note>, c: string, infl: Inflight)
    requires !infl.completed
    ensures DoneFits(notes, c, infl)
  {
  }

  lemma MergeFits(e: State, id: string, fields: ToolFields, now: int)
    requires AllDoneFit(e) && id in e.calls && SlotShows(e.items, id, e.calls[id].call)
    ensures AllDoneFit(MergeInto(e, id, fields, now))
  {
    var n := MergeInto(e, id, fields, now);
    var call := MergeUpdate(e.calls[id].call, fields, now);
    MergeKeepsId(e.calls[id].call, fields, now);
    StatusTerminal(call);
    assert e.calls[id].call.itemId == ToolId(id);
    hide MergeUpdate, SlotShows, Render, ReplaceItem;
    var note := ItemDone(Render(call), now);
    forall c | c in n.calls ensures DoneFits(n.notes, c, n.calls[c]) {
      assert c in e.calls && DoneFits(e.notes, c, e.calls[c]);
      DoneAppend(e.notes, note, ToolId(c));
    }
  }

  lemma UpdateFits(e: State, fields: ToolFields, now: int)
    requires AllDoneFit(e) && SlotsShow(e)
    ensures AllDoneFit(HandleToolCallUpdate(e, fields, now))
  {
    hide AllDoneFit, MergeInto, SlotShows, HandleToolCall;
    if ValueOr(fields.callId, "") != "" {
      var id := fields.callId.value;
      var known := if id in e.calls then e else HandleToolCall(e, fields, now);
      CallFits(e, fields, now);
      AnnouncedSlot(e, fields, now);
      MergeFits(known, id, fields, now);
    }
  }

  lemma IngestFits(e: State, f: Frame)
    requires AllDoneFit(e) && SlotsShow(e)
    ensures AllDoneFit(Ingest(e, f))
  {
    hide AllDoneFit, SlotsShow, FlushText, HandleText, HandleToolCall, HandleToolCallUpdate;
    FlushFits(e, f.now);
    FlushSlots(e, f.now);
    if f.isSessionUpdate && f.update.Some? {
      match f.update.value
      case TextChunk(kind, content) => TextFits(e, kind, content, f.now);
      case ToolCall(fields) => CallFits(FlushText(e, f.now), fields, f.now);
      case ToolCallUpdate(fields) => UpdateFits(FlushText(e, f.now), fields, f.now);
      case UserChunk(_) =>
      case Plan(_) => SameFit(FlushText(e, f.now), Ingest(e, f));
      case _ => SameFit(e, Ingest(e, f));
    }
  }

  lemma {:induction false} RunDoneFits(frames: seq<Frame>)
    ensures AllDoneFit(Run(frames))
  {
    if frames != [] {
      hide Ingest, AllDoneFit, InStep, SlotsShow;
      RunDoneFits(frames[..|frames| - 1]);
      RunInv(frames[..|frames| - 1]);
      IngestFits(Run(frames[..|frames| - 1]), frames[|frames| - 1]);
    }
  }

  /** The drain sends the item of every call not completed yet, as it is stored. */
  lemma {:induction false} DrainDone(notes: seq<Note>, order: seq<string>, calls: map<string, Inflight>, now: int,
                                     c: string)
    requires Distinct(order) && c in calls
    requires forall d :: d in order ==> d in calls && calls[d].call.itemId == ToolId(d)
    ensures LastDone(notes + DrainNotes(order, calls, now), ToolId(c))
            == if c in order && !calls[c].completed then Some(Render(calls[c].call)) else LastDone(notes, ToolId(c))
  {
    if order == [] {
      assert notes + [] == notes;
    } else {
      var front, d := order[..|order| - 1], order[|order| - 1];
      DistinctAppend(front, d);
      assert front + [d] == order;
      DrainDone(notes, front, calls, now, c);
      var item := Render(calls[d].call);
      assert item.id == ToolId(d);
      hide Render, Distinct;
      var sofar := notes + DrainNotes(front, calls, now);
      DoneAppend(sofar, ItemDone(item, now), ToolId(c));
      assert notes + (DrainNotes(front, calls, now) + [ItemDone(item, now)]) == sofar + [ItemDone(item, now)];
      assert DrainNotes(front, calls, now) + [] == DrainNotes(front, calls, now);
    }
  }

  /**
   Over a whole turn the last completion of a call is its final item, if and only if no update
   left the call ended, or it is ended in the end: after an update that reopens it, nothing more
   is sent of it.
   */
  lemma LastCompletion(frames: seq<Frame>, now: int, order: seq<string>, c: string)
    requires c != "" && HistoryOf(frames, c).Some?
    requires DrainOrder(order, FlushText(Run(frames), now).calls)
    ensures var last := FlushText(Run(frames), now);
            var final, done := Stored(DrainItems(last.items, order, last.calls), c),
                               LastDone(TurnNotes(frames, now, order), ToolId(c));
            && final.Some? && IsToolItem(final.value) && Shows(Told(HistoryOf(frames, c).value), final.value)
            && done.Some? && IsToolItem(done.value)
            && (done == final <==> OpenAtEnd(frames, c) || ShownStatus(final.value) != InProgress)
  {
    var last := FlushText(Run(frames), now);
    RunInv(frames);
    RunDoneFits(frames);
    RunTracks(frames, c);
    ClosedMatches(frames, c);
    hide Run, HistoryOf, TerminalUpdates, Completions, Shows, InStep, FlushText, Distinct;
    FlushInv(Run(frames), now);
    FlushFits(Run(frames), now);
    DrainChangesNothing(last.items, order, last.calls);
    FinalShown(last, frames, now, order, c);
  }

  lemma ClosedMatches(frames: seq<Frame>, c: string)
    requires c != "" && HistoryOf(frames, c).Some?
    ensures Shows(Told(HistoryOf(frames, c).value), Render(HistoryOf(frames, c).value.Call()))
  {
    var h := HistoryOf(frames, c).value;
    hide Shows, HistoryOf, Render, ClosedState;
    MergeAllClosedForm(h.announce, h.updates);
    ClosedShown(h.announce, h.updates);
  }

  lemma FinalShown(last: State, frames: seq<Frame>, now: int, order: seq<string>, c: string)
    requires last == FlushText(Run(frames), now) && HistoryOf(frames, c).Some? && c in last.calls
    requires last.calls[c] == Inflight(HistoryOf(frames, c).value.Call(), HistoryOf(frames, c).value.Closed())
    requires DrainOrder(order, last.calls) && SlotsShow(last) && AllDoneFit(last)
    requires DrainItems(last.items, order, last.calls) == last.items
    ensures var final, done := Stored(last.items, c), LastDone(TurnNotes(frames, now, order), ToolId(c));
            && final == Some(Render(last.calls[c].call))
            && done.Some? && IsToolItem(done.value)
            && (done == final <==> OpenAtEnd(frames, c) || ShownStatus(final.value) != InProgress)
  {
    var infl := last.calls[c];
    StatusTerminal(infl.call);
    assert SlotShows(last.items, c, infl.call) && DoneFits(last.notes, c, infl);
    forall d | d in order ensures last.calls[d].call.itemId == ToolId(d) {
      assert SlotShows(last.items, d, last.calls[d].call);
    }
    DrainDone(last.notes, order, last.calls, now, c);
    hide Run, HistoryOf, FlushText, DrainNotes, Distinct, Render, LastDone;
  }

  function CallFrame(fields: ToolFields): Frame {
    Frame(true, Some(ToolCall(fields)), 0)
  }

  function UpdateFrame(fields: ToolFields): Frame {
    Frame(true, Some(ToolCallUpdate(fields)), 0)
  }

  /** A call that ends and is reopened: its last completion is not its final item. */
  lemma ReopenedCall(c: string, announce: ToolFields, ends: ToolFields, reopens: ToolFields, now: int,
                     order: seq<string>)
    requires c != "" && announce.callId == ends.callId == reopens.callId == Some(c)
    requires ends.status == Some("completed") && reopens.status == Some("in_progress")
    requires DrainOrder(order,
                        FlushText(Run([CallFrame(announce), UpdateFrame(ends), UpdateFrame(reopens)]), now).calls)
    ensures var frames := [CallFrame(announce), UpdateFrame(ends), UpdateFrame(reopens)];
            var last := FlushText(Run(frames), now);
            LastDone(TurnNotes(frames, now, order), ToolId(c)) != Stored(DrainItems(last.items, order, last.calls), c)
  {
    var f, g, h := CallFrame(announce), UpdateFrame(ends), UpdateFrame(reopens);
    var frames := [f, g, h];
    assert [f][..0] == [] && [f, g][..1] == [f] && frames[..2] == [f, g];
    assert HistoryOf([f], c) == Some(History(Timed(announce, 0), []));
    assert HistoryOf([f, g], c) == Some(History(Timed(announce, 0), []).Plus(Timed(ends, 0)));
    var between := History(Timed(announce, 0), []).Plus(Timed(ends, 0));
    assert HistoryOf(frames, c) == Some(between.Plus(Timed(reopens, 0)));
    History(Timed(announce, 0), []).PlusCall(Timed(ends, 0));
    between.PlusCall(Timed(reopens, 0));
    hide Run, FlushText, HistoryOf, DrainItems, DrainNotes, LastDone, Shows, MergeAll, FromAnnounce, Distinct;
    assert !OpenAtEnd(frames, c);
    LastCompletion(frames, now, order, c);
    ReopenedStatus(frames, c);
  }

  /** The last status set is not a terminal one. */
  lemma ReopenedStatus(frames: seq<Frame>, c: string)
    requires HistoryOf(frames, c).Some?
    requires var told := Told(HistoryOf(frames, c).value); told[|told| - 1].fields.status == Some("in_progress")
    ensures forall item :: IsToolItem(item) && Shows(Told(HistoryOf(frames, c).value), item) ==>
              ShownStatus(item) == InProgress
  {
    var told := Told(HistoryOf(frames, c).value);
    assert LastIs(told, StatusOf, "in_progress");
    LastUnique(told, StatusOf, "in_progress", "completed");
    LastUnique(told, StatusOf, "in_progress", "failed");
    hide HistoryOf, LastIs;
    forall item | IsToolItem(item) && Shows(told, item) ensures ShownStatus(item) == InProgress {
      assert ShowsStatus(told, ShownStatus(item));
    }
  }
}
