/**
 Every notification stream of the live emitter is accepted by the stream monitor:
 for every sequence of frames, for every order in which the last calls are drained, and
 for any number of turns in a row although each turn numbers its ids from zero again.
 */
module EmitterAccepted {
  import opened Common
  import opened Ids
  import opened AcpProtocol
  import opened ToolCalls
  import E = Emitter
  import EmitterInvariants
  import SM = StreamMonitor

  /** The JSON of an item as the monitor reads it. */
  function View(item: Item): SM.ItemView<ItemId> {
    match item
    case AgentMessage(id, text) => SM.ItemView(Some(id), Some("agentMessage"), Some(text), None)
    case Reasoning(id, text) => SM.ItemView(Some(id), Some("reasoning"), None, Some([text]))
    case UserMessage(id, _) => SM.ItemView(Some(id), Some("userMessage"), None, Some([]))
    case ImageView(id, _) => SM.ItemView(Some(id), Some("imageView"), None, None)
    case FileChange(id, _, _) => SM.ItemView(Some(id), Some("fileChange"), None, None)
    case CommandExecution(id, _, _, _, _, _, _) => SM.ItemView(Some(id), Some("commandExecution"), None, None)
    case DynamicToolCall(id, _, _, _, _, _, _) => SM.ItemView(Some(id), Some("dynamicToolCall"), None, None)
  }

  function NotificationOf(note: E.Note): SM.Notification<ItemId> {
    match note
    case Started(item, _) => SM.ItemStarted(Some(View(item)))
    case Delta(AgentText, id, text) => SM.AgentDelta(Some(id), Some(text))
    case Delta(ReasoningText, id, text) => SM.ReasoningDelta(Some(id), Some(text))
    case ItemDone(item, _) => SM.ItemCompleted(Some(View(item)))
  }

  function FrameOf(step: string, note: E.Note): SM.Frame<ItemId> {
    SM.Frame(step, true, NotificationOf(note))
  }

  function Transcript(step: string, notes: seq<E.Note>): seq<SM.Frame<ItemId>> {
    seq(|notes|, i requires 0 <= i < |notes| => FrameOf(step, notes[i]))
  }

  /** The monitor after the notifications of one turn, started in `m0`. */
  function After(m0: SM.Monitor<ItemId>, step: string, notes: seq<E.Note>): SM.Monitor<ItemId> {
    SM.Watch(m0, Transcript(step, notes))
  }

  lemma AfterEmit(m0: SM.Monitor<ItemId>, step: string, notes: seq<E.Note>, note: E.Note)
    ensures After(m0, step, notes + [note]) == SM.Observe(After(m0, step, notes), FrameOf(step, note))
  {
    SM.WatchAppend(m0, Transcript(step, notes), FrameOf(step, note));
    assert Transcript(step, notes + [note]) == Transcript(step, notes) + [FrameOf(step, note)];
  }

  function KindOf(kind: TextKind): SM.Kind {
    match kind case AgentText => SM.AgentKind case ReasoningText => SM.ReasoningKind
  }

  /** No finding so far; the only item the monitor still has open is the emitter's open text
      run, and the monitor has collected exactly that run's text. */
  ghost predicate Linked(run: Option<E.TextRun>, m: SM.Monitor<ItemId>) {
    && m.findings == []
    && (forall id :: id in m.items ==> !id.ToolId?)
    && (forall id :: id in m.items ==> m.items[id].completed || (run.Some? && id == E.RunItem(run.value).id))
    && (run.Some? ==>
          var id := E.RunItem(run.value).id;
          && id in m.items && !m.items[id].completed
          && m.items[id].kind == KindOf(run.value.kind) && m.items[id].text == run.value.text)
  }

  /** Linked, and an open run has text: the invariant between frames. */
  ghost predicate Clean(s: E.State, m0: SM.Monitor<ItemId>, step: string) {
    Linked(s.run, After(m0, step, s.notes)) && (s.run.Some? ==> s.run.value.text != "")
  }

  lemma FlushClean(s: E.State, now: int, m0: SM.Monitor<ItemId>, step: string)
    requires Clean(s, m0, step)
    ensures Clean(E.FlushText(s, now), m0, step) && E.FlushText(s, now).run.None?
  {
    if s.run.Some? {
      var item := E.RunItem(s.run.value);
      AfterEmit(m0, step, s.notes, E.ItemDone(item, now));
      assert Flatten([s.run.value.text]) == s.run.value.text by {
        FlattenAppend([], s.run.value.text);
        assert [s.run.value.text] == [] + [s.run.value.text];
      }
    }
  }

  lemma OpenLinked(s: E.State, kind: TextKind, now: int, m0: SM.Monitor<ItemId>, step: string)
    requires Clean(s, m0, step)
    ensures var t := E.OpenRun(s, kind, now);
            t.run.Some? && Linked(t.run, After(m0, step, t.notes))
  {
    if s.run.None? {
      AfterEmit(m0, step, s.notes, E.Started(E.RunItem(E.TextRun(kind, s.textSeq, "")), now));
    }
  }

  lemma ExtendClean(s: E.State, text: string, m0: SM.Monitor<ItemId>, step: string)
    requires s.run.Some? && Linked(s.run, After(m0, step, s.notes)) && text != ""
    ensures Clean(E.ExtendRun(s, text), m0, step)
  {
    AfterEmit(m0, step, s.notes, E.Delta(s.run.value.kind, E.RunItem(s.run.value).id, text));
  }

  lemma TextClean(s: E.State, kind: TextKind, content: Option<ContentBlock>, now: int,
                  m0: SM.Monitor<ItemId>, step: string)
    requires Clean(s, m0, step)
    ensures Clean(E.HandleText(s, kind, content, now), m0, step)
  {
    hide E.FlushText, E.OpenRun, E.ExtendRun, Clean, Linked, After;
    var text := E.PluckText(content);
    if text != "" {
      FlushClean(s, now, m0, step);
      var t := if s.run.Some? && s.run.value.kind != kind then E.FlushText(s, now) else s;
      OpenLinked(t, kind, now, m0, step);
      ExtendClean(E.OpenRun(t, kind, now), text, m0, step);
    }
  }

  /** Tool items never disturb the monitor: it follows text items only. */
  lemma ToolNoteClean(s: E.State, note: E.Note, m0: SM.Monitor<ItemId>, step: string)
    requires Clean(s, m0, step)
    requires (note.Started? || note.ItemDone?) && IsToolItem(note.item) && note.item.id.ToolId?
    ensures Clean(E.Emit(s, note), m0, step)
  {
    AfterEmit(m0, step, s.notes, note);
  }

  lemma ToolCallClean(s: E.State, fields: ToolFields, now: int, m0: SM.Monitor<ItemId>, step: string)
    requires Clean(s, m0, step)
    ensures Clean(E.HandleToolCall(s, fields, now), m0, step)
  {
    hide Linked, After, Render;
    var call := FromAnnounce(fields, now);
    ToolNoteClean(s, E.Started(Render(call), call.startedAt), m0, step);
  }

  lemma MergeClean(s: E.State, id: string, fields: ToolFields, now: int, m0: SM.Monitor<ItemId>, step: string)
    requires Clean(s, m0, step) && id in s.calls && s.calls[id].call.itemId.ToolId?
    ensures Clean(E.MergeInto(s, id, fields, now), m0, step)
  {
    hide Linked, After, Render, ReplaceItem, IsTerminal;
    var call := MergeUpdate(s.calls[id].call, fields, now);
    ToolNoteClean(s, E.ItemDone(Render(call), now), m0, step);
  }

  lemma UpdateClean(s: E.State, fields: ToolFields, now: int, m0: SM.Monitor<ItemId>, step: string)
    requires Clean(s, m0, step) && EmitterInvariants.Inv(s) && s.run.None?
    ensures Clean(E.HandleToolCallUpdate(s, fields, now), m0, step)
  {
    hide Clean, EmitterInvariants.InStep, LastPos, E.HandleToolCall, E.MergeInto;
    if ValueOr(fields.callId, "") != "" {
      var id := fields.callId.value;
      ToolCallClean(s, fields, now, m0, step);
      EmitterInvariants.ToolCallInv(s, fields, now);
      var t := if id in s.calls then s else E.HandleToolCall(s, fields, now);
      assert EmitterInvariants.SlotShows(t.items, id, t.calls[id].call);
      MergeClean(t, id, fields, now, m0, step);
    }
  }

  lemma IngestClean(s: E.State, f: Frame, m0: SM.Monitor<ItemId>, step: string)
    requires Clean(s, m0, step) && EmitterInvariants.Inv(s)
    ensures Clean(E.Ingest(s, f), m0, step)
  {
    hide Linked, After, EmitterInvariants.Inv, E.FlushText, E.HandleText, E.HandleToolCall, E.HandleToolCallUpdate;
    if f.isSessionUpdate && f.update.Some? {
      FlushClean(s, f.now, m0, step);
      EmitterInvariants.FlushInv(s, f.now);
      match f.update.value
      case TextChunk(kind, content) => TextClean(s, kind, content, f.now, m0, step);
      case ToolCall(fields) => ToolCallClean(E.FlushText(s, f.now), fields, f.now, m0, step);
      case ToolCallUpdate(fields) => UpdateClean(E.FlushText(s, f.now), fields, f.now, m0, step);
      case _ =>
    }
  }

  /** A monitor with nothing open and no complaint, and no tool item on its list. */
  ghost predicate AtRest(m: SM.Monitor<ItemId>) {
    Linked(None, m)
  }

  lemma {:induction false} RunClean(frames: seq<Frame>, m0: SM.Monitor<ItemId>, step: string)
    requires AtRest(m0)
    ensures Clean(E.Run(frames), m0, step)
  {
    hide E.Ingest, Linked;
    if frames != [] {
      var front := frames[..|frames| - 1];
      RunClean(front, m0, step);
      EmitterInvariants.RunInv(front);
      IngestClean(E.Run(front), frames[|frames| - 1], m0, step);
    }
  }

  lemma {:induction false} DrainClean(s: E.State, order: seq<string>, now: int, m0: SM.Monitor<ItemId>, step: string)
    requires Clean(s, m0, step) && EmitterInvariants.SlotsShow(s)
    requires forall c :: c in order ==> c in s.calls
    ensures Clean(s.(notes := s.notes + E.DrainNotes(order, s.calls, now)), m0, step)
  {
    hide Linked, After, Render;
    if order == [] {
      assert s.notes + [] == s.notes;
    } else {
      var front, c := order[..|order| - 1], order[|order| - 1];
      DrainClean(s, front, now, m0, step);
      var t := s.(notes := s.notes + E.DrainNotes(front, s.calls, now));
      assert EmitterInvariants.SlotShows(s.items, c, s.calls[c].call);
      var note := E.ItemDone(Render(s.calls[c].call), now);
      ToolNoteClean(t, note, m0, step);
      assert s.notes + (E.DrainNotes(front, s.calls, now) + [note]) == t.notes + [note];
      assert E.DrainNotes(front, s.calls, now) + [] == E.DrainNotes(front, s.calls, now);
    }
  }

  /** One turn: the step label of its frames, the frames, the clock at the end, and the order
      in which the hash map of calls is drained. */
  datatype Turn = Turn(step: string, frames: seq<Frame>, end: int, order: seq<string>) {
    function Last(): E.State {
      E.FlushText(E.Run(frames), end)
    }

    ghost predicate Possible() {
      E.DrainOrder(order, Last().calls)
    }

    function Notes(): seq<E.Note>
      requires forall c :: c in order ==> c in Last().calls
    {
      Last().notes + E.DrainNotes(order, Last().calls, end)
    }
  }

  lemma TurnAtRest(t: Turn, m0: SM.Monitor<ItemId>)
    requires t.Possible() && AtRest(m0)
    ensures AtRest(After(m0, t.step, t.Notes()))
  {
    hide E.Run, E.FlushText, E.DrainNotes, After, EmitterInvariants.InStep;
    RunClean(t.frames, m0, t.step);
    EmitterInvariants.RunInv(t.frames);
    FlushClean(E.Run(t.frames), t.end, m0, t.step);
    EmitterInvariants.FlushInv(E.Run(t.frames), t.end);
    DrainClean(t.Last(), t.order, t.end, m0, t.step);
  }

  ghost function Session(turns: seq<Turn>): seq<SM.Frame<ItemId>>
    requires forall t :: t in turns ==> t.Possible()
  {
    if turns == [] then []
    else
      var t := turns[|turns| - 1];
      assert t in turns && t.Possible();
      Session(turns[..|turns| - 1]) + Transcript(t.step, t.Notes())
  }

  lemma {:induction false} SessionAtRest(turns: seq<Turn>)
    requires forall t :: t in turns ==> t.Possible()
    ensures AtRest(SM.Watch(SM.Fresh(), Session(turns)))
  {
    hide Transcript, Linked;
    if turns == [] {
      assert AtRest(SM.Fresh<ItemId>()) by { EmptyAtRest(); }
    } else {
      var front, t := turns[..|turns| - 1], turns[|turns| - 1];
      SessionAtRest(front);
      TurnAtRest(t, SM.Watch(SM.Fresh(), Session(front)));
      SM.WatchConcat(SM.Fresh(), Session(front), Transcript(t.step, t.Notes()));
    }
  }

  lemma EmptyAtRest()
    ensures AtRest(SM.Fresh<ItemId>())
  {
  }

  /** Main theorem: whatever frames the agent sends, in any number of turns, the monitor has
      nothing to say about the notifications, ends of turns included. */
  lemma SessionAccepted(turns: seq<Turn>)
    requires forall t :: t in turns ==> t.Possible()
    ensures SM.Accepts(Session(turns))
  {
    SessionAtRest(turns);
  }
}
