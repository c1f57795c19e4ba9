/**
 The life of one tool call, read off the frames alone: its announcement and the updates
 since. Both machines hold exactly the closed form of that history, and the number of
 `item/completed` notifications for a call is a count over the frames.
 */
module CallHistory {
  import opened Common
  import opened Ids
  import opened AcpProtocol
  import opened ToolCalls
  import E = Emitter
  import T = Translator
  import EmitterInvariants

  datatype Event = NoEvent | Announced(fields: ToolFields) | Updated(fields: ToolFields)

  /** What a frame says about call `c`. */
  function EventOf(f: Frame, c: string): Event {
    if !f.isSessionUpdate || f.update.None? then NoEvent
    else if f.update.value.ToolCall? && f.update.value.fields.callId == Some(c) then Announced(f.update.value.fields)
    else if f.update.value.ToolCallUpdate? && f.update.value.fields.callId == Some(c)
      then Updated(f.update.value.fields)
    else NoEvent
  }

  /** The last announcement of a call and the updates merged since. */
  datatype History = History(announce: Timed, updates: seq<Timed>) {
    function Call(): CallState {
      MergeAll(FromAnnounce(announce.fields, announce.now), updates)
    }

    /** Some update since the announcement left the status terminal. */
    predicate Closed()
      decreases |updates|
    {
      updates != [] && (IsTerminal(Call().status) || History(announce, updates[..|updates| - 1]).Closed())
    }

    function Plus(u: Timed): History {
      History(announce, updates + [u])
    }

    lemma PlusCall(u: Timed)
      ensures Plus(u).Call() == MergeUpdate(Call(), u.fields, u.now)
      ensures Plus(u).Closed() == (Closed() || IsTerminal(Plus(u).Call().status))
    {
      assert (updates + [u])[..|updates|] == updates;
    }
  }

  function NextHistory(h: Option<History>, f: Frame, c: string): Option<History> {
    match EventOf(f, c)
    case NoEvent => h
    case Announced(fields) => Some(History(Timed(fields, f.now), []))
    case Updated(fields) =>
      // An update of a call nobody announced is taken as its announcement first.
      var known := if h.Some? then h.value else History(Timed(fields, f.now), []);
      Some(known.Plus(Timed(fields, f.now)))
  }

  function HistoryOf(frames: seq<Frame>, c: string): Option<History> {
    if frames == [] then None
    else NextHistory(HistoryOf(frames[..|frames| - 1], c), frames[|frames| - 1], c)
  }

  /** How many update frames left the status of `c` terminal. */
  function TerminalUpdates(frames: seq<Frame>, c: string): nat {
    if frames == [] then 0
    else
      var h := HistoryOf(frames, c);
      TerminalUpdates(frames[..|frames| - 1], c)
      + if EventOf(frames[|frames| - 1], c).Updated? && h.Some? && IsTerminal(h.value.Call().status) then 1 else 0
  }

  predicate OpenAtEnd(frames: seq<Frame>, c: string) {
    var h := HistoryOf(frames, c);
    h.Some? && !h.value.Closed()
  }

  function Completions(notes: seq<E.Note>, id: ItemId): nat {
    if notes == [] then 0
    else
      var last := notes[|notes| - 1];
      Completions(notes[..|notes| - 1], id) + if last.ItemDone? && last.item.id == id then 1 else 0
  }

  lemma CompletionsAppend(notes: seq<E.Note>, note: E.Note, id: ItemId)
    ensures Completions(notes + [note], id)
            == Completions(notes, id) + if note.ItemDone? && note.item.id == id then 1 else 0
  {
    assert (notes + [note])[..|notes|] == notes;
  }

  /** The emitter holds call `c` as the history says, and has completed it as often as
      updates left it terminal. */
  ghost predicate Tracks(s: E.State, h: Option<History>, terminal: nat, c: string) {
    && (c in s.calls <==> h.Some?)
    && (h.Some? ==> s.calls[c] == E.Inflight(h.value.Call(), h.value.Closed()))
    && Completions(s.notes, ToolId(c)) == terminal
  }

  lemma FlushTracks(s: E.State, now: int, h: Option<History>, n: nat, c: string)
    requires Tracks(s, h, n, c)
    ensures Tracks(E.FlushText(s, now), h, n, c)
  {
    if s.run.Some? {
      CompletionsAppend(s.notes, E.ItemDone(E.RunItem(s.run.value), now), ToolId(c));
    }
  }

  lemma TextTracks(s: E.State, kind: TextKind, content: Option<ContentBlock>, now: int,
                   h: Option<History>, n: nat, c: string)
    requires Tracks(s, h, n, c)
    ensures Tracks(E.HandleText(s, kind, content, now), h, n, c)
  {
    var text := E.PluckText(content);
    if text != "" {
      FlushTracks(s, now, h, n, c);
      var t := if s.run.Some? && s.run.value.kind != kind then E.FlushText(s, now) else s;
      var u := E.OpenRun(t, kind, now);
      CompletionsAppend(t.notes, E.Started(E.RunItem(E.TextRun(kind, t.textSeq, "")), now), ToolId(c));
      CompletionsAppend(u.notes, E.Delta(u.run.value.kind, E.RunItem(u.run.value).id, text), ToolId(c));
    }
  }

  lemma ToolCallTracks(s: E.State, fields: ToolFields, now: int, h: Option<History>, n: nat, c: string)
    requires Tracks(s, h, n, c) && c != ""
    ensures Tracks(E.HandleToolCall(s, fields, now),
                   if fields.callId == Some(c) then Some(History(Timed(fields, now), [])) else h, n, c)
  {
    hide Render, FromAnnounce;
    var call := FromAnnounce(fields, now);
    CompletionsAppend(s.notes, E.Started(Render(call), call.startedAt), ToolId(c));
  }

  lemma MergeTracks(s: E.State, id: string, fields: ToolFields, now: int, h: Option<History>, n: nat, c: string)
    requires Tracks(s, h, n, c) && id in s.calls && s.calls[id].call.itemId == ToolId(id)
    ensures var next := if id == c then Some(h.value.Plus(Timed(fields, now))) else h;
            Tracks(E.MergeInto(s, id, fields, now), next,
                   n + if id == c && IsTerminal(next.value.Call().status) then 1 else 0, c)
  {
    hide IsTerminal, ReplaceItem, Render, MergeAll, Completions;
    if id == c {
      h.value.PlusCall(Timed(fields, now));
    }
    var item := Render(MergeUpdate(s.calls[id].call, fields, now));
    CompletionsAppend(s.notes, E.ItemDone(item, now), ToolId(c));
  }

  lemma UpdateTracks(s: E.State, fields: ToolFields, now: int, h: Option<History>, n: nat, c: string)
    requires Tracks(s, h, n, c) && c != "" && EmitterInvariants.Inv(s) && s.run.None?
    ensures var known := if h.Some? then h.value else History(Timed(fields, now), []);
            var next := if fields.callId == Some(c) then Some(known.Plus(Timed(fields, now))) else h;
            Tracks(E.HandleToolCallUpdate(s, fields, now), next,
                   n + if fields.callId == Some(c) && IsTerminal(next.value.Call().status) then 1 else 0, c)
  {
    hide IsTerminal, EmitterInvariants.InStep, LastPos, E.HandleToolCall, E.MergeInto, Completions, MergeAll;
    if ValueOr(fields.callId, "") != "" {
      var id := fields.callId.value;
      ToolCallTracks(s, fields, now, h, n, c);
      EmitterInvariants.ToolCallInv(s, fields, now);
      var t := if id in s.calls then s else E.HandleToolCall(s, fields, now);
      assert EmitterInvariants.SlotShows(t.items, id, t.calls[id].call);
      var known := if h.Some? || id != c then h else Some(History(Timed(fields, now), []));
      MergeTracks(t, id, fields, now, known, n, c);
    }
  }

  lemma IngestTracks(s: E.State, f: Frame, h: Option<History>, n: nat, c: string)
    requires Tracks(s, h, n, c) && c != "" && EmitterInvariants.Inv(s)
    ensures var next := NextHistory(h, f, c);
            Tracks(E.Ingest(s, f), next,
                   n + if EventOf(f, c).Updated? && next.Some? && IsTerminal(next.value.Call().status) then 1 else 0, c)
  {
    hide E.FlushText, E.HandleText, E.HandleToolCall, E.HandleToolCallUpdate, EmitterInvariants.Inv, Tracks,
            IsTerminal, MergeAll;
    if f.isSessionUpdate && f.update.Some? {
      FlushTracks(s, f.now, h, n, c);
      EmitterInvariants.FlushInv(s, f.now);
      match f.update.value
      case TextChunk(kind, content) => TextTracks(s, kind, content, f.now, h, n, c);
      case ToolCall(fields) => ToolCallTracks(E.FlushText(s, f.now), fields, f.now, h, n, c);
      case ToolCallUpdate(fields) => UpdateTracks(E.FlushText(s, f.now), fields, f.now, h, n, c);
      case UserChunk(_) =>
      case Plan(_) => OtherTracks(s, f, h, n, c);
      case Commands(_) => OtherTracks(s, f, h, n, c);
      case Mode(_) => OtherTracks(s, f, h, n, c);
      case OtherUpdate =>
    }
  }

  lemma OtherTracks(s: E.State, f: Frame, h: Option<History>, n: nat, c: string)
    requires Tracks(s, h, n, c) && f.isSessionUpdate && f.update.Some?
    requires f.update.value.Plan? || f.update.value.Commands? || f.update.value.Mode?
    ensures Tracks(E.Ingest(s, f), h, n, c)
  {
    hide E.FlushText, Completions, MergeAll;
    FlushTracks(s, f.now, h, n, c);
  }

  lemma {:induction false} RunTracks(frames: seq<Frame>, c: string)
    requires c != ""
    ensures Tracks(E.Run(frames), HistoryOf(frames, c), TerminalUpdates(frames, c), c)
  {
    hide E.Ingest, NextHistory, IsTerminal;
    if frames != [] {
      var front := frames[..|frames| - 1];
      RunTracks(front, c);
      EmitterInvariants.RunInv(front);
      IngestTracks(E.Run(front), frames[|frames| - 1], HistoryOf(front, c), TerminalUpdates(front, c), c);
    }
  }

  lemma {:induction false} DrainCompletions(notes: seq<E.Note>, order: seq<string>, calls: map<string, E.Inflight>,
                                            now: int, c: string)
    requires Distinct(order) && forall d :: d in order ==> d in calls && calls[d].call.itemId == ToolId(d)
    ensures Completions(notes + E.DrainNotes(order, calls, now), ToolId(c))
            == Completions(notes, ToolId(c)) + if c in order && !calls[c].completed then 1 else 0
  {
    if order == [] {
      assert notes + [] == notes;
    } else {
      var front, d := order[..|order| - 1], order[|order| - 1];
      DistinctAppend(front, d);
      assert front + [d] == order;
      DrainCompletions(notes, front, calls, now, c);
      var item := Render(calls[d].call);
      assert item.id == ToolId(d);
      hide Render, Distinct;
      var sofar := notes + E.DrainNotes(front, calls, now);
      CompletionsAppend(sofar, E.ItemDone(item, now), ToolId(c));
      assert notes + (E.DrainNotes(front, calls, now) + [E.ItemDone(item, now)]) == sofar + [E.ItemDone(item, now)];
      assert E.DrainNotes(front, calls, now) + [] == E.DrainNotes(front, calls, now);
    }
  }

  /** Everything a turn sent by the end of `finish`. */
  function TurnNotes(frames: seq<Frame>, now: int, order: seq<string>): seq<E.Note>
    requires forall c :: c in order ==> c in E.FlushText(E.Run(frames), now).calls
  {
    var last := E.FlushText(E.Run(frames), now);
    last.notes + E.DrainNotes(order, last.calls, now)
  }

  /** The number of completions of a call over a whole turn is the number of updates that left
      its status terminal, plus one if none did since it was last announced. */
  lemma CompletionCount(frames: seq<Frame>, now: int, order: seq<string>, c: string)
    requires c != "" && E.DrainOrder(order, E.FlushText(E.Run(frames), now).calls)
    ensures Completions(TurnNotes(frames, now, order), ToolId(c))
            == TerminalUpdates(frames, c) + if OpenAtEnd(frames, c) then 1 else 0
  {
    hide E.Run, E.FlushText, TerminalUpdates, HistoryOf, E.DrainNotes, Completions, EmitterInvariants.InStep;
    RunTracks(frames, c);
    EmitterInvariants.RunInv(frames);
    FlushTracks(E.Run(frames), now, HistoryOf(frames, c), TerminalUpdates(frames, c), c);
    EmitterInvariants.FlushInv(E.Run(frames), now);
    var last := E.FlushText(E.Run(frames), now);
    forall d | d in order ensures last.calls[d].call.itemId == ToolId(d) {
      assert EmitterInvariants.SlotShows(last.items, d, last.calls[d].call);
    }
    DrainCompletions(last.notes, order, last.calls, now, c);
  }

  lemma {:induction false} ClosedMeansTerminal(frames: seq<Frame>, c: string)
    ensures HistoryOf(frames, c).Some? && HistoryOf(frames, c).value.Closed() ==> TerminalUpdates(frames, c) >= 1
  {
    if frames != [] {
      ClosedMeansTerminal(frames[..|frames| - 1], c);
      var f, before := frames[|frames| - 1], HistoryOf(frames[..|frames| - 1], c);
      if EventOf(f, c).Updated? {
        var u := Timed(EventOf(f, c).fields, f.now);
        var known := if before.Some? then before.value else History(u, []);
        known.PlusCall(u);
      }
    }
  }

  /** A call that was ever announced or updated is completed at least once, and it is completed
      exactly once if and only if either no update left it terminal, or just one did and the
      call was not announced again after it. */
  lemma CompletedAtLeastOnce(frames: seq<Frame>, now: int, order: seq<string>, c: string)
    requires c != "" && HistoryOf(frames, c).Some?
    requires E.DrainOrder(order, E.FlushText(E.Run(frames), now).calls)
    ensures var n := Completions(TurnNotes(frames, now, order), ToolId(c));
            && n >= 1
            && (n == 1 <==> TerminalUpdates(frames, c) == 0
                            || (TerminalUpdates(frames, c) == 1 && !OpenAtEnd(frames, c)))
  {
    CompletionCount(frames, now, order, c);
    ClosedMeansTerminal(frames, c);
  }

  /** `c` is not announced after the bridge knows it. */
  ghost predicate NeverReannounced(frames: seq<Frame>, c: string) {
    forall i :: 0 <= i < |frames| && EventOf(frames[i], c).Announced? ==> HistoryOf(frames[..i], c).None?
  }

  lemma {:induction false} TerminalMeansClosed(frames: seq<Frame>, c: string)
    requires NeverReannounced(frames, c)
    ensures TerminalUpdates(frames, c) >= 1 ==> HistoryOf(frames, c).Some? && HistoryOf(frames, c).value.Closed()
    ensures HistoryOf(frames, c).None? ==> TerminalUpdates(frames, c) == 0
  {
    hide MergeAll, IsTerminal;
    if frames != [] {
      var n := |frames| - 1;
      var front, f := frames[..n], frames[n];
      assert forall i :: 0 <= i < n ==> frames[..i] == front[..i] && front[i] == frames[i];
      TerminalMeansClosed(front, c);
      assert frames[..n] == front;
      if EventOf(f, c).Updated? {
        var before, u := HistoryOf(front, c), Timed(EventOf(f, c).fields, f.now);
        var known := if before.Some? then before.value else History(u, []);
        known.PlusCall(u);
      }
    }
  }

  /** Never announced again and left terminal by at most one update: completed exactly once. */
  lemma CompletedExactlyOnce(frames: seq<Frame>, now: int, order: seq<string>, c: string)
    requires c != "" && HistoryOf(frames, c).Some?
    requires NeverReannounced(frames, c) && TerminalUpdates(frames, c) <= 1
    requires E.DrainOrder(order, E.FlushText(E.Run(frames), now).calls)
    ensures Completions(TurnNotes(frames, now, order), ToolId(c)) == 1
  {
    CompletedAtLeastOnce(frames, now, order, c);
    TerminalMeansClosed(frames, c);
  }

  /** The live emitter's state of a call is the closed form of the call's history. */
  lemma EmitterHoldsClosedForm(frames: seq<Frame>, c: string)
    requires c != ""
    ensures c in E.Run(frames).calls <==> HistoryOf(frames, c).Some?
    ensures HistoryOf(frames, c).Some? ==>
              var h := HistoryOf(frames, c).value;
              E.Run(frames).calls[c].call == ClosedState(h.announce, h.updates)
  {
    hide ClosedState, HistoryOf;
    RunTracks(frames, c);
    if HistoryOf(frames, c).Some? {
      var h := HistoryOf(frames, c).value;
      MergeAllClosedForm(h.announce, h.updates);
    }
  }

  /** The same for the batch translator. */
  ghost predicate Holds(s: T.State, h: Option<History>, c: string) {
    && (c in s.calls <==> h.Some?)
    && (h.Some? ==> s.calls[c] == h.value.Call())
  }

  lemma TextHolds(s: T.State, kind: TextKind, content: Option<ContentBlock>)
    ensures T.FlushText(s).calls == s.calls
    ensures T.AppendText(s, kind, content).calls == s.calls
    ensures T.HandleUser(s, content).calls == s.calls
  {
    hide T.Classify;
  }

  lemma UpdateHolds(s: T.State, fields: ToolFields, now: int, h: Option<History>, c: string)
    requires Holds(s, h, c) && c != ""
    ensures var known := if h.Some? then h.value else History(Timed(fields, now), []);
            var next := if fields.callId == Some(c) then Some(known.Plus(Timed(fields, now))) else h;
            Holds(T.HandleToolCallUpdate(s, fields, now), next, c)
  {
    hide Render, ReplaceItem, MergeUpdate, FromAnnounce;
    if fields.callId == Some(c) {
      var u := Timed(fields, now);
      (if h.Some? then h.value else History(u, [])).PlusCall(u);
    }
  }

  /** The translator's view of a call depends on its calls only. */
  lemma HoldsByCalls(s: T.State, t: T.State, h: Option<History>, c: string)
    requires Holds(s, h, c) && t.calls == s.calls
    ensures Holds(t, h, c)
  {
  }

  /** Frames that only set what the output carries along touch no call. */
  lemma IngestCalls(s: T.State, f: Frame, h: Option<History>, c: string)
    requires Holds(s, h, c)
    requires f.isSessionUpdate && f.update.Some?
    requires !f.update.value.UserChunk? && !f.update.value.TextChunk?
    requires !f.update.value.ToolCall? && !f.update.value.ToolCallUpdate?
    ensures Holds(T.Ingest(s, f), h, c)
  {
    hide T.FlushText, T.AppendText, T.HandleUser, T.HandleToolCall, T.HandleToolCallUpdate;
    TextHolds(s, AgentText, None);
  }

  lemma AnnounceHolds(s: T.State, fields: ToolFields, now: int, h: Option<History>, c: string)
    requires Holds(s, h, c) && c != ""
    ensures Holds(T.HandleToolCall(s, fields, now),
                  if fields.callId == Some(c) then Some(History(Timed(fields, now), [])) else h, c)
  {
    hide Render, FromAnnounce, MergeUpdate;
  }

  lemma IngestHolds(s: T.State, f: Frame, h: Option<History>, c: string)
    requires Holds(s, h, c) && c != ""
    ensures Holds(T.Ingest(s, f), NextHistory(h, f, c), c)
  {
    hide Render, T.FlushText, T.AppendText, T.HandleUser, T.HandleToolCall, T.HandleToolCallUpdate, FromAnnounce, Holds;
    if f.isSessionUpdate && f.update.Some? {
      var update := f.update.value;
      var content := if update.UserChunk? || update.TextChunk? then update.content else None;
      var kind := if update.TextChunk? then update.kind else AgentText;
      TextHolds(s, kind, content);
      HoldsByCalls(s, T.FlushText(s), h, c);
      HoldsByCalls(s, T.AppendText(s, kind, content), h, c);
      HoldsByCalls(s, T.HandleUser(s, content), h, c);
      if update.ToolCall? {
        AnnounceHolds(T.FlushText(s), update.fields, f.now, h, c);
      } else if update.ToolCallUpdate? {
        UpdateHolds(T.FlushText(s), update.fields, f.now, h, c);
      }
      if !update.UserChunk? && !update.TextChunk? && !update.ToolCall? && !update.ToolCallUpdate? {
        IngestCalls(s, f, h, c);
      }
    }
  }

  lemma {:induction false} RunHolds(frames: seq<Frame>, c: string)
    requires c != ""
    ensures Holds(T.Run(T.INITIAL, frames), HistoryOf(frames, c), c)
  {
    hide T.Ingest, NextHistory;
    if frames != [] {
      var front := frames[..|frames| - 1];
      RunHolds(front, c);
      IngestHolds(T.Run(T.INITIAL, front), frames[|frames| - 1], HistoryOf(front, c), c);
    }
  }

  lemma TranslatorHoldsClosedForm(frames: seq<Frame>, c: string)
    requires c != ""
    ensures c in T.Run(T.INITIAL, frames).calls <==> HistoryOf(frames, c).Some?
    ensures HistoryOf(frames, c).Some? ==>
              var h := HistoryOf(frames, c).value;
              T.Run(T.INITIAL, frames).calls[c] == ClosedState(h.announce, h.updates)
  {
    hide ClosedState, HistoryOf;
    RunHolds(frames, c);
    if HistoryOf(frames, c).Some? {
      var h := HistoryOf(frames, c).value;
      MergeAllClosedForm(h.announce, h.updates);
    }
  }

  // ---- When content counts once ----

  /** What the frames since the last announcement of `c` say about it, the announcement first. */
  function About(frames: seq<Frame>, c: string): seq<ToolFields> {
    if frames == [] then []
    else
      var before := About(frames[..|frames| - 1], c);
      match EventOf(frames[|frames| - 1], c)
      case NoEvent => before
      case Announced(fields) => [fields]
      case Updated(fields) => before + [fields]
  }

  /** Nobody ever announced `c`: the first frame about it is an update. */
  predicate Orphaned(frames: seq<Frame>, c: string) {
    if frames == [] then false
    else
      var front := frames[..|frames| - 1];
      match EventOf(frames[|frames| - 1], c)
      case NoEvent => Orphaned(front, c)
      case Announced(_) => false
      case Updated(_) => About(front, c) == [] || Orphaned(front, c)
  }

  function FieldsOf(updates: seq<Timed>): seq<ToolFields> {
    seq(|updates|, i requires 0 <= i < |updates| => updates[i].fields)
  }

  /** One array member of every frame in a list, each frame once. */
  function Each<T>(list: seq<ToolFields>, field: ToolFields -> Option<seq<T>>): seq<seq<T>> {
    seq(|list|, i requires 0 <= i < |list| => ValueOr(field(list[i]), []))
  }

  /** The history of a call is what is said about it; an orphan's first update is in it twice. */
  lemma {:induction false} HistoryIsAbout(frames: seq<Frame>, c: string)
    ensures HistoryOf(frames, c).Some? <==> About(frames, c) != []
    ensures Orphaned(frames, c) ==> About(frames, c) != []
    ensures HistoryOf(frames, c).Some? ==>
              var h := HistoryOf(frames, c).value;
              && h.announce.fields == About(frames, c)[0]
              && FieldsOf(h.updates) == (if Orphaned(frames, c) then About(frames, c) else About(frames, c)[1..])
  {
    if frames != [] {
      var front, last := frames[..|frames| - 1], frames[|frames| - 1];
      HistoryIsAbout(front, c);
      if EventOf(last, c).Updated? {
        var fields, before := EventOf(last, c).fields, About(front, c);
        hide EventOf;
        if before == [] {
          assert FieldsOf([Timed(fields, last.now)]) == [fields];
          assert [] + [fields] == [fields];
        } else {
          var u := Timed(fields, last.now);
          FieldsAppend(HistoryOf(front, c).value.updates, u);
          assert (before + [fields])[1..] == before[1..] + [fields];
        }
      }
    }
  }

  lemma FieldsAppend(updates: seq<Timed>, u: Timed)
    ensures FieldsOf(updates + [u]) == FieldsOf(updates) + [u.fields]
  {
  }

  lemma EachCons<T>(fields: ToolFields, rest: seq<ToolFields>, field: ToolFields -> Option<seq<T>>)
    ensures Flatten(Each([fields] + rest, field)) == ValueOr(field(fields), []) + Flatten(Each(rest, field))
  {
    var first := ValueOr(field(fields), []);
    assert Each([fields] + rest, field) == [first] + Each(rest, field);
    FlattenConcat([first], Each(rest, field));
    FlattenAppend([], first);
    assert [] + [first] == [first];
    assert [] + first == first;
  }

  /** An array member of the closed form holds every frame's part once unless an orphan began with one. */
  lemma HeldOnce<T>(frames: seq<Frame>, c: string, field: ToolFields -> Option<seq<T>>)
    requires About(frames, c) != []
    ensures HistoryOf(frames, c).Some?
    ensures var h, about := HistoryOf(frames, c).value, About(frames, c);
            ValueOr(field(h.announce.fields), []) + Flatten(Arrays(h.updates, field)) == Flatten(Each(about, field))
            <==> !Orphaned(frames, c) || ValueOr(field(about[0]), []) == []
  {
    HistoryIsAbout(frames, c);
    hide About, HistoryOf, Orphaned;
    var h, about := HistoryOf(frames, c).value, About(frames, c);
    assert Arrays(h.updates, field) == Each(FieldsOf(h.updates), field);
    assert about == [about[0]] + about[1..];
    EachCons(about[0], about[1..], field);
    var first, all := ValueOr(field(about[0]), []), Flatten(Each(about, field));
    assert |first + all| == |first| + |all|;
    assert first == [] ==> first + all == all;
  }

  /**
   Live and batch, the content held for a call is that of the frames about it since its last
   announcement, each once, if and only if it was announced or its first update has no content;
   and so for the locations.
   */
  lemma ContentCountsOnce(frames: seq<Frame>, c: string)
    requires c != "" && About(frames, c) != []
    ensures c in E.Run(frames).calls && c in T.Run(T.INITIAL, frames).calls
    ensures var live, batch := E.Run(frames).calls[c].call, T.Run(T.INITIAL, frames).calls[c];
            live.content == batch.content && live.locations == batch.locations
    ensures E.Run(frames).calls[c].call.content == Flatten(Each(About(frames, c), ContentOf))
            <==> !Orphaned(frames, c) || ValueOr(About(frames, c)[0].content, []) == []
    ensures E.Run(frames).calls[c].call.locations == Flatten(Each(About(frames, c), LocationsOf))
            <==> !Orphaned(frames, c) || ValueOr(About(frames, c)[0].locations, []) == []
  {
    HeldOnce(frames, c, ContentOf);
    HeldOnce(frames, c, LocationsOf);
    hide About, HistoryOf, Orphaned, Each, Arrays;
    EmitterHoldsClosedForm(frames, c);
    TranslatorHoldsClosedForm(frames, c);
  }

  /** The first thing ever said about a call being an update, its content and locations are
      applied twice: once as the announcement, once as the update. */
  lemma OrphanUpdateAppliedTwice(fields: ToolFields, now: int)
    requires fields.callId.Some? && fields.callId.value != ""
    ensures var s := E.Run([Frame(true, Some(ToolCallUpdate(fields)), now)]);
            && fields.callId.value in s.calls
            && s.calls[fields.callId.value].call.content == ValueOr(fields.content, []) + ValueOr(fields.content, [])
            && s.calls[fields.callId.value].call.locations
               == ValueOr(fields.locations, []) + ValueOr(fields.locations, [])
  {
    hide Render, ReplaceItem, IsTerminal;
    var f := Frame(true, Some(ToolCallUpdate(fields)), now);
    assert E.Run([f]) == E.Ingest(E.Run([]), f) by {
      assert [f][..0] == [];
    }
  }
}
