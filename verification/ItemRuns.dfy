/**
 Where text items begin, and what the settings of a turn are, said over the frames. A text item
 begins with a text that no open run of its kind takes up; plan, commands and mode are the last
 ones sent.
 */
module ItemRuns {
  import opened Common
  import opened Ids
  import opened AcpProtocol
  import opened ToolCalls
  import opened ItemViews
  import opened EmptyChunks
  import opened ItemTexts
  import E = Emitter
  import T = Translator

  /** What a frame does to an open run: nothing, it ends it, it carries text, or it is an empty
      chunk, which only batch takes notice of. */
  datatype Act = Idle | Ends | Speaks(kind: TextKind) | Hushes(kind: TextKind)

  predicate EndsRuns(f: Frame) {
    f.isSessionUpdate && f.update.Some?
    && (f.update.value.UserChunk? || f.update.value.ToolCall? || f.update.value.ToolCallUpdate? || f.update.value.Plan?)
  }

  ghost predicate LiveActs(f: Frame, a: Act) {
    if IsChunk(f) then
      var content := f.update.value.content;
      if LiveReads(content, "") then a == Idle else a == Speaks(f.update.value.kind)
    else a == if EndsRuns(f) then Ends else Idle
  }

  ghost predicate BatchActs(f: Frame, a: Act) {
    if IsChunk(f) then
      var content := f.update.value.content;
      if exists path :: ReadsImage(content, path) then a == Ends
      else if ReadsText(content, "") then a == Hushes(f.update.value.kind)
      else if exists text :: ReadsText(content, text) then a == Speaks(f.update.value.kind)
      else a == Idle
    else a == if EndsRuns(f) then Ends else Idle
  }

  /** The act lets a run of this kind go on. */
  predicate Lets(a: Act, kind: TextKind) {
    a.Idle? || (a.Hushes? && a.kind == kind)
  }

  /** A run of this kind is open after these acts. */
  ghost predicate IsOpen(acts: seq<Act>, kind: TextKind) {
    exists j :: 0 <= j < |acts| && acts[j] == Speaks(kind) && forall m :: j < m < |acts| ==> Lets(acts[m], kind)
  }

  /** How many texts begin an item. */
  ghost function Begun(acts: seq<Act>): nat {
    if acts == [] then 0
    else
      var front, a := acts[..|acts| - 1], acts[|acts| - 1];
      Begun(front) + if a.Speaks? && !IsOpen(front, a.kind) then 1 else 0
  }

  lemma OpenStep(acts: seq<Act>, a: Act, kind: TextKind)
    ensures IsOpen(acts + [a], kind) <==> a == Speaks(kind) || (Lets(a, kind) && IsOpen(acts, kind))
  {
    var more := acts + [a];
    if a == Speaks(kind) {
      assert more[|acts|] == a;
    }
    if IsOpen(acts, kind) && Lets(a, kind) {
      var j :| 0 <= j < |acts| && acts[j] == Speaks(kind) && forall m :: j < m < |acts| ==> Lets(acts[m], kind);
      assert more[j] == acts[j] && forall m :: j < m < |more| ==> more[m] == if m < |acts| then acts[m] else a;
    }
    if IsOpen(more, kind) && a != Speaks(kind) {
      var j :| 0 <= j < |more| && more[j] == Speaks(kind) && forall m :: j < m < |more| ==> Lets(more[m], kind);
      assert more[|acts|] == a && j < |acts| && acts[j] == more[j];
      assert forall m :: j < m < |acts| ==> acts[m] == more[m];
    }
  }

  lemma BegunStep(acts: seq<Act>, a: Act)
    ensures Begun(acts + [a]) == Begun(acts) + if a.Speaks? && !IsOpen(acts, a.kind) then 1 else 0
  {
    hide IsOpen;
    assert (acts + [a])[..|acts|] == acts;
  }

  /** The run the emitter has open is the one the acts leave open. */
  ghost predicate LiveOpen(e: E.State, acts: seq<Act>) {
    forall kind :: IsOpen(acts, kind) <==> e.run.Some? && e.run.value.kind == kind
  }

  /** For batch a run counts as open when it has text. */
  ghost predicate BatchOpen(t: T.State, acts: seq<Act>) {
    forall kind :: IsOpen(acts, kind) <==> t.kind == Some(kind) && t.buf != ""
  }

  function LiveActOf(f: Frame): Act {
    if IsChunk(f) then
      if E.PluckText(f.update.value.content) == "" then Idle else Speaks(f.update.value.kind)
    else if EndsRuns(f) then Ends else Idle
  }

  function BatchActOf(f: Frame): Act {
    if IsChunk(f) then
      match T.Classify(f.update.value.content)
      case Nothing => Idle
      case Standalone(_) => Ends
      case Text(text) => if text == "" then Hushes(f.update.value.kind) else Speaks(f.update.value.kind)
    else if EndsRuns(f) then Ends else Idle
  }

  lemma ActsAre(f: Frame)
    ensures LiveActs(f, LiveActOf(f)) && BatchActs(f, BatchActOf(f))
  {
    hide E.PluckText, T.Classify, LiveReads, ReadsText, ReadsImage;
    if IsChunk(f) {
      ReadersRead(f.update.value.content);
      OneText(f.update.value.content);
    }
  }

  lemma OneText(content: Option<ContentBlock>)
    ensures forall a, b :: ReadsText(content, a) && ReadsText(content, b) ==> a == b
    ensures forall text, path :: !(ReadsText(content, text) && ReadsImage(content, path))
  {
  }

  lemma LiveActStep(e: E.State, f: Frame)
    requires TidyLive(e)
    ensures var n, a := E.Ingest(e, f), LiveActOf(f);
            && TidyLive(n)
            && LiveTexts(n) == LiveTexts(e)
                 + (if a.Speaks? && !(e.run.Some? && e.run.value.kind == a.kind) then 1 else 0)
            && (a.Ends? ==> n.run.None?)
            && (a.Idle? ==> n.run == e.run)
            && (a.Speaks? ==> n.run.Some? && n.run.value.kind == a.kind)
  {
    hide TidyLive, LiveTexts, E.FlushText, E.HandleText, E.HandleToolCall, E.HandleToolCallUpdate, E.PluckText;
    LiveFlushCounts(e, f.now);
    if f.isSessionUpdate && f.update.Some? {
      match f.update.value
      case TextChunk(kind, content) => LiveTextCounts(e, kind, content, f.now);
      case ToolCall(fields) => LiveCallCounts(E.FlushText(e, f.now), fields, f.now);
      case ToolCallUpdate(fields) => LiveUpdateCounts(E.FlushText(e, f.now), fields, f.now);
      case UserChunk(_) =>
      case Plan(_) => LiveSettings(E.FlushText(e, f.now), E.Ingest(e, f));
      case _ => LiveSettings(e, E.Ingest(e, f));
    }
  }

  lemma LiveSettings(e: E.State, n: E.State)
    requires TidyLive(e) && n.items == e.items && n.run == e.run && n.calls == e.calls
    ensures TidyLive(n) && LiveTexts(n) == LiveTexts(e)
  {
    hide ShapedIds, Count;
  }

  lemma BatchSettings(t: T.State, n: T.State)
    requires TidyBatch(t) && n.items == t.items && n.kind == t.kind && n.buf == t.buf && n.calls == t.calls
    ensures TidyBatch(n) && BatchTexts(n) == BatchTexts(t)
  {
    hide ShapedIds, Count;
  }

  lemma BatchActStep(t: T.State, f: Frame)
    requires TidyBatch(t) && (t.kind.None? ==> t.buf == "")
    ensures var n, a := T.Ingest(t, f), BatchActOf(f);
            && TidyBatch(n)
            && BatchTexts(n) == BatchTexts(t) + (if a.Speaks? && !(t.kind == Some(a.kind) && t.buf != "") then 1 else 0)
            && (a.Ends? ==> n.buf == "")
            && (a.Idle? ==> n.kind == t.kind && n.buf == t.buf)
            && (a.Speaks? ==> n.kind == Some(a.kind) && n.buf != "")
            && (a.Hushes? ==> if t.kind == Some(a.kind) then n.kind == t.kind && n.buf == t.buf else n.buf == "")
  {
    hide TidyBatch, BatchTexts, T.FlushText, T.AppendText, T.HandleUser, T.HandleToolCall, T.HandleToolCallUpdate,
         T.Classify, T.UserText;
    BatchFlushCounts(t);
    FlushedBuf(t);
    if f.isSessionUpdate && f.update.Some? {
      match f.update.value
      case TextChunk(kind, content) => BatchChunkActs(t, kind, content);
      case ToolCall(fields) => BatchCallCounts(T.FlushText(t), fields, f.now);
      case ToolCallUpdate(fields) => BatchUpdateCounts(T.FlushText(t), fields, f.now);
      case UserChunk(content) => UserCounts(t, content);
      case Plan(_) => BatchSettings(T.FlushText(t), T.Ingest(t, f));
      case _ => BatchSettings(t, T.Ingest(t, f));
    }
  }

  lemma UserCounts(t: T.State, content: Option<ContentBlock>)
    requires TidyBatch(t) && (t.kind.None? ==> t.buf == "")
    ensures var n := T.HandleUser(t, content); TidyBatch(n) && BatchTexts(n) == BatchTexts(t) && n.buf == ""
  {
    hide ShapedIds, Count, T.UserText;
    BatchFlushCounts(t);
    FlushedBuf(t);
    var u := T.FlushText(t);
    hide T.FlushText;
    var item := UserMessage(UserId(u.counter), T.UserText(content));
    LiveBatch.ShapedAppend(u.items, item);
    ViewAppend(false, u.items, item);
  }

  lemma BatchChunkActs(t: T.State, kind: TextKind, content: Option<ContentBlock>)
    requires TidyBatch(t) && (t.kind.None? ==> t.buf == "")
    ensures var n := T.AppendText(t, kind, content);
            && TidyBatch(n)
            && (T.Classify(content).Nothing? ==> n == t)
            && (T.Classify(content).Standalone? ==> n.buf == "" && BatchTexts(n) == BatchTexts(t))
            && (T.Classify(content).Text? ==>
                  var text, open := T.Classify(content).text, t.kind == Some(kind) && t.buf != "";
                  && n.kind == Some(kind) && (n.buf != "" <==> text != "" || open)
                  && (text == "" && t.kind == Some(kind) ==> n.buf == t.buf)
                  && BatchTexts(n) == BatchTexts(t) + if text != "" && !open then 1 else 0)
  {
    if T.Classify(content).Text? {
      BatchTextActs(t, kind, content);
    } else if T.Classify(content).Standalone? {
      BatchImageActs(t, kind, content);
    }
  }

  lemma BatchTextActs(t: T.State, kind: TextKind, content: Option<ContentBlock>)
    requires TidyBatch(t) && (t.kind.None? ==> t.buf == "") && T.Classify(content).Text?
    ensures var n, text := T.AppendText(t, kind, content), T.Classify(content).text;
            var open := t.kind == Some(kind) && t.buf != "";
            && TidyBatch(n) && n.kind == Some(kind) && (n.buf != "" <==> text != "" || open)
            && (text == "" && t.kind == Some(kind) ==> n.buf == t.buf)
            && BatchTexts(n) == BatchTexts(t) + if text != "" && !open then 1 else 0
  {
    BatchTextCounts(t, kind, content);
    hide T.Classify, TidyBatch, BatchTexts, T.FlushText;
    assert t.buf + "" == t.buf;
  }

  lemma BatchImageActs(t: T.State, kind: TextKind, content: Option<ContentBlock>)
    requires TidyBatch(t) && (t.kind.None? ==> t.buf == "") && T.Classify(content).Standalone?
    ensures var n := T.AppendText(t, kind, content); TidyBatch(n) && n.buf == "" && BatchTexts(n) == BatchTexts(t)
  {
    ReadersRead(content);
    BatchFlushCounts(t);
    FlushedBuf(t);
    hide T.Classify, ShapedIds, Count, T.FlushText;
    PushCounts(T.FlushText(t).items, T.Classify(content).item);
  }

  lemma {:induction false} LiveRunActs(frames: seq<Frame>) returns (acts: seq<Act>)
    ensures |acts| == |frames| && forall i :: 0 <= i < |frames| ==> LiveActs(frames[i], acts[i])
    ensures TidyLive(E.Run(frames)) && LiveOpen(E.Run(frames), acts) && LiveTexts(E.Run(frames)) == Begun(acts)
  {
    if frames == [] {
      acts := [];
      NothingCounts();
    } else {
      var front, f := frames[..|frames| - 1], frames[|frames| - 1];
      var before := LiveRunActs(front);
      var e, a := E.Run(front), LiveActOf(f);
      ActsAre(f);
      acts := before + [a];
      hide E.Ingest, TidyLive, LiveTexts, LiveActs, LiveActOf, IsOpen, Begun;
      LiveActStep(e, f);
      BegunStep(before, a);
      forall kind ensures IsOpen(acts, kind) <==> E.Ingest(e, f).run.Some? && E.Ingest(e, f).run.value.kind == kind {
        OpenStep(before, a, kind);
        LiveHushesNot(f);
      }
    }
  }

  lemma LiveHushesNot(f: Frame)
    ensures !LiveActOf(f).Hushes?
  {
  }

  lemma {:induction false} BatchRunActs(frames: seq<Frame>) returns (acts: seq<Act>)
    ensures |acts| == |frames| && forall i :: 0 <= i < |frames| ==> BatchActs(frames[i], acts[i])
    ensures var t := T.Run(T.INITIAL, frames);
            TidyBatch(t) && (t.kind.None? ==> t.buf == "") && BatchOpen(t, acts) && BatchTexts(t) == Begun(acts)
  {
    if frames == [] {
      acts := [];
      NothingCounts();
    } else {
      hide T.Ingest, TidyBatch, BatchTexts, BatchActs, BatchActOf, IsOpen, Begun;
      var front, f := frames[..|frames| - 1], frames[|frames| - 1];
      var before := BatchRunActs(front);
      var t, a := T.Run(T.INITIAL, front), BatchActOf(f);
      ActsAre(f);
      acts := before + [a];
      BufferNeedsRun(t, f);
      BatchActStep(t, f);
      BegunStep(before, a);
      forall kind ensures IsOpen(acts, kind) <==> T.Ingest(t, f).kind == Some(kind) && T.Ingest(t, f).buf != "" {
        OpenStep(before, a, kind);
      }
    }
  }

  /** There is one live text item for each text that begins one. */
  lemma LiveItemsBegin(frames: seq<Frame>, now: int) returns (acts: seq<Act>)
    ensures |acts| == |frames| && forall i :: 0 <= i < |frames| ==> LiveActs(frames[i], acts[i])
    ensures Count(false, E.FlushText(E.Run(frames), now).items) == Begun(acts)
  {
    hide LiveActs, E.Run, TidyLive, LiveOpen, Begun;
    acts := LiveRunActs(frames);
    LiveFlushCounts(E.Run(frames), now);
  }

  lemma BatchItemsBegin(frames: seq<Frame>) returns (acts: seq<Act>)
    ensures |acts| == |frames| && forall i :: 0 <= i < |frames| ==> BatchActs(frames[i], acts[i])
    ensures Count(false, T.Translate(frames)) == Begun(acts)
  {
    hide BatchActs, T.Run, TidyBatch, BatchOpen, Begun, T.FlushText;
    acts := BatchRunActs(frames);
    BatchFlushCounts(T.Run(T.INITIAL, frames));
    FlushedBuf(T.Run(T.INITIAL, frames));
  }

  // ---- Plan, commands and mode ----

  /** What a frame sets, if anything. */
  function PlanOf(f: Frame): Option<seq<Payload>> {
    if f.isSessionUpdate && f.update.Some? && f.update.value.Plan? then f.update.value.entries else None
  }

  function CommandsOf(f: Frame): Option<seq<Payload>> {
    if f.isSessionUpdate && f.update.Some? && f.update.value.Commands? then f.update.value.commands else None
  }

  function ModeOf(f: Frame): Option<string> {
    if f.isSessionUpdate && f.update.Some? && f.update.value.Mode? then f.update.value.modeId else None
  }

  /** The value is the last one sent, or none was. */
  ghost predicate LastSent<T(!new)>(frames: seq<Frame>, of: Frame -> Option<T>, value: Option<T>) {
    if value.None? then forall i :: 0 <= i < |frames| ==> of(frames[i]).None?
    else exists i :: 0 <= i < |frames| && of(frames[i]) == value && forall j :: i < j < |frames| ==> of(frames[j]).None?
  }

  lemma SentStep<T(!new)>(frames: seq<Frame>, f: Frame, of: Frame -> Option<T>, value: Option<T>)
    requires LastSent(frames, of, value)
    ensures LastSent(frames + [f], of, if of(f).Some? then of(f) else value)
  {
    var more := frames + [f];
    assert more[|frames|] == f && forall i :: 0 <= i < |frames| ==> more[i] == frames[i];
    if of(f).None? && value.Some? {
      var i :| 0 <= i < |frames| && of(frames[i]) == value && forall j :: i < j < |frames| ==> of(frames[j]).None?;
      assert of(more[i]) == value;
    }
  }

  predicate SameLive(e: E.State, n: E.State) {
    n.plan == e.plan && n.commands == e.commands && n.mode == e.mode
  }

  predicate SameBatch(t: T.State, u: T.State) {
    u.plan == t.plan && u.commands == t.commands
  }

  lemma CallsSetNothing(e: E.State, t: T.State, fields: ToolFields, now: int)
    ensures SameLive(e, E.HandleToolCall(e, fields, now)) && SameLive(e, E.HandleToolCallUpdate(e, fields, now))
    ensures SameBatch(t, T.HandleToolCall(t, fields, now)) && SameBatch(t, T.HandleToolCallUpdate(t, fields, now))
  {
    hide Render, MergeUpdate, FromAnnounce, ReplaceItem, IsTerminal;
  }

  lemma LiveTextSetsNothing(e: E.State, kind: TextKind, content: Option<ContentBlock>, now: int)
    ensures SameLive(e, E.FlushText(e, now)) && SameLive(e, E.HandleText(e, kind, content, now))
  {
    hide E.PluckText, E.RunItem;
  }

  lemma BatchTextSetsNothing(t: T.State, kind: TextKind, content: Option<ContentBlock>)
    ensures SameBatch(t, T.FlushText(t)) && SameBatch(t, T.AppendText(t, kind, content))
    ensures SameBatch(t, T.HandleUser(t, content))
  {
    hide T.Classify, T.UserText, TextItem;
  }

  lemma SettingsStep(e: E.State, t: T.State, f: Frame)
    ensures var n, u := E.Ingest(e, f), T.Ingest(t, f);
            && n.plan == (if PlanOf(f).Some? then PlanOf(f) else e.plan)
            && n.commands == (if CommandsOf(f).Some? then CommandsOf(f) else e.commands)
            && n.mode == (if ModeOf(f).Some? then ModeOf(f) else e.mode)
            && u.plan == (if PlanOf(f).Some? then PlanOf(f) else t.plan)
            && u.commands == (if CommandsOf(f).Some? then CommandsOf(f) else t.commands)
  {
    hide E.FlushText, E.HandleText, E.HandleToolCall, E.HandleToolCallUpdate, T.FlushText, T.AppendText, T.HandleUser,
         T.HandleToolCall, T.HandleToolCallUpdate;
    LiveTextSetsNothing(e, AgentText, None, f.now);
    BatchTextSetsNothing(t, AgentText, None);
    if f.isSessionUpdate && f.update.Some? {
      match f.update.value
      case TextChunk(kind, content) =>
        LiveTextSetsNothing(e, kind, content, f.now);
        BatchTextSetsNothing(t, kind, content);
      case UserChunk(content) => BatchTextSetsNothing(t, AgentText, content);
      case ToolCall(fields) => CallsSetNothing(E.FlushText(e, f.now), T.FlushText(t), fields, f.now);
      case ToolCallUpdate(fields) => CallsSetNothing(E.FlushText(e, f.now), T.FlushText(t), fields, f.now);
      case _ =>
    }
  }

  /** At every point plan, commands and mode are the last ones sent; batch keeps no mode. */
  lemma {:induction false} SettingsAreLast(frames: seq<Frame>)
    ensures var e, t := E.Run(frames), T.Run(T.INITIAL, frames);
            && LastSent(frames, PlanOf, e.plan) && LastSent(frames, PlanOf, t.plan)
            && LastSent(frames, CommandsOf, e.commands) && LastSent(frames, CommandsOf, t.commands)
            && LastSent(frames, ModeOf, e.mode)
  {
    if frames != [] {
      var front, f := frames[..|frames| - 1], frames[|frames| - 1];
      SettingsAreLast(front);
      assert front + [f] == frames;
      hide E.Ingest, T.Ingest, LastSent, PlanOf, CommandsOf, ModeOf;
      var e, t := E.Run(front), T.Run(T.INITIAL, front);
      SettingsStep(e, t, f);
      SentStep(front, f, PlanOf, e.plan);
      SentStep(front, f, PlanOf, t.plan);
      SentStep(front, f, CommandsOf, e.commands);
      SentStep(front, f, CommandsOf, t.commands);
      SentStep(front, f, ModeOf, e.mode);
    }
  }
}
