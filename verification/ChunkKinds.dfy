/**
 Live and batch on every kind of content block: where live reads at most the text that batch
 reads. A text that only batch reads (audio, a resource, a link) and an image make the batch
 items longer, so the items agree exactly if there is neither and no run is cut.
 */
module ChunkKinds {
  import opened Common
  import opened Ids
  import opened AcpProtocol
  import opened ToolCalls
  import opened ItemViews
  import opened LiveBatch
  import opened EmptyChunks
  import E = Emitter
  import T = Translator

  /** Live reads the text batch reads, or none. So it is for every block whose `text` member is
      there only if its type is text. */
  predicate LiveReadsPart(content: Option<ContentBlock>) {
    match T.Classify(content)
    case Text(text) => E.PluckText(content) == text || E.PluckText(content) == ""
    case _ => E.PluckText(content) == ""
  }

  ghost predicate AllLiveReadPart(frames: seq<Frame>) {
    forall f :: f in frames && IsChunk(f) ==> LiveReadsPart(f.update.value.content)
  }

  predicate IsChunk(f: Frame) {
    f.isSessionUpdate && f.update.Some? && f.update.value.TextChunk?
  }

  /** A block with no `text` member but for its type to be text, as the protocol has it. */
  predicate WellFormed(content: Option<ContentBlock>) {
    content.Some? && content.value.Block? ==>
      ValueOr(content.value.blockType, "text") in {"image", "audio", "resource", "resource_link"} ==>
        ValueOr(content.value.text, "") == ""
  }

  lemma WellFormedReadsPart(content: Option<ContentBlock>)
    requires WellFormed(content)
    ensures LiveReadsPart(content)
  {
  }

  // ---- How much text there is ----

  function ItemSize(item: Item): nat {
    match item
    case AgentMessage(_, text) => |text|
    case Reasoning(_, text) => |text|
    case ImageView(_, _) => 1
    case _ => 0
  }

  function Size(items: seq<Item>): nat {
    if items == [] then 0 else Size(items[..|items| - 1]) + ItemSize(items[|items| - 1])
  }

  function LiveSize(f: Frame): nat {
    if IsChunk(f) then |E.PluckText(f.update.value.content)| else 0
  }

  function BatchSize(f: Frame): nat {
    if !IsChunk(f) then 0
    else
      match T.Classify(f.update.value.content)
      case Nothing => 0
      case Text(text) => |text|
      case Standalone(_) => 1
  }

  function Total(frames: seq<Frame>, size: Frame -> nat): nat {
    if frames == [] then 0 else Total(frames[..|frames| - 1], size) + size(frames[|frames| - 1])
  }

  lemma SizeAppend(items: seq<Item>, item: Item)
    ensures Size(items + [item]) == Size(items) + ItemSize(item)
  {
    assert (items + [item])[..|items|] == items;
  }

  /** Rewriting a tool's slot changes no text. */
  lemma SizeReplace(items: seq<Item>, item: Item)
    requires ShapedIds(items) && IsToolItem(item) && item.id.ToolId?
    ensures Size(ReplaceItem(items, item.id, item)) == Size(items)
  {
    var p := LastPos(items, item.id);
    if p < 0 {
      SizeAppend(items, item);
    } else {
      hide LastPos;
      SizeUpdate(items, p, item);
    }
  }

  lemma {:induction false} SizeUpdate(items: seq<Item>, p: nat, item: Item)
    requires p < |items| && ItemSize(items[p]) == ItemSize(item)
    ensures Size(items[p := item]) == Size(items)
  {
    hide ItemSize;
    var n := |items| - 1;
    if p < n {
      SizeUpdate(items[..n], p, item);
      assert items[p := item][..n] == items[..n][p := item];
    } else {
      assert items[p := item][..n] == items[..n];
    }
  }

  /** Renumbering items and dropping user messages changes no text. */
  lemma {:induction false} SizeView(items: seq<Item>)
    ensures Size(View(false, items)) == Size(items)
  {
    hide Count;
    if items != [] {
      var front, last := items[..|items| - 1], items[|items| - 1];
      SizeView(front);
      SizeAppend(View(false, front), Renumbered(last, Count(false, front)));
    }
  }

  /** The text of the items and of the open run. */
  function LiveHeld(e: E.State): nat {
    Size(e.items) + if e.run.Some? then |e.run.value.text| else 0
  }

  function BatchHeld(t: T.State): nat {
    Size(t.items) + |t.buf|
  }

  lemma LiveFlushHolds(e: E.State, now: int)
    requires TidyLive(e)
    ensures var n := E.FlushText(e, now); TidyLive(n) && n.run.None? && Size(n.items) == LiveHeld(n) == LiveHeld(e)
  {
    LiveFlushCounts(e, now);
    hide Size, TidyLive;
    if e.run.Some? {
      SizeAppend(e.items, E.RunItem(e.run.value));
    }
  }

  lemma BatchFlushHolds(t: T.State)
    requires TidyBatch(t) && (t.kind.None? ==> t.buf == "")
    ensures var n := T.FlushText(t);
            TidyBatch(n) && n.kind.None? && n.buf == "" && Size(n.items) == BatchHeld(n) == BatchHeld(t)
  {
    BatchFlushCounts(t);
    hide Size, TidyBatch;
    if t.kind.Some? && t.buf != "" {
      SizeAppend(t.items, TextItem(t.kind.value, t.counter, t.buf));
    }
  }

  lemma LiveAnnounceHolds(e: E.State, fields: ToolFields, now: int)
    ensures LiveHeld(E.HandleToolCall(e, fields, now)) == LiveHeld(e)
  {
    hide Size, ItemSize, Render, FromAnnounce;
    SizeAppend(e.items, Render(FromAnnounce(fields, now)));
    ToolSize(Render(FromAnnounce(fields, now)));
  }

  lemma LiveMergeHolds(e: E.State, id: string, fields: ToolFields, now: int)
    requires TidyLive(e) && id in e.calls
    ensures LiveHeld(E.MergeInto(e, id, fields, now)) == LiveHeld(e)
  {
    hide Size, Render, MergeUpdate, IsTerminal, ShapedIds, ReplaceItem;
    MergeKeepsId(e.calls[id].call, fields, now);
    SizeReplace(e.items, Render(MergeUpdate(e.calls[id].call, fields, now)));
  }

  lemma LiveCallHolds(e: E.State, fields: ToolFields, now: int)
    requires TidyLive(e)
    ensures LiveHeld(E.HandleToolCall(e, fields, now)) == LiveHeld(e)
    ensures LiveHeld(E.HandleToolCallUpdate(e, fields, now)) == LiveHeld(e)
  {
    hide LiveHeld, Render, E.MergeInto, TidyLive, FromAnnounce;
    LiveAnnounceHolds(e, fields, now);
    LiveCallCounts(e, fields, now);
    if ValueOr(fields.callId, "") != "" {
      var id := fields.callId.value;
      LiveMergeHolds(if id in e.calls then e else E.HandleToolCall(e, fields, now), id, fields, now);
    }
  }

  lemma BatchAnnounceHolds(t: T.State, fields: ToolFields, now: int)
    ensures BatchHeld(T.HandleToolCall(t, fields, now)) == BatchHeld(t)
  {
    hide Size, ItemSize, Render, FromAnnounce;
    SizeAppend(t.items, Render(FromAnnounce(fields, now)));
    ToolSize(Render(FromAnnounce(fields, now)));
  }

  lemma BatchMergeHolds(t: T.State, id: string, fields: ToolFields, now: int)
    requires TidyBatch(t) && id in t.calls
    ensures BatchHeld(T.MergeInto(t, id, fields, now)) == BatchHeld(t)
  {
    hide Size, Render, MergeUpdate, ShapedIds, ReplaceItem;
    MergeKeepsId(t.calls[id], fields, now);
    SizeReplace(t.items, Render(MergeUpdate(t.calls[id], fields, now)));
  }

  lemma BatchCallHolds(t: T.State, fields: ToolFields, now: int)
    requires TidyBatch(t)
    ensures BatchHeld(T.HandleToolCall(t, fields, now)) == BatchHeld(t)
    ensures BatchHeld(T.HandleToolCallUpdate(t, fields, now)) == BatchHeld(t)
  {
    hide BatchHeld, Render, T.MergeInto, TidyBatch, FromAnnounce;
    BatchAnnounceHolds(t, fields, now);
    BatchCallCounts(t, fields, now);
    if ValueOr(fields.callId, "") != "" {
      var id := fields.callId.value;
      BatchMergeHolds(if id in t.calls then t else T.HandleToolCall(t, fields, now), id, fields, now);
    }
  }

  lemma ToolSize(item: Item)
    requires IsToolItem(item)
    ensures ItemSize(item) == 0
  {
  }

  lemma LiveTextHolds(e: E.State, kind: TextKind, content: Option<ContentBlock>, now: int)
    requires TidyLive(e)
    ensures var n := E.HandleText(e, kind, content, now);
            TidyLive(n) && LiveHeld(n) == LiveHeld(e) + |E.PluckText(content)|
  {
    LiveTextCounts(e, kind, content, now);
    LiveFlushHolds(e, now);
    hide Size, TidyLive, E.FlushText, E.PluckText;
  }

  lemma BatchTextHolds(t: T.State, kind: TextKind, content: Option<ContentBlock>)
    requires TidyBatch(t) && (t.kind.None? ==> t.buf == "")
    ensures var n := T.AppendText(t, kind, content);
            && TidyBatch(n)
            && BatchHeld(n) == BatchHeld(t)
                 + match T.Classify(content) case Nothing => 0 case Text(text) => |text| case Standalone(_) => 1
  {
    hide Size, TidyBatch, T.FlushText, T.Classify, BatchTexts;
    BatchFlushHolds(t);
    match T.Classify(content)
    case Nothing =>
    case Text(text) =>
      BatchTextCounts(t, kind, content);
      assert |t.buf + text| == |t.buf| + |text| && |"" + text| == |text|;
    case Standalone(item) => ImageHolds(T.FlushText(t), content);
  }

  lemma ImageHolds(t: T.State, content: Option<ContentBlock>)
    requires TidyBatch(t) && T.Classify(content).Standalone?
    ensures var n := T.PushItem(t, T.Classify(content).item); TidyBatch(n) && BatchHeld(n) == BatchHeld(t) + 1
  {
    var item := T.Classify(content).item;
    assert item.ImageView? && item.id.ImageId?;
    hide Size, Count, ShapedIds, T.Classify;
    PushCounts(t.items, item);
    SizeAppend(t.items, item);
  }

  lemma LiveStep(e: E.State, f: Frame)
    requires TidyLive(e)
    ensures TidyLive(E.Ingest(e, f)) && LiveHeld(E.Ingest(e, f)) == LiveHeld(e) + LiveSize(f)
  {
    hide LiveHeld, E.HandleText, E.HandleToolCall, E.HandleToolCallUpdate, E.FlushText, E.PluckText, TidyLive;
    LiveFlushHolds(e, f.now);
    if f.isSessionUpdate && f.update.Some? {
      match f.update.value
      case TextChunk(kind, content) => LiveTextHolds(e, kind, content, f.now);
      case ToolCall(fields) =>
        LiveCallHolds(E.FlushText(e, f.now), fields, f.now);
        LiveCallCounts(E.FlushText(e, f.now), fields, f.now);
      case ToolCallUpdate(fields) =>
        LiveCallHolds(E.FlushText(e, f.now), fields, f.now);
        LiveUpdateCounts(E.FlushText(e, f.now), fields, f.now);
      case UserChunk(_) =>
      case _ =>
        LiveSettings(e, E.Ingest(e, f));
        LiveSettings(E.FlushText(e, f.now), E.Ingest(e, f));
    }
  }

  lemma LiveSettings(e: E.State, n: E.State)
    ensures e.items == n.items && e.run == n.run && e.calls == n.calls ==>
              LiveHeld(n) == LiveHeld(e) && (TidyLive(e) ==> TidyLive(n))
  {
    hide Size, ShapedIds;
  }

  lemma BatchSettings(t: T.State, n: T.State)
    ensures t.items == n.items && t.buf == n.buf && t.calls == n.calls ==>
              BatchHeld(n) == BatchHeld(t) && (TidyBatch(t) ==> TidyBatch(n))
  {
    hide Size, ShapedIds;
  }

  lemma UserHolds(t: T.State, content: Option<ContentBlock>)
    requires TidyBatch(t) && t.buf == ""
    ensures var item := UserMessage(UserId(t.counter), T.UserText(content));
            var n := T.PushItem(t, item).(counter := t.counter + 1);
            TidyBatch(n) && BatchHeld(n) == BatchHeld(t)
  {
    hide Size, ShapedIds, T.UserText;
    var item := UserMessage(UserId(t.counter), T.UserText(content));
    ShapedAppend(t.items, item);
    SizeAppend(t.items, item);
  }

  lemma BatchStep(t: T.State, f: Frame)
    requires TidyBatch(t) && (t.kind.None? ==> t.buf == "")
    ensures TidyBatch(T.Ingest(t, f)) && BatchHeld(T.Ingest(t, f)) == BatchHeld(t) + BatchSize(f)
  {
    hide BatchHeld, T.AppendText, T.HandleToolCall, T.HandleToolCallUpdate, T.FlushText, T.Classify, T.UserText,
         TidyBatch;
    BatchFlushHolds(t);
    if f.isSessionUpdate && f.update.Some? {
      match f.update.value
      case TextChunk(kind, content) => BatchTextHolds(t, kind, content);
      case ToolCall(fields) =>
        BatchCallHolds(T.FlushText(t), fields, f.now);
        BatchCallCounts(T.FlushText(t), fields, f.now);
      case ToolCallUpdate(fields) =>
        BatchCallHolds(T.FlushText(t), fields, f.now);
        BatchUpdateCounts(T.FlushText(t), fields, f.now);
      case UserChunk(content) => UserHolds(T.FlushText(t), content);
      case _ =>
        BatchSettings(t, T.Ingest(t, f));
        BatchSettings(T.FlushText(t), T.Ingest(t, f));
    }
  }

  lemma {:induction false} RunHolds(frames: seq<Frame>)
    ensures var e, t := E.Run(frames), T.Run(T.INITIAL, frames);
            && TidyLive(e) && LiveHeld(e) == Total(frames, LiveSize)
            && TidyBatch(t) && (t.kind.None? ==> t.buf == "") && BatchHeld(t) == Total(frames, BatchSize)
  {
    if frames == [] {
      NothingCounts();
    } else {
      hide E.Ingest, T.Ingest, TidyLive, TidyBatch, LiveHeld, BatchHeld, LiveSize, BatchSize;
      var front, last := frames[..|frames| - 1], frames[|frames| - 1];
      RunHolds(front);
      LiveStep(E.Run(front), last);
      BatchStep(T.Run(T.INITIAL, front), last);
      BufferNeedsRun(T.Run(T.INITIAL, front), last);
    }
  }

  lemma ChunkSizes(f: Frame)
    requires IsChunk(f) ==> LiveReadsPart(f.update.value.content)
    ensures LiveSize(f) <= BatchSize(f)
    ensures LiveSize(f) == BatchSize(f) <==> !IsChunk(f) || ReadAlike(f.update.value.content)
  {
    hide T.Classify, E.PluckText;
  }

  lemma {:induction false} TotalsAgree(frames: seq<Frame>)
    requires AllLiveReadPart(frames)
    ensures Total(frames, LiveSize) <= Total(frames, BatchSize)
    ensures Total(frames, LiveSize) == Total(frames, BatchSize) <==> AllReadAlike(frames)
  {
    hide LiveSize, BatchSize, LiveReadsPart, ReadAlike;
    if frames != [] {
      var front, last := frames[..|frames| - 1], frames[|frames| - 1];
      assert front + [last] == frames && last in frames && forall f :: f in front ==> f in frames;
      TotalsAgree(front);
      ChunkSizes(last);
    }
  }

  /**
   On a stream whose chunks live reads at most as batch does, live and batch items agree if and
   only if no chunk is an image or a text that live does not read, and nowhere an empty chunk of
   the other kind stands inside a run of text.
   */
  lemma AgreeIffAllRead(frames: seq<Frame>, now: int)
    requires AllLiveReadPart(frames)
    ensures E.FlushText(E.Run(frames), now).items == View(false, T.Translate(frames))
            <==> AllReadAlike(frames) && forall i: nat, j: nat, l: nat :: !SplitAt(frames, i, j, l)
  {
    hide E.Run, T.Run, E.FlushText, T.FlushText, Total, Size, View, Count, SplitAt, AllReadAlike, AllLiveReadPart,
         TidyLive, TidyBatch;
    RunHolds(frames);
    LiveFlushHolds(E.Run(frames), now);
    BatchFlushHolds(T.Run(T.INITIAL, frames));
    SizeView(T.Translate(frames));
    TotalsAgree(frames);
    if AllReadAlike(frames) {
      AgreeIffUnsplit(frames, now);
    }
  }
}
