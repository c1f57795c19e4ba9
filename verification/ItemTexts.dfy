/**
 What the items of a turn contain, said over the frames: which member of a content block is
 read, and that the items hold, in order, exactly the text that was read, the calls that came
 up and the images. Where one text item ends and the next begins is read off the frames too.
 */
module ItemTexts {
  import opened Common
  import opened Ids
  import opened AcpProtocol
  import opened ToolCalls
  import opened CallHistory
  import opened ItemViews
  import opened EmptyChunks
  import opened LiveBatch
  import E = Emitter
  import T = Translator
  import Replay

  // ---- Which member of a block is read ----

  /** The batch translator reads this text: of a text block, or one of unknown type, its text; a
      marker for audio; the text of an embedded resource before its uri; the uri of a link. */
  predicate ReadsText(content: Option<ContentBlock>, text: string) {
    match content
    case None => false
    case Some(Bare(s)) => text == s
    case Some(b) =>
      var blockType := ValueOr(b.blockType, "text");
      if blockType == "audio" then text == "[audio: " + ValueOr(b.mimeType, "audio") + "]"
      else if blockType == "resource" then
        b.resourceText == Some(text) || (b.resourceText.None? && b.resourceUri == Some(text))
      else if blockType == "resource_link" then b.uri == Some(text)
      else blockType != "image" && b.text == Some(text)
  }

  /** It shows this image: by its uri, or else by the file its data was written to. */
  predicate ReadsImage(content: Option<ContentBlock>, path: string) {
    && content.Some? && content.value.Block? && content.value.blockType == Some("image")
    && (content.value.uri == Some(path)
        || (content.value.uri.None? && ValueOr(content.value.data, "") != "" && content.value.imageFile == Some(path)))
  }

  /** The live emitter reads this text: the string itself, or the text member whatever the type. */
  predicate LiveReads(content: Option<ContentBlock>, text: string) {
    match content
    case None => text == ""
    case Some(Bare(s)) => text == s
    case Some(b) => text == ValueOr(b.text, "")
  }

  lemma ReadersRead(content: Option<ContentBlock>)
    ensures forall text :: T.Classify(content) == T.Text(text) <==> ReadsText(content, text)
    ensures T.Classify(content).Standalone? <==> exists path :: ReadsImage(content, path)
    ensures T.Classify(content).Standalone? ==>
              var item := T.Classify(content).item;
              item.ImageView? && item.id == ImageId(content.value.imageId) && ReadsImage(content, item.path)
    ensures forall path :: ReadsImage(content, path) ==> T.Classify(content).Standalone?
    ensures forall text :: E.PluckText(content) == text <==> LiveReads(content, text)
  {
    if T.Classify(content).Standalone? {
      assert ReadsImage(content, T.Classify(content).item.path);
    }
  }

  // ---- What the items hold ----

  /** One thing shown to the user. */
  datatype Mark = Letter(kind: TextKind, c: char) | Wrote(c: char) | Used(id: ItemId) | Picture(path: string)

  function Letters(kind: TextKind, text: string): seq<Mark> {
    seq(|text|, i requires 0 <= i < |text| => Letter(kind, text[i]))
  }

  function Written(text: string): seq<Mark> {
    seq(|text|, i requires 0 <= i < |text| => Wrote(text[i]))
  }

  function MarksOf(item: Item): seq<Mark> {
    match item
    case AgentMessage(_, text) => Letters(AgentText, text)
    case Reasoning(_, text) => Letters(ReasoningText, text)
    case UserMessage(_, text) => Written(text)
    case ImageView(_, path) => [Picture(path)]
    case _ => [Used(item.id)]
  }

  function Marks(items: seq<Item>): seq<Mark> {
    if items == [] then [] else Marks(items[..|items| - 1]) + MarksOf(items[|items| - 1])
  }

  /** The call this frame brings up for the first time, or announces again. */
  predicate BringsUp(before: seq<Frame>, f: Frame, c: string) {
    && c != "" && f.isSessionUpdate && f.update.Some?
    && ((f.update.value.ToolCall? && f.update.value.fields.callId == Some(c))
        || (f.update.value.ToolCallUpdate? && f.update.value.fields.callId == Some(c) && !Replay.Mentioned(before, c)))
  }

  ghost predicate BringsUpNone(before: seq<Frame>, f: Frame) {
    forall c :: !BringsUp(before, f, c)
  }

  predicate IsChunk(f: Frame) {
    f.isSessionUpdate && f.update.Some? && f.update.value.TextChunk?
  }

  predicate IsUser(f: Frame) {
    f.isSessionUpdate && f.update.Some? && f.update.value.UserChunk?
  }

  /** What the live emitter shows of a frame. */
  ghost predicate LiveAdds(before: seq<Frame>, f: Frame, marks: seq<Mark>) {
    if IsChunk(f) then
      forall text :: LiveReads(f.update.value.content, text) ==> marks == Letters(f.update.value.kind, text)
    else
      && (forall c :: BringsUp(before, f, c) ==> marks == [Used(ToolId(c))])
      && (BringsUpNone(before, f) ==> marks == [])
  }

  /** What the batch translator shows of a frame. */
  ghost predicate BatchAdds(before: seq<Frame>, f: Frame, marks: seq<Mark>) {
    if IsChunk(f) then
      var content := f.update.value.content;
      && (forall text :: ReadsText(content, text) ==> marks == Letters(f.update.value.kind, text))
      && (forall path :: ReadsImage(content, path) ==> marks == [Picture(path)])
      && ((forall text :: !ReadsText(content, text)) && (forall path :: !ReadsImage(content, path)) ==> marks == [])
    else if IsUser(f) then
      && (forall text :: ReadsText(f.update.value.content, text) ==> marks == Written(text))
      && ((forall text :: !ReadsText(f.update.value.content, text)) ==> marks == [])
    else
      && (forall c :: BringsUp(before, f, c) ==> marks == [Used(ToolId(c))])
      && (BringsUpNone(before, f) ==> marks == [])
  }

  lemma MarksAppend(items: seq<Item>, item: Item)
    ensures Marks(items + [item]) == Marks(items) + MarksOf(item)
  {
    assert (items + [item])[..|items|] == items;
  }

  lemma {:induction false} MarksUpdate(items: seq<Item>, p: nat, item: Item)
    requires p < |items| && MarksOf(items[p]) == MarksOf(item)
    ensures Marks(items[p := item]) == Marks(items)
  {
    hide MarksOf;
    var n := |items| - 1;
    if p < n {
      MarksUpdate(items[..n], p, item);
      assert items[p := item][..n] == items[..n][p := item];
    } else {
      assert items[p := item][..n] == items[..n];
    }
  }

  /** Rewriting a tool's slot shows nothing new. */
  lemma MarksReplace(items: seq<Item>, item: Item)
    requires ShapedIds(items) && IsToolItem(item) && item.id.ToolId? && LastPos(items, item.id) >= 0
    ensures Marks(ReplaceItem(items, item.id, item)) == Marks(items)
  {
    var p := LastPos(items, item.id);
    hide LastPos;
    assert IsToolItem(items[p]);
    MarksUpdate(items, p, item);
  }

  lemma LettersConcat(kind: TextKind, a: string, b: string)
    ensures Letters(kind, a + b) == Letters(kind, a) + Letters(kind, b)
  {
  }

  lemma TextMarks(kind: TextKind, n: nat, text: string)
    ensures MarksOf(TextItem(kind, n, text)) == Letters(kind, text)
  {
  }

  function LiveMarks(e: E.State): seq<Mark> {
    Marks(e.items) + if e.run.Some? then Letters(e.run.value.kind, e.run.value.text) else []
  }

  function BatchMarks(t: T.State): seq<Mark> {
    Marks(t.items) + if t.kind.Some? then Letters(t.kind.value, t.buf) else []
  }

  /** Every known call has its slot, and only tool items have tool ids. */
  ghost predicate LiveSound(e: E.State) {
    TidyLive(e) && forall c :: c in e.calls ==> LastPos(e.items, e.calls[c].call.itemId) >= 0
  }

  ghost predicate BatchSound(t: T.State) {
    TidyBatch(t) && forall c :: c in t.calls ==> LastPos(t.items, t.calls[c].itemId) >= 0
  }

  lemma LiveFlushMarks(e: E.State, now: int)
    ensures var n := E.FlushText(e, now); n.run.None? && LiveMarks(n) == LiveMarks(e) == Marks(n.items)
  {
    hide Marks, Letters, MarksOf;
    if e.run.Some? {
      var r := e.run.value;
      MarksAppend(e.items, E.RunItem(r));
      TextMarks(r.kind, r.n, r.text);
      assert Marks(e.items) + Letters(r.kind, r.text) + [] == Marks(e.items) + Letters(r.kind, r.text);
    } else {
      assert Marks(e.items) + [] == Marks(e.items);
    }
  }

  lemma BatchFlushMarks(t: T.State)
    ensures var n := T.FlushText(t); n.kind.None? && BatchMarks(n) == BatchMarks(t) == Marks(n.items)
  {
    hide Marks, MarksOf;
    if t.kind.Some? && t.buf != "" {
      hide Letters;
      MarksAppend(t.items, TextItem(t.kind.value, t.counter, t.buf));
      TextMarks(t.kind.value, t.counter, t.buf);
      var all := Marks(t.items) + Letters(t.kind.value, t.buf);
      assert all + [] == all;
    } else {
      assert Marks(t.items) + [] == Marks(t.items);
    }
  }

  lemma LiveTextMarks(e: E.State, kind: TextKind, content: Option<ContentBlock>, now: int)
    ensures LiveMarks(E.HandleText(e, kind, content, now)) == LiveMarks(e) + Letters(kind, E.PluckText(content))
  {
    var text := E.PluckText(content);
    LiveFlushMarks(e, now);
    hide Marks, Letters, E.PluckText, E.FlushText;
    var t := if e.run.Some? && e.run.value.kind != kind then E.FlushText(e, now) else e;
    if text == "" {
      NoLetters(kind);
      assert LiveMarks(e) + [] == LiveMarks(e);
    } else if t.run.Some? {
      var r := t.run.value;
      LettersConcat(kind, r.text, text);
      assert Marks(t.items) + Letters(kind, r.text) + Letters(kind, text)
             == Marks(t.items) + (Letters(kind, r.text) + Letters(kind, text));
    } else {
      assert "" + text == text;
      assert Marks(t.items) + [] == Marks(t.items);
    }
  }

  lemma NoLetters(kind: TextKind)
    ensures Letters(kind, "") == []
  {
  }

  lemma BatchTextMarks(t: T.State, kind: TextKind, text: string)
    requires t.kind.None? ==> t.buf == ""
    ensures var u := if t.kind != Some(kind) then T.FlushText(t).(kind := Some(kind)) else t;
            BatchMarks(u.(buf := u.buf + text)) == BatchMarks(t) + Letters(kind, text)
  {
    BatchFlushMarks(t);
    FlushedBuf(t);
    LettersConcat(kind, t.buf, text);
    hide Marks, Letters, T.FlushText;
    if t.kind == Some(kind) {
      assert Marks(t.items) + Letters(kind, t.buf) + Letters(kind, text)
             == Marks(t.items) + (Letters(kind, t.buf) + Letters(kind, text));
    } else {
      assert T.FlushText(t).buf == "" && "" + text == text;
    }
  }

  lemma LiveCallMarks(e: E.State, fields: ToolFields, now: int)
    requires LiveSound(e) && e.run.None?
    ensures var n := E.HandleToolCall(e, fields, now); var c := ValueOr(fields.callId, "");
            && LiveSound(n) && n.run.None?
            && LiveMarks(n) == LiveMarks(e) + (if c == "" then [] else [Used(ToolId(c))])
            && (c != "" ==> c in n.calls)
  {
    assert LiveMarks(e) + [] == LiveMarks(e);
    if ValueOr(fields.callId, "") != "" {
      LiveCallCounts(e, fields, now);
      AnnouncedId(fields, now);
      hide Marks, Render, FromAnnounce, ShapedIds, LastPos;
      var item, n := Render(FromAnnounce(fields, now)), E.HandleToolCall(e, fields, now);
      MarksAppend(e.items, item);
      assert Marks(n.items) + [] == Marks(n.items) && Marks(e.items) + [] == Marks(e.items);
      forall c | c in n.calls ensures LastPos(n.items, n.calls[c].call.itemId) >= 0 {
        LastPosAppend(e.items, item, n.calls[c].call.itemId);
      }
    }
  }

  lemma LiveMergeMarks(e: E.State, id: string, fields: ToolFields, now: int)
    requires LiveSound(e) && e.run.None? && id in e.calls
    ensures var n := E.MergeInto(e, id, fields, now); LiveSound(n) && n.run.None? && LiveMarks(n) == LiveMarks(e)
  {
    LiveMergeCounts(e, id, fields, now);
    MergeKeepsId(e.calls[id].call, fields, now);
    hide Marks, Render, MergeUpdate, IsTerminal, ShapedIds, LastPos;
    var item, n := Render(MergeUpdate(e.calls[id].call, fields, now)), E.MergeInto(e, id, fields, now);
    MarksReplace(e.items, item);
    forall c | c in n.calls ensures LastPos(n.items, n.calls[c].call.itemId) >= 0 {
      LastPosUpdate(e.items, LastPos(e.items, item.id), item, n.calls[c].call.itemId);
    }
  }

  lemma LiveUpdateMarks(e: E.State, fields: ToolFields, now: int)
    requires LiveSound(e) && e.run.None?
    ensures var n := E.HandleToolCallUpdate(e, fields, now); var c := ValueOr(fields.callId, "");
            && LiveSound(n) && n.run.None?
            && LiveMarks(n) == LiveMarks(e) + (if c == "" || c in e.calls then [] else [Used(ToolId(c))])
  {
    hide LiveMarks, LiveSound, E.MergeInto, E.HandleToolCall;
    assert LiveMarks(e) + [] == LiveMarks(e);
    if ValueOr(fields.callId, "") != "" {
      var id := fields.callId.value;
      LiveCallMarks(e, fields, now);
      LiveMergeMarks(if id in e.calls then e else E.HandleToolCall(e, fields, now), id, fields, now);
    }
  }

  lemma BatchCallMarks(t: T.State, fields: ToolFields, now: int)
    requires BatchSound(t) && t.kind.None?
    ensures var n := T.HandleToolCall(t, fields, now); var c := ValueOr(fields.callId, "");
            && BatchSound(n) && n.kind.None?
            && BatchMarks(n) == BatchMarks(t) + (if c == "" then [] else [Used(ToolId(c))])
            && (c != "" ==> c in n.calls)
  {
    assert BatchMarks(t) + [] == BatchMarks(t);
    if ValueOr(fields.callId, "") != "" {
      BatchCallCounts(t, fields, now);
      AnnouncedId(fields, now);
      hide Marks, Render, FromAnnounce, ShapedIds, LastPos;
      var item, n := Render(FromAnnounce(fields, now)), T.HandleToolCall(t, fields, now);
      MarksAppend(t.items, item);
      assert Marks(n.items) + [] == Marks(n.items) && Marks(t.items) + [] == Marks(t.items);
      forall c | c in n.calls ensures LastPos(n.items, n.calls[c].itemId) >= 0 {
        LastPosAppend(t.items, item, n.calls[c].itemId);
      }
    }
  }

  lemma BatchMergeMarks(t: T.State, id: string, fields: ToolFields, now: int)
    requires BatchSound(t) && t.kind.None? && id in t.calls
    ensures var n := T.MergeInto(t, id, fields, now); BatchSound(n) && n.kind.None? && BatchMarks(n) == BatchMarks(t)
  {
    BatchMergeCounts(t, id, fields, now);
    MergeKeepsId(t.calls[id], fields, now);
    hide Marks, Render, MergeUpdate, ShapedIds, LastPos;
    var item, n := Render(MergeUpdate(t.calls[id], fields, now)), T.MergeInto(t, id, fields, now);
    MarksReplace(t.items, item);
    forall c | c in n.calls ensures LastPos(n.items, n.calls[c].itemId) >= 0 {
      LastPosUpdate(t.items, LastPos(t.items, item.id), item, n.calls[c].itemId);
    }
  }

  lemma BatchUpdateMarks(t: T.State, fields: ToolFields, now: int)
    requires BatchSound(t) && t.kind.None?
    ensures var n := T.HandleToolCallUpdate(t, fields, now); var c := ValueOr(fields.callId, "");
            && BatchSound(n) && n.kind.None?
            && BatchMarks(n) == BatchMarks(t) + (if c == "" || c in t.calls then [] else [Used(ToolId(c))])
  {
    hide BatchMarks, BatchSound, T.MergeInto, T.HandleToolCall;
    assert BatchMarks(t) + [] == BatchMarks(t);
    if ValueOr(fields.callId, "") != "" {
      var id := fields.callId.value;
      BatchCallMarks(t, fields, now);
      BatchMergeMarks(if id in t.calls then t else T.HandleToolCall(t, fields, now), id, fields, now);
    }
  }

  lemma LivePushSound(e: E.State, item: Item)
    requires LiveSound(e) && !item.id.ToolId? && !IsToolItem(item)
    ensures LiveSound(e.(items := e.items + [item]))
  {
    ShapedAppend(e.items, item);
    hide ShapedIds, LastPos;
    forall c | c in e.calls ensures LastPos(e.items + [item], e.calls[c].call.itemId) >= 0 {
      LastPosAppend(e.items, item, e.calls[c].call.itemId);
    }
  }

  lemma LiveSameSound(e: E.State, n: E.State)
    requires LiveSound(e) && n.items == e.items && n.calls == e.calls
    ensures LiveSound(n)
  {
    hide ShapedIds, LastPos;
  }

  lemma LiveFlushSound(e: E.State, now: int)
    requires LiveSound(e)
    ensures LiveSound(E.FlushText(e, now)) && E.FlushText(e, now).calls == e.calls
  {
    hide LiveSound;
    if e.run.Some? {
      LivePushSound(e, E.RunItem(e.run.value));
      LiveSameSound(e.(items := e.items + [E.RunItem(e.run.value)]), E.FlushText(e, now));
    }
  }

  lemma LiveTextSound(e: E.State, kind: TextKind, content: Option<ContentBlock>, now: int)
    requires LiveSound(e)
    ensures LiveSound(E.HandleText(e, kind, content, now)) && E.HandleText(e, kind, content, now).calls == e.calls
  {
    LiveFlushSound(e, now);
    hide LiveSound, E.FlushText, E.PluckText;
    var t := if e.run.Some? && e.run.value.kind != kind then E.FlushText(e, now) else e;
    if E.PluckText(content) != "" {
      LiveSameSound(t, E.HandleText(e, kind, content, now));
    }
  }

  lemma BatchPushSound(t: T.State, item: Item)
    requires BatchSound(t) && !item.id.ToolId? && !IsToolItem(item)
    ensures BatchSound(t.(items := t.items + [item]))
  {
    ShapedAppend(t.items, item);
    hide ShapedIds, LastPos;
    forall c | c in t.calls ensures LastPos(t.items + [item], t.calls[c].itemId) >= 0 {
      LastPosAppend(t.items, item, t.calls[c].itemId);
    }
  }

  lemma BatchSameSound(t: T.State, n: T.State)
    requires BatchSound(t) && n.items == t.items && n.calls == t.calls
    ensures BatchSound(n)
  {
    hide ShapedIds, LastPos;
  }

  lemma BatchFlushSound(t: T.State)
    requires BatchSound(t)
    ensures BatchSound(T.FlushText(t)) && T.FlushText(t).calls == t.calls
  {
    hide BatchSound;
    if t.kind.Some? {
      if t.buf != "" {
        BatchPushSound(t, TextItem(t.kind.value, t.counter, t.buf));
        BatchSameSound(t.(items := t.items + [TextItem(t.kind.value, t.counter, t.buf)]), T.FlushText(t));
      } else {
        BatchSameSound(t, T.FlushText(t));
      }
    }
  }

  // ---- Frame by frame ----

  /** What the emitter in this state adds for a frame. */
  function LiveAdded(e: E.State, f: Frame): seq<Mark> {
    if IsChunk(f) then Letters(f.update.value.kind, E.PluckText(f.update.value.content))
    else if f.isSessionUpdate && f.update.Some? && (f.update.value.ToolCall? || f.update.value.ToolCallUpdate?) then
      var c := ValueOr(f.update.value.fields.callId, "");
      if c == "" || (f.update.value.ToolCallUpdate? && c in e.calls) then [] else [Used(ToolId(c))]
    else []
  }

  lemma LiveStepMarks(e: E.State, f: Frame)
    requires LiveSound(e)
    ensures LiveSound(E.Ingest(e, f)) && LiveMarks(E.Ingest(e, f)) == LiveMarks(e) + LiveAdded(e, f)
  {
    hide LiveSound, E.FlushText, E.HandleText, E.HandleToolCall, E.HandleToolCallUpdate, E.PluckText, Letters, Marks;
    LiveFlushSound(e, f.now);
    LiveFlushMarks(e, f.now);
    assert LiveMarks(e) + [] == LiveMarks(e);
    if f.isSessionUpdate && f.update.Some? {
      match f.update.value
      case TextChunk(kind, content) =>
        LiveTextSound(e, kind, content, f.now);
        hide LiveMarks;
        LiveTextMarks(e, kind, content, f.now);
      case ToolCall(fields) =>
        hide LiveMarks;
        LiveCallMarks(E.FlushText(e, f.now), fields, f.now);
      case ToolCallUpdate(fields) =>
        hide LiveMarks;
        LiveUpdateMarks(E.FlushText(e, f.now), fields, f.now);
      case UserChunk(_) =>
      case Plan(_) => LiveSameSound(E.FlushText(e, f.now), E.Ingest(e, f));
      case _ => LiveSameSound(e, E.Ingest(e, f));
    }
  }

  function BatchAdded(t: T.State, f: Frame): seq<Mark> {
    if IsChunk(f) then
      match T.Classify(f.update.value.content)
      case Nothing => []
      case Text(text) => Letters(f.update.value.kind, text)
      case Standalone(item) => MarksOf(item)
    else if IsUser(f) then Written(T.UserText(f.update.value.content))
    else if f.isSessionUpdate && f.update.Some? && (f.update.value.ToolCall? || f.update.value.ToolCallUpdate?) then
      var c := ValueOr(f.update.value.fields.callId, "");
      if c == "" || (f.update.value.ToolCallUpdate? && c in t.calls) then [] else [Used(ToolId(c))]
    else []
  }

  lemma BatchChunkMarks(t: T.State, kind: TextKind, content: Option<ContentBlock>)
    requires BatchSound(t) && (t.kind.None? ==> t.buf == "")
    ensures var n := T.AppendText(t, kind, content);
            && BatchSound(n)
            && BatchMarks(n) == BatchMarks(t) + match T.Classify(content)
                                                case Nothing => []
                                                case Text(text) => Letters(kind, text)
                                                case Standalone(item) => MarksOf(item)
  {
    ReadersRead(content);
    BatchFlushSound(t);
    BatchFlushMarks(t);
    hide BatchSound, T.FlushText, T.Classify, Marks, Letters, MarksOf;
    match T.Classify(content)
    case Nothing => assert BatchMarks(t) + [] == BatchMarks(t);
    case Text(text) =>
      hide BatchMarks;
      BatchTextMarks(t, kind, text);
      var u := if t.kind != Some(kind) then T.FlushText(t).(kind := Some(kind)) else t;
      BatchSameSound(if t.kind != Some(kind) then T.FlushText(t) else t, u.(buf := u.buf + text));
    case Standalone(item) =>
      var u := T.FlushText(t);
      BatchPushSound(u, item);
      MarksAppend(u.items, item);
      assert Marks(u.items) + MarksOf(item) + [] == Marks(u.items) + MarksOf(item);
  }

  lemma BatchUserMarks(t: T.State, content: Option<ContentBlock>)
    requires BatchSound(t)
    ensures var n := T.HandleUser(t, content);
            BatchSound(n) && BatchMarks(n) == BatchMarks(t) + Written(T.UserText(content))
  {
    BatchFlushSound(t);
    BatchFlushMarks(t);
    hide BatchSound, T.FlushText, T.UserText, Marks;
    var u, text := T.FlushText(t), T.UserText(content);
    if text == "" {
      assert BatchMarks(t) + [] == BatchMarks(t) && Written("") == [];
    } else {
      var item := UserMessage(UserId(u.counter), text);
      BatchPushSound(u, item);
      BatchSameSound(u.(items := u.items + [item]), T.HandleUser(t, content));
      MarksAppend(u.items, item);
      hide Written;
      assert Marks(u.items) + Written(text) + [] == Marks(u.items) + Written(text);
    }
  }

  lemma BatchStepMarks(t: T.State, f: Frame)
    requires BatchSound(t) && (t.kind.None? ==> t.buf == "")
    ensures BatchSound(T.Ingest(t, f)) && BatchMarks(T.Ingest(t, f)) == BatchMarks(t) + BatchAdded(t, f)
  {
    hide BatchSound, T.FlushText, T.AppendText, T.HandleUser, T.HandleToolCall, T.HandleToolCallUpdate, T.Classify,
         T.UserText, Letters, Marks, MarksOf, Written;
    BatchFlushSound(t);
    BatchFlushMarks(t);
    assert BatchMarks(t) + [] == BatchMarks(t);
    if f.isSessionUpdate && f.update.Some? {
      match f.update.value
      case TextChunk(kind, content) =>
        hide BatchMarks;
        BatchChunkMarks(t, kind, content);
      case UserChunk(content) =>
        hide BatchMarks;
        BatchUserMarks(t, content);
      case ToolCall(fields) =>
        hide BatchMarks;
        BatchCallMarks(T.FlushText(t), fields, f.now);
      case ToolCallUpdate(fields) =>
        hide BatchMarks;
        BatchUpdateMarks(T.FlushText(t), fields, f.now);
      case Plan(_) => BatchSameSound(T.FlushText(t), T.Ingest(t, f));
      case _ => BatchSameSound(t, T.Ingest(t, f));
    }
  }

  lemma LiveAddedAdds(before: seq<Frame>, e: E.State, f: Frame)
    requires forall c :: c != "" ==> (c in e.calls <==> Replay.Mentioned(before, c))
    ensures LiveAdds(before, f, LiveAdded(e, f))
  {
    hide Replay.Mentioned, Letters, E.PluckText, LiveReads;
    if IsChunk(f) {
      ReadersRead(f.update.value.content);
    } else if f.isSessionUpdate && f.update.Some? && (f.update.value.ToolCall? || f.update.value.ToolCallUpdate?) {
      var c := ValueOr(f.update.value.fields.callId, "");
      assert c != "" && LiveAdded(e, f) != [] ==> BringsUp(before, f, c);
    }
  }

  lemma BatchAddedAdds(before: seq<Frame>, t: T.State, f: Frame)
    requires forall c :: c != "" ==> (c in t.calls <==> Replay.Mentioned(before, c))
    ensures BatchAdds(before, f, BatchAdded(t, f))
  {
    hide Replay.Mentioned, Letters, T.Classify, ReadsText, ReadsImage;
    if IsChunk(f) {
      ReadersRead(f.update.value.content);
      PicksOne(f.update.value.content);
    } else if IsUser(f) {
      ReadersRead(f.update.value.content);
      assert Written("") == [];
    } else if f.isSessionUpdate && f.update.Some? && (f.update.value.ToolCall? || f.update.value.ToolCallUpdate?) {
      var c := ValueOr(f.update.value.fields.callId, "");
      assert c != "" && BatchAdded(t, f) != [] ==> BringsUp(before, f, c);
    }
  }

  lemma PicksOne(content: Option<ContentBlock>)
    ensures forall p, q :: ReadsImage(content, p) && ReadsImage(content, q) ==> p == q
  {
  }

  lemma KnownLive(frames: seq<Frame>)
    ensures forall c :: c != "" ==> (c in E.Run(frames).calls <==> Replay.Mentioned(frames, c))
  {
    forall c | c != "" ensures c in E.Run(frames).calls <==> Replay.Mentioned(frames, c) {
      EmitterHoldsClosedForm(frames, c);
      Replay.HistoryIffMentioned(frames, c);
    }
  }

  lemma KnownBatch(frames: seq<Frame>)
    ensures forall c :: c != "" ==> (c in T.Run(T.INITIAL, frames).calls <==> Replay.Mentioned(frames, c))
  {
    forall c | c != "" ensures c in T.Run(T.INITIAL, frames).calls <==> Replay.Mentioned(frames, c) {
      Replay.KnownIffMentioned(frames, c);
    }
  }

  lemma {:induction false} LiveRunMarks(frames: seq<Frame>) returns (parts: seq<seq<Mark>>)
    ensures LiveSound(E.Run(frames)) && LiveMarks(E.Run(frames)) == Flatten(parts)
    ensures |parts| == |frames| && forall i :: 0 <= i < |frames| ==> LiveAdds(frames[..i], frames[i], parts[i])
  {
    if frames == [] {
      parts := [];
    } else {
      hide LiveSound, LiveMarks, LiveAdds, LiveAdded, E.Ingest, Replay.Mentioned;
      var n := |frames| - 1;
      var front := frames[..n];
      var before := LiveRunMarks(front);
      KnownLive(front);
      LiveStepMarks(E.Run(front), frames[n]);
      LiveAddedAdds(front, E.Run(front), frames[n]);
      parts := before + [LiveAdded(E.Run(front), frames[n])];
      FlattenAppend(before, LiveAdded(E.Run(front), frames[n]));
      forall i | 0 <= i < |frames| ensures LiveAdds(frames[..i], frames[i], parts[i]) {
        assert frames[..i] == if i < n then front[..i] else front;
      }
    }
  }

  lemma {:induction false} BatchRunMarks(frames: seq<Frame>) returns (parts: seq<seq<Mark>>)
    ensures var t := T.Run(T.INITIAL, frames);
            BatchSound(t) && (t.kind.None? ==> t.buf == "") && BatchMarks(t) == Flatten(parts)
    ensures |parts| == |frames| && forall i :: 0 <= i < |frames| ==> BatchAdds(frames[..i], frames[i], parts[i])
  {
    if frames == [] {
      parts := [];
    } else {
      hide BatchSound, BatchMarks, BatchAdds, BatchAdded, T.Ingest, Replay.Mentioned;
      var n := |frames| - 1;
      var front := frames[..n];
      var before := BatchRunMarks(front);
      KnownBatch(front);
      var t := T.Run(T.INITIAL, front);
      BatchStepMarks(t, frames[n]);
      BufferNeedsRun(t, frames[n]);
      BatchAddedAdds(front, t, frames[n]);
      parts := before + [BatchAdded(t, frames[n])];
      FlattenAppend(before, BatchAdded(t, frames[n]));
      forall i | 0 <= i < |frames| ensures BatchAdds(frames[..i], frames[i], parts[i]) {
        assert frames[..i] == if i < n then front[..i] else front;
      }
    }
  }

  /**
   The live items hold, in order, exactly the text of the chunks, each under its kind, and each
   call where it first comes up or is announced again.
   */
  lemma LiveItemsHold(frames: seq<Frame>, now: int) returns (parts: seq<seq<Mark>>)
    ensures Marks(E.FlushText(E.Run(frames), now).items) == Flatten(parts)
    ensures |parts| == |frames| && forall i :: 0 <= i < |frames| ==> LiveAdds(frames[..i], frames[i], parts[i])
  {
    hide LiveAdds, E.FlushText, E.Run, LiveSound;
    parts := LiveRunMarks(frames);
    LiveFlushMarks(E.Run(frames), now);
  }

  /** The batch items hold what batch reads of the chunks, the images and the user's messages as well. */
  lemma BatchItemsHold(frames: seq<Frame>) returns (parts: seq<seq<Mark>>)
    ensures Marks(T.Translate(frames)) == Flatten(parts)
    ensures |parts| == |frames| && forall i :: 0 <= i < |frames| ==> BatchAdds(frames[..i], frames[i], parts[i])
  {
    hide BatchAdds, T.FlushText, T.Run, BatchSound;
    parts := BatchRunMarks(frames);
    BatchFlushMarks(T.Run(T.INITIAL, frames));
  }
}
