/**
 The batch translator (crates/acp-bridge/src/translator.rs): `SessionUpdateTranslator`.
 `State`, `Ingest` and `Run` say what it computes, with items found by searching from the
 back; the class below does it with the id index of the source.
 */
module Translator {
  import opened Common
  import opened Ids
  import opened AcpProtocol
  import opened ToolCalls

  datatype Contribution = Nothing | Text(text: string) | Standalone(item: Item)

  /** `classify_content_block` */
  function Classify(content: Option<ContentBlock>): Contribution {
    if content.None? then Nothing
    else if content.value.Bare? then Text(content.value.s)
    else
      var b := content.value;
      var blockType := ValueOr(b.blockType, "text");
      if blockType == "image" then
        if b.uri.Some? then Standalone(ImageView(ImageId(b.imageId), b.uri.value))
        else if ValueOr(b.data, "") == "" then Nothing
        else if b.imageFile.Some? then Standalone(ImageView(ImageId(b.imageId), b.imageFile.value))
        else Nothing
      else if blockType == "audio" then Text("[audio: " + ValueOr(b.mimeType, "audio") + "]")
      else if blockType == "resource" then
        if b.resourceText.Some? then Text(b.resourceText.value)
        else if b.resourceUri.Some? then Text(b.resourceUri.value)
        else Nothing
      else if blockType == "resource_link" then
        if b.uri.Some? then Text(b.uri.value) else Nothing
      else if b.text.Some? then Text(b.text.value)
      else Nothing
  }

  datatype State = State(items: seq<Item>, calls: map<string, CallState>,
                         kind: Option<TextKind>, buf: string,
                         plan: Option<seq<Payload>>, commands: Option<seq<Payload>>, counter: nat)

  const INITIAL := State([], map[], None, "", None, None, 0)

  function PushItem(s: State, item: Item): State {
    s.(items := s.items + [item])
  }

  function FlushText(s: State): State {
    match s.kind
    case None => s
    case Some(kind) =>
      var closed := s.(kind := None, buf := "");
      if s.buf == "" then closed
      else PushItem(closed, TextItem(kind, s.counter, s.buf)).(counter := s.counter + 1)
  }

  function AppendText(s: State, kind: TextKind, content: Option<ContentBlock>): State {
    match Classify(content)
    case Nothing => s
    case Text(text) =>
      var t := if s.kind != Some(kind) then FlushText(s).(kind := Some(kind)) else s;
      t.(buf := t.buf + text)
    case Standalone(item) => PushItem(FlushText(s), item)
  }

  function UserText(content: Option<ContentBlock>): string {
    match Classify(content)
    case Text(text) => text
    case _ => ""
  }

  function HandleUser(s: State, content: Option<ContentBlock>): State {
    var t := FlushText(s);
    var text := UserText(content);
    if text == "" then t
    else PushItem(t, UserMessage(UserId(t.counter), text)).(counter := t.counter + 1)
  }

  function HandleToolCall(s: State, fields: ToolFields, now: int): State {
    if ValueOr(fields.callId, "") == "" then s
    else
      var call := FromAnnounce(fields, now);
      PushItem(s, Render(call)).(calls := s.calls[fields.callId.value := call])
  }

  /** Merge an update into a known call and rewrite its slot. */
  function MergeInto(s: State, id: string, fields: ToolFields, now: int): State
    requires id in s.calls
  {
    var call := MergeUpdate(s.calls[id], fields, now);
    s.(calls := s.calls[id := call], items := ReplaceItem(s.items, call.itemId, Render(call)))
  }

  function HandleToolCallUpdate(s: State, fields: ToolFields, now: int): State {
    if ValueOr(fields.callId, "") == "" then s
    else
      var id := fields.callId.value;
      MergeInto(if id in s.calls then s else HandleToolCall(s, fields, now), id, fields, now)
  }

  function Ingest(s: State, f: Frame): State {
    if !f.isSessionUpdate || f.update.None? then s
    else
      match f.update.value
      case UserChunk(content) => HandleUser(s, content)
      case TextChunk(kind, content) => AppendText(s, kind, content)
      case ToolCall(fields) => HandleToolCall(FlushText(s), fields, f.now)
      case ToolCallUpdate(fields) => HandleToolCallUpdate(FlushText(s), fields, f.now)
      case Plan(entries) =>
        var t := FlushText(s);
        if entries.Some? then t.(plan := entries) else t
      case Commands(commands) => if commands.Some? then s.(commands := commands) else s
      case Mode(_) => s
      case OtherUpdate => s
  }

  function Run(s: State, frames: seq<Frame>): State {
    if frames == [] then s
    else Ingest(Run(s, frames[..|frames| - 1]), frames[|frames| - 1])
  }

  /** The items of a whole translation: ingest every frame, then `finish`. */
  function Translate(frames: seq<Frame>): seq<Item> {
    FlushText(Run(INITIAL, frames)).items
  }

  lemma RunStep(s: State, frames: seq<Frame>, i: nat)
    requires i < |frames|
    ensures Run(s, frames[..i + 1]) == Ingest(Run(s, frames[..i]), frames[i])
  {
    assert frames[..i + 1][..i] == frames[..i];
  }

  /** `TranslatedStream` */
  datatype TranslatedStream = TranslatedStream(items: seq<Item>, plan: Option<seq<Payload>>,
                                               commands: Option<seq<Payload>>)

  function Output(s: State): TranslatedStream {
    TranslatedStream(FlushText(s).items, s.plan, s.commands)
  }

  class SessionUpdateTranslator {
    var items: seq<Item>
    var itemIndex: map<ItemId, nat>
    var toolCalls: map<string, CallState>
    var kind: Option<TextKind>
    var buf: string
    var plan: Option<seq<Payload>>
    var commands: Option<seq<Payload>>
    var counter: nat

    /** The id index records the last position of every id, and nothing else. */
    ghost predicate Valid()
      reads this
    {
      && (forall id :: id in itemIndex <==> LastPos(items, id) >= 0)
      && (forall id :: id in itemIndex ==> itemIndex[id] == LastPos(items, id))
    }

    ghost function Value(): State
      reads this
    {
      State(items, toolCalls, kind, buf, plan, commands, counter)
    }

    constructor ()
      ensures Valid() && Value() == INITIAL
    {
      items, itemIndex, toolCalls := [], map[], map[];
      kind, buf, plan, commands, counter := None, "", None, None, 0;
    }

    method Push(item: Item)
      requires Valid()
      modifies this`items, this`itemIndex
      ensures Valid() && items == old(items) + [item]
    {
      forall id ensures LastPos(items + [item], id) == if item.id == id then |items| else LastPos(items, id) {
        LastPosAppend(items, item, id);
      }
      var idx := |items|;
      items := items + [item];
      itemIndex := itemIndex[item.id := idx];
    }

    method Replace(id: ItemId, item: Item)
      requires Valid() && item.id == id
      modifies this`items, this`itemIndex
      ensures Valid() && items == ReplaceItem(old(items), id, item)
    {
      if id in itemIndex {
        var idx := itemIndex[id];
        forall other ensures LastPos(items[idx := item], other) == LastPos(items, other) {
          LastPosUpdate(items, idx, item, other);
        }
        items := items[idx := item];
      } else {
        Push(item);
      }
    }

    method Flush()
      requires Valid()
      modifies this
      ensures Valid() && Value() == FlushText(old(Value()))
    {
      if kind.None? {
        return;
      }
      var k, text := kind.value, buf;
      kind, buf := None, "";
      if text == "" {
        return;
      }
      var n := counter;
      counter := counter + 1;
      Push(TextItem(k, n, text));
    }

    method Append(k: TextKind, content: Option<ContentBlock>)
      requires Valid()
      modifies this
      ensures Valid() && Value() == AppendText(old(Value()), k, content)
    {
      hide FlushText, Classify, LastPos;
      match Classify(content) {
        case Nothing =>
        case Text(text) =>
          if kind != Some(k) {
            Flush();
            kind := Some(k);
          }
          if text != "" {
            buf := buf + text;
          }
        case Standalone(item) =>
          Flush();
          Push(item);
      }
    }

    method Announce(fields: ToolFields, now: int)
      requires Valid()
      modifies this
      ensures Valid() && Value() == HandleToolCall(old(Value()), fields, now)
    {
      hide Render, LastPos;
      if fields.callId.None? || fields.callId.value == "" {
        return;
      }
      var call := FromAnnounce(fields, now);
      Push(Render(call));
      toolCalls := toolCalls[fields.callId.value := call];
    }

    method MergeKnown(id: string, fields: ToolFields, now: int)
      requires Valid() && id in toolCalls
      modifies this
      ensures Valid() && Value() == MergeInto(old(Value()), id, fields, now)
    {
      hide Render, LastPos, ReplaceItem;
      var call := MergeUpdate(toolCalls[id], fields, now);
      toolCalls := toolCalls[id := call];
      Replace(call.itemId, Render(call));
    }

    method Merge(fields: ToolFields, now: int)
      requires Valid()
      modifies this
      ensures Valid() && Value() == HandleToolCallUpdate(old(Value()), fields, now)
    {
      hide LastPos, MergeInto, Render;
      if fields.callId.None? || fields.callId.value == "" {
        return;
      }
      var id := fields.callId.value;
      if id !in toolCalls {
        Announce(fields, now);
      }
      MergeKnown(id, fields, now);
    }

    method IngestFrame(f: Frame)
      requires Valid()
      modifies this
      ensures Valid() && Value() == Ingest(old(Value()), f)
    {
      hide FlushText, AppendText, HandleToolCall, HandleToolCallUpdate, LastPos, UserText;
      if !f.isSessionUpdate || f.update.None? {
        return;
      }
      match f.update.value {
        case UserChunk(content) =>
          Flush();
          var text := UserText(content);
          if text != "" {
            var id := UserId(counter);
            counter := counter + 1;
            Push(UserMessage(id, text));
          }
        case TextChunk(k, content) =>
          Append(k, content);
        case ToolCall(fields) =>
          Flush();
          Announce(fields, f.now);
        case ToolCallUpdate(fields) =>
          Flush();
          Merge(fields, f.now);
        case Plan(entries) =>
          Flush();
          if entries.Some? {
            plan := entries;
          }
        case Commands(list) =>
          if list.Some? {
            commands := list;
          }
        case Mode(_) =>
        case OtherUpdate =>
      }
    }

    method Finish() returns (out: TranslatedStream)
      requires Valid()
      modifies this
      ensures out == Output(old(Value()))
    {
      Flush();
      out := TranslatedStream(items, plan, commands);
    }
  }
}
