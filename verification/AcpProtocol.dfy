/**
 What an ACP agent sends (`session/update` frames) and what the bridge makes of it
 (codex thread items and notifications). JSON is read through the fields the bridge
 looks at: a field that is absent or has the wrong JSON type is `None`, exactly what
 `get(..).and_then(..)` yields in the source.
 */
module AcpProtocol {
  import opened Common
  import opened Ids

  /** A JSON value the bridge passes along untouched, with the members it peeks at. */
  datatype Payload = Payload(raw: string, command: Option<string>, cwd: Option<string>,
                             exitCode: IntField, exitCodeSnake: IntField)

  /** A member that should be an integer: missing, present with another type, or a number. */
  datatype IntField = Absent | NotInteger | Integer(value: int)

  const NULL_PAYLOAD := Payload("null", None, None, Absent, Absent)

  /** `content` of a text chunk: a bare JSON string, or an ACP ContentBlock.
      `imageId` and `imageFile` are the UUID and the outcome of writing the decoded image. */
  datatype ContentBlock =
    | Bare(s: string)
    | Block(blockType: Option<string>, text: Option<string>, uri: Option<string>,
            data: Option<string>, mimeType: Option<string>,
            resourceText: Option<string>, resourceUri: Option<string>,
            imageId: string, imageFile: Option<string>)

  /** One element of a tool call's `content` array. */
  datatype ToolBlock = ToolBlock(blockType: Option<string>, inner: Option<InnerBlock>,
                                 terminalId: Option<string>, path: Option<string>,
                                 oldText: Option<string>, newText: Option<string>)

  datatype InnerBlock = InnerBlock(innerType: Option<string>, text: Option<string>,
                                   uri: Option<string>, data: Option<string>,
                                   mimeType: Option<string>, resourceText: Option<string>)

  datatype Location = Location(path: Option<string>)

  /** The body of a `tool_call` or `tool_call_update`. */
  datatype ToolFields = ToolFields(callId: Option<string>, kind: Option<string>,
                                   title: Option<string>, status: Option<string>,
                                   content: Option<seq<ToolBlock>>,
                                   locations: Option<seq<Location>>,
                                   rawInput: Option<Payload>, rawOutput: Option<Payload>)

  datatype TextKind = AgentText | ReasoningText

  datatype Update =
    | UserChunk(content: Option<ContentBlock>)
    | TextChunk(kind: TextKind, content: Option<ContentBlock>)
    | ToolCall(fields: ToolFields)
    | ToolCallUpdate(fields: ToolFields)
    | Plan(entries: Option<seq<Payload>>)
    | Commands(commands: Option<seq<Payload>>)
    | Mode(modeId: Option<string>)
    | OtherUpdate

  /** A frame from the agent: whether its method is `session/update`, its update if it has
      one, and the wall clock (ms) the bridge reads while it handles the frame. */
  datatype Frame = Frame(isSessionUpdate: bool, update: Option<Update>, now: int)

  datatype Status = InProgress | Completed | Failed

  datatype ChangeKind = Add | Delete | Modify

  datatype Change = Change(path: string, kind: ChangeKind, oldText: string, newText: string)

  datatype OutputItem = InputText(text: string) | InputImage(url: string)

  /** Codex thread items. */
  datatype Item =
    | AgentMessage(id: ItemId, text: string)
    | Reasoning(id: ItemId, text: string)
    | UserMessage(id: ItemId, text: string)
    | ImageView(id: ItemId, path: string)
    | FileChange(id: ItemId, changes: seq<Change>, status: Status)
    | CommandExecution(id: ItemId, command: string, cwd: string, status: Status,
                       aggregatedOutput: Option<string>, exitCode: Option<int>,
                       durationMs: Option<int>)
    | DynamicToolCall(id: ItemId, tool: string, arguments: Payload, status: Status,
                      contentItems: seq<OutputItem>, success: Option<bool>,
                      durationMs: Option<int>)

  predicate IsToolItem(item: Item) {
    item.FileChange? || item.CommandExecution? || item.DynamicToolCall?
  }

  function TextItem(kind: TextKind, n: nat, text: string): Item {
    match kind
    case AgentText => AgentMessage(AgentId(n), text)
    case ReasoningText => Reasoning(ReasoningId(n), text)
  }

  function ItemIds(items: seq<Item>): (ids: seq<ItemId>)
    ensures |ids| == |items|
    ensures forall i :: 0 <= i < |items| ==> ids[i] == items[i].id
  {
    if items == [] then [] else ItemIds(items[..|items| - 1]) + [items[|items| - 1].id]
  }

  /** Position of the last item with this id, or -1: what the bridge's id index records. */
  function LastPos(items: seq<Item>, id: ItemId): (p: int)
    ensures -1 <= p < |items|
    ensures p >= 0 ==> items[p].id == id
    ensures forall i :: p < i < |items| ==> items[i].id != id
  {
    if items == [] then -1
    else if items[|items| - 1].id == id then |items| - 1
    else LastPos(items[..|items| - 1], id)
  }

  /** Overwrite the last item with this id, or append when there is none. */
  function ReplaceItem(items: seq<Item>, id: ItemId, item: Item): seq<Item> {
    var p := LastPos(items, id);
    if p < 0 then items + [item] else items[p := item]
  }

  lemma LastPosUnique(items: seq<Item>, id: ItemId, p: int)
    requires 0 <= p < |items| && items[p].id == id
    requires forall i :: p < i < |items| ==> items[i].id != id
    ensures LastPos(items, id) == p
  {
  }

  lemma LastPosAppend(items: seq<Item>, item: Item, id: ItemId)
    ensures LastPos(items + [item], id) == if item.id == id then |items| else LastPos(items, id)
  {
    assert (items + [item])[..|items|] == items;
  }

  lemma LastPosUpdate(items: seq<Item>, p: nat, item: Item, id: ItemId)
    requires p < |items| && items[p].id == item.id
    ensures LastPos(items[p := item], id) == LastPos(items, id)
  {
    var q := LastPos(items, id);
    if q >= 0 {
      LastPosUnique(items[p := item], id, q);
    } else {
      var updated := items[p := item];
      assert forall i :: 0 <= i < |items| ==> updated[i].id == items[i].id;
    }
  }

  lemma ItemIdsUpdate(items: seq<Item>, p: nat, item: Item)
    requires p < |items| && items[p].id == item.id
    ensures ItemIds(items[p := item]) == ItemIds(items)
  {
  }

  lemma ItemIdsAppend(items: seq<Item>, item: Item)
    ensures ItemIds(items + [item]) == ItemIds(items) + [item.id]
  {
    assert (items + [item])[..|items|] == items;
  }
}
