/** Tool-call state: announce, merge, render (crates/acp-bridge/src/translator.rs). */
module ToolCalls {
  import opened Common
  import opened Ids
  import opened AcpProtocol

  datatype CallState = CallState(itemId: ItemId, kind: string, title: string, status: string,
                                 content: seq<ToolBlock>, locations: seq<Location>,
                                 rawInput: Payload, rawOutput: Option<Payload>,
                                 startedAt: int, completedAt: Option<int>)

  /** `from_announce` */
  function FromAnnounce(u: ToolFields, now: int): CallState {
    CallState(ToolId(ValueOr(u.callId, "")), ValueOr(u.kind, "other"), ValueOr(u.title, ""),
              ValueOr(u.status, "pending"), ValueOr(u.content, []), ValueOr(u.locations, []),
              ValueOr(u.rawInput, NULL_PAYLOAD), u.rawOutput, now, None)
  }

  predicate IsTerminal(status: string) {
    status == "completed" || status == "failed"
  }

  /** `merge_update`: only the fields that are set are merged. */
  function MergeUpdate(s: CallState, u: ToolFields, now: int): CallState {
    s.(kind := ValueOr(u.kind, s.kind),
       title := ValueOr(u.title, s.title),
       status := ValueOr(u.status, s.status),
       completedAt := if u.status.Some? && IsTerminal(u.status.value) && s.completedAt.None?
                      then Some(now) else s.completedAt,
       content := s.content + ValueOr(u.content, []),
       locations := s.locations + ValueOr(u.locations, []),
       rawInput := ValueOr(u.rawInput, s.rawInput),
       rawOutput := if u.rawOutput.Some? then u.rawOutput else s.rawOutput)
  }

  function MapStatus(status: string): Status {
    if status == "completed" then Completed
    else if status == "failed" then Failed
    else InProgress
  }

  const I64_MIN: int := -0x8000_0000_0000_0000
  const I64_MAX: int := 0x7fff_ffff_ffff_ffff

  /** `i64::saturating_sub` */
  function SaturatingSub(a: int, b: int): int {
    if a - b < I64_MIN then I64_MIN else if a - b > I64_MAX then I64_MAX else a - b
  }

  /** `as i32` keeps the low 32 bits. */
  function AsI32(v: int): int {
    (v + 0x8000_0000) % 0x1_0000_0000 - 0x8000_0000
  }

  predicate IsDiff(b: ToolBlock) {
    b.blockType == Some("diff")
  }

  function DiffBlocks(content: seq<ToolBlock>): seq<ToolBlock> {
    if content == [] then []
    else (if IsDiff(content[0]) then [content[0]] else []) + DiffBlocks(content[1..])
  }

  function ChangeOf(b: ToolBlock): Change {
    var old_ := ValueOr(b.oldText, "");
    var new_ := ValueOr(b.newText, "");
    Change(ValueOr(b.path, ""), if old_ == "" then Add else if new_ == "" then Delete else Modify, old_, new_)
  }

  /** The text one content block contributes to the aggregated output. */
  function BlockText(b: ToolBlock): string {
    if b.blockType == Some("content") then
      if b.inner.Some? then ValueOr(b.inner.value.text, "") else ""
    else if b.blockType == Some("terminal") && b.terminalId.Some? then
      "[terminal:" + b.terminalId.value + "]"
    else ""
  }

  function BlockTexts(content: seq<ToolBlock>): seq<string> {
    seq(|content|, i requires 0 <= i < |content| => BlockText(content[i]))
  }

  function OutputText(content: seq<ToolBlock>): string {
    Flatten(BlockTexts(content))
  }

  /** Output text of appended content is appended output text. */
  lemma OutputTextConcat(a: seq<ToolBlock>, b: seq<ToolBlock>)
    ensures OutputText(a + b) == OutputText(a) + OutputText(b)
  {
    FlattenConcat(BlockTexts(a), BlockTexts(b));
    assert BlockTexts(a + b) == BlockTexts(a) + BlockTexts(b);
  }

  /** `aggregate_text_output` */
  function AggregateOutput(content: seq<ToolBlock>): Option<string> {
    var t := OutputText(content);
    if t == "" then None else Some(t)
  }

  method AggregateTextOutput(content: seq<ToolBlock>) returns (r: Option<string>)
    ensures r == AggregateOutput(content)
  {
    var buf := "";
    for i := 0 to |content|
      invariant buf == OutputText(content[..i])
    {
      OutputTextConcat(content[..i], [content[i]]);
      assert content[..i + 1] == content[..i] + [content[i]];
      FlattenAppend([], BlockText(content[i]));
      assert BlockTexts([content[i]]) == [] + [BlockText(content[i])];
      var block := content[i];
      if block.blockType == Some("content") {
        if block.inner.Some? && block.inner.value.text.Some? {
          buf := buf + block.inner.value.text.value;
        }
      } else if block.blockType == Some("terminal") {
        if block.terminalId.Some? {
          buf := buf + "[terminal:" + block.terminalId.value + "]";
        }
      }
    }
    assert content[..|content|] == content;
    r := if buf == "" then None else Some(buf);
  }

  function NonEmpty(o: Option<string>): Option<string> {
    if o == Some("") then None else o
  }

  function CommandOfContent(content: seq<ToolBlock>): Option<string> {
    if content == [] then None
    else
      var b := content[0];
      var text := if b.inner.Some? then NonEmpty(b.inner.value.text) else None;
      var resource := if b.inner.Some? then NonEmpty(b.inner.value.resourceText) else None;
      if text.Some? then text
      else if resource.Some? then resource
      else CommandOfContent(content[1..])
  }

  function OutputItemsOf(b: ToolBlock): seq<OutputItem> {
    if b.blockType == Some("content") && b.inner.Some? then
      var inner := b.inner.value;
      if inner.innerType == Some("text") && inner.text.Some? then [InputText(inner.text.value)]
      else if inner.innerType == Some("image") && inner.uri.Some? then [InputImage(inner.uri.value)]
      else if inner.innerType == Some("image") && inner.data.Some? then
        [InputImage("data:" + ValueOr(inner.mimeType, "image/png") + ";base64," + inner.data.value)]
      else if inner.innerType == Some("resource") && inner.resourceText.Some? then
        [InputText(inner.resourceText.value)]
      else []
    else if b.blockType == Some("terminal") && b.terminalId.Some? then
      [InputText("[terminal:" + b.terminalId.value + "]")]
    else []
  }

  function OutputItems(content: seq<ToolBlock>): seq<OutputItem> {
    if content == [] then [] else OutputItemsOf(content[0]) + OutputItems(content[1..])
  }

  function Changes(blocks: seq<ToolBlock>): seq<Change> {
    seq(|blocks|, i requires 0 <= i < |blocks| => ChangeOf(blocks[i]))
  }

  function ExitCode(out: Option<Payload>): Option<int> {
    if out.None? then None
    else
      var field := if out.value.exitCode.Absent? then out.value.exitCodeSnake else out.value.exitCode;
      if field.Integer? then Some(AsI32(field.value)) else None
  }

  function Command(s: CallState): string {
    if s.rawInput.command.Some? then s.rawInput.command.value
    else ValueOr(CommandOfContent(s.content), s.title)
  }

  function Cwd(s: CallState): string {
    if s.rawInput.cwd.Some? then s.rawInput.cwd.value
    else if s.locations != [] then ValueOr(s.locations[0].path, "")
    else ""
  }

  function Duration(s: CallState): Option<int> {
    if s.completedAt.Some? then Some(SaturatingSub(s.completedAt.value, s.startedAt)) else None
  }

  /** `render_tool_call`: a file change, a command execution or a generic tool call,
      always under the call's own item id. */
  function Render(s: CallState): (item: Item)
    ensures IsToolItem(item) && item.id == s.itemId
  {
    var status := MapStatus(s.status);
    var diffs := DiffBlocks(s.content);
    if s.kind == "edit" || diffs != [] then
      FileChange(s.itemId, Changes(diffs), status)
    else if s.kind == "execute" then
      CommandExecution(s.itemId, Command(s), Cwd(s), status, AggregateOutput(s.content),
                       ExitCode(s.rawOutput), Duration(s))
    else
      DynamicToolCall(s.itemId, if s.title != "" then s.title else s.kind, s.rawInput, status,
                      OutputItems(s.content),
                      if status == Completed then Some(true)
                      else if status == Failed then Some(false) else None,
                      Duration(s))
  }

  lemma {:induction false} DiffBlocksConcat(a: seq<ToolBlock>, b: seq<ToolBlock>)
    ensures DiffBlocks(a + b) == DiffBlocks(a) + DiffBlocks(b)
  {
    hide IsDiff;
    if a == [] {
      assert a + b == b;
      assert [] + DiffBlocks(b) == DiffBlocks(b);
    } else {
      assert (a + b)[0] == a[0] && (a + b)[1..] == a[1..] + b;
      DiffBlocksConcat(a[1..], b);
      var first := if IsDiff(a[0]) then [a[0]] else [];
      assert DiffBlocks(a + b) == first + DiffBlocks(a[1..] + b);
      assert first + (DiffBlocks(a[1..]) + DiffBlocks(b)) == first + DiffBlocks(a[1..]) + DiffBlocks(b);
    }
  }

  lemma {:induction false} OutputItemsConcat(a: seq<ToolBlock>, b: seq<ToolBlock>)
    ensures OutputItems(a + b) == OutputItems(a) + OutputItems(b)
  {
    hide OutputItemsOf;
    if a == [] {
      assert a + b == b;
      assert [] + OutputItems(b) == OutputItems(b);
    } else {
      assert (a + b)[0] == a[0] && (a + b)[1..] == a[1..] + b;
      OutputItemsConcat(a[1..], b);
      assert OutputItems(a + b) == OutputItemsOf(a[0]) + OutputItems(a[1..] + b);
      assert OutputItemsOf(a[0]) + (OutputItems(a[1..]) + OutputItems(b))
             == OutputItemsOf(a[0]) + OutputItems(a[1..]) + OutputItems(b);
    }
  }

  /**
   An update only adds to what is shown of a call: a call that has shown a diff stays a file
   change, and changes, output and content items keep all that was there, in front.
   */
  lemma RenderedGrows(s: CallState, u: ToolFields, now: int)
    ensures var before, after := Render(s), Render(MergeUpdate(s, u, now));
            && before.id == after.id
            && (DiffBlocks(s.content) != [] ==> before.FileChange? && after.FileChange?)
            && (before.FileChange? && after.FileChange? ==> before.changes <= after.changes)
            && (before.CommandExecution? && after.CommandExecution? ==>
                  ValueOr(before.aggregatedOutput, "") <= ValueOr(after.aggregatedOutput, ""))
            && (before.DynamicToolCall? && after.DynamicToolCall? ==> before.contentItems <= after.contentItems)
            && (u.status.None? ==> before.status == after.status)
  {
    var more := ValueOr(u.content, []);
    DiffBlocksConcat(s.content, more);
    OutputTextConcat(s.content, more);
    OutputItemsConcat(s.content, more);
    hide DiffBlocks, OutputText, OutputItems, MapStatus, Command, Cwd, ExitCode, Duration, ChangeOf;
    assert Changes(DiffBlocks(s.content)) <= Changes(DiffBlocks(s.content) + DiffBlocks(more));
  }

  /** One merged update and the clock at its arrival. */
  datatype Timed = Timed(fields: ToolFields, now: int)

  /** The state after an announcement and a run of updates, merged one by one. */
  function MergeAll(s: CallState, updates: seq<Timed>): CallState {
    if updates == [] then s
    else
      var last := updates[|updates| - 1];
      MergeUpdate(MergeAll(s, updates[..|updates| - 1]), last.fields, last.now)
  }

  /** The last value set, or the default when none was. */
  function LastSet<T>(values: seq<Option<T>>, default: T): (r: T)
    ensures (forall i :: 0 <= i < |values| ==> values[i].None?) ==> r == default
    ensures forall i :: 0 <= i < |values| && values[i].Some? && (forall j :: i < j < |values| ==> values[j].None?)
                    ==> r == values[i].value
  {
    if values == [] then default
    else
      var front, last := values[..|values| - 1], values[|values| - 1];
      if last.Some? then last.value
      else
        assert forall i :: 0 <= i < |front| ==> values[i] == front[i];
        LastSet(front, default)
  }

  predicate SetsTerminal(u: Timed) {
    u.fields.status.Some? && IsTerminal(u.fields.status.value)
  }

  /** The clock of the first update that sets a terminal status. */
  function FirstTerminal(updates: seq<Timed>): (r: Option<int>)
    ensures r.None? <==> forall i :: 0 <= i < |updates| ==> !SetsTerminal(updates[i])
    ensures forall i :: (0 <= i < |updates| && SetsTerminal(updates[i])
                         && (forall j :: 0 <= j < i ==> !SetsTerminal(updates[j])))
                    ==> r == Some(updates[i].now)
  {
    if updates == [] then None
    else if SetsTerminal(updates[0]) then Some(updates[0].now)
    else
      var rest := updates[1..];
      assert forall i :: 0 <= i < |rest| ==> updates[i + 1] == rest[i];
      FirstTerminal(rest)
  }

  function Column<T>(updates: seq<Timed>, field: ToolFields -> Option<T>): seq<Option<T>> {
    seq(|updates|, i requires 0 <= i < |updates| => field(updates[i].fields))
  }

  function Arrays<T>(updates: seq<Timed>, field: ToolFields -> Option<seq<T>>): seq<seq<T>> {
    seq(|updates|, i requires 0 <= i < |updates| => ValueOr(field(updates[i].fields), []))
  }

  function KindOf(u: ToolFields): Option<string> { u.kind }
  function TitleOf(u: ToolFields): Option<string> { u.title }
  function StatusOf(u: ToolFields): Option<string> { u.status }
  function ContentOf(u: ToolFields): Option<seq<ToolBlock>> { u.content }
  function LocationsOf(u: ToolFields): Option<seq<Location>> { u.locations }
  function RawInputOf(u: ToolFields): Option<Payload> { u.rawInput }
  function RawOutputOf(u: ToolFields): Option<Payload> { u.rawOutput }

  /** What a call's state is in terms of everything that was sent about it. */
  function ClosedState(a: Timed, updates: seq<Timed>): CallState {
    CallState(
      ToolId(ValueOr(a.fields.callId, "")),
      LastSet(Column(updates, KindOf), ValueOr(a.fields.kind, "other")),
      LastSet(Column(updates, TitleOf), ValueOr(a.fields.title, "")),
      LastSet(Column(updates, StatusOf), ValueOr(a.fields.status, "pending")),
      ValueOr(a.fields.content, []) + Flatten(Arrays(updates, ContentOf)),
      ValueOr(a.fields.locations, []) + Flatten(Arrays(updates, LocationsOf)),
      LastSet(Column(updates, RawInputOf), ValueOr(a.fields.rawInput, NULL_PAYLOAD)),
      LastSetOption(Column(updates, RawOutputOf), a.fields.rawOutput),
      a.now,
      FirstTerminal(updates))
  }

  function LastSetOption<T>(values: seq<Option<T>>, first: Option<T>): (r: Option<T>)
    ensures r.Some? ==> LastSet(values, r.value) == r.value
    ensures r.None? <==> first.None? && forall i :: 0 <= i < |values| ==> values[i].None?
    ensures first.Some? ==> r == Some(LastSet(values, first.value))
  {
    if values == [] then first
    else
      var last := values[|values| - 1];
      if last.Some? then last else LastSetOption(values[..|values| - 1], first)
  }

  lemma FirstTerminalAppend(updates: seq<Timed>, u: Timed)
    ensures FirstTerminal(updates + [u]) ==
            if FirstTerminal(updates).Some? then FirstTerminal(updates)
            else if SetsTerminal(u) then Some(u.now) else None
  {
    if updates != [] {
      assert (updates + [u])[1..] == updates[1..] + [u];
    }
  }

  lemma ScalarAppend<T>(updates: seq<Timed>, u: Timed, field: ToolFields -> Option<T>, default: T, first: Option<T>)
    ensures LastSet(Column(updates + [u], field), default)
            == ValueOr(field(u.fields), LastSet(Column(updates, field), default))
    ensures LastSetOption(Column(updates + [u], field), first)
            == if field(u.fields).Some? then field(u.fields) else LastSetOption(Column(updates, field), first)
  {
    var values := Column(updates, field);
    assert Column(updates + [u], field) == values + [field(u.fields)];
    assert (values + [field(u.fields)])[..|values|] == values;
  }

  lemma ArraysAppend<T>(updates: seq<Timed>, u: Timed, field: ToolFields -> Option<seq<T>>, prefix: seq<T>)
    ensures prefix + Flatten(Arrays(updates + [u], field))
            == prefix + Flatten(Arrays(updates, field)) + ValueOr(field(u.fields), [])
  {
    var last := ValueOr(field(u.fields), []);
    assert Arrays(updates + [u], field) == Arrays(updates, field) + [last];
    FlattenAppend(Arrays(updates, field), last);
    assert prefix + (Flatten(Arrays(updates, field)) + last) == prefix + Flatten(Arrays(updates, field)) + last;
  }

  lemma ClosedStateAppend(a: Timed, front: seq<Timed>, u: Timed)
    ensures ClosedState(a, front + [u]) == MergeUpdate(ClosedState(a, front), u.fields, u.now)
  {
    FirstTerminalAppend(front, u);
    ScalarAppend(front, u, KindOf, ValueOr(a.fields.kind, "other"), None);
    ScalarAppend(front, u, TitleOf, ValueOr(a.fields.title, ""), None);
    ScalarAppend(front, u, StatusOf, ValueOr(a.fields.status, "pending"), None);
    ScalarAppend(front, u, RawInputOf, ValueOr(a.fields.rawInput, NULL_PAYLOAD), None);
    ScalarAppend(front, u, RawOutputOf, NULL_PAYLOAD, a.fields.rawOutput);
    ArraysAppend(front, u, ContentOf, ValueOr(a.fields.content, []));
    ArraysAppend(front, u, LocationsOf, ValueOr(a.fields.locations, []));
  }

  /** Closed form: merging updates one at a time gives, for each scalar field, the last
      value set; for content and locations, everything in order; and for the completion
      time, the clock of the first update that set a terminal status. */
  lemma {:induction false} MergeAllClosedForm(a: Timed, updates: seq<Timed>)
    ensures MergeAll(FromAnnounce(a.fields, a.now), updates) == ClosedState(a, updates)
  {
    if updates != [] {
      var front, u := updates[..|updates| - 1], updates[|updates| - 1];
      MergeAllClosedForm(a, front);
      assert updates == front + [u];
      ClosedStateAppend(a, front, u);
    }
  }
}
