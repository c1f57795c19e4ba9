/**
 What clients are shown of a tool call, said over the frames about it: which kind of item it
 is, its status, and where each field is read from. It holds of the item that the live emitter
 and the batch translator store for the call, at every point of every run.
 */
module Rendering {
  import opened Common
  import opened Ids
  import opened AcpProtocol
  import opened ToolCalls
  import opened CallHistory
  import EmitterInvariants
  import E = Emitter
  import T = Translator

  /** The announcement and the updates since, as they were merged. */
  function Told(h: History): seq<Timed> {
    [h.announce] + h.updates
  }

  /** `v` is the last value set for this field. */
  ghost predicate LastIs<T(!new)>(told: seq<Timed>, field: ToolFields -> Option<T>, v: T) {
    exists i :: 0 <= i < |told| && field(told[i].fields) == Some(v)
                && forall j :: i < j < |told| ==> field(told[j].fields).None?
  }

  ghost predicate NeverSet<T(!new)>(told: seq<Timed>, field: ToolFields -> Option<T>) {
    forall i :: 0 <= i < |told| ==> field(told[i].fields).None?
  }

  ghost predicate IsOr<T(!new)>(told: seq<Timed>, field: ToolFields -> Option<T>, default: T, v: T) {
    LastIs(told, field, v) || (NeverSet(told, field) && v == default)
  }

  function Parts<T>(told: seq<Timed>, field: ToolFields -> Option<seq<T>>): seq<seq<T>> {
    seq(|told|, i requires 0 <= i < |told| => ValueOr(field(told[i].fields), []))
  }

  /** All content blocks, in order. */
  function Blocks(told: seq<Timed>): seq<ToolBlock> {
    Flatten(Parts(told, ContentOf))
  }

  function Places(told: seq<Timed>): seq<Location> {
    Flatten(Parts(told, LocationsOf))
  }

  // ---- What an item shows ----

  function ShownStatus(item: Item): Status
    requires IsToolItem(item)
  {
    item.status
  }

  /** Only the last status set counts; any but these two is in progress. */
  ghost predicate ShowsStatus(told: seq<Timed>, status: Status) {
    && (status == Completed <==> LastIs(told, StatusOf, "completed"))
    && (status == Failed <==> LastIs(told, StatusOf, "failed"))
  }

  ghost predicate HasDiff(blocks: seq<ToolBlock>) {
    exists i :: 0 <= i < |blocks| && blocks[i].blockType == Some("diff")
  }

  function DiffCount(blocks: seq<ToolBlock>, n: nat): nat
    requires n <= |blocks|
  {
    if n == 0 then 0 else DiffCount(blocks, n - 1) + if blocks[n - 1].blockType == Some("diff") then 1 else 0
  }

  predicate ShowsChange(b: ToolBlock, c: Change) {
    && c.path == ValueOr(b.path, "") && c.oldText == ValueOr(b.oldText, "") && c.newText == ValueOr(b.newText, "")
    && (c.kind == Add <==> c.oldText == "")
    && (c.kind == Delete <==> c.oldText != "" && c.newText == "")
  }

  /** One change for each diff block, in order. */
  ghost predicate ShowsChanges(blocks: seq<ToolBlock>, changes: seq<Change>) {
    && |changes| == DiffCount(blocks, |blocks|)
    && forall i :: 0 <= i < |blocks| && blocks[i].blockType == Some("diff") ==>
         DiffCount(blocks, i) < |changes| && ShowsChange(blocks[i], changes[DiffCount(blocks, i)])
  }

  /** What a block can give a command: its text or, without one, the text of its resource. */
  predicate Commands(b: ToolBlock, text: string) {
    && b.inner.Some? && text != ""
    && (b.inner.value.text == Some(text)
        || ((b.inner.value.text.None? || b.inner.value.text == Some("")) && b.inner.value.resourceText == Some(text)))
  }

  ghost predicate CommandsNothing(b: ToolBlock) {
    forall text :: !Commands(b, text)
  }

  /** The command is that of the raw input, or of the first block that has one, or the title. */
  ghost predicate ShowsCommand(told: seq<Timed>, blocks: seq<ToolBlock>, input: Payload, command: string) {
    if input.command.Some? then command == input.command.value
    else if forall i :: 0 <= i < |blocks| ==> CommandsNothing(blocks[i]) then IsOr(told, TitleOf, "", command)
    else exists i :: 0 <= i < |blocks| && Commands(blocks[i], command)
                     && forall j :: 0 <= j < i ==> CommandsNothing(blocks[j])
  }

  /** The directory is that of the raw input, or the path of the first location. */
  ghost predicate ShowsCwd(told: seq<Timed>, input: Payload, cwd: string) {
    if input.cwd.Some? then cwd == input.cwd.value
    else cwd == if Places(told) == [] then "" else ValueOr(Places(told)[0].path, "")
  }

  /** What one block adds to the output. */
  predicate Outputs(b: ToolBlock, text: string) {
    if b.blockType == Some("content") then
      text == if b.inner.Some? && b.inner.value.text.Some? then b.inner.value.text.value else ""
    else if b.blockType == Some("terminal") && b.terminalId.Some? then text == "[terminal:" + b.terminalId.value + "]"
    else text == ""
  }

  ghost predicate ShowsOutput(blocks: seq<ToolBlock>, output: Option<string>) {
    exists texts: seq<string> ::
      && |texts| == |blocks|
      && (forall i :: 0 <= i < |blocks| ==> Outputs(blocks[i], texts[i]))
      && (output.None? <==> Flatten(texts) == "")
      && (output.Some? ==> output.value == Flatten(texts))
  }

  /** The low 32 bits of a number, as a signed one. */
  predicate LowBits(n: int, code: int) {
    -2147483648 <= code < 2147483648 && (n - code) % 4294967296 == 0
  }

  /** The exit code is `exitCode` of the raw output, or `exit_code` when that is missing. */
  predicate ShowsExit(output: Option<Payload>, code: Option<int>) {
    if output.Some? && output.value.exitCode.Integer? then
      code.Some? && LowBits(output.value.exitCode.value, code.value)
    else if output.Some? && output.value.exitCode.Absent? && output.value.exitCodeSnake.Integer? then
      code.Some? && LowBits(output.value.exitCodeSnake.value, code.value)
    else code.None?
  }

  predicate EndsAt(told: seq<Timed>, i: nat) {
    0 < i < |told| && (told[i].fields.status == Some("completed") || told[i].fields.status == Some("failed"))
  }

  /** The time from the announcement to the first update that sets a terminal status, within 64 bits. */
  ghost predicate ShowsDuration(told: seq<Timed>, ms: Option<int>)
    requires told != []
  {
    && (ms.None? <==> forall i: nat :: !EndsAt(told, i))
    && forall i: nat :: EndsAt(told, i) && (forall j: nat :: j < i ==> !EndsAt(told, j)) ==>
         var d := told[i].now - told[0].now;
         ms == Some(if d < -9223372036854775808 then -9223372036854775808
                    else if d > 9223372036854775807 then 9223372036854775807 else d)
  }

  /** What one block adds to the items of a generic tool call. */
  predicate Contains(b: ToolBlock, items: seq<OutputItem>) {
    if b.blockType == Some("content") && b.inner.Some? then
      var inner := b.inner.value;
      if inner.innerType == Some("text") then
        items == if inner.text.Some? then [InputText(inner.text.value)] else []
      else if inner.innerType == Some("image") then
        items ==
          if inner.uri.Some? then [InputImage(inner.uri.value)]
          else if inner.data.Some? then
            [InputImage("data:" + ValueOr(inner.mimeType, "image/png") + ";base64," + inner.data.value)]
          else []
      else if inner.innerType == Some("resource") then
        items == if inner.resourceText.Some? then [InputText(inner.resourceText.value)] else []
      else items == []
    else if b.blockType == Some("terminal") && b.terminalId.Some? then
      items == [InputText("[terminal:" + b.terminalId.value + "]")]
    else items == []
  }

  ghost predicate ShowsContent(blocks: seq<ToolBlock>, items: seq<OutputItem>) {
    exists parts: seq<seq<OutputItem>> ::
      && |parts| == |blocks|
      && (forall i :: 0 <= i < |blocks| ==> Contains(blocks[i], parts[i]))
      && items == Flatten(parts)
  }

  /** The generic tool call is named by its title or, if that is empty, by its kind. */
  ghost predicate ShowsTool(told: seq<Timed>, tool: string) {
    exists title, kind ::
      && IsOr(told, TitleOf, "", title) && IsOr(told, KindOf, "other", kind)
      && tool == if title != "" then title else kind
  }

  predicate ShowsSuccess(status: Status, success: Option<bool>) {
    && (success == Some(true) <==> status == Completed)
    && (success == Some(false) <==> status == Failed)
  }

  const NO_INPUT := Payload("null", None, None, Absent, Absent)

  /** A command execution shows the call. */
  ghost predicate ShowsExecution(told: seq<Timed>, item: Item)
    requires told != [] && item.CommandExecution?
  {
    && (exists input :: IsOr(told, RawInputOf, NO_INPUT, input)
                        && ShowsCommand(told, Blocks(told), input, item.command) && ShowsCwd(told, input, item.cwd))
    && ShowsOutput(Blocks(told), item.aggregatedOutput)
    && (if NeverSet(told, RawOutputOf) then item.exitCode.None?
        else exists out :: LastIs(told, RawOutputOf, out) && ShowsExit(Some(out), item.exitCode))
    && ShowsDuration(told, item.durationMs)
  }

  /** A generic tool call shows the call. */
  ghost predicate ShowsGeneric(told: seq<Timed>, item: Item)
    requires told != [] && item.DynamicToolCall?
  {
    && ShowsTool(told, item.tool) && IsOr(told, RawInputOf, NO_INPUT, item.arguments)
    && ShowsContent(Blocks(told), item.contentItems) && ShowsSuccess(item.status, item.success)
    && ShowsDuration(told, item.durationMs)
  }

  /** The item shows the call: an edit or a call with a diff as a file change, any other execution as
      a command, and everything else as a generic tool call. */
  ghost predicate Shows(told: seq<Timed>, item: Item)
    requires told != []
  {
    && item.id == ToolId(ValueOr(told[0].fields.callId, ""))
    && IsToolItem(item) && ShowsStatus(told, ShownStatus(item))
    && (item.FileChange? <==> LastIs(told, KindOf, "edit") || HasDiff(Blocks(told)))
    && (item.CommandExecution? <==> LastIs(told, KindOf, "execute") && !HasDiff(Blocks(told)))
    && (item.FileChange? ==> ShowsChanges(Blocks(told), item.changes))
    && (item.CommandExecution? ==> ShowsExecution(told, item))
    && (item.DynamicToolCall? ==> ShowsGeneric(told, item))
  }

  // ---- The closed form, field by field ----

  /** The scalar of the closed form is the last value set. */
  lemma ScalarIs<T(!new)>(a: Timed, updates: seq<Timed>, field: ToolFields -> Option<T>, default: T)
    ensures IsOr([a] + updates, field, default, LastSet(Column(updates, field), ValueOr(field(a.fields), default)))
  {
    var told, values, first := [a] + updates, Column(updates, field), ValueOr(field(a.fields), default);
    ToldAre(a, updates, field);
    if exists i :: 0 <= i < |values| && values[i].Some? {
      var i :| 0 <= i < |values| && values[i].Some?;
      var k := LastSome(values, i);
      LastAt(told, field, k + 1, values[k].value);
    } else if field(a.fields).Some? {
      LastAt(told, field, 0, first);
    }
  }

  /** The values told, by position: that of the announcement, then those of the updates. */
  lemma ToldAre<T>(a: Timed, updates: seq<Timed>, field: ToolFields -> Option<T>)
    ensures var told, values := [a] + updates, Column(updates, field);
            && |told| == |values| + 1 && field(told[0].fields) == field(a.fields)
            && forall i :: 0 <= i < |told| ==>
                 field(told[i].fields) == if i == 0 then field(a.fields) else values[i - 1]
  {
  }

  lemma LastAt<T(!new)>(told: seq<Timed>, field: ToolFields -> Option<T>, i: nat, v: T)
    requires i < |told| && field(told[i].fields) == Some(v)
    requires forall j :: i < j < |told| ==> field(told[j].fields).None?
    ensures LastIs(told, field, v)
  {
  }

  lemma {:induction false} LastSome<T>(values: seq<Option<T>>, i: nat) returns (k: nat)
    requires i < |values| && values[i].Some?
    ensures k < |values| && values[k].Some? && forall j :: k < j < |values| ==> values[j].None?
  {
    var n := |values| - 1;
    if values[n].Some? {
      k := n;
    } else {
      k := LastSome(values[..n], i);
    }
  }

  /** There is only one last value. */
  lemma LastUnique<T(!new)>(told: seq<Timed>, field: ToolFields -> Option<T>, v: T, w: T)
    requires LastIs(told, field, v)
    ensures LastIs(told, field, w) <==> v == w
    ensures !NeverSet(told, field)
  {
  }

  lemma IsOrIff<T(!new)>(told: seq<Timed>, field: ToolFields -> Option<T>, default: T, v: T, w: T)
    requires IsOr(told, field, default, v) && w != default
    ensures LastIs(told, field, w) <==> v == w
  {
    if LastIs(told, field, v) {
      LastUnique(told, field, v, w);
    }
  }

  lemma PartsAre<T>(a: Timed, updates: seq<Timed>, field: ToolFields -> Option<seq<T>>)
    ensures Flatten(Parts([a] + updates, field)) == ValueOr(field(a.fields), []) + Flatten(Arrays(updates, field))
  {
    var first := ValueOr(field(a.fields), []);
    assert Parts([a] + updates, field) == [first] + Arrays(updates, field);
    FlattenConcat([first], Arrays(updates, field));
    FlattenAppend([], first);
    assert [] + [first] == [first] && [] + first == first;
  }

  lemma OutputLast(a: Timed, updates: seq<Timed>)
    ensures var out := LastSetOption(Column(updates, RawOutputOf), a.fields.rawOutput);
            && (out.None? <==> NeverSet([a] + updates, RawOutputOf))
            && (out.Some? ==> LastIs([a] + updates, RawOutputOf, out.value))
  {
    var told, values, first := [a] + updates, Column(updates, RawOutputOf), a.fields.rawOutput;
    ToldAre(a, updates, RawOutputOf);
    hide Column;
    if exists i :: 0 <= i < |values| && values[i].Some? {
      var i :| 0 <= i < |values| && values[i].Some?;
      var k := LastSome(values, i);
      LastOptionIs(values, first, k);
      assert RawOutputOf(told[k + 1].fields) == values[k];
      LastAt(told, RawOutputOf, k + 1, values[k].value);
    } else {
      assert first.Some? ==> LastSetOption(values, first) == Some(LastSet(values, first.value));
      if first.Some? {
        LastAt(told, RawOutputOf, 0, first.value);
        assert RawOutputOf(told[0].fields).Some?;
      }
    }
  }

  lemma {:induction false} LastOptionIs<T>(values: seq<Option<T>>, first: Option<T>, k: nat)
    requires k < |values| && values[k].Some? && forall j :: k < j < |values| ==> values[j].None?
    ensures LastSetOption(values, first) == values[k]
  {
    if k < |values| - 1 {
      LastOptionIs(values[..|values| - 1], first, k);
    }
  }

  lemma StatusShown(told: seq<Timed>, status: string)
    requires IsOr(told, StatusOf, "pending", status)
    ensures ShowsStatus(told, MapStatus(status))
  {
    IsOrIff(told, StatusOf, "pending", status, "completed");
    IsOrIff(told, StatusOf, "pending", status, "failed");
  }

  lemma {:induction false} DiffsAre(blocks: seq<ToolBlock>)
    ensures |DiffBlocks(blocks)| == DiffCount(blocks, |blocks|)
    ensures forall i :: 0 <= i < |blocks| && IsDiff(blocks[i]) ==>
              DiffCount(blocks, i) < |DiffBlocks(blocks)| && DiffBlocks(blocks)[DiffCount(blocks, i)] == blocks[i]
  {
    if blocks != [] {
      var front, last := blocks[..|blocks| - 1], blocks[|blocks| - 1];
      assert front + [last] == blocks;
      DiffsAre(front);
      DiffBlocksConcat(front, [last]);
      assert DiffBlocks([last]) == if IsDiff(last) then [last] else [];
      CountPrefix(front, last, |front|);
      forall i | 0 <= i < |blocks| && IsDiff(blocks[i])
        ensures DiffCount(blocks, i) < |DiffBlocks(blocks)| && DiffBlocks(blocks)[DiffCount(blocks, i)] == blocks[i]
      {
        CountPrefix(front, last, i);
      }
    }
  }

  lemma {:induction false} CountPrefix(front: seq<ToolBlock>, last: ToolBlock, n: nat)
    requires n <= |front|
    ensures DiffCount(front + [last], n) == DiffCount(front, n)
  {
    if n > 0 {
      CountPrefix(front, last, n - 1);
    }
  }

  lemma ChangesShown(blocks: seq<ToolBlock>)
    ensures ShowsChanges(blocks, Changes(DiffBlocks(blocks)))
    ensures DiffBlocks(blocks) != [] <==> HasDiff(blocks)
  {
    DiffsAre(blocks);
    SomeDiff(blocks);
    hide DiffBlocks, DiffCount, HasDiff, ChangeOf;
    forall b ensures ShowsChange(b, ChangeOf(b)) {
      ChangeShown(b);
    }
  }

  lemma ChangeShown(b: ToolBlock)
    ensures ShowsChange(b, ChangeOf(b))
  {
  }

  lemma SomeDiff(blocks: seq<ToolBlock>)
    requires forall i :: 0 <= i < |blocks| && IsDiff(blocks[i]) ==> DiffCount(blocks, i) < |DiffBlocks(blocks)|
    requires |DiffBlocks(blocks)| == DiffCount(blocks, |blocks|)
    ensures DiffBlocks(blocks) != [] <==> HasDiff(blocks)
  {
    hide DiffBlocks;
    NoDiff(blocks, |blocks|);
    hide DiffCount;
    if HasDiff(blocks) {
      var i :| 0 <= i < |blocks| && blocks[i].blockType == Some("diff");
      assert IsDiff(blocks[i]);
    }
  }

  lemma {:induction false} NoDiff(blocks: seq<ToolBlock>, n: nat)
    requires n <= |blocks|
    ensures !HasDiff(blocks) ==> DiffCount(blocks, n) == 0
  {
    if n > 0 {
      NoDiff(blocks, n - 1);
    }
  }

  lemma {:induction false} CommandIs(blocks: seq<ToolBlock>)
    ensures var found := CommandOfContent(blocks);
            && (found.None? <==> forall i :: 0 <= i < |blocks| ==> CommandsNothing(blocks[i]))
            && (found.Some? ==> exists i :: 0 <= i < |blocks| && Commands(blocks[i], found.value)
                                            && forall j :: 0 <= j < i ==> CommandsNothing(blocks[j]))
  {
    if blocks != [] {
      FirstBlock(blocks[0]);
      CommandIs(blocks[1..]);
      hide Commands, CommandsNothing;
      var rest, found := blocks[1..], CommandOfContent(blocks);
      assert forall i :: 0 <= i < |rest| ==> rest[i] == blocks[i + 1];
      if CommandsNothing(blocks[0]) {
        assert found == CommandOfContent(rest);
        if found.Some? {
          var i :| 0 <= i < |rest| && Commands(rest[i], found.value)
                   && forall j :: 0 <= j < i ==> CommandsNothing(rest[j]);
          assert Commands(blocks[i + 1], found.value);
          forall j | 0 <= j < i + 1 ensures CommandsNothing(blocks[j]) {
            assert j > 0 ==> rest[j - 1] == blocks[j];
          }
        } else {
          forall i | 0 <= i < |blocks| ensures CommandsNothing(blocks[i]) {
            assert i > 0 ==> rest[i - 1] == blocks[i];
          }
        }
      } else {
        assert Commands(blocks[0], found.value);
      }
    }
  }

  lemma FirstBlock(b: ToolBlock)
    ensures var text := if b.inner.Some? then NonEmpty(b.inner.value.text) else None;
            var resource := if b.inner.Some? then NonEmpty(b.inner.value.resourceText) else None;
            && (CommandsNothing(b) <==> text.None? && resource.None?)
            && (text.Some? ==> Commands(b, text.value))
            && (text.None? && resource.Some? ==> Commands(b, resource.value))
  {
    if b.inner.Some? {
      var inner := b.inner.value;
      if NonEmpty(inner.text).Some? {
        assert Commands(b, inner.text.value);
      } else if NonEmpty(inner.resourceText).Some? {
        assert Commands(b, inner.resourceText.value);
      }
    }
  }

  lemma CommandShown(told: seq<Timed>, s: CallState)
    requires s.content == Blocks(told) && IsOr(told, TitleOf, "", s.title)
    ensures ShowsCommand(told, s.content, s.rawInput, Command(s))
  {
    CommandIs(s.content);
  }

  lemma OutputShown(blocks: seq<ToolBlock>)
    ensures ShowsOutput(blocks, AggregateOutput(blocks))
  {
    var texts := BlockTexts(blocks);
    assert |texts| == |blocks| && forall i :: 0 <= i < |blocks| ==> Outputs(blocks[i], texts[i]);
  }

  lemma {:induction false} ItemsFlat(blocks: seq<ToolBlock>)
    ensures OutputItems(blocks) == Flatten(seq(|blocks|, i requires 0 <= i < |blocks| => OutputItemsOf(blocks[i])))
  {
    hide OutputItemsOf;
    var parts := seq(|blocks|, i requires 0 <= i < |blocks| => OutputItemsOf(blocks[i]));
    if blocks != [] {
      var front, last := blocks[..|blocks| - 1], blocks[|blocks| - 1];
      assert front + [last] == blocks;
      ItemsFlat(front);
      OutputItemsConcat(front, [last]);
      assert OutputItems([last]) == OutputItemsOf(last) + [] == OutputItemsOf(last);
      assert parts == seq(|front|, i requires 0 <= i < |front| => OutputItemsOf(front[i])) + [OutputItemsOf(last)];
      FlattenAppend(seq(|front|, i requires 0 <= i < |front| => OutputItemsOf(front[i])), OutputItemsOf(last));
    }
  }

  lemma ContentShown(blocks: seq<ToolBlock>)
    ensures ShowsContent(blocks, OutputItems(blocks))
  {
    ItemsFlat(blocks);
    var parts := seq(|blocks|, i requires 0 <= i < |blocks| => OutputItemsOf(blocks[i]));
    forall i | 0 <= i < |blocks| ensures Contains(blocks[i], parts[i]) {
      BlockContains(blocks[i]);
    }
  }

  lemma BlockContains(b: ToolBlock)
    ensures Contains(b, OutputItemsOf(b))
  {
  }

  lemma ExitShown(out: Option<Payload>)
    ensures ShowsExit(out, ExitCode(out))
  {
    forall v: int ensures LowBits(v, AsI32(v)) {
      LowBitsAre(v);
    }
  }

  lemma LowBitsAre(v: int)
    ensures LowBits(v, AsI32(v))
  {
    var n := v + 0x8000_0000;
    assert n == n / 0x1_0000_0000 * 0x1_0000_0000 + n % 0x1_0000_0000;
    assert v - AsI32(v) == n / 0x1_0000_0000 * 0x1_0000_0000;
    Multiple(n / 0x1_0000_0000);
  }

  lemma Multiple(k: int)
    ensures k * 4294967296 % 4294967296 == 0
  {
  }

  lemma DurationShown(a: Timed, updates: seq<Timed>, s: CallState)
    requires s.startedAt == a.now && s.completedAt == FirstTerminal(updates)
    ensures ShowsDuration([a] + updates, Duration(s))
  {
    var told := [a] + updates;
    NoEnds(a, updates);
    forall i: nat | EndsAt(told, i) && forall j: nat :: j < i ==> !EndsAt(told, j)
      ensures s.completedAt == Some(told[i].now)
    {
      FirstEnd(a, updates, i);
    }
    assert told[0] == a;
    DurationIs(told, s);
  }

  lemma DurationIs(told: seq<Timed>, s: CallState)
    requires told != [] && s.startedAt == told[0].now
    requires s.completedAt.None? <==> forall i: nat :: !EndsAt(told, i)
    requires forall i: nat :: EndsAt(told, i) && (forall j: nat :: j < i ==> !EndsAt(told, j)) ==>
               s.completedAt == Some(told[i].now)
    ensures ShowsDuration(told, Duration(s))
  {
    hide EndsAt;
    assert forall i: nat :: EndsAt(told, i) ==> i < |told| by {
      EndsWithin(told);
    }
  }

  lemma EndsWithin(told: seq<Timed>)
    ensures forall i: nat :: EndsAt(told, i) ==> i < |told|
  {
  }

  lemma NoEnds(a: Timed, updates: seq<Timed>)
    ensures FirstTerminal(updates).None? <==> forall i: nat :: !EndsAt([a] + updates, i)
  {
    EndsAre(a, updates);
    hide SetsTerminal, EndsAt;
    if FirstTerminal(updates).Some? {
      var k: nat :| k < |updates| && SetsTerminal(updates[k]);
      assert EndsAt([a] + updates, k + 1);
    }
  }

  lemma EndsAre(a: Timed, updates: seq<Timed>)
    ensures forall i: nat :: EndsAt([a] + updates, i) ==> 0 < i <= |updates| && SetsTerminal(updates[i - 1])
    ensures forall i: nat :: i < |updates| && SetsTerminal(updates[i]) ==> EndsAt([a] + updates, i + 1)
  {
  }

  lemma FirstEnd(a: Timed, updates: seq<Timed>, i: nat)
    requires EndsAt([a] + updates, i) && forall j: nat :: j < i ==> !EndsAt([a] + updates, j)
    ensures FirstTerminal(updates) == Some(([a] + updates)[i].now)
  {
    EndsAre(a, updates);
    hide SetsTerminal, EndsAt;
    forall j: nat | j < i - 1 ensures !SetsTerminal(updates[j]) {
      assert !EndsAt([a] + updates, j + 1);
    }
  }

  /** The rendering of the closed form shows the call. */
  lemma ClosedShown(a: Timed, updates: seq<Timed>)
    ensures Shows([a] + updates, Render(ClosedState(a, updates)))
  {
    var told, s := [a] + updates, ClosedState(a, updates);
    ScalarIs(a, updates, KindOf, "other");
    ScalarIs(a, updates, TitleOf, "");
    ScalarIs(a, updates, StatusOf, "pending");
    ScalarIs(a, updates, RawInputOf, NULL_PAYLOAD);
    PartsAre(a, updates, ContentOf);
    PartsAre(a, updates, LocationsOf);
    OutputLast(a, updates);
    DurationShown(a, updates, s);
    assert told[0] == a;
    FieldsShown(told, s);
  }

  lemma FieldsShown(told: seq<Timed>, s: CallState)
    requires told != [] && s.itemId == ToolId(ValueOr(told[0].fields.callId, ""))
    requires IsOr(told, KindOf, "other", s.kind) && IsOr(told, TitleOf, "", s.title)
    requires IsOr(told, StatusOf, "pending", s.status) && IsOr(told, RawInputOf, NULL_PAYLOAD, s.rawInput)
    requires s.content == Blocks(told) && s.locations == Places(told)
    requires s.rawOutput.None? <==> NeverSet(told, RawOutputOf)
    requires s.rawOutput.Some? ==> LastIs(told, RawOutputOf, s.rawOutput.value)
    requires ShowsDuration(told, Duration(s))
    ensures Shows(told, Render(s))
  {
    StatusShown(told, s.status);
    IsOrIff(told, KindOf, "other", s.kind, "edit");
    IsOrIff(told, KindOf, "other", s.kind, "execute");
    ChangesShown(s.content);
    hide IsOr, LastIs, NeverSet, ShowsStatus, ShowsChanges, HasDiff, ShowsExecution, ShowsGeneric, ShowsDuration,
         Command, Cwd, AggregateOutput, OutputItems, ExitCode, Duration, DiffBlocks, Blocks, Places, MapStatus, Changes;
    if Render(s).CommandExecution? {
      ExecutionShown(told, s, Render(s));
    } else if Render(s).DynamicToolCall? {
      GenericShown(told, s, Render(s));
    }
  }

  lemma ExecutionShown(told: seq<Timed>, s: CallState, item: Item)
    requires told != [] && item == Render(s) && item.CommandExecution?
    requires IsOr(told, TitleOf, "", s.title) && IsOr(told, RawInputOf, NULL_PAYLOAD, s.rawInput)
    requires s.content == Blocks(told) && s.locations == Places(told)
    requires s.rawOutput.None? <==> NeverSet(told, RawOutputOf)
    requires s.rawOutput.Some? ==> LastIs(told, RawOutputOf, s.rawOutput.value)
    requires ShowsDuration(told, Duration(s))
    ensures ShowsExecution(told, item)
  {
    CommandShown(told, s);
    OutputShown(s.content);
    ExitShown(s.rawOutput);
    hide IsOr, LastIs, NeverSet, ShowsCommand, ShowsOutput, ShowsExit, ShowsDuration, Command, AggregateOutput,
         ExitCode, Duration, DiffBlocks, Blocks, Places, MapStatus;
    assert ShowsCwd(told, s.rawInput, item.cwd);
  }

  lemma GenericShown(told: seq<Timed>, s: CallState, item: Item)
    requires told != [] && item == Render(s) && item.DynamicToolCall?
    requires IsOr(told, TitleOf, "", s.title) && IsOr(told, KindOf, "other", s.kind)
    requires IsOr(told, RawInputOf, NULL_PAYLOAD, s.rawInput) && s.content == Blocks(told)
    requires ShowsDuration(told, Duration(s))
    ensures ShowsGeneric(told, item)
  {
    ContentShown(s.content);
    hide IsOr, ShowsContent, ShowsDuration, OutputItems, Duration, DiffBlocks, Blocks, MapStatus;
    assert ShowsTool(told, item.tool);
  }

  // ---- The stored item, at every point of every run ----

  /** In the batch translator too, the last item under a call's id is the rendering of its state. */
  ghost predicate BatchSlots(t: T.State) {
    forall c :: c in t.calls ==> EmitterInvariants.SlotShows(t.items, c, t.calls[c])
  }

  lemma PushSlots(t: T.State, item: Item)
    requires BatchSlots(t)
    ensures forall c :: c in t.calls && item.id != ToolId(c) ==>
              EmitterInvariants.SlotShows(t.items + [item], c, t.calls[c])
  {
    hide EmitterInvariants.SlotShows;
    forall c | c in t.calls && item.id != ToolId(c)
      ensures EmitterInvariants.SlotShows(t.items + [item], c, t.calls[c])
    {
      EmitterInvariants.SlotAfterPush(t.items, item, c, t.calls[c]);
    }
  }

  lemma FlushSlots(t: T.State)
    requires BatchSlots(t)
    ensures BatchSlots(T.FlushText(t))
  {
    hide EmitterInvariants.SlotShows;
    if t.kind.Some? {
      PushSlots(t, TextItem(t.kind.value, t.counter, t.buf));
    }
  }

  lemma AnnounceSlots(t: T.State, fields: ToolFields, now: int)
    requires BatchSlots(t)
    ensures BatchSlots(T.HandleToolCall(t, fields, now))
  {
    hide Render;
    if ValueOr(fields.callId, "") != "" {
      var call := FromAnnounce(fields, now);
      PushSlots(t, Render(call));
      LastPosAppend(t.items, Render(call), ToolId(fields.callId.value));
    }
  }

  lemma MergeSlots(t: T.State, id: string, fields: ToolFields, now: int)
    requires BatchSlots(t) && id in t.calls
    ensures BatchSlots(T.MergeInto(t, id, fields, now))
  {
    hide Render;
    var call := MergeUpdate(t.calls[id], fields, now);
    var after := T.MergeInto(t, id, fields, now);
    assert EmitterInvariants.SlotShows(t.items, id, t.calls[id]);
    forall c | c in after.calls ensures EmitterInvariants.SlotShows(after.items, c, after.calls[c]) {
      hide LastPos, ReplaceItem;
      EmitterInvariants.SlotAfterReplace(t.items, id, Render(call), c, after.calls[c]);
    }
  }

  lemma UpdateSlots(t: T.State, fields: ToolFields, now: int)
    requires BatchSlots(t)
    ensures BatchSlots(T.HandleToolCallUpdate(t, fields, now))
  {
    hide BatchSlots, T.MergeInto;
    if ValueOr(fields.callId, "") != "" {
      var id := fields.callId.value;
      AnnounceSlots(t, fields, now);
      MergeSlots(if id in t.calls then t else T.HandleToolCall(t, fields, now), id, fields, now);
    }
  }

  lemma IngestSlots(t: T.State, f: Frame)
    requires BatchSlots(t)
    ensures BatchSlots(T.Ingest(t, f))
  {
    hide EmitterInvariants.SlotShows, T.FlushText, T.Classify, T.HandleToolCall, T.HandleToolCallUpdate, T.UserText;
    FlushSlots(t);
    var flushed := T.FlushText(t);
    if f.isSessionUpdate && f.update.Some? {
      match f.update.value
      case UserChunk(content) => PushSlots(flushed, UserMessage(UserId(flushed.counter), T.UserText(content)));
      case TextChunk(_, content) =>
        if T.Classify(content).Standalone? {
          ImageIsNoTool(content);
          PushSlots(flushed, T.Classify(content).item);
        }
      case ToolCall(fields) => AnnounceSlots(flushed, fields, f.now);
      case ToolCallUpdate(fields) => UpdateSlots(flushed, fields, f.now);
      case _ =>
    }
  }

  lemma ImageIsNoTool(content: Option<ContentBlock>)
    requires T.Classify(content).Standalone?
    ensures T.Classify(content).item.id.ImageId?
  {
  }

  lemma {:induction false} RunSlots(frames: seq<Frame>)
    ensures BatchSlots(T.Run(T.INITIAL, frames))
  {
    hide T.Ingest;
    if frames != [] {
      RunSlots(frames[..|frames| - 1]);
      hide BatchSlots;
      IngestSlots(T.Run(T.INITIAL, frames[..|frames| - 1]), frames[|frames| - 1]);
    }
  }

  /** The item stored for a call: the last one under its id. */
  function Stored(items: seq<Item>, c: string): Option<Item> {
    var p := LastPos(items, ToolId(c));
    if p < 0 then None else Some(items[p])
  }

  /**
   At every point of every run, live and batch, the item stored for a call shows what was said
   about the call since its last announcement.
   */
  lemma StoredShows(frames: seq<Frame>, c: string)
    requires c != "" && HistoryOf(frames, c).Some?
    ensures var told := Told(HistoryOf(frames, c).value);
            var live, batch := Stored(E.Run(frames).items, c), Stored(T.Run(T.INITIAL, frames).items, c);
            live.Some? && batch.Some? && Shows(told, live.value) && Shows(told, batch.value)
  {
    var h := HistoryOf(frames, c).value;
    EmitterHoldsClosedForm(frames, c);
    TranslatorHoldsClosedForm(frames, c);
    EmitterInvariants.RunInv(frames);
    RunSlots(frames);
    hide HistoryOf, Shows, ClosedState, Render, LastPos, EmitterInvariants.InStep;
    var e, t := E.Run(frames), T.Run(T.INITIAL, frames);
    assert EmitterInvariants.SlotShows(e.items, c, e.calls[c].call);
    assert EmitterInvariants.SlotShows(t.items, c, t.calls[c]);
    ClosedShown(h.announce, h.updates);
  }
}
