/**
 The conformance harness's stream monitor (crates/bridge-conformance/src/streaming.rs).
 Generic in the id type, because it watches several bridges.
 */
module StreamMonitor {
  import opened Common

  /** An item as the monitor reads it; `content` holds the string elements of the array. */
  datatype ItemView<Id> = ItemView(id: Option<Id>, itemType: Option<string>,
                                   text: Option<string>, content: Option<seq<string>>)

  datatype Notification<Id> =
    | ItemStarted(item: Option<ItemView<Id>>)
    | ItemCompleted(item: Option<ItemView<Id>>)
    | AgentDelta(itemId: Option<Id>, delta: Option<string>)
    | ReasoningDelta(itemId: Option<Id>, delta: Option<string>)
    | OtherNotification

  datatype Frame<Id> = Frame(step: string, isNotification: bool, note: Notification<Id>)

  datatype Kind = AgentKind | ReasoningKind

  datatype Finding<Id> =
    | NeverCompleted(step: string, id: Id, kind: Kind)
    | CompletedUnstarted(step: string, id: Id)
    | NoDeltas(step: string, id: Id)
    | FinalTextDiffers(step: string, id: Id, text: string, deltas: string)
    | FinalContentDiffers(step: string, id: Id, text: string, deltas: string)
    | DeltaUnstarted(step: string, id: Id)
    | DeltaWrongKind(step: string, id: Id, expected: Kind, actual: Kind)

  datatype ItemState = ItemState(step: string, kind: Kind, text: string, completed: bool)

  datatype Monitor<Id> = Monitor(items: map<Id, ItemState>, findings: seq<Finding<Id>>)

  function Fresh<Id>(): Monitor<Id> {
    Monitor(map[], [])
  }

  function KindOf<Id>(item: ItemView<Id>): Option<Kind> {
    if item.itemType == Some("agentMessage") then Some(AgentKind)
    else if item.itemType == Some("reasoning") then Some(ReasoningKind)
    else None
  }

  function OnStarted<Id>(m: Monitor<Id>, step: string, item: Option<ItemView<Id>>): Monitor<Id> {
    if item.None? || item.value.id.None? || KindOf(item.value).None? then m
    else m.(items := m.items[item.value.id.value := ItemState(step, KindOf(item.value).value, "", false)])
  }

  function OnDelta<Id>(m: Monitor<Id>, step: string, expected: Kind, itemId: Option<Id>,
                       delta: Option<string>): Monitor<Id> {
    if itemId.None? then m
    else if itemId.value !in m.items then
      m.(findings := m.findings + [DeltaUnstarted(step, itemId.value)])
    else
      var st := m.items[itemId.value];
      if st.kind != expected then
        m.(findings := m.findings + [DeltaWrongKind(step, itemId.value, expected, st.kind)])
      else m.(items := m.items[itemId.value := st.(text := st.text + ValueOr(delta, ""))])
  }

  /** The complaints about a completed item whose start was seen. */
  function FinalComplaints<Id>(step: string, st: ItemState, id: Id, item: ItemView<Id>): seq<Finding<Id>> {
    if st.kind == AgentKind && item.text.Some? then
      (if st.text == "" then [NoDeltas(step, id)] else [])
      + (if item.text.value != st.text then [FinalTextDiffers(step, id, item.text.value, st.text)] else [])
    else if st.kind == ReasoningKind && item.content.Some? then
      var content := Flatten(item.content.value);
      if st.text != "" && content != st.text then [FinalContentDiffers(step, id, content, st.text)] else []
    else []
  }

  function OnCompleted<Id>(m: Monitor<Id>, step: string, item: Option<ItemView<Id>>): Monitor<Id> {
    if item.None? || item.value.id.None? then m
    else
      var id := item.value.id.value;
      if id in m.items then
        var st := m.items[id];
        Monitor(m.items[id := st.(completed := true)], m.findings + FinalComplaints(step, st, id, item.value))
      else if KindOf(item.value).Some? then m.(findings := m.findings + [CompletedUnstarted(step, id)])
      else m
  }

  function Observe<Id>(m: Monitor<Id>, f: Frame<Id>): Monitor<Id> {
    if !f.isNotification then m
    else
      match f.note
      case ItemStarted(item) => OnStarted(m, f.step, item)
      case ItemCompleted(item) => OnCompleted(m, f.step, item)
      case AgentDelta(id, delta) => OnDelta(m, f.step, AgentKind, id, delta)
      case ReasoningDelta(id, delta) => OnDelta(m, f.step, ReasoningKind, id, delta)
      case OtherNotification => m
  }

  function Watch<Id>(m: Monitor<Id>, frames: seq<Frame<Id>>): Monitor<Id> {
    if frames == [] then m
    else Observe(Watch(m, frames[..|frames| - 1]), frames[|frames| - 1])
  }

  function OpenIds<Id>(m: Monitor<Id>): set<Id> {
    set id | id in m.items && !m.items[id].completed
  }

  /** The stream draws no finding. */
  ghost predicate Accepts<Id(!new)>(frames: seq<Frame<Id>>) {
    var m := Watch(Fresh(), frames);
    m.findings == [] && OpenIds(m) == {}
  }

  lemma WatchAppend<Id>(m: Monitor<Id>, frames: seq<Frame<Id>>, f: Frame<Id>)
    ensures Watch(m, frames + [f]) == Observe(Watch(m, frames), f)
  {
    assert (frames + [f])[..|frames|] == frames;
  }

  lemma {:induction false} WatchConcat<Id>(m: Monitor<Id>, a: seq<Frame<Id>>, b: seq<Frame<Id>>)
    ensures Watch(m, a + b) == Watch(Watch(m, a), b)
  {
    if b == [] {
      assert a + b == a;
    } else {
      WatchConcat(m, a, b[..|b| - 1]);
      assert (a + b)[..|a + b| - 1] == a + b[..|b| - 1];
    }
  }

  /** The findings of the items left open, in the order the map yields them. */
  function LeftOpen<Id>(order: seq<Id>, items: map<Id, ItemState>): seq<Finding<Id>>
    requires forall id :: id in order ==> id in items
  {
    seq(|order|, i requires 0 <= i < |order| =>
      NeverCompleted(items[order[i]].step, order[i], items[order[i]].kind))
  }

  /** The first loop of `check`: the frames, one after the other. */
  method WatchFrames<Id(==)>(frames: seq<Frame<Id>>) returns (m: Monitor<Id>)
    ensures m == Watch(Fresh(), frames)
  {
    hide OnStarted, OnCompleted, OnDelta;
    m := Fresh();
    for i := 0 to |frames|
      invariant m == Watch(Fresh(), frames[..i])
    {
      WatchAppend(Fresh(), frames[..i], frames[i]);
      assert frames[..i] + [frames[i]] == frames[..i + 1];
      var f := frames[i];
      if f.isNotification {
        match f.note {
          case ItemStarted(item) => m := OnStarted(m, f.step, item);
          case ItemCompleted(item) => m := OnCompleted(m, f.step, item);
          case AgentDelta(id, delta) => m := OnDelta(m, f.step, AgentKind, id, delta);
          case ReasoningDelta(id, delta) => m := OnDelta(m, f.step, ReasoningKind, id, delta);
          case OtherNotification =>
        }
      }
    }
    assert frames[..|frames|] == frames;
  }

  /** `check`: the findings of the stream, then one for every item left open. No finding at
      all means exactly that the stream is accepted. */
  method Check<Id(==,!new)>(frames: seq<Frame<Id>>) returns (findings: seq<Finding<Id>>, ghost order: seq<Id>)
    ensures Distinct(order) && forall id :: id in order <==> id in OpenIds(Watch(Fresh(), frames))
    ensures findings == Watch(Fresh(), frames).findings + LeftOpen(order, Watch(Fresh(), frames).items)
    ensures findings == [] <==> Accepts(frames)
  {
    var m := WatchFrames(frames);
    findings, order := m.findings, [];
    var left := m.items.Keys;
    while left != {}
      invariant left <= m.items.Keys
      invariant Distinct(order)
      invariant forall id :: id in order <==> id in OpenIds(m) && id !in left
      invariant findings == m.findings + LeftOpen(order, m.items)
      decreases |left|
    {
      var id :| id in left;
      if !m.items[id].completed {
        DistinctAppend(order, id);
        findings := findings + [NeverCompleted(m.items[id].step, id, m.items[id].kind)];
        order := order + [id];
      }
      left := left - {id};
    }
    assert order == [] <==> OpenIds(m) == {} by {
      if order != [] {
        assert order[0] in OpenIds(m);
      }
    }
  }
}
