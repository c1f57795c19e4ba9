/**
 What the stream monitor accepts, said without its table: every delta and every completion
 looks back to the last start of its item, and every last start is followed by a completion.
 */
module MonitorExact {
  import opened Common
  import opened StreamMonitor

  /** The id and kind of the text item this frame starts. */
  function Started<Id>(f: Frame<Id>): Option<(Id, Kind)> {
    if f.isNotification && f.note.ItemStarted? && f.note.item.Some? && f.note.item.value.id.Some?
       && KindOf(f.note.item.value).Some?
    then Some((f.note.item.value.id.value, KindOf(f.note.item.value).value))
    else None
  }

  /** The id of the item, of whatever type, this frame completes. */
  function Completes<Id>(f: Frame<Id>): Option<Id> {
    if f.isNotification && f.note.ItemCompleted? && f.note.item.Some? then f.note.item.value.id else None
  }

  /** The id this delta is for, and the kind of item it is meant for. */
  function DeltaOf<Id>(f: Frame<Id>): Option<(Id, Kind)> {
    if !f.isNotification then None
    else if f.note.AgentDelta? && f.note.itemId.Some? then Some((f.note.itemId.value, AgentKind))
    else if f.note.ReasoningDelta? && f.note.itemId.Some? then Some((f.note.itemId.value, ReasoningKind))
    else None
  }

  predicate Starts<Id(==)>(f: Frame<Id>, id: Id) {
    Started(f).Some? && Started(f).value.0 == id
  }

  /** Where `id` was last started. */
  function LastStart<Id(==)>(frames: seq<Frame<Id>>, id: Id): (p: Option<nat>)
    ensures p.Some? ==> p.value < |frames| && Starts(frames[p.value], id)
    ensures p.Some? ==> forall i :: p.value < i < |frames| ==> !Starts(frames[i], id)
    ensures p.None? ==> forall i :: 0 <= i < |frames| ==> !Starts(frames[i], id)
  {
    if frames == [] then None
    else if Starts(frames[|frames| - 1], id) then Some(|frames| - 1)
    else LastStart(frames[..|frames| - 1], id)
  }

  /** The deltas of `id` after position `from`, one after the other. */
  function DeltaText<Id(==)>(frames: seq<Frame<Id>>, from: nat, id: Id, kind: Kind): string {
    if |frames| <= from + 1 then ""
    else
      var last := frames[|frames| - 1];
      DeltaText(frames[..|frames| - 1], from, id, kind)
      + (if DeltaOf(last) == Some((id, kind)) then ValueOr(last.note.delta, "") else "")
  }

  predicate CompletedAfter<Id(==)>(frames: seq<Frame<Id>>, from: nat, id: Id) {
    exists i :: from < i < |frames| && Completes(frames[i]) == Some(id)
  }

  /** The final text agrees with the deltas since the start. */
  predicate FinalOk<Id>(item: ItemView<Id>, kind: Kind, text: string) {
    match kind
    case AgentKind => item.text.Some? ==> text != "" && item.text.value == text
    case ReasoningKind => item.content.Some? && text != "" ==> Flatten(item.content.value) == text
  }

  /** The frame `f` is legal after the frames before it. */
  predicate Legal<Id(==)>(before: seq<Frame<Id>>, f: Frame<Id>) {
    && (DeltaOf(f).Some? ==>
          var (id, kind) := DeltaOf(f).value;
          var p := LastStart(before, id);
          p.Some? && Started(before[p.value]).value.1 == kind)
    && (Completes(f).Some? ==>
          var id, item := Completes(f).value, f.note.item.value;
          var p := LastStart(before, id);
          if p.None? then KindOf(item).None?
          else
            var kind := Started(before[p.value]).value.1;
            FinalOk(item, kind, DeltaText(before, p.value, id, kind)))
  }

  /** The entry the monitor holds for an item last started at `p`. */
  ghost predicate Tracks<Id(!new)>(frames: seq<Frame<Id>>, items: map<Id, ItemState>, id: Id) {
    var p := LastStart(frames, id);
    && (id in items <==> p.Some?)
    && (p.Some? ==>
          var kind := Started(frames[p.value]).value.1;
          && items[id].kind == kind
          && items[id].text == DeltaText(frames, p.value, id, kind)
          && (items[id].completed <==> CompletedAfter(frames, p.value, id)))
  }

  lemma LastStartAppend<Id>(frames: seq<Frame<Id>>, f: Frame<Id>, id: Id)
    ensures LastStart(frames + [f], id) == if Starts(f, id) then Some(|frames|) else LastStart(frames, id)
  {
    assert (frames + [f])[..|frames|] == frames;
  }

  lemma TextAppend<Id>(frames: seq<Frame<Id>>, f: Frame<Id>, from: nat, id: Id, kind: Kind)
    ensures DeltaText(frames + [f], from, id, kind) ==
            if |frames| <= from then ""
            else DeltaText(frames, from, id, kind) + (if DeltaOf(f) == Some((id, kind)) then ValueOr(f.note.delta,
                    "") else "")
  {
    assert (frames + [f])[..|frames|] == frames;
  }

  lemma CompletedAppend<Id>(frames: seq<Frame<Id>>, f: Frame<Id>, from: nat, id: Id)
    requires from < |frames|
    ensures CompletedAfter(frames + [f], from, id) <==> CompletedAfter(frames, from, id) || Completes(f) == Some(id)
  {
    var more := frames + [f];
    assert forall i :: 0 <= i < |frames| ==> more[i] == frames[i];
    assert more[|frames|] == f;
    if CompletedAfter(frames, from, id) {
      var i :| from < i < |frames| && Completes(frames[i]) == Some(id);
      assert Completes(more[i]) == Some(id);
    }
  }

  /** What a frame does to the monitor's table, item by item. */
  lemma ObserveItem<Id(!new)>(m: Monitor<Id>, f: Frame<Id>, id: Id)
    ensures var items := Observe(m, f).items;
            if Starts(f, id) then id in items && items[id] == ItemState(f.step, Started(f).value.1, "", false)
            else if id !in m.items then id !in items
            else
              && id in items
              && items[id].kind == m.items[id].kind
              && items[id].text == m.items[id].text +
                   (if DeltaOf(f) == Some((id, m.items[id].kind)) then ValueOr(f.note.delta, "") else "")
              && items[id].completed == (m.items[id].completed || Completes(f) == Some(id))
  {
    hide FinalComplaints, KindOf;
    if id in m.items {
      assert m.items[id].text + "" == m.items[id].text;
    }
  }

  lemma TracksStep<Id(!new)>(frames: seq<Frame<Id>>, m: Monitor<Id>, f: Frame<Id>, id: Id)
    requires Tracks(frames, m.items, id)
    ensures Tracks(frames + [f], Observe(m, f).items, id)
  {
    ObserveItem(m, f, id);
    LastStartAppend(frames, f, id);
    var more := frames + [f];
    assert more[|frames|] == f;
    hide Observe, LastStart, DeltaText, CompletedAfter, DeltaOf, Completes, Started;
    if Starts(f, id) {
      TextAppend(frames, f, |frames|, id, Started(f).value.1);
      NotYetCompleted(more, |frames|, id);
    } else if LastStart(frames, id).Some? {
      var p := LastStart(frames, id).value;
      assert more[p] == frames[p];
      TextAppend(frames, f, p, id, Started(frames[p]).value.1);
      CompletedAppend(frames, f, p, id);
    }
  }

  lemma NotYetCompleted<Id>(frames: seq<Frame<Id>>, from: nat, id: Id)
    requires |frames| == from + 1
    ensures !CompletedAfter(frames, from, id)
  {
  }

  /** The monitor's table is a summary of the frames. */
  lemma {:induction false} WatchTracks<Id(!new)>(frames: seq<Frame<Id>>, id: Id)
    ensures Tracks(frames, Watch(Fresh(), frames).items, id)
  {
    if frames != [] {
      var front, last := frames[..|frames| - 1], frames[|frames| - 1];
      WatchTracks(front, id);
      hide Tracks, Observe;
      TracksStep(front, Watch(Fresh(), front), last, id);
      assert front + [last] == frames;
    }
  }

  lemma ComplaintsIff<Id>(step: string, st: ItemState, id: Id, item: ItemView<Id>)
    ensures FinalComplaints(step, st, id, item) == [] <==> FinalOk(item, st.kind, st.text)
  {
    hide Flatten;
  }

  /** A frame draws a finding exactly if it is not legal. */
  lemma ObserveFinds<Id(!new)>(frames: seq<Frame<Id>>, m: Monitor<Id>, f: Frame<Id>)
    requires forall id :: Tracks(frames, m.items, id)
    ensures Observe(m, f).findings == m.findings <==> Legal(frames, f)
    ensures m.findings <= Observe(m, f).findings
  {
    if DeltaOf(f).Some? {
      assert Tracks(frames, m.items, DeltaOf(f).value.0);
      hide LastStart, DeltaText, CompletedAfter, FinalComplaints, KindOf, Started;
    } else if Completes(f).Some? {
      var id := Completes(f).value;
      assert Tracks(frames, m.items, id);
      if id in m.items {
        ComplaintsIff(f.step, m.items[id], id, f.note.item.value);
      }
      hide LastStart, DeltaText, CompletedAfter, FinalComplaints, FinalOk, KindOf, Started;
    } else {
      hide LastStart, DeltaText, CompletedAfter, KindOf, Started, Tracks;
    }
  }

  lemma {:induction false} FindingsIff<Id(!new)>(frames: seq<Frame<Id>>)
    ensures Watch(Fresh(), frames).findings == [] <==>
            forall i :: 0 <= i < |frames| ==> Legal(frames[..i], frames[i])
  {
    if frames != [] {
      var front, last := frames[..|frames| - 1], frames[|frames| - 1];
      FindingsIff(front);
      forall id
        ensures Tracks(front, Watch(Fresh(), front).items, id)
      {
        WatchTracks(front, id);
      }
      ObserveFinds(front, Watch(Fresh(), front), last);
      hide Legal, Observe, Tracks;
      assert forall i :: 0 <= i < |front| ==> front[..i] == frames[..i] && front[i] == frames[i];
    }
  }

  /** The last start of `id`, if there is one, is followed by its completion. */
  ghost predicate Closed<Id(!new)>(frames: seq<Frame<Id>>, id: Id) {
    LastStart(frames, id).Some? ==> CompletedAfter(frames, LastStart(frames, id).value, id)
  }

  lemma OpenIff<Id(!new)>(frames: seq<Frame<Id>>, id: Id)
    ensures id in OpenIds(Watch(Fresh(), frames)) <==> !Closed(frames, id)
  {
    WatchTracks(frames, id);
    hide LastStart, CompletedAfter, Watch, DeltaText, Started;
  }

  /**
   The monitor accepts a stream if and only if every frame is legal after those before it and
   the last start of every item is followed by its completion.
   */
  lemma AcceptsExactly<Id(!new)>(frames: seq<Frame<Id>>)
    ensures Accepts(frames) <==>
      && (forall i :: 0 <= i < |frames| ==> Legal(frames[..i], frames[i]))
      && (forall id :: Closed(frames, id))
  {
    hide Legal, Closed, Watch, OpenIds;
    FindingsIff(frames);
    forall id
      ensures id in OpenIds(Watch(Fresh(), frames)) <==> !Closed(frames, id)
    {
      OpenIff(frames, id);
    }
    NoneOpen(OpenIds(Watch(Fresh(), frames)));
  }

  lemma NoneOpen<Id(!new)>(open: set<Id>)
    ensures open == {} <==> forall id :: id !in open
  {
  }
}
