/**
 Which findings the stream monitor reports, said over the frames: for each frame those it draws,
 with their texts, and then one for every item whose last start was never followed by its
 completion.
 */
module MonitorFindings {
  import opened Common
  import opened StreamMonitor
  import opened MonitorExact

  /** The complaints about a completed text item, given the deltas since its last start. */
  function Complaints<Id>(step: string, id: Id, item: ItemView<Id>, kind: Kind, deltas: string): seq<Finding<Id>> {
    match kind
    case AgentKind =>
      if item.text.None? then []
      else if deltas == "" then
        [NoDeltas(step, id)] + if item.text.value == "" then [] else [FinalTextDiffers(step, id, item.text.value, "")]
      else if item.text.value != deltas then [FinalTextDiffers(step, id, item.text.value, deltas)]
      else []
    case ReasoningKind =>
      if item.content.None? || deltas == "" || Flatten(item.content.value) == deltas then []
      else [FinalContentDiffers(step, id, Flatten(item.content.value), deltas)]
  }

  predicate IsTextItem<Id>(item: ItemView<Id>) {
    item.itemType == Some("agentMessage") || item.itemType == Some("reasoning")
  }

  /** What a frame draws after the frames before it. */
  predicate Draws<Id(==)>(before: seq<Frame<Id>>, f: Frame<Id>, found: seq<Finding<Id>>) {
    if DeltaOf(f).Some? then
      var (id, kind) := DeltaOf(f).value;
      var p := LastStart(before, id);
      found == if p.None? then [DeltaUnstarted(f.step, id)]
               else if Started(before[p.value]).value.1 != kind then
                 [DeltaWrongKind(f.step, id, kind, Started(before[p.value]).value.1)]
               else []
    else if Completes(f).Some? then
      var id, item := Completes(f).value, f.note.item.value;
      var p := LastStart(before, id);
      found == if p.None? then if IsTextItem(item) then [CompletedUnstarted(f.step, id)] else []
               else
                 var kind := Started(before[p.value]).value.1;
                 Complaints(f.step, id, item, kind, DeltaText(before, p.value, id, kind))
    else found == []
  }

  lemma ComplaintsAre<Id>(step: string, st: ItemState, id: Id, item: ItemView<Id>)
    ensures FinalComplaints(step, st, id, item) == Complaints(step, id, item, st.kind, st.text)
  {
    hide Flatten;
  }

  lemma ObserveDraws<Id(!new)>(frames: seq<Frame<Id>>, m: Monitor<Id>, f: Frame<Id>) returns (found: seq<Finding<Id>>)
    requires forall id :: Tracks(frames, m.items, id)
    ensures Observe(m, f).findings == m.findings + found && Draws(frames, f, found)
  {
    found := [];
    assert m.findings + [] == m.findings;
    if DeltaOf(f).Some? {
      var (id, kind) := DeltaOf(f).value;
      assert Tracks(frames, m.items, id);
      hide LastStart, DeltaText, CompletedAfter, FinalComplaints, KindOf, Started;
      if id !in m.items {
        found := [DeltaUnstarted(f.step, id)];
      } else if m.items[id].kind != kind {
        found := [DeltaWrongKind(f.step, id, kind, m.items[id].kind)];
      }
    } else if Completes(f).Some? {
      var id, item := Completes(f).value, f.note.item.value;
      assert Tracks(frames, m.items, id);
      assert KindOf(item).Some? <==> IsTextItem(item);
      hide LastStart, DeltaText, CompletedAfter, FinalComplaints, Complaints, KindOf, Started, IsTextItem;
      if id in m.items {
        ComplaintsAre(f.step, m.items[id], id, item);
        found := FinalComplaints(f.step, m.items[id], id, item);
      } else if IsTextItem(item) {
        found := [CompletedUnstarted(f.step, id)];
      }
    } else {
      hide LastStart, DeltaText, CompletedAfter, KindOf, Started, Tracks;
    }
  }

  /** The findings of a stream are those its frames draw, in order. */
  lemma {:induction false} FindingsAre<Id(!new)>(frames: seq<Frame<Id>>) returns (parts: seq<seq<Finding<Id>>>)
    ensures Watch(Fresh(), frames).findings == Flatten(parts)
    ensures |parts| == |frames| && forall i :: 0 <= i < |frames| ==> Draws(frames[..i], frames[i], parts[i])
  {
    if frames == [] {
      parts := [];
    } else {
      hide Observe, Tracks, Draws;
      var n := |frames| - 1;
      var front := frames[..n];
      var before := FindingsAre(front);
      forall id ensures Tracks(front, Watch(Fresh(), front).items, id) {
        WatchTracks(front, id);
      }
      var found := ObserveDraws(front, Watch(Fresh(), front), frames[n]);
      parts := before + [found];
      FlattenAppend(before, found);
      forall i | 0 <= i < |frames| ensures Draws(frames[..i], frames[i], parts[i]) {
        assert frames[..i] == if i < n then front[..i] else front;
      }
    }
  }

  /** The table keeps the step of the last start. */
  lemma {:induction false} StepIsOfStart<Id(!new)>(frames: seq<Frame<Id>>, id: Id)
    ensures var items := Watch(Fresh(), frames).items;
            LastStart(frames, id).Some? ==> id in items && items[id].step == frames[LastStart(frames, id).value].step
  {
    if frames != [] {
      var front, f := frames[..|frames| - 1], frames[|frames| - 1];
      StepIsOfStart(front, id);
      WatchTracks(front, id);
      assert front + [f] == frames;
      LastStartAppend(front, f, id);
      hide LastStart, DeltaText, CompletedAfter, FinalComplaints, KindOf;
      StepKept(Watch(Fresh(), front), f, id);
    }
  }

  lemma StepKept<Id(!new)>(m: Monitor<Id>, f: Frame<Id>, id: Id)
    ensures var items := Observe(m, f).items;
            && (Starts(f, id) ==> id in items && items[id].step == f.step)
            && (!Starts(f, id) && id in m.items ==> id in items && items[id].step == m.items[id].step)
  {
    hide FinalComplaints, KindOf;
  }

  /** An item left open is reported with the step and kind of its last start, and only such an item. */
  lemma LeftOpenAre<Id(!new)>(frames: seq<Frame<Id>>, order: seq<Id>, k: nat)
    requires forall id :: id in order <==> id in OpenIds(Watch(Fresh(), frames))
    requires k < |order|
    ensures forall id :: id in order <==> !Closed(frames, id)
    ensures var id, p := order[k], LastStart(frames, order[k]);
            && p.Some?
            && LeftOpen(order, Watch(Fresh(), frames).items)[k]
               == NeverCompleted(frames[p.value].step, id, Started(frames[p.value]).value.1)
  {
    hide Watch, LastStart, DeltaText, CompletedAfter;
    forall id ensures id in order <==> !Closed(frames, id) {
      OpenIff(frames, id);
    }
    StepIsOfStart(frames, order[k]);
    WatchTracks(frames, order[k]);
    assert order[k] in order;
  }
}
