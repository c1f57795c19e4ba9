/**
 Cutting a replay into turns (`build_turns_from_replay`, crates/acp-bridge/src/handlers.rs):
 every user chunk starts a turn, and each segment gets a translator of its own.

 `SegmentationPreservesItems` compares this with one translator over the whole replay: the
 two give the same items, up to numbering, exactly when no update reaches back into an
 earlier segment; otherwise the turns hold one extra item for each such reach.
 */
module Replay {
  import opened Common
  import opened Ids
  import opened AcpProtocol
  import opened ToolCalls
  import opened ItemViews
  import opened CallHistory
  import T = Translator
  import LiveBatch

  datatype TurnId = PrefaceId(n: nat) | NumberedId(n: nat)

  function TurnIdText(id: TurnId): string {
    match id
    case PrefaceId(n) => "turn-acp-pre-" + Decimal(n)
    case NumberedId(n) => "turn-acp-" + Decimal(n)
  }

  /** `StoredTurn`; the other fields are the same constants in every turn built here. */
  datatype Turn = Turn(id: TurnId, items: seq<Item>)

  /** A frame where a turn starts: the scan looks at the update only, not at the method. */
  predicate IsBoundary(f: Frame) {
    f.update.Some? && f.update.value.UserChunk?
  }

  function Boundaries(frames: seq<Frame>): (b: seq<nat>)
    ensures forall i :: 0 <= i < |b| ==> b[i] < |frames| && IsBoundary(frames[b[i]])
    ensures forall i, j :: 0 <= i < j < |b| ==> b[i] < b[j]
    ensures forall k :: 0 <= k < |frames| && IsBoundary(frames[k]) ==> k in b
  {
    if frames == [] then []
    else
      var n := |frames| - 1;
      Boundaries(frames[..n]) + if IsBoundary(frames[n]) then [n] else []
  }

  /** A turn, unless the segment gave no items. */
  function TurnOf(id: TurnId, segment: seq<Frame>): seq<Turn> {
    var items := T.Translate(segment);
    if items == [] then [] else [Turn(id, items)]
  }

  ghost predicate Cuts(frames: seq<Frame>, b: seq<nat>) {
    && b != []
    && (forall i :: 0 <= i < |b| ==> b[i] < |frames|)
    && (forall i, j :: 0 <= i < j < |b| ==> b[i] < b[j])
  }

  function Preface(frames: seq<Frame>, b: seq<nat>): seq<Turn>
    requires Cuts(frames, b)
  {
    if b[0] > 0 then TurnOf(PrefaceId(0), frames[..b[0]]) else []
  }

  /** The turns of the preface and of the segments between the first `k + 1` boundaries. */
  function Closed(frames: seq<Frame>, b: seq<nat>, k: nat): seq<Turn>
    requires Cuts(frames, b) && k < |b|
  {
    if k == 0 then Preface(frames, b)
    else Closed(frames, b, k - 1) + TurnOf(NumberedId(k - 1), frames[b[k - 1]..b[k]])
  }

  /** The turns of a replay. */
  function TurnsOf(frames: seq<Frame>): seq<Turn> {
    var b := Boundaries(frames);
    if b == [] then TurnOf(NumberedId(0), frames)
    else
      var closed := Closed(frames, b, |b| - 1);
      closed + TurnOf(NumberedId(|closed|), frames[b[|b| - 1]..])
  }

  method TranslateSegment(segment: seq<Frame>) returns (items: seq<Item>)
    ensures items == T.Translate(segment)
  {
    hide T.Ingest, T.FlushText, LastPos;
    var translator := new T.SessionUpdateTranslator();
    for i := 0 to |segment|
      invariant fresh(translator) && translator.Valid()
      invariant translator.Value() == T.Run(T.INITIAL, segment[..i])
    {
      T.RunStep(T.INITIAL, segment, i);
      translator.IngestFrame(segment[i]);
    }
    assert segment[..|segment|] == segment;
    var out := translator.Finish();
    items := out.items;
  }

  method UserBoundaries(frames: seq<Frame>) returns (b: seq<nat>)
    ensures b == Boundaries(frames)
  {
    b := [];
    for i := 0 to |frames|
      invariant b == Boundaries(frames[..i])
    {
      assert frames[..i + 1][..i] == frames[..i];
      if IsBoundary(frames[i]) {
        b := b + [i];
      }
    }
    assert frames[..|frames|] == frames;
  }

  /** Translate a segment and push its turn, unless it has no items. */
  method PushTurn(turns: seq<Turn>, id: TurnId, segment: seq<Frame>) returns (more: seq<Turn>)
    ensures more == turns + TurnOf(id, segment)
  {
    hide T.Translate;
    var items := TranslateSegment(segment);
    more := if items == [] then turns else turns + [Turn(id, items)];
  }

  /** `build_turns_from_replay` */
  method BuildTurnsFromReplay(frames: seq<Frame>) returns (turns: seq<Turn>)
    ensures turns == TurnsOf(frames)
  {
    hide TurnOf;
    var b := UserBoundaries(frames);
    if b == [] {
      turns := PushTurn([], NumberedId(0), frames);
      return;
    }
    turns := [];
    if b[0] > 0 {
      turns := PushTurn(turns, PrefaceId(|turns|), frames[..b[0]]);
    }
    for i := 0 to |b| - 1
      invariant turns == Closed(frames, b, i)
    {
      turns := PushTurn(turns, NumberedId(i), frames[b[i]..b[i + 1]]);
    }
    turns := PushTurn(turns, NumberedId(|turns|), frames[b[|b| - 1]..]);
  }

  function ItemsOf(turns: seq<Turn>): seq<Item> {
    if turns == [] then [] else ItemsOf(turns[..|turns| - 1]) + turns[|turns| - 1].items
  }

  lemma ItemsOfTurn(turns: seq<Turn>, id: TurnId, segment: seq<Frame>)
    ensures ItemsOf(turns + TurnOf(id, segment)) == ItemsOf(turns) + T.Translate(segment)
  {
    hide T.Translate;
    var items := T.Translate(segment);
    if items != [] {
      assert (turns + [Turn(id, items)])[..|turns|] == turns;
    } else {
      assert turns + [] == turns;
    }
  }

  /** The replay cut as it is read: the items of the finished segments, and the translator
      of the segment being read. */
  datatype Cut = Cut(done: seq<Item>, seg: T.State)

  function Close(g: Cut): Cut {
    Cut(g.done + T.FlushText(g.seg).items, T.INITIAL)
  }

  function CutRun(frames: seq<Frame>): Cut {
    if frames == [] then Cut([], T.INITIAL)
    else
      var g, f := CutRun(frames[..|frames| - 1]), frames[|frames| - 1];
      var h := if IsBoundary(f) then Close(g) else g;
      h.(seg := T.Ingest(h.seg, f))
  }

  /** Where the segment of the last frame starts. */
  function SegmentStart(frames: seq<Frame>): (n: nat)
    ensures n <= |frames| && (frames != [] ==> n < |frames|)
  {
    if frames == [] then 0
    else if IsBoundary(frames[|frames| - 1]) then |frames| - 1
    else SegmentStart(frames[..|frames| - 1])
  }

  lemma {:induction false} CutSegment(frames: seq<Frame>)
    ensures CutRun(frames).seg == T.Run(T.INITIAL, frames[SegmentStart(frames)..])
  {
    hide T.Ingest;
    if frames != [] {
      var n := |frames| - 1;
      var segment := frames[SegmentStart(frames)..];
      CutSegment(frames[..n]);
      assert segment[..|segment| - 1] == if IsBoundary(frames[n]) then [] else frames[..n][SegmentStart(frames[..n])..];
      assert segment[|segment| - 1] == frames[n];
    }
  }

  lemma {:induction false} ClosedOfPrefix(frames: seq<Frame>, more: seq<Frame>, b: seq<nat>, c: seq<nat>, k: nat)
    requires Cuts(frames, b) && k < |b| && Cuts(frames + more, b + c)
    ensures Closed(frames + more, b + c, k) == Closed(frames, b, k)
  {
    hide TurnOf;
    if k == 0 {
      assert (frames + more)[..b[0]] == frames[..b[0]];
    } else {
      ClosedOfPrefix(frames, more, b, c, k - 1);
      assert (frames + more)[b[k - 1]..b[k]] == frames[b[k - 1]..b[k]];
    }
  }

  /** The finished segments' items are those of the turns closed so far. */
  ghost predicate DoneSoFar(frames: seq<Frame>) {
    var b := Boundaries(frames);
    if b == [] then CutRun(frames).done == [] && SegmentStart(frames) == 0
    else CutRun(frames).done == ItemsOf(Closed(frames, b, |b| - 1)) && SegmentStart(frames) == b[|b| - 1]
  }

  lemma {:induction false} CutDone(frames: seq<Frame>)
    ensures DoneSoFar(frames)
  {
    hide DoneSoFar, CutRun, Boundaries;
    if frames == [] {
      NothingCut();
    } else {
      var front, last := frames[..|frames| - 1], frames[|frames| - 1];
      assert front + [last] == frames;
      CutDone(front);
      if IsBoundary(last) {
        CloseDone(front, last);
      } else {
        KeepDone(front, last);
      }
    }
  }

  lemma NothingCut()
    ensures DoneSoFar([])
  {
  }

  lemma CutStep(front: seq<Frame>, last: Frame)
    ensures CutRun(front + [last]).done
            == if IsBoundary(last) then CutRun(front).done + T.FlushText(CutRun(front).seg).items
               else CutRun(front).done
    ensures SegmentStart(front + [last]) == if IsBoundary(last) then |front| else SegmentStart(front)
    ensures Boundaries(front + [last]) == Boundaries(front) + if IsBoundary(last) then [|front|] else []
  {
    hide T.Ingest, T.FlushText;
    assert (front + [last])[..|front|] == front;
  }

  lemma KeepDone(front: seq<Frame>, last: Frame)
    requires !IsBoundary(last) && DoneSoFar(front)
    ensures DoneSoFar(front + [last])
  {
    hide CutRun, SegmentStart, Closed, ItemsOf, Boundaries;
    var frames, b := front + [last], Boundaries(front);
    CutStep(front, last);
    assert b + [] == b;
    if b != [] {
      ClosedOfPrefix(front, [last], b, [], |b| - 1);
    }
  }

  lemma CloseDone(front: seq<Frame>, last: Frame)
    requires IsBoundary(last) && DoneSoFar(front)
    ensures DoneSoFar(front + [last])
  {
    hide CutRun, T.INITIAL, T.Run, T.FlushText, T.Translate, ItemsOf, Boundaries, SegmentStart, Closed, IsBoundary;
    var b := Boundaries(front);
    CutStep(front, last);
    CutSegment(front);
    Translated(front[SegmentStart(front)..]);
    var items := T.Translate(front[SegmentStart(front)..]);
    assert CutRun(front + [last]).done == CutRun(front).done + items;
    if b == [] {
      assert front[0..] == front && [] + items == items;
      assert Boundaries(front + [last]) == [|front|];
      PrefaceItems(front, last);
    } else {
      CloseNext(front, last, b);
    }
  }

  lemma Translated(segment: seq<Frame>)
    ensures T.Translate(segment) == T.FlushText(T.Run(T.INITIAL, segment)).items
  {
  }

  /** The first boundary closes the preface. */
  lemma PrefaceItems(front: seq<Frame>, last: Frame)
    ensures Cuts(front + [last], [|front|])
    ensures ItemsOf(Closed(front + [last], [|front|], 0)) == T.Translate(front)
  {
    hide T.Translate, ItemsOf, TurnOf, Closed, Preface;
    ClosedFirst(front + [last], [|front|]);
    NoItems();
    if front == [] {
      TranslateNothing();
    } else {
      PrefaceTurn(front);
      assert (front + [last])[..|front|] == front;
    }
  }

  lemma ClosedFirst(frames: seq<Frame>, b: seq<nat>)
    requires Cuts(frames, b)
    ensures Closed(frames, b, 0) == if b[0] > 0 then TurnOf(PrefaceId(0), frames[..b[0]]) else []
  {
    hide TurnOf;
  }

  lemma PrefaceTurn(segment: seq<Frame>)
    ensures ItemsOf(TurnOf(PrefaceId(0), segment)) == T.Translate(segment)
  {
    hide T.Translate, ItemsOf, TurnOf;
    ItemsOfTurn([], PrefaceId(0), segment);
    NoItems();
    var turns, items := TurnOf(PrefaceId(0), segment), T.Translate(segment);
    assert [] + turns == turns && [] + items == items;
  }

  lemma CutsMore(front: seq<Frame>, last: Frame, b: seq<nat>)
    requires Cuts(front, b)
    ensures Cuts(front + [last], b + [|front|]) && b != [] && b[|b| - 1] < |front|
  {
  }

  lemma LastSegment(front: seq<Frame>, last: Frame, b: seq<nat>)
    requires b != [] && b[|b| - 1] < |front|
    ensures (b + [|front|])[|b| - 1] == b[|b| - 1] && (b + [|front|])[|b|] == |front|
    ensures (front + [last])[b[|b| - 1]..|front|] == front[b[|b| - 1]..]
  {
  }

  /** A later boundary closes the segment since the last one. */
  lemma CloseNext(front: seq<Frame>, last: Frame, b: seq<nat>)
    requires Cuts(front, b)
    ensures Cuts(front + [last], b + [|front|])
    ensures ItemsOf(Closed(front + [last], b + [|front|], |b|))
            == ItemsOf(Closed(front, b, |b| - 1)) + T.Translate(front[b[|b| - 1]..])
  {
    hide T.Translate, ItemsOf, TurnOf, Closed, Cuts;
    var frames, k := front + [last], |b| - 1;
    CutsMore(front, last, b);
    ClosedOfPrefix(front, [last], b, [|front|], k);
    ClosedLast(frames, b + [|front|], k);
    LastSegment(front, last, b);
    ItemsOfTurn(Closed(front, b, k), NumberedId(k), front[b[k]..]);
  }

  lemma ClosedLast(frames: seq<Frame>, b: seq<nat>, k: nat)
    requires Cuts(frames, b) && k + 1 < |b|
    ensures Closed(frames, b, k + 1) == Closed(frames, b, k) + TurnOf(NumberedId(k), frames[b[k]..b[k + 1]])
  {
    hide TurnOf, Preface;
  }

  lemma NoItems()
    ensures ItemsOf([]) == []
  {
  }

  lemma TranslateNothing()
    ensures T.Translate([]) == []
  {
  }

  /** The items of the turns, one turn after the other, are those of the cut. */
  lemma TurnsHoldCut(frames: seq<Frame>)
    ensures ItemsOf(TurnsOf(frames)) == Close(CutRun(frames)).done
  {
    hide T.Run, T.INITIAL, T.FlushText, T.Translate, TurnOf, ItemsOf, CutRun, SegmentStart, Boundaries, Closed;
    var b := Boundaries(frames);
    CutDone(frames);
    CutSegment(frames);
    NoItems();
    Translated(frames[SegmentStart(frames)..]);
    assert Close(CutRun(frames)).done == CutRun(frames).done + T.Translate(frames[SegmentStart(frames)..]);
    if b == [] {
      assert frames[0..] == frames;
      ItemsOfTurn([], NumberedId(0), frames);
      assert [] + TurnOf(NumberedId(0), frames) == TurnOf(NumberedId(0), frames);
    } else {
      var closed := Closed(frames, b, |b| - 1);
      ItemsOfTurn(closed, NumberedId(|closed|), frames[b[|b| - 1]..]);
    }
  }

  predicate Mentioned(frames: seq<Frame>, c: string) {
    exists f :: f in frames && EventOf(f, c) != NoEvent
  }

  lemma {:induction false} KnownIffMentioned(frames: seq<Frame>, c: string)
    requires c != ""
    ensures c in T.Run(T.INITIAL, frames).calls <==> Mentioned(frames, c)
  {
    hide T.Run, NextHistory;
    RunHolds(frames, c);
    HistoryIffMentioned(frames, c);
  }

  lemma {:induction false} HistoryIffMentioned(frames: seq<Frame>, c: string)
    ensures HistoryOf(frames, c).Some? <==> Mentioned(frames, c)
  {
    if frames != [] {
      var front, last := frames[..|frames| - 1], frames[|frames| - 1];
      HistoryIffMentioned(front, c);
      assert frames == front + [last];
    }
  }

  /** The call a frame updates, or "". */
  function UpdatedCall(f: Frame): string {
    if f.isSessionUpdate && f.update.Some? && f.update.value.ToolCallUpdate?
    then ValueOr(f.update.value.fields.callId, "") else ""
  }

  /** The last frame updates a call mentioned before, but not in the frame's own segment. */
  predicate ReachesBack(frames: seq<Frame>)
    requires frames != []
  {
    var n := |frames| - 1;
    var c := UpdatedCall(frames[n]);
    c != "" && Mentioned(frames[..n], c) && !Mentioned(frames[SegmentStart(frames)..n], c)
  }

  function Reaches(frames: seq<Frame>): nat {
    if frames == [] then 0
    else Reaches(frames[..|frames| - 1]) + if ReachesBack(frames) then 1 else 0
  }

  ghost predicate HasSlots(t: T.State) {
    forall c :: c in t.calls ==> LastPos(t.items, ToolId(c)) >= 0
  }

  /** One translator over the whole replay (`w`) beside the replay cut into turns (`g`), after
      `reaches` updates that reached back into an earlier segment. */
  ghost predicate Matches(w: T.State, g: Cut, reaches: nat) {
    && w.kind == g.seg.kind && w.buf == g.seg.buf && (w.kind.None? ==> w.buf == "")
    && |w.items| + reaches == |g.done| + |g.seg.items|
    && g.seg.calls.Keys <= w.calls.Keys
    && LiveBatch.Numbered(w) && LiveBatch.Numbered(g.seg) && ShapedIds(g.done)
    && HasSlots(w) && HasSlots(g.seg)
    && (reaches == 0 ==> w.items == View(true, g.done + g.seg.items) && SameCalls(w, g.seg))
  }

  ghost predicate SameCalls(w: T.State, seg: T.State) {
    forall c :: c in seg.calls && c in w.calls ==> w.calls[c] == seg.calls[c]
  }

  lemma SlotsAfterPush(t: T.State, item: Item)
    requires HasSlots(t)
    ensures forall c :: c in t.calls || ToolId(c) == item.id ==> LastPos(t.items + [item], ToolId(c)) >= 0
  {
    forall c ensures LastPos(t.items + [item], ToolId(c))
                     == if item.id == ToolId(c) then |t.items| else LastPos(t.items, ToolId(c)) {
      LastPosAppend(t.items, item, ToolId(c));
    }
  }

  function Bump(item: Item): nat {
    if IsText(item) || item.UserMessage? then 1 else 0
  }

  function Push(t: T.State, item: Item): T.State {
    T.PushItem(t, item).(counter := t.counter + Bump(item))
  }

  lemma PushKeeps(t: T.State, item: Item)
    requires LiveBatch.Numbered(t) && HasSlots(t) && (item.id.ToolId? <==> IsToolItem(item))
    ensures var u := Push(t, Renumbered(item, t.counter)); LiveBatch.Numbered(u) && HasSlots(u)
    ensures Bump(Renumbered(item, t.counter)) == Bump(item)
  {
    hide View, Count, LastPos;
    var own := Renumbered(item, t.counter);
    RenumberedKind(item, t.counter);
    RenumberedTwice(item, t.counter, t.counter);
    LiveBatch.PushNumbered(t, own);
    SlotsAfterPush(t, own);
  }

  /** Numbering the pushed item by the whole replay's counter continues the view. */
  lemma PushView(w: T.State, all: seq<Item>, item: Item, n: nat)
    requires w.items == View(true, all) && w.counter == Count(true, w.items)
    ensures w.items + [Renumbered(item, w.counter)] == View(true, all + [Renumbered(item, n)])
  {
    hide View, Count, Renumbered;
    RenumberedKind(item, n);
    RenumberedTwice(item, w.counter, n);
    ViewAppend(true, all, Renumbered(item, n));
    ViewSize(true, all);
  }

  /** Both push the same item, each under its own number. */
  lemma PushMatches(w: T.State, g: Cut, reaches: nat, item: Item)
    requires Matches(w, g, reaches) && (item.id.ToolId? <==> IsToolItem(item))
    ensures Matches(Push(w, Renumbered(item, w.counter)),
                    g.(seg := Push(g.seg, Renumbered(item, g.seg.counter))), reaches)
  {
    hide View, Count, LastPos, Renumbered, HasSlots, ShapedIds;
    PushKeeps(w, item);
    PushKeeps(g.seg, item);
    if reaches == 0 {
      var own := Renumbered(item, g.seg.counter);
      PushView(w, g.done + g.seg.items, item, g.seg.counter);
      assert g.done + (g.seg.items + [own]) == (g.done + g.seg.items) + [own];
    }
  }

  lemma RenumberedTwice(item: Item, m: nat, n: nat)
    ensures Renumbered(Renumbered(item, n), m) == Renumbered(item, m)
    ensures Renumbered(item, n).id.ToolId? <==> item.id.ToolId? && !IsText(item) && !item.UserMessage?
  {
  }

  lemma FlushMatches(w: T.State, g: Cut, reaches: nat)
    requires Matches(w, g, reaches)
    ensures Matches(T.FlushText(w), g.(seg := T.FlushText(g.seg)), reaches)
    ensures T.FlushText(w).kind.None?
  {
    hide View, Count, LastPos, ShapedIds;
    if w.kind.Some? {
      var closed, cut := w.(kind := None, buf := ""), g.(seg := g.seg.(kind := None, buf := ""));
      BufferMatches(w, g, reaches, None, "");
      if w.buf != "" {
        PushMatches(closed, cut, reaches, TextItem(w.kind.value, 0, w.buf));
      }
    }
  }

  /** A segment ends: its items join the finished ones. */
  lemma CloseMatches(w: T.State, g: Cut, reaches: nat)
    requires Matches(w, g, reaches)
    ensures Matches(T.FlushText(w), Close(g), reaches)
  {
    hide View, Count, LastPos, T.FlushText;
    FlushMatches(w, g, reaches);
    EmptyNumbered();
    var items := T.FlushText(g.seg).items;
    assert (g.done + items) + [] == g.done + items;
  }

  lemma EmptyNumbered()
    ensures LiveBatch.Numbered(T.INITIAL)
  {
  }

  lemma AnnounceKeeps(t: T.State, fields: ToolFields, now: int)
    requires LiveBatch.Numbered(t) && HasSlots(t)
    ensures LiveBatch.Numbered(T.HandleToolCall(t, fields, now)) && HasSlots(T.HandleToolCall(t, fields, now))
  {
    hide View, Count, LastPos, Render, ShapedIds;
    LiveBatch.UpdateNumbered(t, fields, now);
    SlotsAfterPush(t, Render(FromAnnounce(fields, now)));
  }

  lemma AnnounceMatches(w: T.State, g: Cut, reaches: nat, fields: ToolFields, now: int)
    requires Matches(w, g, reaches)
    ensures Matches(T.HandleToolCall(w, fields, now), g.(seg := T.HandleToolCall(g.seg, fields, now)), reaches)
  {
    hide View, Count, LastPos, Render, FromAnnounce;
    AnnounceKeeps(w, fields, now);
    AnnounceKeeps(g.seg, fields, now);
    hide HasSlots, ShapedIds;
    var item := Render(FromAnnounce(fields, now));
    RenumberedKind(item, w.counter);
    RenumberedKind(item, g.seg.counter);
    hide Renumbered;
    if reaches == 0 {
      PushView(w, g.done + g.seg.items, item, g.seg.counter);
      assert g.done + (g.seg.items + [item]) == (g.done + g.seg.items) + [item];
    }
  }

  lemma SlotsAfterReplace(t: T.State, c: string, item: Item)
    requires HasSlots(t) && c in t.calls && item.id == ToolId(c)
    ensures |ReplaceItem(t.items, ToolId(c), item)| == |t.items|
    ensures forall d :: d in t.calls ==> LastPos(ReplaceItem(t.items, ToolId(c), item), ToolId(d)) >= 0
  {
    forall d | d in t.calls ensures LastPos(ReplaceItem(t.items, ToolId(c), item), ToolId(d)) >= 0 {
      LastPosUpdate(t.items, LastPos(t.items, ToolId(c)), item, ToolId(d));
    }
  }

  /** Replacing in a suffix that has the id is replacing in the whole. */
  lemma LastPosInSuffix(done: seq<Item>, items: seq<Item>, id: ItemId)
    requires LastPos(items, id) >= 0
    ensures var q := |done| + LastPos(items, id);
            && (done + items)[q].id == id
            && (forall i :: q < i < |done + items| ==> (done + items)[i].id != id)
  {
  }

  lemma ReplaceInSuffix(done: seq<Item>, items: seq<Item>, id: ItemId, item: Item)
    requires LastPos(items, id) >= 0
    ensures ReplaceItem(done + items, id, item) == done + ReplaceItem(items, id, item)
  {
    hide LastPos;
    var all, q := done + items, LastPos(items, id);
    LastPosInSuffix(done, items, id);
    LastPosUnique(all, id, |done| + q);
    assert all[|done| + q := item] == done + items[q := item];
  }

  lemma MergeView(w: T.State, g: Cut, c: string, item: Item)
    requires w.items == View(true, g.done + g.seg.items) && ShapedIds(g.done) && ShapedIds(g.seg.items)
    requires IsToolItem(item) && item.id == ToolId(c) && LastPos(g.seg.items, ToolId(c)) >= 0
    ensures ReplaceItem(w.items, ToolId(c), item)
            == View(true, g.done + ReplaceItem(g.seg.items, ToolId(c), item))
  {
    hide View, Count, LastPos, ReplaceItem, ShapedIds;
    ShapedConcat(g.done, g.seg.items);
    ReplaceInView(true, g.done + g.seg.items, c, item);
    ReplaceInSuffix(g.done, g.seg.items, ToolId(c), item);
  }

  /** Both know the call. */
  lemma MergeMatches(w: T.State, g: Cut, reaches: nat, c: string, fields: ToolFields, now: int)
    requires Matches(w, g, reaches) && c in g.seg.calls
    ensures Matches(T.MergeInto(w, c, fields, now), g.(seg := T.MergeInto(g.seg, c, fields, now)), reaches)
  {
    hide View, Count, LastPos, Render, ReplaceItem, ShapedIds, MergeUpdate, HasSlots, LiveBatch.Numbered;
    MergeKeeps(w, c, fields, now);
    MergeKeeps(g.seg, c, fields, now);
    if reaches == 0 {
      MergeView(w, g, c, Render(MergeUpdate(g.seg.calls[c], fields, now)));
    }
  }

  lemma ShapedConcat(a: seq<Item>, b: seq<Item>)
    requires ShapedIds(a) && ShapedIds(b)
    ensures ShapedIds(a + b)
  {
  }

  lemma MergeKeeps(t: T.State, c: string, fields: ToolFields, now: int)
    requires LiveBatch.Numbered(t) && HasSlots(t) && c in t.calls
    ensures var u := T.MergeInto(t, c, fields, now);
            && LiveBatch.Numbered(u) && HasSlots(u) && |u.items| == |t.items|
            && u.items == ReplaceItem(t.items, ToolId(c), Render(MergeUpdate(t.calls[c], fields, now)))
            && MergeUpdate(t.calls[c], fields, now).itemId == ToolId(c)
    ensures LastPos(t.items, ToolId(c)) >= 0 && ShapedIds(t.items)
  {
    hide View, Count, LastPos, Render, ReplaceItem, ShapedIds;
    var item := Render(MergeUpdate(t.calls[c], fields, now));
    ReplaceInView(true, t.items, c, item);
    SlotsAfterReplace(t, c, item);
  }

  /** Only the whole-replay translator knows the call: it rewrites an old item where the
      segment gets a new one. */
  lemma ReachMatches(w: T.State, g: Cut, reaches: nat, c: string, fields: ToolFields, now: int)
    requires Matches(w, g, reaches) && c in w.calls && c !in g.seg.calls && fields.callId == Some(c) && c != ""
    ensures Matches(T.MergeInto(w, c, fields, now), g.(seg := T.HandleToolCallUpdate(g.seg, fields, now)), reaches + 1)
  {
    hide View, Count, LastPos, Render, ReplaceItem, ShapedIds;
    MergeKeeps(w, c, fields, now);
    LiveBatch.UpdateNumbered(g.seg, fields, now);
    SlotsAfterPush(g.seg, Render(FromAnnounce(fields, now)));
    MergeKeeps(T.HandleToolCall(g.seg, fields, now), c, fields, now);
  }

  lemma UpdateMatches(w: T.State, g: Cut, reaches: nat, fields: ToolFields, now: int)
    requires Matches(w, g, reaches)
    ensures var c := ValueOr(fields.callId, "");
            var back := c != "" && c in w.calls && c !in g.seg.calls;
            Matches(T.HandleToolCallUpdate(w, fields, now),
                    g.(seg := T.HandleToolCallUpdate(g.seg, fields, now)), reaches + if back then 1 else 0)
  {
    hide View, Count, LastPos, T.MergeInto, LiveBatch.Numbered, HasSlots, ShapedIds;
    var c := ValueOr(fields.callId, "");
    if c != "" {
      if c in g.seg.calls {
        MergeMatches(w, g, reaches, c, fields, now);
      } else if c in w.calls {
        ReachMatches(w, g, reaches, c, fields, now);
      } else {
        AnnounceMatches(w, g, reaches, fields, now);
        MergeMatches(T.HandleToolCall(w, fields, now), g.(seg := T.HandleToolCall(g.seg, fields, now)), reaches, c,
                fields, now);
      }
    }
  }

  lemma UserMatches(w: T.State, g: Cut, reaches: nat, content: Option<ContentBlock>)
    requires Matches(w, g, reaches)
    ensures Matches(T.HandleUser(w, content), Close(g).(seg := T.HandleUser(T.INITIAL, content)), reaches)
  {
    hide View, Count, LastPos, ShapedIds, HasSlots, T.UserText, LiveBatch.Numbered;
    CloseMatches(w, g, reaches);
    PushMatches(T.FlushText(w), Close(g), reaches, UserMessage(UserId(0), T.UserText(content)));
  }

  /** The text being collected plays no part in what was already pushed. */
  lemma BufferMatches(w: T.State, g: Cut, reaches: nat, kind: Option<TextKind>, buf: string)
    requires Matches(w, g, reaches) && (kind.None? ==> buf == "")
    ensures Matches(w.(kind := kind, buf := buf), g.(seg := g.seg.(kind := kind, buf := buf)), reaches)
  {
    hide View, Count, LastPos, ShapedIds;
  }

  lemma TextMatches(w: T.State, g: Cut, reaches: nat, kind: TextKind, content: Option<ContentBlock>)
    requires Matches(w, g, reaches)
    ensures Matches(T.AppendText(w, kind, content), g.(seg := T.AppendText(g.seg, kind, content)), reaches)
  {
    hide T.Classify, T.FlushText, Matches;
    FlushMatches(w, g, reaches);
    SameBuffer(w, g, reaches);
    var w', g' := T.FlushText(w), g.(seg := T.FlushText(g.seg));
    SameBuffer(w', g', reaches);
    ClassifyItem(content);
    match T.Classify(content)
    case Nothing =>
    case Text(text) =>
      if w.kind == Some(kind) {
        BufferMatches(w, g, reaches, Some(kind), w.buf + text);
      } else {
        BufferMatches(w', g', reaches, Some(kind), w'.buf + text);
      }
    case Standalone(item) => PushMatches(w', g', reaches, item);
  }

  lemma ClassifyItem(content: Option<ContentBlock>)
    ensures T.Classify(content).Standalone? ==>
              T.Classify(content).item.ImageView? && T.Classify(content).item.id.ImageId?
  {
  }

  lemma SameBuffer(w: T.State, g: Cut, reaches: nat)
    requires Matches(w, g, reaches)
    ensures w.kind == g.seg.kind && w.buf == g.seg.buf
  {
  }

  function CutStepOf(g: Cut, f: Frame): Cut {
    var h := if IsBoundary(f) then Close(g) else g;
    h.(seg := T.Ingest(h.seg, f))
  }

  lemma StepMatches(w: T.State, g: Cut, reaches: nat, f: Frame)
    requires Matches(w, g, reaches) && (IsBoundary(f) ==> f.isSessionUpdate)
    ensures var c := UpdatedCall(f);
            var back := c != "" && c in w.calls && c !in g.seg.calls;
            Matches(T.Ingest(w, f), CutStepOf(g, f), reaches + if back then 1 else 0)
  {
    hide View, Count, LastPos, ShapedIds, HasSlots, LiveBatch.Numbered, SameCalls, T.FlushText, T.HandleToolCall,
         T.HandleToolCallUpdate, T.HandleUser, T.AppendText, Matches;
    if f.isSessionUpdate && f.update.Some? {
      FlushMatches(w, g, reaches);
      FlushCalls(w);
      FlushCalls(g.seg);
      var w', g' := T.FlushText(w), g.(seg := T.FlushText(g.seg));
      match f.update.value
      case UserChunk(content) => UserMatches(w, g, reaches, content);
      case TextChunk(kind, content) => TextMatches(w, g, reaches, kind, content);
      case ToolCall(fields) => AnnounceMatches(w', g', reaches, fields, f.now);
      case ToolCallUpdate(fields) => UpdateMatches(w', g', reaches, fields, f.now);
      case Plan(entries) => SnapshotMatches(w', g', reaches, entries, None);
      case Commands(commands) => SnapshotMatches(w, g, reaches, None, commands);
      case _ =>
    }
  }

  lemma FlushCalls(t: T.State)
    ensures T.FlushText(t).calls == t.calls
  {
  }

  /** Plan and command snapshots play no part. */
  lemma SnapshotMatches(w: T.State, g: Cut, reaches: nat, plan: Option<seq<Payload>>, commands: Option<seq<Payload>>)
    requires Matches(w, g, reaches)
    ensures Matches(w.(plan := plan), g.(seg := g.seg.(plan := plan)), reaches)
    ensures Matches(w.(commands := commands), g.(seg := g.seg.(commands := commands)), reaches)
  {
    hide View, Count, LastPos, ShapedIds;
  }

  /** The replay holds `session/update` frames wherever a turn starts. */
  ghost predicate OnlySessionBoundaries(frames: seq<Frame>) {
    forall f :: f in frames && IsBoundary(f) ==> f.isSessionUpdate
  }

  lemma {:induction false} RunMatches(frames: seq<Frame>)
    requires OnlySessionBoundaries(frames)
    ensures Matches(T.Run(T.INITIAL, frames), CutRun(frames), Reaches(frames))
  {
    hide T.Ingest, Matches, Mentioned, Close;
    if frames == [] {
      NothingMatches();
    } else {
      var n := |frames| - 1;
      var front, f := frames[..n], frames[n];
      assert f in frames;
      RunMatches(front);
      StepMatches(T.Run(T.INITIAL, front), CutRun(front), Reaches(front), f);
      var c := UpdatedCall(f);
      if c != "" {
        KnownIffMentioned(front, c);
        CutSegment(front);
        KnownIffMentioned(front[SegmentStart(front)..], c);
        assert frames[SegmentStart(frames)..n] == front[SegmentStart(front)..];
      }
    }
  }

  lemma NothingMatches()
    ensures Matches(T.Run(T.INITIAL, []), CutRun([]), Reaches([]))
  {
  }

  /** Main theorem: the items of the turns, numbered over the whole replay, are the items one
      translator makes of it, if and only if no update reaches back into an earlier segment;
      each reach adds exactly one item. */
  lemma SegmentationPreservesItems(frames: seq<Frame>)
    requires OnlySessionBoundaries(frames)
    ensures |ItemsOf(TurnsOf(frames))| == |T.Translate(frames)| + Reaches(frames)
    ensures T.Translate(frames) == View(true, ItemsOf(TurnsOf(frames))) <==> Reaches(frames) == 0
  {
    hide View, Count, LiveBatch.Numbered, HasSlots, ShapedIds, T.FlushText, T.Run, CutRun, ItemsOf, TurnsOf;
    RunMatches(frames);
    CloseMatches(T.Run(T.INITIAL, frames), CutRun(frames), Reaches(frames));
    TurnsHoldCut(frames);
    var all := ItemsOf(TurnsOf(frames));
    assert all + [] == all;
    ViewSize(true, all);
  }

  /** A call announced, a message of the user, and an update of the call: the turns have one item more. */
  lemma LateUpdateAddsItem(announce: ToolFields, x: string, update: ToolFields)
    requires announce.callId.Some? && announce.callId.value != "" && update.callId == announce.callId
    ensures var frames := [CallFrame(announce), UserFrame(x), UpdateFrame(update)];
            && Reaches(frames) == 1
            && |ItemsOf(TurnsOf(frames))| == |T.Translate(frames)| + 1
            && T.Translate(frames) != View(true, ItemsOf(TurnsOf(frames)))
  {
    var f, g, h := CallFrame(announce), UserFrame(x), UpdateFrame(update);
    var frames, c := [f, g, h], update.callId.value;
    assert [f][..0] == [] && [f, g][..1] == [f] && frames[..2] == [f, g];
    assert frames[1..2] == [g] && SegmentStart([f, g]) == 1 && SegmentStart(frames) == 1;
    assert EventOf(f, c) != NoEvent && EventOf(g, c) == NoEvent;
    assert f in frames[..2] && Mentioned(frames[..2], c) && !Mentioned(frames[1..2], c);
    hide Mentioned, T.Translate, TurnsOf, ItemsOf, View, Count;
    assert UpdatedCall(f) == "" && UpdatedCall(g) == "" && UpdatedCall(h) == c;
    assert !ReachesBack([f]) && !ReachesBack([f, g]) && ReachesBack(frames);
    assert Reaches([]) == 0 && Reaches([f]) == 0 && Reaches([f, g]) == 0;
    SegmentationPreservesItems(frames);
  }

  function CallFrame(fields: ToolFields): Frame {
    Frame(true, Some(ToolCall(fields)), 0)
  }

  function UserFrame(text: string): Frame {
    Frame(true, Some(UserChunk(Some(Bare(text)))), 0)
  }

  function UpdateFrame(fields: ToolFields): Frame {
    Frame(true, Some(ToolCallUpdate(fields)), 0)
  }

  /** Different turn ids have different texts. */
  lemma TurnIdTextInjective(a: TurnId, b: TurnId)
    requires TurnIdText(a) == TurnIdText(b)
    ensures a == b
  {
    var text := TurnIdText(a);
    if a.PrefaceId? != b.PrefaceId? {
      var n := if a.PrefaceId? then b.n else a.n;
      assert text[9] == 'p' && text[9] == Decimal(n)[0];
      DecimalDigit(n);
    } else {
      var start := if a.PrefaceId? then 13 else 9;
      assert text[start..] == Decimal(a.n) && text[start..] == Decimal(b.n);
      DecimalInjective(a.n, b.n);
    }
  }

  lemma {:induction false} DecimalDigit(n: nat)
    ensures '0' <= Decimal(n)[0] <= '9'
  {
    if n >= 10 {
      DecimalDigit(n / 10);
    }
  }

  ghost predicate DistinctIds(turns: seq<Turn>) {
    forall i, j :: 0 <= i < j < |turns| ==> turns[i].id != turns[j].id
  }

  function MiddleItems(frames: seq<Frame>, b: seq<nat>, k: nat): seq<Item>
    requires Cuts(frames, b) && k + 1 < |b|
  {
    T.Translate(frames[b[k]..b[k + 1]])
  }

  predicate IdTaken(turns: seq<Turn>, id: TurnId) {
    exists t :: t in turns && t.id == id
  }

  /** One more turn keeps ids distinct exactly when its id is free. */
  lemma AddTurn(turns: seq<Turn>, last: Turn)
    ensures DistinctIds(turns + [last]) <==> DistinctIds(turns) && !IdTaken(turns, last.id)
    ensures forall id :: IdTaken(turns + [last], id) <==> IdTaken(turns, id) || id == last.id
  {
    var all := turns + [last];
    assert forall t :: t in all <==> t in turns || t == last;
    if DistinctIds(all) {
      assert forall i :: 0 <= i < |turns| ==> turns[i] == all[i] && all[i].id != all[|turns|].id;
    }
  }

  /** The closed turns have distinct ids, and the n-th middle segment's id is among them
      exactly if that segment has items. */
  lemma {:induction false} ClosedIds(frames: seq<Frame>, b: seq<nat>, k: nat)
    requires Cuts(frames, b) && k < |b|
    ensures DistinctIds(Closed(frames, b, k))
    ensures forall n: nat :: n >= k ==> !IdTaken(Closed(frames, b, k), NumberedId(n))
    ensures forall n: nat :: n < k ==>
              (IdTaken(Closed(frames, b, k), NumberedId(n)) <==> MiddleItems(frames, b, n) != [])
  {
    hide *;
    if k == 0 {
      PrefaceIds(frames, b);
    } else {
      ClosedMore(frames, b, k - 1);
      ClosedIds(frames, b, k - 1);
      IdsMore(Closed(frames, b, k - 1), MiddleItems(frames, b, k - 1), k - 1);
    }
  }

  /** One segment more: its number is taken exactly if it has items. */
  lemma IdsMore(before: seq<Turn>, items: seq<Item>, k: nat)
    requires DistinctIds(before) && forall n: nat :: n >= k ==> !IdTaken(before, NumberedId(n))
    ensures var all := before + if items == [] then [] else [Turn(NumberedId(k), items)];
            && DistinctIds(all)
            && (forall n: nat :: n > k ==> !IdTaken(all, NumberedId(n)))
            && (forall n: nat :: n < k ==> (IdTaken(all, NumberedId(n)) <==> IdTaken(before, NumberedId(n))))
            && (IdTaken(all, NumberedId(k)) <==> items != [])
  {
    hide IdTaken, DistinctIds;
    AddTurn(before, Turn(NumberedId(k), items));
    assert before + [] == before;
  }

  lemma PrefaceIds(frames: seq<Frame>, b: seq<nat>)
    requires Cuts(frames, b)
    ensures DistinctIds(Closed(frames, b, 0)) && forall n: nat :: !IdTaken(Closed(frames, b, 0), NumberedId(n))
  {
    hide T.Translate;
    ClosedFirst(frames, b);
  }

  lemma ClosedMore(frames: seq<Frame>, b: seq<nat>, k: nat)
    requires Cuts(frames, b) && k + 1 < |b|
    ensures Closed(frames, b, k + 1) == Closed(frames, b, k)
              + if MiddleItems(frames, b, k) == [] then [] else [Turn(NumberedId(k), MiddleItems(frames, b, k))]
  {
    hide T.Translate, Closed;
    ClosedLast(frames, b, k);
  }

  /** The frame makes an item by itself or makes one possible: text, an image, or a call with an id. */
  predicate YieldsItem(f: Frame) {
    f.isSessionUpdate && f.update.Some? &&
    match f.update.value
    case UserChunk(content) => T.UserText(content) != ""
    case TextChunk(_, content) => T.Classify(content) != T.Nothing && T.Classify(content) != T.Text("")
    case ToolCall(fields) => ValueOr(fields.callId, "") != ""
    case ToolCallUpdate(fields) => ValueOr(fields.callId, "") != ""
    case _ => false
  }

  predicate Yields(segment: seq<Frame>) {
    exists i :: 0 <= i < |segment| && YieldsItem(segment[i])
  }

  /** The translator has an item, or text that will be one. */
  predicate Holding(t: T.State) {
    t.items != [] || (t.kind.Some? && t.buf != "")
  }

  lemma CallsHold(t: T.State, fields: ToolFields, now: int)
    ensures ValueOr(fields.callId, "") == "" ==>
              T.HandleToolCall(t, fields, now) == t && T.HandleToolCallUpdate(t, fields, now) == t
    ensures ValueOr(fields.callId, "") != "" ==>
              T.HandleToolCall(t, fields, now).items != [] && T.HandleToolCallUpdate(t, fields, now).items != []
  {
    hide Render, MergeUpdate, FromAnnounce, LastPos;
  }

  lemma IngestHolding(t: T.State, f: Frame)
    requires t.kind.None? ==> t.buf == ""
    ensures var u := T.Ingest(t, f); (u.kind.None? ==> u.buf == "") && (Holding(u) <==> Holding(t) || YieldsItem(f))
  {
    hide T.Classify, T.UserText, T.HandleToolCall, T.HandleToolCallUpdate;
    if f.update.Some? && (f.update.value.ToolCall? || f.update.value.ToolCallUpdate?) {
      CallsHold(T.FlushText(t), f.update.value.fields, f.now);
      CallKeepsRun(T.FlushText(t), f.update.value.fields, f.now);
    } else if f.update.Some? && f.update.value.TextChunk? {
      var content := f.update.value.content;
      assert T.Classify(content).Text? ==> |t.buf + T.Classify(content).text| == |t.buf| + |T.Classify(content).text|;
    }
  }

  lemma CallKeepsRun(t: T.State, fields: ToolFields, now: int)
    ensures T.HandleToolCall(t, fields, now).kind == t.kind && T.HandleToolCall(t, fields, now).buf == t.buf
    ensures T.HandleToolCallUpdate(t, fields, now).kind == t.kind && T.HandleToolCallUpdate(t, fields, now).buf == t.buf
  {
    hide Render, MergeUpdate, FromAnnounce, LastPos;
  }

  lemma {:induction false} RunHolding(segment: seq<Frame>)
    ensures var t := T.Run(T.INITIAL, segment); (t.kind.None? ==> t.buf == "") && (Holding(t) <==> Yields(segment))
  {
    if segment != [] {
      var front, last := segment[..|segment| - 1], segment[|segment| - 1];
      RunHolding(front);
      IngestHolding(T.Run(T.INITIAL, front), last);
      hide T.Ingest, YieldsItem, Holding;
      YieldsLast(segment);
    }
  }

  lemma YieldsLast(segment: seq<Frame>)
    requires segment != []
    ensures Yields(segment) <==> Yields(segment[..|segment| - 1]) || YieldsItem(segment[|segment| - 1])
  {
    hide YieldsItem;
    var front := segment[..|segment| - 1];
    if Yields(front) {
      var i :| 0 <= i < |front| && YieldsItem(front[i]);
      assert YieldsItem(segment[i]);
    }
    if Yields(segment) {
      var i :| 0 <= i < |segment| && YieldsItem(segment[i]);
      assert i < |front| ==> YieldsItem(front[i]);
    }
  }

  /** A segment has items exactly if one of its frames yields one. */
  lemma HasItemsIff(segment: seq<Frame>)
    ensures T.Translate(segment) != [] <==> Yields(segment)
  {
    hide T.Run, Yields;
    RunHolding(segment);
  }

  /** How many segments before the boundary `k`, the preface included, have a frame that yields an item. */
  function Filled(frames: seq<Frame>, b: seq<nat>, k: nat): nat
    requires Cuts(frames, b) && k < |b|
  {
    if k == 0 then if b[0] > 0 && Yields(frames[..b[0]]) then 1 else 0
    else Filled(frames, b, k - 1) + if Yields(frames[b[k - 1]..b[k]]) then 1 else 0
  }

  lemma {:induction false} ClosedAreFilled(frames: seq<Frame>, b: seq<nat>, k: nat)
    requires Cuts(frames, b) && k < |b|
    ensures |Closed(frames, b, k)| == Filled(frames, b, k)
  {
    hide T.Translate, Yields;
    if k == 0 {
      HasItemsIff(frames[..b[0]]);
    } else {
      ClosedAreFilled(frames, b, k - 1);
      HasItemsIff(frames[b[k - 1]..b[k]]);
    }
  }

  /** The last turn is numbered by how many segments before it are filled; that number is taken if
      the middle segment of that number is filled, which takes an unfilled one before it. */
  predicate LastIdTaken(frames: seq<Frame>) {
    var b := Boundaries(frames);
    b != []
    && Yields(frames[b[|b| - 1]..])
    && var n := Filled(frames, b, |b| - 1);
       n + 1 < |b| && Yields(frames[b[n]..b[n + 1]])
  }

  lemma LastIdAmongClosed(frames: seq<Frame>, b: seq<nat>, n: nat)
    requires Cuts(frames, b) && n == |Closed(frames, b, |b| - 1)|
    ensures IdTaken(Closed(frames, b, |b| - 1), NumberedId(n))
            <==> n + 1 < |b| && MiddleItems(frames, b, n) != []
    ensures DistinctIds(Closed(frames, b, |b| - 1))
  {
    hide T.Translate, Closed, MiddleItems, IdTaken;
    ClosedIds(frames, b, |b| - 1);
  }

  /** Turn ids are pairwise distinct exactly when the last turn's id is free. */
  lemma TurnIdsDistinct(frames: seq<Frame>)
    ensures DistinctIds(TurnsOf(frames)) <==> !LastIdTaken(frames)
  {
    hide T.Translate, Closed, Boundaries, DistinctIds, IdTaken, Yields, Filled;
    var b := Boundaries(frames);
    if b == [] {
      FewDistinct(TurnsOf(frames));
    } else {
      var closed := Closed(frames, b, |b| - 1);
      ClosedAreFilled(frames, b, |b| - 1);
      LastIdAmongClosed(frames, b, |closed|);
      HasItemsIff(frames[b[|b| - 1]..]);
      if |closed| + 1 < |b| {
        HasItemsIff(frames[b[|closed|]..b[|closed| + 1]]);
      }
      var items := T.Translate(frames[b[|b| - 1]..]);
      if items == [] {
        assert TurnsOf(frames) == closed;
      } else {
        AddTurn(closed, Turn(NumberedId(|closed|), items));
      }
    }
  }

  lemma ThreeBoundaries(f: Frame, g: Frame, h: Frame)
    requires IsBoundary(f) && IsBoundary(g) && IsBoundary(h)
    ensures Boundaries([f, g, h]) == [0, 1, 2]
  {
    hide IsBoundary;
    assert [f][..0] == [] && [f, g][..1] == [f] && [f, g, h][..2] == [f, g];
    assert Boundaries([f]) == [] + [0];
    assert Boundaries([f, g]) == [0] + [1];
    assert Boundaries([f, g, h]) == [0] + [1] + [2];
  }

  /** An empty user chunk before two with text: the second and the third segment get the same id. */
  lemma SkippedSegmentRepeatsId(x: string, y: string)
    requires x != "" && y != ""
    ensures LastIdTaken([UserFrame(""), UserFrame(x), UserFrame(y)])
    ensures !DistinctIds(TurnsOf([UserFrame(""), UserFrame(x), UserFrame(y)]))
  {
    var frames := [UserFrame(""), UserFrame(x), UserFrame(y)];
    ThreeBoundaries(frames[0], frames[1], frames[2]);
    var b := [0, 1, 2];
    assert !YieldsItem(frames[0]) && YieldsItem(frames[1]) && YieldsItem(frames[2]);
    hide YieldsItem, Boundaries;
    assert frames[0..1] == [frames[0]] && frames[1..2] == [frames[1]] && frames[2..] == [frames[2]];
    assert !Yields([frames[0]]);
    assert [frames[1]][0] == frames[1] && [frames[2]][0] == frames[2];
    assert Yields([frames[1]]) && Yields([frames[2]]);
    assert Filled(frames, b, 0) == 0;
    assert Filled(frames, b, 1) == 0;
    assert Filled(frames, b, 2) == 1;
    assert LastIdTaken(frames);
    hide LastIdTaken;
    TurnIdsDistinct(frames);
  }

  lemma FewDistinct(turns: seq<Turn>)
    requires |turns| <= 1
    ensures DistinctIds(turns)
  {
  }

  lemma UpdateGrows(t: T.State, fields: ToolFields, now: int)
    ensures |T.HandleToolCall(t, fields, now).items| >= |t.items|
    ensures |T.HandleToolCallUpdate(t, fields, now).items| >= |t.items|
  {
    hide Render, MergeUpdate, FromAnnounce, LastPos;
  }

  lemma IngestGrows(t: T.State, f: Frame)
    ensures |T.Ingest(t, f).items| >= |t.items|
  {
    hide T.Classify, T.UserText, T.HandleToolCall, T.HandleToolCallUpdate;
    if f.update.Some? && (f.update.value.ToolCall? || f.update.value.ToolCallUpdate?) {
      UpdateGrows(T.FlushText(t), f.update.value.fields, f.now);
    }
  }

  lemma {:induction false} RunGrows(segment: seq<Frame>)
    requires segment != [] && LiveBatch.CarriesUserText(segment[0])
    ensures T.Run(T.INITIAL, segment).items != []
  {
    hide T.Ingest, T.UserText;
    var n := |segment| - 1;
    if n == 0 {
      assert segment == [segment[0]] && segment[..0] == [];
      FirstUserItem(segment[0]);
    } else {
      RunGrows(segment[..n]);
      IngestGrows(T.Run(T.INITIAL, segment[..n]), segment[n]);
    }
  }

  lemma FirstUserItem(f: Frame)
    requires LiveBatch.CarriesUserText(f)
    ensures T.Ingest(T.Run(T.INITIAL, []), f).items != []
  {
    hide T.UserText;
  }

  lemma SegmentHasItems(segment: seq<Frame>)
    requires segment != [] && LiveBatch.CarriesUserText(segment[0])
    ensures T.Translate(segment) != []
  {
    hide T.Run, T.UserText;
    RunGrows(segment);
  }

  lemma {:induction false} ClosedCount(frames: seq<Frame>, b: seq<nat>, k: nat)
    requires Cuts(frames, b) && k < |b|
    requires forall i :: 0 <= i < |b| ==> LiveBatch.CarriesUserText(frames[b[i]])
    ensures |Closed(frames, b, k)| >= k
  {
    hide T.Translate, LiveBatch.CarriesUserText;
    if k > 0 {
      ClosedCount(frames, b, k - 1);
      SegmentHasItems(frames[b[k - 1]..b[k]]);
    }
  }

  /** When every user chunk carries text, turn ids are pairwise distinct. */
  lemma TurnIdsDistinctWithTexts(frames: seq<Frame>)
    requires forall f :: f in frames && IsBoundary(f) ==> LiveBatch.CarriesUserText(f)
    ensures DistinctIds(TurnsOf(frames))
  {
    hide T.Translate, LiveBatch.CarriesUserText, Closed, Filled, Yields;
    TurnIdsDistinct(frames);
    var b := Boundaries(frames);
    if b != [] {
      ClosedCount(frames, b, |b| - 1);
      ClosedAreFilled(frames, b, |b| - 1);
    }
  }
}
