/**
 The in-memory copy of the turns of an amp connection (crates/amp-bridge/src/state.rs):
 `ConnectionState` records turns and items per thread and plays them back as codex turns.
 */
module AmpLog {
  import opened Common
  import opened AmpTranslator

  datatype TurnStatus = InProgress | Succeeded | Failed | Interrupted

  datatype RecordedTurn = RecordedTurn(turnId: string, startedAt: int, completedAt: Option<int>,
                                       status: TurnStatus, error: Option<string>, items: seq<Item>)

  /** The codex turn as clients see it and as the transcript file holds it. */
  datatype Turn = Turn(id: string, items: seq<Item>, status: TurnStatus, error: Option<string>,
                       startedAt: Option<int>, completedAt: Option<int>, durationMs: Option<int>)

  /** Logs of turns: by thread within one connection, and by connection and thread over all of them. */
  type Logs<K> = map<K, seq<RecordedTurn>>

  function Max(a: int, b: int): int {
    if a < b then b else a
  }

  function LogOf<K>(logs: Logs<K>, key: K): seq<RecordedTurn> {
    if key in logs then logs[key] else []
  }

  /** Position of the last turn with this id, or -1. */
  function TurnPos(list: seq<RecordedTurn>, id: string): (p: int)
    ensures -1 <= p < |list|
    ensures p >= 0 ==> list[p].turnId == id
    ensures forall i :: p < i < |list| ==> list[i].turnId != id
  {
    if list == [] then -1
    else if list[|list| - 1].turnId == id then |list| - 1
    else TurnPos(list[..|list| - 1], id)
  }

  /** Position of the first item with this id, or the length. */
  function ItemPos(items: seq<Item>, id: string): (p: nat)
    ensures p <= |items|
    ensures p < |items| ==> items[p].id == id
    ensures forall i :: 0 <= i < p ==> items[i].id != id
  {
    if items == [] || items[0].id == id then 0 else 1 + ItemPos(items[1..], id)
  }

  /** An item replaces the one with its id, or is appended. */
  function Upsert(items: seq<Item>, item: Item): seq<Item> {
    var p := ItemPos(items, item.id);
    if p < |items| then items[p := item] else items + [item]
  }

  function StartTurn<K>(logs: Logs<K>, key: K, id: string, at: int): Logs<K> {
    logs[key := LogOf(logs, key) + [RecordedTurn(id, at, None, InProgress, None, [])]]
  }

  function AddItem<K>(logs: Logs<K>, key: K, id: string, item: Item): Logs<K> {
    var p := TurnPos(LogOf(logs, key), id);
    if p < 0 then logs
    else logs[key := logs[key][p := logs[key][p].(items := Upsert(logs[key][p].items, item))]]
  }

  function CompleteTurn<K>(logs: Logs<K>, key: K, id: string, at: int, status: TurnStatus,
                        error: Option<string>): Logs<K> {
    var p := TurnPos(LogOf(logs, key), id);
    if p < 0 then logs
    else logs[key := logs[key][p := logs[key][p].(completedAt := Some(at), status := status, error := error)]]
  }

  function PlayBack(t: RecordedTurn): Turn {
    Turn(t.turnId, t.items, t.status, t.error, Some(t.startedAt), t.completedAt,
         if t.completedAt.Some? then Some(Max((t.completedAt.value - t.startedAt) * 1000, 0)) else None)
  }

  /** `thread_log` */
  function ThreadLog<K>(logs: Logs<K>, key: K): seq<Turn> {
    var list := LogOf(logs, key);
    seq(|list|, i requires 0 <= i < |list| => PlayBack(list[i]))
  }

  /** Recording a run of items one by one. */
  function RecordAll(items: seq<Item>): seq<Item> {
    if items == [] then [] else Upsert(RecordAll(items[..|items| - 1]), items[|items| - 1])
  }

  ghost predicate DistinctItemIds(items: seq<Item>) {
    forall i, j :: 0 <= i < j < |items| ==> items[i].id != items[j].id
  }

  lemma DistinctFront(items: seq<Item>, item: Item)
    ensures DistinctItemIds(items + [item])
            <==> DistinctItemIds(items) && forall i :: 0 <= i < |items| ==> items[i].id != item.id
  {
    var all := items + [item];
    if DistinctItemIds(all) {
      assert forall i :: 0 <= i < |items| ==> all[i] == items[i] && all[i].id != all[|items|].id;
    }
  }

  lemma UpsertDistinct(items: seq<Item>, item: Item)
    requires DistinctItemIds(items)
    ensures DistinctItemIds(Upsert(items, item))
    ensures |Upsert(items, item)| <= |items| + 1
    ensures Upsert(items, item) == items + [item] <==> forall i :: 0 <= i < |items| ==> items[i].id != item.id
  {
    var p := ItemPos(items, item.id);
    if p == |items| {
      DistinctFront(items, item);
    }
  }

  /** Recorded items always have distinct ids, so recording a run of items gives back the run
      if and only if the run's ids are distinct. */
  lemma {:induction false} RecordAllIdentity(items: seq<Item>)
    ensures DistinctItemIds(RecordAll(items)) && |RecordAll(items)| <= |items|
    ensures RecordAll(items) == items <==> DistinctItemIds(items)
  {
    if items != [] {
      var front, last := items[..|items| - 1], items[|items| - 1];
      assert front + [last] == items;
      RecordAllIdentity(front);
      UpsertDistinct(RecordAll(front), last);
      DistinctFront(front, last);
      if DistinctItemIds(items) {
        assert RecordAll(items) == items;
      }
    }
  }

  /** An item takes the place of the first with its id and of no other, or goes to the end. */
  lemma UpsertPlaces(items: seq<Item>, item: Item, p: nat)
    requires p <= |items| && forall i :: 0 <= i < p ==> items[i].id != item.id
    requires p < |items| ==> items[p].id == item.id
    ensures Upsert(items, item) == items[..p] + [item] + (if p < |items| then items[p + 1..] else [])
  {
    hide ItemPos;
    assert ItemPos(items, item.id) == p;
    if p == |items| {
      assert items[..p] == items && items + [item] + [] == items + [item];
    }
  }

  /** Of items recorded one by one, each id keeps the last item with it. */
  lemma {:induction false} RecordAllKeepsLast(items: seq<Item>, item: Item)
    ensures item in RecordAll(items) <==>
            exists i :: 0 <= i < |items| && items[i] == item && forall j :: i < j < |items| ==> items[j].id != item.id
  {
    if items != [] {
      var front, last := items[..|items| - 1], items[|items| - 1];
      assert front + [last] == items;
      RecordAllKeepsLast(front, item);
      RecordAllIdentity(front);
      hide RecordAll;
      InUpsert(RecordAll(front), last, item);
      assert items[|front|] == last && forall i :: 0 <= i < |front| ==> items[i] == front[i];
      if item.id != last.id && item in RecordAll(front) {
        var i :| 0 <= i < |front| && front[i] == item && forall j :: i < j < |front| ==> front[j].id != item.id;
        assert items[i] == item;
      }
    }
  }

  lemma InUpsert(items: seq<Item>, last: Item, item: Item)
    requires DistinctItemIds(items)
    ensures item in Upsert(items, last) <==> item == last || (item in items && item.id != last.id)
  {
    hide ItemPos;
    var p, after := ItemPos(items, last.id), Upsert(items, last);
    if p < |items| {
      assert after[p] == last;
      forall i | 0 <= i < |items| && i != p ensures after[i] == items[i] && items[i].id != last.id {
      }
    } else {
      assert after == items + [last];
      assert forall i :: 0 <= i < |items| ==> items[i].id != last.id;
    }
  }

  /** The search for an item to replace: the first with this id, or the length. */
  method FindItem(items: seq<Item>, id: string) returns (q: nat)
    ensures q == ItemPos(items, id)
  {
    q := 0;
    while q < |items| && items[q].id != id
      invariant 0 <= q <= |items|
      invariant ItemPos(items, id) == q + ItemPos(items[q..], id)
    {
      assert items[q..][1..] == items[q + 1..];
      q := q + 1;
    }
  }

  class ConnectionState {
    var threadLogs: Logs<string>

    constructor ()
      ensures threadLogs == map[]
    {
      threadLogs := map[];
    }

    method FindTurn(thread: string, id: string) returns (p: int)
      ensures p == TurnPos(LogOf(threadLogs, thread), id)
    {
      var list := if thread in threadLogs then threadLogs[thread] else [];
      p := |list| - 1;
      while p >= 0 && list[p].turnId != id
        invariant -1 <= p < |list|
        invariant TurnPos(list, id) == TurnPos(list[..p + 1], id)
      {
        assert list[..p + 1][..p] == list[..p];
        p := p - 1;
      }
    }

    method RecordTurnStarted(thread: string, id: string, at: int)
      modifies this
      ensures threadLogs == StartTurn(old(threadLogs), thread, id, at)
    {
      var list := if thread in threadLogs then threadLogs[thread] else [];
      threadLogs := threadLogs[thread := list + [RecordedTurn(id, at, None, InProgress, None, [])]];
    }

    method RecordItem(thread: string, id: string, item: Item)
      modifies this
      ensures threadLogs == AddItem(old(threadLogs), thread, id, item)
    {
      hide TurnPos, ItemPos;
      var p := FindTurn(thread, id);
      if p < 0 {
        return;
      }
      var items := threadLogs[thread][p].items;
      var q := FindItem(items, item.id);
      var updated := if q < |items| then items[q := item] else items + [item];
      threadLogs := threadLogs[thread := threadLogs[thread][p := threadLogs[thread][p].(items := updated)]];
    }

    method RecordTurnCompleted(thread: string, id: string, at: int, status: TurnStatus, error: Option<string>)
      modifies this
      ensures threadLogs == CompleteTurn(old(threadLogs), thread, id, at, status, error)
    {
      var p := FindTurn(thread, id);
      if p < 0 {
        return;
      }
      threadLogs := threadLogs[thread :=
        threadLogs[thread][p := threadLogs[thread][p].(completedAt := Some(at), status := status, error := error)]];
    }

    /** `thread_log`: every recorded turn of the thread, in order, as clients see it. */
    method ReadLog(thread: string) returns (turns: seq<Turn>)
      ensures |turns| == |LogOf(threadLogs, thread)|
      ensures forall i :: 0 <= i < |turns| ==>
        var t := LogOf(threadLogs, thread)[i];
        && turns[i].id == t.turnId && turns[i].items == t.items
        && turns[i].status == t.status && turns[i].error == t.error
        && turns[i].startedAt == Some(t.startedAt) && turns[i].completedAt == t.completedAt
        && (turns[i].durationMs.Some? <==> t.completedAt.Some?)
        && (turns[i].durationMs.Some? ==> turns[i].durationMs.value >= 0)
      ensures turns == ThreadLog(threadLogs, thread)
    {
      turns := [];
      if thread !in threadLogs {
        return;
      }
      var list := threadLogs[thread];
      for i := 0 to |list|
        invariant |turns| == i
        invariant forall j :: 0 <= j < i ==> turns[j] == PlayBack(list[j])
      {
        var t := list[i];
        var duration: Option<int> := None;
        if t.completedAt.Some? {
          duration := Some(Max((t.completedAt.value - t.startedAt) * 1000, 0));
        }
        turns := turns + [Turn(t.turnId, t.items, t.status, t.error, Some(t.startedAt), t.completedAt, duration)];
      }
    }
  }
}
