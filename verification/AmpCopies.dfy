/**
 An amp turn is kept twice: in the log of the connection and in the transcript file. Over
 every interleaving the two copies of a turn agree in every field exactly when it was not
 steered and its items have distinct ids; `all_turns`, which drops the log's copy of a
 stored turn, then loses nothing, and it never lists a turn id twice.
 */
module AmpCopies {
  import opened Common
  import opened AmpTranslator
  import opened AmpLog
  import opened AmpTurns

  /** The log's entry for a turn. */
  function Entry(logs: Logs<LogKey>, key: LogKey, id: string): Option<RecordedTurn> {
    var p := TurnPos(LogOf(logs, key), id);
    if p < 0 then None else Some(LogOf(logs, key)[p])
  }

  function LogIds(list: seq<RecordedTurn>): seq<string> {
    seq(|list|, i requires 0 <= i < |list| => list[i].turnId)
  }

  lemma TurnPosUnique(list: seq<RecordedTurn>, id: string, p: int)
    requires 0 <= p < |list| && list[p].turnId == id
    requires forall i :: p < i < |list| ==> list[i].turnId != id
    ensures TurnPos(list, id) == p
  {
  }

  lemma TurnPosUpdate(list: seq<RecordedTurn>, p: nat, e: RecordedTurn, id: string)
    requires p < |list| && list[p].turnId == e.turnId
    ensures TurnPos(list[p := e], id) == TurnPos(list, id)
    ensures LogIds(list[p := e]) == LogIds(list)
  {
    var q, updated := TurnPos(list, id), list[p := e];
    assert forall i :: 0 <= i < |list| ==> updated[i].turnId == list[i].turnId;
    if q >= 0 {
      TurnPosUnique(updated, id, q);
    }
  }

  lemma StartEntry(logs: Logs<LogKey>, key: LogKey, id: string, at: int, t: LogKey, x: string)
    ensures Entry(StartTurn(logs, key, id, at), t, x)
            == if t == key && x == id then Some(RecordedTurn(id, at, None, InProgress, None, []))
               else Entry(logs, t, x)
    ensures LogIds(LogOf(StartTurn(logs, key, id, at), t))
            == LogIds(LogOf(logs, t)) + if t == key then [id] else []
  {
    if t == key {
      var list := LogOf(logs, key);
      var more := list + [RecordedTurn(id, at, None, InProgress, None, [])];
      assert more[..|list|] == list;
    }
  }

  /** A rewrite of the last entry of a turn, ids unchanged. */
  lemma UpdateEntry(logs: Logs<LogKey>, key: LogKey, id: string, e: RecordedTurn, t: LogKey, x: string)
    requires Entry(logs, key, id).Some? && e.turnId == id
    ensures var after := logs[key := logs[key][TurnPos(LogOf(logs, key), id) := e]];
            && Entry(after, t, x) == (if t == key && x == id then Some(e) else Entry(logs, t, x))
            && LogIds(LogOf(after, t)) == LogIds(LogOf(logs, t))
  {
    var list := LogOf(logs, key);
    var p := TurnPos(list, id);
    TurnPosUpdate(list, p, e, x);
  }

  lemma AddEntry(logs: Logs<LogKey>, key: LogKey, id: string, item: Item, t: LogKey, x: string)
    ensures Entry(AddItem(logs, key, id, item), t, x)
            == var e := Entry(logs, t, x);
               if t == key && x == id && e.Some? then Some(e.value.(items := Upsert(e.value.items, item))) else e
    ensures LogIds(LogOf(AddItem(logs, key, id, item), t)) == LogIds(LogOf(logs, t))
  {
    var e := Entry(logs, key, id);
    if e.Some? {
      UpdateEntry(logs, key, id, e.value.(items := Upsert(e.value.items, item)), t, x);
    }
  }

  lemma CompleteEntry(logs: Logs<LogKey>, key: LogKey, id: string, at: int, status: TurnStatus, error: Option<string>,
                      t: LogKey, x: string)
    ensures Entry(CompleteTurn(logs, key, id, at, status, error), t, x)
            == var e := Entry(logs, t, x);
               if t == key && x == id && e.Some?
               then Some(e.value.(completedAt := Some(at), status := status, error := error)) else e
    ensures LogIds(LogOf(CompleteTurn(logs, key, id, at, status, error), t)) == LogIds(LogOf(logs, t))
  {
    var e := Entry(logs, key, id);
    if e.Some? {
      UpdateEntry(logs, key, id, e.value.(completedAt := Some(at), status := status, error := error), t, x);
    }
  }

  predicate Closing(p: Pump) {
    p.WonLogged? || p.WonStored? || (p.Finished? && p.won)
  }

  predicate IsStored(p: Pump) {
    p.WonStored? || (p.Finished? && p.won)
  }

  predicate HasTurn(p: Pump) {
    !p.NotSpawned? && !p.Pumping?
  }

  /** The turn the pump will store, or has stored, says what its job says. */
  ghost predicate TurnFits(id: string, j: Job, t: Turn) {
    && t.id == id && t.startedAt == Some(j.startedAt) && t.completedAt.Some?
    && t.status == (if t.error.Some? then Failed else Succeeded)
    && t.durationMs == Some(if t.completedAt.value < j.startedAt then 0 else (t.completedAt.value - j.startedAt) * 1000)
  }

  /** The items the pump has recorded so far. */
  function RecordedItems(p: Pump): seq<Item>
    requires p.Pumping? ==> |p.due| <= |p.items|
  {
    if p.Pumping? then p.items[..|p.items| - |p.due|] else if p.NotSpawned? then [] else p.turn.items
  }

  predicate HasId(items: seq<Item>, id: string) {
    exists i :: i in items && i.id == id
  }

  lemma UpsertHas(items: seq<Item>, item: Item)
    ensures HasId(Upsert(items, item), item.id)
    ensures forall id :: HasId(items, id) ==> HasId(Upsert(items, item), id)
  {
    var after, p := Upsert(items, item), ItemPos(items, item.id);
    assert after[p] == item && item in after;
    forall id | HasId(items, id) ensures HasId(after, id) {
      var i :| 0 <= i < |items| && items[i].id == id;
      assert after[i].id == id && after[i] in after;
    }
  }

  /** The log's entry of a turn follows its tasks. */
  ghost predicate EntryFits(id: string, j: Job, entry: Option<RecordedTurn>) {
    && (entry.Some? <==> j.starter == StartLogged || j.starter == Spawned)
    && (j.pump.Pumping? ==>
          |j.pump.due| <= |j.pump.items| && j.pump.due == j.pump.items[|j.pump.items| - |j.pump.due|..])
    && (HasTurn(j.pump) ==> TurnFits(id, j, j.pump.turn))
    && (j.steered != [] ==> entry.Some?)
    && (entry.Some? ==>
          var e := entry.value;
          && e.turnId == id && e.startedAt == j.startedAt
          && (j.steered == [] ==> e.items == RecordAll(RecordedItems(j.pump)))
          && (forall s :: s in j.steered ==> HasId(e.items, s.id))
          && (Closing(j.pump) ==> e.completedAt == j.pump.turn.completedAt && e.status == j.pump.turn.status
                                  && e.error == j.pump.turn.error))
  }

  ghost predicate LogFits(w: World) {
    && (forall id :: id in w.jobs ==> EntryFits(id, w.jobs[id], Entry(w.logs, w.jobs[id].Home(), id)))
    && (forall key, i :: 0 <= i < |LogOf(w.logs, key)| ==>
          var id := LogOf(w.logs, key)[i].turnId; id in w.jobs && w.jobs[id].Home() == key)
    && (forall key :: Distinct(LogIds(LogOf(w.logs, key))))
  }

  function TurnIds(turns: seq<Turn>): seq<string> {
    seq(|turns|, i requires 0 <= i < |turns| => turns[i].id)
  }

  /** Every stored turn of a job is the one its pump stored, and no id is stored twice. */
  ghost predicate StoreFits(w: World) {
    && (forall thread, i :: 0 <= i < |StoredOf(w, thread)| ==>
          var t := StoredOf(w, thread)[i];
          t.id in w.jobs ==>
            w.jobs[t.id].thread == thread && IsStored(w.jobs[t.id].pump) && w.jobs[t.id].pump.turn == t)
    && (forall thread :: Distinct(TurnIds(StoredOf(w, thread))))
  }

  /** A step for turn `x` changes no other turn's entry, and lists a new one only at its start. */
  ghost predicate EntriesLocal(before: Logs<LogKey>, after: Logs<LogKey>, x: string) {
    forall t, y :: y != x ==> Entry(after, t, y) == Entry(before, t, y)
  }

  ghost predicate IdsKept(before: Logs<LogKey>, after: Logs<LogKey>) {
    forall t :: LogIds(LogOf(after, t)) == LogIds(LogOf(before, t))
  }

  lemma AddLocal(logs: Logs<LogKey>, key: LogKey, id: string, item: Item)
    ensures EntriesLocal(logs, AddItem(logs, key, id, item), id) && IdsKept(logs, AddItem(logs, key, id, item))
  {
    hide AddItem, Entry;
    forall t, y | y != id ensures Entry(AddItem(logs, key, id, item), t, y) == Entry(logs, t, y) {
      AddEntry(logs, key, id, item, t, y);
    }
    forall t ensures LogIds(LogOf(AddItem(logs, key, id, item), t)) == LogIds(LogOf(logs, t)) {
      AddEntry(logs, key, id, item, t, id);
    }
  }

  lemma CompleteLocal(logs: Logs<LogKey>, key: LogKey, id: string, at: int, status: TurnStatus, error: Option<string>)
    ensures EntriesLocal(logs, CompleteTurn(logs, key, id, at, status, error), id)
    ensures IdsKept(logs, CompleteTurn(logs, key, id, at, status, error))
  {
    hide CompleteTurn, Entry;
    forall t, y | y != id ensures Entry(CompleteTurn(logs, key, id, at, status, error), t, y) == Entry(logs, t, y) {
      CompleteEntry(logs, key, id, at, status, error, t, y);
    }
    forall t ensures LogIds(LogOf(CompleteTurn(logs, key, id, at, status, error), t)) == LogIds(LogOf(logs, t)) {
      CompleteEntry(logs, key, id, at, status, error, t, id);
    }
  }

  lemma StartLocal(logs: Logs<LogKey>, key: LogKey, id: string, at: int)
    ensures EntriesLocal(logs, StartTurn(logs, key, id, at), id)
    ensures forall t :: LogIds(LogOf(StartTurn(logs, key, id, at), t))
                        == LogIds(LogOf(logs, t)) + if t == key then [id] else []
  {
    hide StartTurn, Entry;
    forall t, y | y != id ensures Entry(StartTurn(logs, key, id, at), t, y) == Entry(logs, t, y) {
      StartEntry(logs, key, id, at, t, y);
    }
    forall t ensures LogIds(LogOf(StartTurn(logs, key, id, at), t))
                     == LogIds(LogOf(logs, t)) + if t == key then [id] else [] {
      StartEntry(logs, key, id, at, t, id);
    }
  }

  predicate StartsLog(w: World, a: Action) {
    a.DoLogStart? && a.id in w.jobs && w.jobs[a.id].starter == Attached
  }

  lemma NoChangeLocal(logs: Logs<LogKey>, x: string)
    ensures EntriesLocal(logs, logs, x) && IdsKept(logs, logs)
  {
  }

  lemma StepEntries(w: World, a: Action)
    ensures EntriesLocal(w.logs, Step(w, a).logs, a.id)
    ensures if StartsLog(w, a)
            then Step(w, a).logs == StartTurn(w.logs, w.jobs[a.id].Home(), a.id, w.jobs[a.id].startedAt)
            else IdsKept(w.logs, Step(w, a).logs)
  {
    hide EntriesLocal, IdsKept, AddItem, CompleteTurn, StartTurn, Reserve, Attach, RemoveIfMatches, Holds, FreshId,
         PumpTurn, InterruptTurn, ThreadLog;
    NoChangeLocal(w.logs, a.id);
    if a.id in w.jobs {
      var j := w.jobs[a.id];
      StartLocal(w.logs, j.Home(), a.id, j.startedAt);
      AddLocal(w.logs, j.Home(), a.id, j.input);
      match a
      case DoRecord(_) =>
        if j.pump.Pumping? && j.pump.due != [] {
          AddLocal(w.logs, j.Home(), a.id, j.pump.due[0]);
        }
      case DoLogEnd(_) =>
        if j.pump.Won? {
          CompleteLocal(w.logs, j.Home(), a.id, ValueOr(j.pump.turn.completedAt, 0),
                        j.pump.turn.status, j.pump.turn.error);
        }
      case DoLogInterrupt(_, at) =>
        if j.interrupt.LogRead? {
          CompleteLocal(w.logs, LogKey(j.interrupt.conn, j.thread), a.id, at, Interrupted, INTERRUPTED);
        }
      case DoSteer(_, conn, item) => AddLocal(w.logs, LogKey(conn, j.thread), a.id, item);
      case _ =>
    }
  }

  lemma RecordOne(item: Item)
    ensures RecordAll([]) == [] && RecordAll([item]) == [item] && Upsert([], item) == [item]
  {
    assert [item][..0] == [];
  }

  lemma RecordNext(items: seq<Item>, n: nat)
    requires n < |items|
    ensures RecordAll(items[..n + 1]) == Upsert(RecordAll(items[..n]), items[n])
  {
    assert items[..n + 1][..n] == items[..n];
  }

  lemma FitsStarted(id: string, j: Job)
    requires EntryFits(id, j, None) && j.pump == NotSpawned
    ensures EntryFits(id, j.(starter := StartLogged), Some(RecordedTurn(id, j.startedAt, None, InProgress, None, [])))
  {
    hide HasId;
    RecordOne(j.input);
  }

  lemma FitsSpawned(id: string, j: Job, e: RecordedTurn)
    requires EntryFits(id, j, Some(e)) && j.pump == NotSpawned
    ensures EntryFits(id, j.(starter := Spawned, pump := Pumping([j.input], [])),
                      Some(e.(items := Upsert(e.items, j.input))))
  {
    hide HasId;
    RecordOne(j.input);
    UpsertHas(e.items, j.input);
    assert [j.input][..1] == [j.input];
  }

  lemma StarterEntry(w: World, a: Action)
    requires a.id in w.jobs && EntryFits(a.id, w.jobs[a.id], Entry(w.logs, w.jobs[a.id].Home(), a.id))
    requires OneOwner(w, a.id)
    ensures var after := StarterStep(w, a);
            EntryFits(a.id, after.jobs[a.id], Entry(after.logs, w.jobs[a.id].Home(), a.id))
  {
    hide StartTurn, AddItem, Entry, Attach, RemoveIfMatches, Times, Holds, RecordAll, Upsert, HasId;
    var j, id := w.jobs[a.id], a.id;
    StartEntry(w.logs, j.Home(), id, j.startedAt, j.Home(), id);
    AddEntry(w.logs, j.Home(), id, j.input, j.Home(), id);
    if a.DoLogStart? && j.starter == Attached {
      FitsStarted(id, j);
    } else if a.DoLogInput? && j.starter == StartLogged {
      FitsSpawned(id, j, Entry(w.logs, j.Home(), id).value);
    }
  }

  /** The translator hands over completed items, all of them still due. */
  lemma FitsTranslated(id: string, j: Job, entry: Option<RecordedTurn>, completed: seq<Item>)
    requires EntryFits(id, j, entry) && j.pump.Pumping? && j.pump.due == []
    ensures EntryFits(id, j.(pump := Pumping(j.pump.items + completed, completed)), entry)
  {
    hide RecordAll, HasId;
    var items := j.pump.items;
    assert items[..|items|] == items;
    assert (items + completed)[..|items|] == items && (items + completed)[|items|..] == completed;
  }

  /** The next item due joins the entry. */
  lemma FitsRecorded(id: string, j: Job, entry: Option<RecordedTurn>)
    requires EntryFits(id, j, entry) && j.pump.Pumping? && j.pump.due != []
    ensures var after := if entry.None? then None
                         else Some(entry.value.(items := Upsert(entry.value.items, j.pump.due[0])));
            EntryFits(id, j.(pump := Pumping(j.pump.items, j.pump.due[1..])), after)
  {
    hide RecordAll, HasId, Upsert;
    var items, due := j.pump.items, j.pump.due;
    var n := |items| - |due|;
    assert due[0] == items[n] && due[1..] == items[n + 1..];
    RecordNext(items, n);
    if entry.Some? {
      UpsertHas(entry.value.items, due[0]);
    }
  }

  lemma FitsEnded(id: string, j: Job, entry: Option<RecordedTurn>, at: int, error: Option<string>)
    requires EntryFits(id, j, entry) && j.pump.Pumping? && j.pump.due == []
    ensures EntryFits(id, j.(pump := Ended(PumpTurn(id, j, j.pump.items, at, error))), entry)
  {
    hide RecordAll, HasId;
    assert j.pump.items[..|j.pump.items|] == j.pump.items;
  }

  lemma PumpingEntry(w: World, a: Action)
    requires a.id in w.jobs && EntryFits(a.id, w.jobs[a.id], Entry(w.logs, w.jobs[a.id].Home(), a.id))
    requires a.DoTranslate? || a.DoRecord? || a.DoEnd?
    ensures var after := PumpStep(w, a);
            EntryFits(a.id, after.jobs[a.id], Entry(after.logs, w.jobs[a.id].Home(), a.id))
  {
    hide AddItem, Entry, Upsert, EntryFits, PumpTurn;
    var j := w.jobs[a.id];
    var entry := Entry(w.logs, j.Home(), a.id);
    if j.pump.Pumping? {
      match a
      case DoTranslate(_, completed) =>
        if j.pump.due == [] {
          FitsTranslated(a.id, j, entry, completed);
        }
      case DoRecord(_) =>
        if j.pump.due != [] {
          AddEntry(w.logs, j.Home(), a.id, j.pump.due[0], j.Home(), a.id);
          FitsRecorded(a.id, j, entry);
        }
      case DoEnd(_, at, error) =>
        if j.pump.due == [] {
          FitsEnded(a.id, j, entry, at, error);
        }
    }
  }

  lemma ClosingEntry(w: World, a: Action)
    requires a.id in w.jobs && EntryFits(a.id, w.jobs[a.id], Entry(w.logs, w.jobs[a.id].Home(), a.id))
    requires a.DoRemove? || a.DoLogEnd? || a.DoStore? || a.DoTell?
    ensures var after := PumpStep(w, a);
            EntryFits(a.id, after.jobs[a.id], Entry(after.logs, w.jobs[a.id].Home(), a.id))
  {
    hide CompleteTurn, Entry, RemoveIfMatches, Holds, RecordAll, StoredOf;
    var j := w.jobs[a.id];
    if a.DoLogEnd? && j.pump.Won? {
      var t := j.pump.turn;
      CompleteEntry(w.logs, j.Home(), a.id, ValueOr(t.completedAt, 0), t.status, t.error, j.Home(), a.id);
    }
  }

  lemma PumpEntry(w: World, a: Action)
    requires a.id in w.jobs && EntryFits(a.id, w.jobs[a.id], Entry(w.logs, w.jobs[a.id].Home(), a.id))
    ensures var after := PumpStep(w, a);
            EntryFits(a.id, after.jobs[a.id], Entry(after.logs, w.jobs[a.id].Home(), a.id))
  {
    hide EntryFits, Entry;
    if a.DoTranslate? || a.DoRecord? || a.DoEnd? {
      PumpingEntry(w, a);
    } else if a.DoRemove? || a.DoLogEnd? || a.DoStore? || a.DoTell? {
      ClosingEntry(w, a);
    }
  }

  /** The interrupt's own progress plays no part in the fit. */
  lemma FitsAnyInterrupt(id: string, j: Job, entry: Option<RecordedTurn>, interrupt: Interrupt)
    requires EntryFits(id, j, entry)
    ensures EntryFits(id, j.(interrupt := interrupt), entry)
  {
    hide RecordAll, HasId;
  }

  lemma FitsInterrupted(id: string, j: Job, e: RecordedTurn, at: int)
    requires EntryFits(id, j, Some(e)) && !Closing(j.pump)
    ensures EntryFits(id, j, Some(e.(completedAt := Some(at), status := Interrupted, error := INTERRUPTED)))
  {
    hide RecordAll, HasId;
  }

  lemma FitsSteered(id: string, j: Job, e: RecordedTurn, item: Item)
    requires EntryFits(id, j, Some(e))
    ensures EntryFits(id, j.(steered := j.steered + [item]), Some(e.(items := Upsert(e.items, item))))
  {
    hide RecordAll, HasId, Upsert;
    UpsertHas(e.items, item);
  }

  /** Only the log of the turn's own connection has an entry for it. */
  lemma OnlyAtHome(w: World, id: string)
    requires LogFits(w) && id in w.jobs
    ensures forall key :: Entry(w.logs, key, id).Some? ==> key == w.jobs[id].Home()
    ensures forall key :: Entry(w.logs, key, id).None? <==> TurnPos(LogOf(w.logs, key), id) < 0
  {
    hide EntryFits, Distinct;
  }

  lemma ClientEntry(w: World, a: Action)
    requires a.id in w.jobs && EntryFits(a.id, w.jobs[a.id], Entry(w.logs, w.jobs[a.id].Home(), a.id))
    requires OneOwner(w, a.id)
    requires forall key :: Entry(w.logs, key, a.id).Some? ==> key == w.jobs[a.id].Home()
    requires forall key :: Entry(w.logs, key, a.id).None? <==> TurnPos(LogOf(w.logs, key), a.id) < 0
    ensures var after := ClientStep(w, a);
            EntryFits(a.id, after.jobs[a.id], Entry(after.logs, w.jobs[a.id].Home(), a.id))
  {
    var j, id := w.jobs[a.id], a.id;
    hide AddItem, CompleteTurn, Entry, RemoveIfMatches, Times, Holds, ThreadLog, InterruptTurn,
         TurnPos, EntryFits, Upsert;
    var entry, after := Entry(w.logs, j.Home(), id), ClientStep(w, a);
    FitsAnyInterrupt(id, j, entry, after.jobs[id].interrupt);
    match a
    case DoLogInterrupt(_, at) =>
      if j.interrupt.LogRead? {
        var key := LogKey(j.interrupt.conn, j.thread);
        CompleteEntry(w.logs, key, id, at, Interrupted, INTERRUPTED, j.Home(), id);
        if entry.Some? {
          FitsInterrupted(id, after.jobs[id], entry.value, at);
        }
      }
    case DoSteer(_, conn, item) =>
      AddEntry(w.logs, LogKey(conn, j.thread), id, item, j.Home(), id);
      if entry.Some? {
        FitsSteered(id, j, entry.value, item);
      }
    case _ =>
  }

  lemma OwnEntry(w: World, a: Action)
    requires LogFits(w) && Owned(w)
    ensures var after := Step(w, a);
            a.id in after.jobs ==> EntryFits(a.id, after.jobs[a.id], Entry(after.logs, after.jobs[a.id].Home(), a.id))
  {
    hide EntryFits, Entry, StarterStep, PumpStep, ClientStep, FreshId, Times;
    if a.id in w.jobs {
      assert OneOwner(w, a.id);
      hide OneOwner;
      StepKeepsHome(w, a);
      StarterEntry(w, a);
      PumpEntry(w, a);
      OnlyAtHome(w, a.id);
      ClientEntry(w, a);
      KnownNotReserved(w, a);
    } else if a.DoReserve? {
      NewEntry(w, a);
    }
  }

  lemma StepKeepsHome(w: World, a: Action)
    requires a.id in w.jobs
    ensures a.id in StarterStep(w, a).jobs && StarterStep(w, a).jobs[a.id].Home() == w.jobs[a.id].Home()
    ensures a.id in PumpStep(w, a).jobs && PumpStep(w, a).jobs[a.id].Home() == w.jobs[a.id].Home()
    ensures a.id in ClientStep(w, a).jobs && ClientStep(w, a).jobs[a.id].Home() == w.jobs[a.id].Home()
  {
    hide PumpTurn, InterruptTurn, ThreadLog, AddItem, CompleteTurn, StartTurn;
  }

  /** A fresh turn has no entry yet: every entry of a log has a job. */
  lemma NewEntry(w: World, a: Action)
    requires LogFits(w) && a.DoReserve? && a.id !in w.jobs
    ensures var after := Step(w, a);
            a.id in after.jobs ==> EntryFits(a.id, after.jobs[a.id], Entry(after.logs, after.jobs[a.id].Home(), a.id))
  {
    hide FreshId;
    assert TurnPos(LogOf(w.logs, LogKey(a.conn, a.thread)), a.id) == -1;
  }

  lemma IdsOwned(w: World, after: World, a: Action, key: LogKey, i: int)
    requires LogFits(w) && after == Step(w, a) && 0 <= i < |LogOf(after.logs, key)|
    ensures var id := LogOf(after.logs, key)[i].turnId; id in after.jobs && after.jobs[id].Home() == key
  {
    hide EntryFits, Entry, OthersKept, EntriesLocal, Step, StartTurn, Times;
    StepEntries(w, a);
    StepLocal(w, a);
    var ids, had := LogIds(LogOf(after.logs, key)), LogIds(LogOf(w.logs, key));
    if StartsLog(w, a) {
      StartLocal(w.logs, w.jobs[a.id].Home(), a.id, w.jobs[a.id].startedAt);
    }
    assert ids[i] == LogOf(after.logs, key)[i].turnId;
    if i < |had| {
      assert ids[i] == had[i] == LogOf(w.logs, key)[i].turnId;
      JobsStay(w, a, had[i]);
    } else {
      assert ids[i] == a.id && w.jobs[a.id].Home() == key;
      JobsStay(w, a, a.id);
    }
  }

  lemma JobsStay(w: World, a: Action, id: string)
    requires id in w.jobs
    ensures id in Step(w, a).jobs && Step(w, a).jobs[id].Home() == w.jobs[id].Home()
  {
    hide StarterStep, PumpStep, ClientStep, FreshId, OthersKept, Times;
    if id == a.id {
      StepKeepsHome(w, a);
      KnownNotReserved(w, a);
    } else {
      StepLocal(w, a);
    }
  }

  lemma KnownNotReserved(w: World, a: Action)
    requires a.id in w.jobs
    ensures a.DoReserve? ==> Step(w, a) == w
  {
  }

  lemma NotListed(logs: Logs<LogKey>, key: LogKey, id: string)
    requires Entry(logs, key, id).None?
    ensures id !in LogIds(LogOf(logs, key))
  {
  }

  lemma IdsDistinct(w: World, after: World, a: Action, key: LogKey)
    requires LogFits(w) && after == Step(w, a)
    ensures Distinct(LogIds(LogOf(after.logs, key)))
  {
    hide EntriesLocal, Step, StartTurn, LogIds, LogOf, Entry, Distinct;
    StepEntries(w, a);
    if StartsLog(w, a) {
      var j := w.jobs[a.id];
      StartLocal(w.logs, j.Home(), a.id, j.startedAt);
      assert EntryFits(a.id, j, Entry(w.logs, j.Home(), a.id));
      NotListed(w.logs, j.Home(), a.id);
      hide EntryFits;
      DistinctAppend(LogIds(LogOf(w.logs, key)), a.id);
      assert LogIds(LogOf(w.logs, key)) + [] == LogIds(LogOf(w.logs, key));
    }
  }

  lemma StepLogFits(w: World, a: Action)
    requires LogFits(w) && Owned(w)
    ensures LogFits(Step(w, a))
  {
    hide EntryFits, Entry, Step, OthersKept, Times, Owned;
    var after := Step(w, a);
    OwnEntry(w, a);
    StepEntries(w, a);
    StepLocal(w, a);
    forall key, i | 0 <= i < |LogOf(after.logs, key)|
      ensures var id := LogOf(after.logs, key)[i].turnId; id in after.jobs && after.jobs[id].Home() == key
    {
      IdsOwned(w, after, a, key, i);
    }
    forall key ensures Distinct(LogIds(LogOf(after.logs, key))) {
      IdsDistinct(w, after, a, key);
    }
  }

  /** The transcripts change only when a pump stores its turn. */
  lemma StepStored(w: World, a: Action)
    ensures var stores := a.DoStore? && a.ok && a.id in w.jobs && w.jobs[a.id].pump.WonLogged?;
            Step(w, a).transcripts
            == if stores then w.transcripts[w.jobs[a.id].thread := StoredOf(w,
                    w.jobs[a.id].thread) + [w.jobs[a.id].pump.turn]]
               else w.transcripts
  {
    hide StartTurn, AddItem, CompleteTurn, Reserve, Attach, RemoveIfMatches, Holds, PumpTurn, InterruptTurn, ThreadLog;
  }

  lemma OwnStaysStored(w: World, a: Action)
    requires a.id in w.jobs && IsStored(w.jobs[a.id].pump) && OneOwner(w, a.id)
    ensures a.id in Step(w, a).jobs
    ensures IsStored(Step(w, a).jobs[a.id].pump) && Step(w, a).jobs[a.id].pump.turn == w.jobs[a.id].pump.turn
  {
    hide StartTurn, AddItem, CompleteTurn, Reserve, Attach, RemoveIfMatches, Holds, InterruptTurn,
         ThreadLog, FreshId, Times;
    KnownNotReserved(w, a);
  }

  lemma KeepsStored(w: World, a: Action, id: string)
    requires id in w.jobs && IsStored(w.jobs[id].pump) && Owned(w)
    ensures var after := Step(w, a);
            && id in after.jobs && after.jobs[id].thread == w.jobs[id].thread
            && IsStored(after.jobs[id].pump) && after.jobs[id].pump.turn == w.jobs[id].pump.turn
  {
    hide Step, OthersKept, Times;
    JobsStay(w, a, id);
    if id == a.id {
      OwnStaysStored(w, a);
    }
    StepLocal(w, a);
  }

  /** A turn id drawn fresh is in no transcript. */
  lemma NewJobsUnstored(w: World, a: Action, thread: string, i: int)
    requires 0 <= i < |StoredOf(w, thread)|
    ensures var id := StoredOf(w, thread)[i].id; id !in w.jobs ==> id !in Step(w, a).jobs
  {
    hide StarterStep, PumpStep, ClientStep, Times, OthersKept;
    StepLocal(w, a);
  }

  lemma StepStoreFits(w: World, a: Action)
    requires StoreFits(w) && LogFits(w) && Owned(w)
    ensures StoreFits(Step(w, a))
  {
    hide Step, EntryFits, OneOwner, TableOwned;
    var after := Step(w, a);
    StepStored(w, a);
    var stores := a.DoStore? && a.ok && a.id in w.jobs && w.jobs[a.id].pump.WonLogged?;
    forall thread, i | 0 <= i < |StoredOf(after, thread)|
      ensures var t := StoredOf(after, thread)[i];
              t.id in after.jobs ==> (after.jobs[t.id].thread == thread && IsStored(after.jobs[t.id].pump)
                                      && after.jobs[t.id].pump.turn == t)
    {
      if i < |StoredOf(w, thread)| {
        var t := StoredOf(w, thread)[i];
        NewJobsUnstored(w, a, thread, i);
        if t.id in w.jobs {
          KeepsStored(w, a, t.id);
        }
      } else {
        StoreOwn(w, a);
      }
    }
    forall thread ensures Distinct(TurnIds(StoredOf(after, thread))) {
      assert Distinct(TurnIds(StoredOf(w, thread)));
      if stores && thread == w.jobs[a.id].thread {
        StoreDistinct(w, a);
      } else {
        assert StoredOf(after, thread) == StoredOf(w, thread);
      }
    }
  }

  lemma StoreOwn(w: World, a: Action)
    requires a.DoStore? && a.id in w.jobs && w.jobs[a.id].pump.WonLogged? && LogFits(w)
    ensures var after := Step(w, a); var t := w.jobs[a.id].pump.turn;
            && t.id == a.id && a.id in after.jobs && after.jobs[a.id].thread == w.jobs[a.id].thread
            && after.jobs[a.id].pump == WonStored(t)
  {
    assert EntryFits(a.id, w.jobs[a.id], Entry(w.logs, w.jobs[a.id].Home(), a.id));
  }

  lemma StoreDistinct(w: World, a: Action)
    requires StoreFits(w) && LogFits(w) && a.id in w.jobs && w.jobs[a.id].pump.WonLogged?
    ensures var j := w.jobs[a.id]; Distinct(TurnIds(StoredOf(w, j.thread) + [j.pump.turn]))
  {
    var j := w.jobs[a.id];
    var stored := StoredOf(w, j.thread);
    assert EntryFits(a.id, j, Entry(w.logs, j.Home(), a.id));
    assert j.pump.turn.id == a.id;
    assert a.id !in TurnIds(stored);
    DistinctAppend(TurnIds(stored), a.id);
    assert TurnIds(stored + [j.pump.turn]) == TurnIds(stored) + [a.id];
  }

  /** Transcripts as a process finds them: no turn id twice in a file. */
  ghost predicate CleanTranscripts(transcripts: map<string, seq<Turn>>) {
    forall thread :: thread in transcripts ==> Distinct(TurnIds(transcripts[thread]))
  }

  lemma {:induction false} RunFits(transcripts: map<string, seq<Turn>>, actions: seq<Action>)
    requires CleanTranscripts(transcripts)
    ensures LogFits(Run(transcripts, actions)) && StoreFits(Run(transcripts, actions))
  {
    if actions == [] {
      StartFits(transcripts);
    } else {
      hide LogFits, StoreFits, Owned, Step;
      var front := actions[..|actions| - 1];
      RunFits(transcripts, front);
      RunOwned(transcripts, front);
      StepLogFits(Run(transcripts, front), actions[|actions| - 1]);
      StepStoreFits(Run(transcripts, front), actions[|actions| - 1]);
    }
  }

  lemma StartFits(transcripts: map<string, seq<Turn>>)
    requires CleanTranscripts(transcripts)
    ensures LogFits(Start(transcripts)) && StoreFits(Start(transcripts))
  {
  }

  lemma ClosingIsSpawned(w: World, id: string)
    requires id in w.jobs && OneOwner(w, id) && Closing(w.jobs[id].pump)
    ensures w.jobs[id].starter == Spawned
  {
    hide Holds, Times;
  }

  lemma EntryAgrees(id: string, j: Job, entry: Option<RecordedTurn>)
    requires EntryFits(id, j, entry) && Closing(j.pump) && j.starter == Spawned
    requires forall s :: s in j.steered ==> !HasId(j.pump.turn.items, s.id)
    ensures entry.Some?
    ensures PlayBack(entry.value) == j.pump.turn <==> j.steered == [] && DistinctItemIds(j.pump.turn.items)
  {
    hide HasId;
    RecordAllIdentity(j.pump.turn.items);
    hide RecordAll;
    if j.steered != [] {
      assert j.steered[0] in j.steered;
    }
  }

  /** Main theorem: once the log's entry is closed, the turn the pump stores equals, in every
      field, the turn the log plays back, if and only if no steer landed and the turn's items
      have distinct ids. A steer's item id is drawn fresh, so no item of the pump has it. */
  lemma CopiesAgree(transcripts: map<string, seq<Turn>>, actions: seq<Action>, id: string)
    requires CleanTranscripts(transcripts)
    requires var w := Run(transcripts, actions); id in w.jobs && Closing(w.jobs[id].pump)
    requires var j := Run(transcripts, actions).jobs[id];
             forall s :: s in j.steered ==> !HasId(j.pump.turn.items, s.id)
    ensures var w := Run(transcripts, actions);
            var entry, j := Entry(w.logs, w.jobs[id].Home(), id), w.jobs[id];
            && entry.Some?
            && (PlayBack(entry.value) == j.pump.turn <==> j.steered == [] && DistinctItemIds(j.pump.turn.items))
  {
    hide Run, Times, HasId, EntryFits, OneOwner, PlayBack;
    RunFits(transcripts, actions);
    RunOwned(transcripts, actions);
    var w := Run(transcripts, actions);
    ClosingIsSpawned(w, id);
    EntryAgrees(id, w.jobs[id], Entry(w.logs, w.jobs[id].Home(), id));
  }

  /** The turns of a log that a transcript does not list. */
  function Unseen(log: seq<Turn>, seen: seq<string>): seq<Turn> {
    if log == [] then []
    else Unseen(log[..|log| - 1], seen) + if log[|log| - 1].id in seen then [] else [log[|log| - 1]]
  }

  /** `all_turns`, which reads the transcript first and the log of its connection later. */
  function AllTurns(first: World, later: World, key: LogKey): seq<Turn> {
    var stored := StoredOf(first, key.thread);
    stored + Unseen(ThreadLog(later.logs, key), TurnIds(stored))
  }

  /** Transcripts only grow. */
  lemma {:induction false} StoredGrows(transcripts: map<string, seq<Turn>>, actions: seq<Action>,
                                       n: nat, thread: string)
    requires n <= |actions|
    ensures StoredOf(Run(transcripts, actions[..n]), thread) <= StoredOf(Run(transcripts, actions), thread)
  {
    hide Step;
    if n == |actions| {
      assert actions[..n] == actions;
    } else {
      var front := actions[..|actions| - 1];
      assert front[..n] == actions[..n];
      StoredGrows(transcripts, front, n, thread);
      StepStored(Run(transcripts, front), actions[|actions| - 1]);
    }
  }

  lemma {:induction false} UnseenKeeps(log: seq<Turn>, seen: seq<string>)
    ensures forall t :: t in Unseen(log, seen) <==> t in log && t.id !in seen
  {
    if log != [] {
      var front, last := log[..|log| - 1], log[|log| - 1];
      UnseenKeeps(front, seen);
      assert log == front + [last];
    }
  }

  lemma TurnIdsAppend(turns: seq<Turn>, t: Turn)
    ensures TurnIds(turns + [t]) == TurnIds(turns) + [t.id]
    ensures forall id :: id in TurnIds(turns) <==> exists u :: u in turns && u.id == id
  {
    forall id ensures id in TurnIds(turns) <==> exists u :: u in turns && u.id == id {
      if id in TurnIds(turns) {
        var i :| 0 <= i < |turns| && TurnIds(turns)[i] == id;
        assert turns[i] in turns;
      }
      if u :| u in turns && u.id == id {
        var i :| 0 <= i < |turns| && turns[i] == u;
        assert TurnIds(turns)[i] == id;
      }
    }
  }

  lemma {:induction false} UnseenDistinct(stored: seq<Turn>, log: seq<Turn>)
    requires Distinct(TurnIds(stored)) && Distinct(TurnIds(log))
    ensures Distinct(TurnIds(stored + Unseen(log, TurnIds(stored))))
  {
    var seen := TurnIds(stored);
    if log == [] {
      assert stored + [] == stored;
    } else {
      var front, last := log[..|log| - 1], log[|log| - 1];
      assert front + [last] == log;
      TurnIdsAppend(front, last);
      DistinctAppend(TurnIds(front), last.id);
      UnseenDistinct(stored, front);
      var sofar := stored + Unseen(front, seen);
      if last.id in seen {
        assert Unseen(front, seen) + [] == Unseen(front, seen);
      } else {
        UnseenKeeps(front, seen);
        TurnIdsAppend(stored, last);
        TurnIdsAppend(sofar, last);
        DistinctAppend(TurnIds(sofar), last.id);
        assert stored + (Unseen(front, seen) + [last]) == sofar + [last];
      }
    }
  }

  /** However far the run gets between the two reads, the list never shows a turn id twice. */
  lemma AllTurnsDistinct(transcripts: map<string, seq<Turn>>, actions: seq<Action>, n: nat, key: LogKey)
    requires CleanTranscripts(transcripts) && n <= |actions|
    ensures Distinct(TurnIds(AllTurns(Run(transcripts, actions[..n]), Run(transcripts, actions), key)))
  {
    hide Run, EntryFits, Unseen;
    RunFits(transcripts, actions[..n]);
    RunFits(transcripts, actions);
    var first, later := Run(transcripts, actions[..n]), Run(transcripts, actions);
    var log := ThreadLog(later.logs, key);
    assert TurnIds(log) == LogIds(LogOf(later.logs, key));
    UnseenDistinct(StoredOf(first, key.thread), log);
  }

  /** The pump's copy of turn `id` is as the log has it: no steer landed, and its item ids are distinct. */
  ghost predicate Alike(w: World, id: string)
    requires id in w.jobs && HasTurn(w.jobs[id].pump)
  {
    w.jobs[id].steered == [] && DistinctItemIds(w.jobs[id].pump.turn.items)
  }

  /** A steer's item id is drawn fresh: no item of the pump has it. */
  ghost predicate FreshSteers(w: World, thread: string) {
    forall id, s ::
      id in w.jobs && w.jobs[id].thread == thread && HasTurn(w.jobs[id].pump) && s in w.jobs[id].steered ==>
        !HasId(w.jobs[id].pump.turn.items, s.id)
  }

  /** A turn that is both in the log and in the transcript is one its pump stored. */
  lemma BothAreStored(w: World, key: LogKey, k: nat, i: nat)
    requires LogFits(w) && StoreFits(w)
    requires k < |ThreadLog(w.logs, key)| && i < |StoredOf(w, key.thread)|
    requires ThreadLog(w.logs, key)[k].id == StoredOf(w, key.thread)[i].id
    ensures var id, t := StoredOf(w, key.thread)[i].id, StoredOf(w, key.thread)[i];
            && id in w.jobs && w.jobs[id].Home() == key && IsStored(w.jobs[id].pump) && w.jobs[id].pump.turn == t
            && Entry(w.logs, key, id) == Some(LogOf(w.logs, key)[k])
  {
    hide EntryFits;
    var list := LogOf(w.logs, key);
    var id := list[k].turnId;
    assert LogIds(list)[k] == id;
    assert forall m :: k < m < |list| ==> LogIds(list)[m] == list[m].turnId && LogIds(list)[m] != LogIds(list)[k];
    TurnPosUnique(list, id, k);
  }

  /** The log's copy of a stored turn equals the stored one, if and only if no steer landed in it
      and its item ids are distinct. */
  lemma LogTurnIsStored(transcripts: map<string, seq<Turn>>, actions: seq<Action>, key: LogKey, k: nat, i: nat)
    requires CleanTranscripts(transcripts) && FreshSteers(Run(transcripts, actions), key.thread)
    requires var w := Run(transcripts, actions);
             && k < |ThreadLog(w.logs, key)| && i < |StoredOf(w, key.thread)|
             && ThreadLog(w.logs, key)[k].id == StoredOf(w, key.thread)[i].id
    ensures var w := Run(transcripts, actions);
            var id := StoredOf(w, key.thread)[i].id;
            && id in w.jobs && HasTurn(w.jobs[id].pump)
            && (ThreadLog(w.logs, key)[k] == StoredOf(w, key.thread)[i] <==> Alike(w, id))
  {
    hide Run, EntryFits, RecordAll;
    RunFits(transcripts, actions);
    var w := Run(transcripts, actions);
    BothAreStored(w, key, k, i);
    CopiesAgree(transcripts, actions, StoredOf(w, key.thread)[i].id);
  }

  /** Nothing is lost by dropping the log's copy of a stored turn: however far the run gets
      between the two reads, every stored turn is listed, and every turn of the log is listed as
      it is, if and only if the turns of this log that were stored by the first read are alike
      in the two copies. */
  lemma AllTurnsComplete(transcripts: map<string, seq<Turn>>, actions: seq<Action>, n: nat, key: LogKey)
    requires CleanTranscripts(transcripts) && n <= |actions|
    requires FreshSteers(Run(transcripts, actions), key.thread)
    ensures var first, later := Run(transcripts, actions[..n]), Run(transcripts, actions);
            var log, stored := ThreadLog(later.logs, key), StoredOf(first, key.thread);
            && (forall t :: t in stored ==> t in AllTurns(first, later, key))
            && (forall t :: t in log && t.id in TurnIds(stored) ==>
                  t.id in later.jobs && HasTurn(later.jobs[t.id].pump))
            && ((forall t :: t in log ==> t in AllTurns(first, later, key))
                <==> forall t :: t in log && t.id in TurnIds(stored) ==> Alike(later, t.id))
  {
    hide Run, EntryFits, Unseen, RecordAll, IsStored, HasTurn, Alike, FreshSteers, AllTurns, LogFits, StoreFits;
    var first, later := Run(transcripts, actions[..n]), Run(transcripts, actions);
    var log, stored := ThreadLog(later.logs, key), StoredOf(first, key.thread);
    forall t | t in log
      ensures t.id in TurnIds(stored) ==> t.id in later.jobs && HasTurn(later.jobs[t.id].pump)
      ensures t in AllTurns(first, later, key) <==> t.id in TurnIds(stored) ==> Alike(later, t.id)
    {
      ListedIff(transcripts, actions, n, key, t);
    }
    assert AllTurns(first, later, key) == stored + Unseen(log, TurnIds(stored)) by {
      AllTurnsIs(first, later, key);
    }
  }

  lemma AllTurnsIs(first: World, later: World, key: LogKey)
    ensures var stored := StoredOf(first, key.thread);
            AllTurns(first, later, key) == stored + Unseen(ThreadLog(later.logs, key), TurnIds(stored))
  {
  }

  /** A turn of the log is listed as it is, unless the transcript has another copy of it. */
  lemma ListedIff(transcripts: map<string, seq<Turn>>, actions: seq<Action>, n: nat, key: LogKey, t: Turn)
    requires CleanTranscripts(transcripts) && n <= |actions|
    requires FreshSteers(Run(transcripts, actions), key.thread)
    requires t in ThreadLog(Run(transcripts, actions).logs, key)
    ensures var first, later := Run(transcripts, actions[..n]), Run(transcripts, actions);
            var seen := TurnIds(StoredOf(first, key.thread));
            && (t.id in seen ==> t.id in later.jobs && HasTurn(later.jobs[t.id].pump))
            && (t in AllTurns(first, later, key) <==> t.id in seen ==> Alike(later, t.id))
  {
    hide Run, EntryFits, Unseen, RecordAll, IsStored, HasTurn, Alike, FreshSteers, ThreadLog;
    var first, later := Run(transcripts, actions[..n]), Run(transcripts, actions);
    StoredGrows(transcripts, actions, n, key.thread);
    RunFits(transcripts, actions[..n]);
    var stored, log := StoredOf(first, key.thread), ThreadLog(later.logs, key);
    UnseenKeeps(log, TurnIds(stored));
    if t.id in TurnIds(stored) {
      var k :| 0 <= k < |log| && log[k] == t;
      var i :| 0 <= i < |stored| && TurnIds(stored)[i] == t.id;
      assert StoredOf(later, key.thread)[i] == stored[i];
      LogTurnIsStored(transcripts, actions, key, k, i);
      StoredOnce(stored, i, t);
    } else {
      assert forall u :: u in stored ==> u.id in TurnIds(stored) by {
        TurnIdsAppend(stored, t);
      }
    }
  }

  lemma StoredOnce(stored: seq<Turn>, i: nat, t: Turn)
    requires Distinct(TurnIds(stored)) && i < |stored| && stored[i].id == t.id
    ensures t in stored <==> stored[i] == t
  {
    if t in stored {
      var m :| 0 <= m < |stored| && stored[m] == t;
      assert TurnIds(stored)[m] == t.id == TurnIds(stored)[i];
    }
  }
}
