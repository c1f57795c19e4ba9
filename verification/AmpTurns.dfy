/**
 The life of an amp turn (crates/amp-bridge/src/bridge.rs): turn/start, turn/interrupt,
 turn/steer and the event pumps share one table of active turns, one log and one transcript
 per thread. Every lock acquisition is a step of its own; a run is any sequence of steps,
 so the theorems about runs hold for every interleaving.
 */
module AmpTurns {
  import opened Common
  import opened AmpTranslator
  import opened AmpLog

  /** `ActiveTurn`; of the process only its presence matters. */
  datatype ActiveTurn = ActiveTurn(turnId: string, launched: bool, startedAt: int)

  type Table = map<string, ActiveTurn>

  function Reserve(table: Table, thread: string, id: string, at: int): Table {
    if thread in table then table else table[thread := ActiveTurn(id, false, at)]
  }

  predicate Holds(table: Table, thread: string, id: string) {
    thread in table && table[thread].turnId == id
  }

  function Attach(table: Table, thread: string, id: string): Table {
    if Holds(table, thread, id) then table[thread := table[thread].(launched := true)] else table
  }

  function RemoveIfMatches(table: Table, thread: string, id: string): Table {
    if Holds(table, thread, id) then table - {thread} else table
  }

  /** The table itself, with the operations the handlers run under its lock. */
  class ActiveTurns {
    var table: Table

    constructor ()
      ensures table == map[]
    {
      table := map[];
    }

    method ReserveTurn(thread: string, id: string, at: int) returns (ok: bool)
      modifies this
      ensures ok == (thread !in old(table)) && table == Reserve(old(table), thread, id, at)
    {
      if thread in table {
        return false;
      }
      table := table[thread := ActiveTurn(id, false, at)];
      ok := true;
    }

    method AttachProcess(thread: string, id: string) returns (ok: bool)
      modifies this
      ensures ok == Holds(old(table), thread, id) && table == Attach(old(table), thread, id)
    {
      if thread !in table || table[thread].turnId != id {
        return false;
      }
      table := table[thread := table[thread].(launched := true)];
      ok := true;
    }

    method RemoveMatching(thread: string, id: string) returns (removed: Option<ActiveTurn>)
      modifies this
      ensures removed == (if Holds(old(table), thread, id) then Some(old(table)[thread]) else None)
      ensures table == RemoveIfMatches(old(table), thread, id)
    {
      if thread in table && table[thread].turnId == id {
        removed := Some(table[thread]);
        table := table - {thread};
      } else {
        removed := None;
      }
    }

    /** The checks and the removal turn/interrupt makes under one lock. */
    method TakeForInterrupt(thread: string, id: string) returns (taken: Option<ActiveTurn>)
      modifies this
      ensures taken == (if Holds(old(table), thread, id) && old(table)[thread].launched
                        then Some(old(table)[thread]) else None)
      ensures table == if taken.Some? then RemoveIfMatches(old(table), thread, id) else old(table)
    {
      if thread !in table || table[thread].turnId != id || !table[thread].launched {
        return None;
      }
      taken := Some(table[thread]);
      table := table - {thread};
    }
  }

  /** Where the turn/start handler of a turn is. */
  datatype Starter = Reserved | Attached | StartLogged | Spawned | Gone

  /** Where the event pump is; `due` are completed items not yet recorded in the log. */
  datatype Pump =
    | NotSpawned
    | Pumping(items: seq<Item>, due: seq<Item>)
    | Ended(turn: Turn)
    | Won(turn: Turn)
    | WonLogged(turn: Turn)
    | WonStored(turn: Turn)
    | Finished(turn: Turn, won: bool)

  /** Where the interrupt that took the turn's entry is. */
  datatype Interrupt = NotTaken | Taken(conn: string) | LogRead(conn: string, items: seq<Item>)
                     | Recorded(turn: Turn) | Told

  /** The log of a thread in the state of one connection; all connections share the table of active turns. */
  datatype LogKey = LogKey(conn: string, thread: string)

  /** One turn id and the tasks that work on it; `steered` lists the items steers put in its log. */
  datatype Job = Job(conn: string, thread: string, startedAt: int, input: Item, starter: Starter, pump: Pump,
                     interrupt: Interrupt, steered: seq<Item>)
  {
    /** The log its own connection keeps. */
    function Home(): LogKey {
      LogKey(conn, thread)
    }
  }

  /** A turn/completed notification: the turn whose tasks sent it, and the turn it carries. */
  datatype Completion = Completion(id: string, turn: Turn)

  /** `completions` lists the turn/completed notifications. */
  datatype World = World(table: Table, logs: Logs<LogKey>, transcripts: map<string, seq<Turn>>,
                         jobs: map<string, Job>, completions: seq<Completion>)

  function StoredOf(w: World, thread: string): seq<Turn> {
    if thread in w.transcripts then w.transcripts[thread] else []
  }

  datatype Action =
    | DoReserve(id: string, conn: string, thread: string, at: int, input: Item)
    | DoStartFails(id: string)
    | DoAttach(id: string)
    | DoSendFails(id: string)
    | DoLogStart(id: string)
    | DoLogInput(id: string)
    | DoTranslate(id: string, completed: seq<Item>)
    | DoRecord(id: string)
    | DoEnd(id: string, at: int, error: Option<string>)
    | DoRemove(id: string)
    | DoLogEnd(id: string)
    | DoStore(id: string, ok: bool)
    | DoTell(id: string)
    | DoTake(id: string, conn: string, thread: string)
    | DoReadLog(id: string)
    | DoLogInterrupt(id: string, at: int)
    | DoTellInterrupt(id: string)
    | DoSteer(id: string, conn: string, item: Item)

  function SetJob(w: World, id: string, j: Job): World {
    w.(jobs := w.jobs[id := j])
  }

  /** The turn the pump builds when its loop ends. */
  function PumpTurn(id: string, j: Job, items: seq<Item>, at: int, error: Option<string>): Turn {
    Turn(id, items, if error.Some? then Failed else Succeeded, error, Some(j.startedAt), Some(at),
         Some(Max(at - j.startedAt, 0) * 1000))
  }

  const INTERRUPTED := Some("amp turn interrupted")

  function InterruptTurn(id: string, j: Job, items: seq<Item>, at: int): Turn {
    Turn(id, items, Interrupted, INTERRUPTED, Some(j.startedAt), Some(at), Some(Max(at - j.startedAt, 0) * 1000))
  }

  /** A turn id is drawn fresh: no job has it and no transcript lists it. */
  ghost predicate FreshId(w: World, id: string) {
    id !in w.jobs && forall thread, i :: thread in w.transcripts && 0 <= i < |w.transcripts[thread]|
                                         ==> w.transcripts[thread][i].id != id
  }

  /** What turn/start does, one lock at a time. */
  ghost function StarterStep(w: World, a: Action): World
    requires a.id in w.jobs
  {
    var id, j := a.id, w.jobs[a.id];
    match a
    case DoStartFails(_) =>
      if j.starter == Reserved
      then SetJob(w.(table := RemoveIfMatches(w.table, j.thread, id)), id, j.(starter := Gone)) else w
    case DoAttach(_) =>
      if j.starter == Reserved
      then SetJob(w.(table := Attach(w.table, j.thread, id)), id,
                  j.(starter := if Holds(w.table, j.thread, id) then Attached else Gone)) else w
    case DoSendFails(_) =>
      if j.starter == Attached
      then SetJob(w.(table := RemoveIfMatches(w.table, j.thread, id)), id, j.(starter := Gone)) else w
    case DoLogStart(_) =>
      if j.starter == Attached
      then SetJob(w.(logs := StartTurn(w.logs, j.Home(), id, j.startedAt)), id, j.(starter := StartLogged)) else w
    case DoLogInput(_) =>
      if j.starter == StartLogged
      then SetJob(w.(logs := AddItem(w.logs, j.Home(), id, j.input)), id,
                  j.(starter := Spawned, pump := Pumping([j.input], []))) else w
    case _ => w
  }

  /** What the event pump does, one lock at a time. */
  ghost function PumpStep(w: World, a: Action): World
    requires a.id in w.jobs
  {
    var id, j := a.id, w.jobs[a.id];
    match a
    case DoTranslate(_, completed) =>
      if j.pump.Pumping? && j.pump.due == []
      then SetJob(w, id, j.(pump := Pumping(j.pump.items + completed, completed))) else w
    case DoRecord(_) =>
      if j.pump.Pumping? && j.pump.due != []
      then SetJob(w.(logs := AddItem(w.logs, j.Home(), id, j.pump.due[0])), id,
                  j.(pump := Pumping(j.pump.items, j.pump.due[1..]))) else w
    case DoEnd(_, at, error) =>
      if j.pump.Pumping? && j.pump.due == []
      then SetJob(w, id, j.(pump := Ended(PumpTurn(id, j, j.pump.items, at, error)))) else w
    case DoRemove(_) =>
      if j.pump.Ended?
      then SetJob(w.(table := RemoveIfMatches(w.table, j.thread, id)), id,
                  j.(pump := if Holds(w.table, j.thread, id)
                            then Won(j.pump.turn) else Finished(j.pump.turn, false))) else w
    case DoLogEnd(_) =>
      if j.pump.Won?
      then SetJob(w.(logs := CompleteTurn(w.logs, j.Home(), id, ValueOr(j.pump.turn.completedAt, 0),
                                          j.pump.turn.status, j.pump.turn.error)), id,
                  j.(pump := WonLogged(j.pump.turn))) else w
    case DoStore(_, ok) =>
      // The append to the transcript file may fail; the pump goes on.
      if j.pump.WonLogged?
      then SetJob(if ok then w.(transcripts := w.transcripts[j.thread := StoredOf(w, j.thread) + [j.pump.turn]]) else w,
                  id, j.(pump := WonStored(j.pump.turn))) else w
    case DoTell(_) =>
      if j.pump.WonStored?
      then SetJob(w.(completions := w.completions + [Completion(id, j.pump.turn)]), id,
                  j.(pump := Finished(j.pump.turn, true))) else w
    case _ => w
  }

  /** What turn/interrupt and turn/steer do, one lock at a time. */
  ghost function ClientStep(w: World, a: Action): World
    requires a.id in w.jobs
  {
    var id, j := a.id, w.jobs[a.id];
    match a
    case DoTake(_, conn, thread) =>
      if Holds(w.table, thread, id) && w.table[thread].launched
      then SetJob(w.(table := RemoveIfMatches(w.table, thread, id)), id, j.(interrupt := Taken(conn))) else w
    case DoReadLog(_) =>
      if j.interrupt.Taken?
      then
        var log := ThreadLog(w.logs, LogKey(j.interrupt.conn, j.thread));
        SetJob(w, id, j.(interrupt := LogRead(j.interrupt.conn, if log == [] then [] else log[|log| - 1].items)))
      else w
    case DoLogInterrupt(_, at) =>
      if j.interrupt.LogRead?
      then
        var key := LogKey(j.interrupt.conn, j.thread);
        SetJob(w.(logs := CompleteTurn(w.logs, key, id, at, Interrupted, INTERRUPTED)), id,
               j.(interrupt := Recorded(InterruptTurn(id, j, j.interrupt.items, at))))
      else w
    case DoTellInterrupt(_) =>
      if j.interrupt.Recorded?
      then SetJob(w.(completions := w.completions + [Completion(id, j.interrupt.turn)]), id,
                  j.(interrupt := Told)) else w
    case DoSteer(_, conn, item) =>
      // Without an entry in the log of the steering connection the item is dropped.
      var key := LogKey(conn, j.thread);
      if TurnPos(LogOf(w.logs, key), id) < 0 then w
      else SetJob(w.(logs := AddItem(w.logs, key, id, item)), id, j.(steered := j.steered + [item]))
    case _ => w
  }

  ghost function Step(w: World, a: Action): World {
    if a.DoReserve? then
      if !FreshId(w, a.id) || a.thread in w.table then w
      else SetJob(w.(table := Reserve(w.table, a.thread, a.id, a.at)), a.id,
                  Job(a.conn, a.thread, a.at, a.input, Reserved, NotSpawned, NotTaken, []))
    else if a.id !in w.jobs then w
    else if a.DoStartFails? || a.DoAttach? || a.DoSendFails? || a.DoLogStart? || a.DoLogInput? then StarterStep(w, a)
    else if a.DoTake? || a.DoReadLog? || a.DoLogInterrupt? || a.DoTellInterrupt? || a.DoSteer? then ClientStep(w, a)
    else PumpStep(w, a)
  }

  /** The world before anything ran: a new process with the transcripts left on disk. */
  ghost function Start(transcripts: map<string, seq<Turn>>): World {
    World(map[], map[], transcripts, map[], [])
  }

  ghost function Run(transcripts: map<string, seq<Turn>>, actions: seq<Action>): World {
    if actions == [] then Start(transcripts)
    else Step(Run(transcripts, actions[..|actions| - 1]), actions[|actions| - 1])
  }

  /** The pump removed the entry itself and answers for the turn. */
  predicate PumpWon(p: Pump) {
    p.Won? || p.WonLogged? || p.WonStored? || (p.Finished? && p.won)
  }

  /** How many of the notifications the tasks of turn `id` sent. */
  function Times(completions: seq<Completion>, id: string): nat {
    if completions == [] then 0
    else Times(completions[..|completions| - 1], id) + if completions[|completions| - 1].id == id then 1 else 0
  }

  /** Who answers for turn `id`: its entry in the table, an interrupt, its pump, or, if its start
      failed, nobody; never two of them. */
  ghost predicate OneOwner(w: World, id: string)
    requires id in w.jobs
  {
    var j := w.jobs[id];
    var held := Holds(w.table, j.thread, id);
    && (held ==> j.interrupt == NotTaken && !PumpWon(j.pump) && !j.pump.Finished? && j.starter != Gone
                 && (w.table[j.thread].launched <==> j.starter != Reserved)
                 && w.table[j.thread].startedAt == j.startedAt)
    && (!held ==> j.interrupt != NotTaken || PumpWon(j.pump) || j.starter == Gone)
    && (j.interrupt != NotTaken ==> !PumpWon(j.pump))
    && (j.starter == Reserved ==> held)
    && (j.starter != Spawned <==> j.pump == NotSpawned)
    && Times(w.completions, id)
       == (if j.interrupt.Told? then 1 else 0) + (if j.pump.Finished? && j.pump.won then 1 else 0)
  }

  /** Every entry of the table belongs to a job of that thread. */
  ghost predicate TableOwned(w: World) {
    forall thread :: thread in w.table ==>
      w.table[thread].turnId in w.jobs && w.jobs[w.table[thread].turnId].thread == thread
  }

  ghost predicate Owned(w: World) {
    && TableOwned(w)
    && (forall id :: id in w.jobs ==> OneOwner(w, id))
    && (forall id :: id !in w.jobs ==> Times(w.completions, id) == 0)
  }

  lemma TimesAppend(completions: seq<Completion>, id: string)
    ensures forall turn, other ::
              Times(completions + [Completion(id, turn)], other)
              == Times(completions, other) + if id == other then 1 else 0
  {
    forall turn, other
      ensures Times(completions + [Completion(id, turn)], other)
              == Times(completions, other) + if id == other then 1 else 0
    {
      assert (completions + [Completion(id, turn)])[..|completions|] == completions;
    }
  }

  /** A change of the table for turn `x` that keeps the entries of all other turns. */
  ghost predicate OthersKept(before: Table, after: Table, x: string) {
    forall thread, id :: id != x ==>
      (Holds(after, thread, id) <==> Holds(before, thread, id))
      && (Holds(before, thread, id) ==> after[thread] == before[thread])
  }

  /** A stale pump or a failed start never removes a newer turn's entry, and attaching a process
      or reserving a free thread never touches another turn's either. */
  lemma TableOperationsKeepOthers(table: Table, thread: string, x: string, at: int)
    ensures OthersKept(table, RemoveIfMatches(table, thread, x), x)
    ensures OthersKept(table, Attach(table, thread, x), x)
    ensures OthersKept(table, Reserve(table, thread, x, at), x)
  {
  }

  /** What a step for one turn leaves alone. */
  ghost predicate Local(w: World, after: World, x: string) {
    && OthersKept(w.table, after.table, x)
    && (forall id :: id != x ==> (id in after.jobs <==> id in w.jobs))
    && (forall id :: id != x && id in w.jobs ==> after.jobs[id] == w.jobs[id])
    && (forall id :: id != x ==> Times(after.completions, id) == Times(w.completions, id))
  }

  lemma StarterLocal(w: World, a: Action)
    requires a.id in w.jobs
    ensures Local(w, StarterStep(w, a), a.id)
  {
    hide RemoveIfMatches, Attach, OthersKept, StartTurn, AddItem, Times;
    TableOperationsKeepOthers(w.table, w.jobs[a.id].thread, a.id, 0);
    NothingMoved(w.table, a.id);
  }

  lemma NothingMoved(table: Table, x: string)
    ensures OthersKept(table, table, x)
  {
  }

  lemma PumpLocal(w: World, a: Action)
    requires a.id in w.jobs
    ensures Local(w, PumpStep(w, a), a.id)
  {
    hide RemoveIfMatches, OthersKept, AddItem, CompleteTurn, Holds, PumpTurn, StoredOf, Times;
    TimesAppend(w.completions, a.id);
    TableOperationsKeepOthers(w.table, w.jobs[a.id].thread, a.id, 0);
    NothingMoved(w.table, a.id);
  }

  lemma ClientLocal(w: World, a: Action)
    requires a.id in w.jobs
    ensures Local(w, ClientStep(w, a), a.id)
  {
    hide RemoveIfMatches, OthersKept, AddItem, CompleteTurn, ThreadLog, InterruptTurn, Times;
    TimesAppend(w.completions, a.id);
    if a.DoTake? {
      TableOperationsKeepOthers(w.table, a.thread, a.id, 0);
    }
    NothingMoved(w.table, a.id);
  }

  lemma StepLocal(w: World, a: Action)
    ensures Local(w, Step(w, a), a.id)
  {
    hide StarterStep, PumpStep, ClientStep, Holds;
    if a.DoReserve? {
      TableOperationsKeepOthers(w.table, a.thread, a.id, a.at);
      NothingMoved(w.table, a.id);
    } else if a.id in w.jobs {
      StarterLocal(w, a);
      PumpLocal(w, a);
      ClientLocal(w, a);
    } else {
      NothingMoved(w.table, a.id);
    }
  }

  /** A step for one turn leaves the ownership of every other turn as it was. */
  lemma OtherOwner(w: World, after: World, x: string, id: string)
    requires Local(w, after, x) && id != x && id in w.jobs && OneOwner(w, id)
    ensures id in after.jobs && OneOwner(after, id)
  {
    assert Times(after.completions, id) == Times(w.completions, id);
    assert Holds(after.table, w.jobs[id].thread, id) <==> Holds(w.table, w.jobs[id].thread, id);
  }

  /** The entry of the turn a step is for stays in the thread of its job. */
  ghost predicate EntryInPlace(table: Table, jobs: map<string, Job>, x: string) {
    forall thread :: Holds(table, thread, x) ==> x in jobs && jobs[x].thread == thread
  }

  lemma EntryStaysInPlace(table: Table, jobs: map<string, Job>, thread: string, x: string, j: Job)
    requires EntryInPlace(table, jobs, x) && x in jobs && j.thread == jobs[x].thread
    ensures EntryInPlace(table, jobs[x := j], x)
    ensures EntryInPlace(RemoveIfMatches(table, thread, x), jobs[x := j], x)
    ensures EntryInPlace(Attach(table, thread, x), jobs[x := j], x)
  {
    assert forall t :: Holds(RemoveIfMatches(table, thread, x), t, x) ==> Holds(table, t, x);
    assert forall t :: Holds(Attach(table, thread, x), t, x) ==> Holds(table, t, x);
  }

  lemma StarterOwner(w: World, a: Action)
    requires a.id in w.jobs && OneOwner(w, a.id) && EntryInPlace(w.table, w.jobs, a.id)
    ensures var after := StarterStep(w, a);
            OneOwner(after, a.id) && EntryInPlace(after.table, after.jobs, a.id)
  {
    EntryStaysInPlace(w.table, w.jobs, w.jobs[a.id].thread, a.id, StarterStep(w, a).jobs[a.id]);
    hide StartTurn, AddItem, Times, EntryInPlace;
  }

  lemma PumpOwner(w: World, a: Action)
    requires a.id in w.jobs && OneOwner(w, a.id) && EntryInPlace(w.table, w.jobs, a.id)
    ensures var after := PumpStep(w, a);
            OneOwner(after, a.id) && EntryInPlace(after.table, after.jobs, a.id)
  {
    hide AddItem, CompleteTurn, Times, PumpTurn, EntryInPlace, StoredOf;
    EntryStaysInPlace(w.table, w.jobs, w.jobs[a.id].thread, a.id, PumpStep(w, a).jobs[a.id]);
    TimesAppend(w.completions, a.id);
  }

  lemma ClientOwner(w: World, a: Action)
    requires a.id in w.jobs && OneOwner(w, a.id) && EntryInPlace(w.table, w.jobs, a.id)
    ensures var after := ClientStep(w, a);
            OneOwner(after, a.id) && EntryInPlace(after.table, after.jobs, a.id)
  {
    EntryStaysInPlace(w.table, w.jobs, if a.DoTake? then a.thread else "", a.id, ClientStep(w, a).jobs[a.id]);
    TimesAppend(w.completions, a.id);
    hide AddItem, CompleteTurn, Times, ThreadLog, InterruptTurn;
  }

  lemma ReserveOwner(w: World, a: Action)
    requires a.DoReserve? && Owned(w)
    ensures var after := Step(w, a);
            && (a.id in after.jobs ==> OneOwner(after, a.id))
            && (a.id !in after.jobs ==> Times(after.completions, a.id) == 0)
            && EntryInPlace(after.table, after.jobs, a.id)
  {
    hide Times, StarterStep, PumpStep, ClientStep;
    assert EntryInPlace(w.table, w.jobs, a.id);
    if a.id !in w.jobs {
      assert forall thread :: !Holds(w.table, thread, a.id);
    }
  }

  lemma StepOwned(w: World, a: Action)
    requires Owned(w)
    ensures Owned(Step(w, a))
  {
    hide StarterStep, PumpStep, ClientStep, Times, OneOwner;
    StepLocal(w, a);
    if a.DoReserve? {
      ReserveOwner(w, a);
    } else {
      assert EntryInPlace(w.table, w.jobs, a.id);
      if a.id in w.jobs {
        StarterOwner(w, a);
        PumpOwner(w, a);
        ClientOwner(w, a);
        StepKeepsJob(w, a);
      }
    }
    hide Step, TableOwned, EntryInPlace, Local;
    StepOwnedFromLocal(w, Step(w, a), a.id);
  }

  lemma StepKeepsJob(w: World, a: Action)
    requires a.id in w.jobs
    ensures a.id in StarterStep(w, a).jobs && a.id in PumpStep(w, a).jobs && a.id in ClientStep(w, a).jobs
  {
  }

  lemma StepOwnedFromLocal(w: World, after: World, x: string)
    requires Owned(w) && Local(w, after, x)
    requires x in after.jobs ==> OneOwner(after, x)
    requires x !in after.jobs ==> Times(after.completions, x) == 0
    requires EntryInPlace(after.table, after.jobs, x)
    ensures Owned(after)
  {
    forall id | id in after.jobs ensures OneOwner(after, id) {
      if id != x {
        OtherOwner(w, after, x, id);
      }
    }
    forall thread | thread in after.table
      ensures after.table[thread].turnId in after.jobs && after.jobs[after.table[thread].turnId].thread == thread
    {
      var id := after.table[thread].turnId;
      assert Holds(after.table, thread, id);
      if id != x {
        assert Holds(w.table, thread, id);
      }
    }
  }

  lemma {:induction false} RunOwned(transcripts: map<string, seq<Turn>>, actions: seq<Action>)
    ensures Owned(Run(transcripts, actions))
  {
    hide Step;
    if actions != [] {
      RunOwned(transcripts, actions[..|actions| - 1]);
      StepOwned(Run(transcripts, actions[..|actions| - 1]), actions[|actions| - 1]);
    }
  }

  /** Over every interleaving each turn id gets at most one turn/completed, and exactly one once
      its pump has finished and any interrupt that took its entry has too. */
  lemma CompletedExactlyOnce(transcripts: map<string, seq<Turn>>, actions: seq<Action>, id: string)
    ensures var w := Run(transcripts, actions);
            && Times(w.completions, id) <= 1
            && (id in w.jobs && w.jobs[id].pump.Finished?
                && (w.jobs[id].interrupt == NotTaken || w.jobs[id].interrupt == Told)
                ==> Times(w.completions, id) == 1)
            && (id in w.jobs && !w.jobs[id].pump.Finished? && w.jobs[id].interrupt != Told
                ==> Times(w.completions, id) == 0)
  {
    hide Run, Times;
    RunOwned(transcripts, actions);
    var w := Run(transcripts, actions);
    if id in w.jobs {
      assert OneOwner(w, id);
    }
  }

  /** A turn that is still launching cannot be taken away: its reservation is there when the
      process is ready, so attaching always succeeds. */
  lemma AttachAlwaysSucceeds(transcripts: map<string, seq<Turn>>, actions: seq<Action>, id: string, conn: string)
    requires var w := Run(transcripts, actions); id in w.jobs && w.jobs[id].starter == Reserved
    ensures var w := Run(transcripts, actions);
            && Holds(w.table, w.jobs[id].thread, id)
            && Step(w, DoAttach(id)).jobs[id].starter == Attached
            && Step(w, DoTake(id, conn, w.jobs[id].thread)) == w
  {
    hide Run, Times;
    RunOwned(transcripts, actions);
    assert OneOwner(Run(transcripts, actions), id);
  }

  /** A turn is live while its start, its pump or its interrupt still has to answer for it. */
  predicate Live(j: Job) {
    j.starter != Gone && j.interrupt == NotTaken && !PumpWon(j.pump)
  }

  /** Each thread has at most one live turn, and it is the one in the table. */
  lemma OneLiveTurnPerThread(transcripts: map<string, seq<Turn>>, actions: seq<Action>, a: string, b: string)
    requires var w := Run(transcripts, actions);
             a in w.jobs && b in w.jobs && w.jobs[a].thread == w.jobs[b].thread && Live(w.jobs[a]) && Live(w.jobs[b])
    ensures a == b && Holds(Run(transcripts, actions).table, Run(transcripts, actions).jobs[a].thread, a)
  {
    hide Run, Times;
    RunOwned(transcripts, actions);
    assert OneOwner(Run(transcripts, actions), a) && OneOwner(Run(transcripts, actions), b);
  }
}
