/**
 Runs of a single amp turn: an interrupt that goes astray leaves the log's entry open, and a
 steer parts the log from the transcript.
 */
module AmpRuns {
  import opened Common
  import opened AmpTranslator
  import opened AmpLog
  import opened AmpTurns
  import opened AmpCopies

  /** An interrupt between the attachment of the process and the entry in the log. */
  function InterruptedAtStart(id: string, home: LogKey, at: int, input: Item): seq<Action> {
    [DoReserve(id, home.conn, home.thread, at, input), DoAttach(id), DoTake(id, home.conn, home.thread), DoReadLog(id),
     DoLogInterrupt(id, at), DoTellInterrupt(id), DoLogStart(id)]
  }

  /** An interrupt from another connection, after the turn was logged by its own. */
  function InterruptedElsewhere(id: string, home: LogKey, other: string, at: int, input: Item): seq<Action> {
    [DoReserve(id, home.conn, home.thread, at, input), DoAttach(id), DoLogStart(id), DoTake(id, other, home.thread),
     DoReadLog(id), DoLogInterrupt(id, at), DoTellInterrupt(id)]
  }

  /** A world with this one turn. */
  function OneTurn(id: string, j: Job, table: Table, logs: Logs<LogKey>, completions: seq<Completion>): World {
    World(table, logs, map[], map[id := j], completions)
  }

  function Held(id: string, j: Job, launched: bool): Table {
    map[j.thread := ActiveTurn(id, launched, j.startedAt)]
  }

  lemma ReservedThenAttached(id: string, j: Job)
    requires j.starter == Reserved && j.pump == NotSpawned && j.interrupt == NotTaken && j.steered == []
    ensures Step(Start(map[]), DoReserve(id, j.conn, j.thread, j.startedAt, j.input))
            == OneTurn(id, j, Held(id, j, false), map[], [])
    ensures Step(OneTurn(id, j, Held(id, j, false), map[], []), DoAttach(id))
            == OneTurn(id, j.(starter := Attached), Held(id, j, true), map[], [])
  {
    assert Held(id, j, false)[j.thread := ActiveTurn(id, true, j.startedAt)] == Held(id, j, true);
    assert map[id := j][id := j.(starter := Attached)] == map[id := j.(starter := Attached)];
  }

  lemma LoggedNext(id: string, j: Job, table: Table, completions: seq<Completion>)
    requires j.starter == Attached
    ensures Step(OneTurn(id, j, table, map[], completions), DoLogStart(id))
            == OneTurn(id, j.(starter := StartLogged), table, StartTurn(map[], j.Home(), id, j.startedAt), completions)
  {
    assert map[id := j][id := j.(starter := StartLogged)] == map[id := j.(starter := StartLogged)];
  }

  lemma OneJob(id: string, j: Job, k: Job)
    ensures map[id := j][id := k] == map[id := k]
  {
  }

  lemma TakenThenRead(id: string, j: Job, conn: string, logs: Logs<LogKey>)
    requires j.interrupt == NotTaken && LogOf(logs, LogKey(conn, j.thread)) == []
    ensures Step(OneTurn(id, j, Held(id, j, true), logs, []), DoTake(id, conn, j.thread))
            == OneTurn(id, j.(interrupt := Taken(conn)), map[], logs, [])
    ensures Step(OneTurn(id, j.(interrupt := Taken(conn)), map[], logs, []), DoReadLog(id))
            == OneTurn(id, j.(interrupt := LogRead(conn, [])), map[], logs, [])
  {
    assert Held(id, j, true) - {j.thread} == map[];
    var taken := j.(interrupt := Taken(conn));
    OneJob(id, j, taken);
    OneJob(id, taken, j.(interrupt := LogRead(conn, [])));
    assert ThreadLog(logs, LogKey(conn, j.thread)) == [];
  }

  lemma InterruptRecorded(id: string, j: Job, conn: string, logs: Logs<LogKey>, at: int, told: Turn)
    requires told == InterruptTurn(id, j, [], at) && LogOf(logs, LogKey(conn, j.thread)) == []
    ensures Step(OneTurn(id, j.(interrupt := LogRead(conn, [])), map[], logs, []), DoLogInterrupt(id, at))
            == OneTurn(id, j.(interrupt := Recorded(told)), map[], logs, [])
  {
    OneJob(id, j.(interrupt := LogRead(conn, [])), j.(interrupt := Recorded(told)));
    assert InterruptTurn(id, j.(interrupt := LogRead(conn, [])), [], at) == told;
    assert CompleteTurn(logs, LogKey(conn, j.thread), id, at, Interrupted, INTERRUPTED) == logs;
    hide InterruptTurn, CompleteTurn, LogOf;
  }

  lemma RecordedThenTold(id: string, j: Job, conn: string, logs: Logs<LogKey>, at: int, told: Turn)
    requires told == InterruptTurn(id, j, [], at) && LogOf(logs, LogKey(conn, j.thread)) == []
    ensures Step(OneTurn(id, j.(interrupt := LogRead(conn, [])), map[], logs, []), DoLogInterrupt(id, at))
            == OneTurn(id, j.(interrupt := Recorded(told)), map[], logs, [])
    ensures Step(OneTurn(id, j.(interrupt := Recorded(told)), map[], logs, []), DoTellInterrupt(id))
            == OneTurn(id, j.(interrupt := Told), map[], logs, [Completion(id, told)])
  {
    InterruptRecorded(id, j, conn, logs, at, told);
    OneJob(id, j.(interrupt := Recorded(told)), j.(interrupt := Told));
    hide InterruptTurn, CompleteTurn, LogOf;
    assert [] + [Completion(id, told)] == [Completion(id, told)];
  }

  /** Such a run tells clients the turn is completed and leaves it in progress in the log. */
  lemma EarlyInterruptLeavesOpen(id: string, home: LogKey, at: int, input: Item)
    ensures var w := Run(map[], InterruptedAtStart(id, home, at, input));
            && |w.completions| == 1 && w.completions[0].id == id && w.completions[0].turn.status == Interrupted
            && Entry(w.logs, home, id) == Some(RecordedTurn(id, at, None, InProgress, None, []))
  {
    hide Step, Run, StartTurn, OneTurn, InterruptTurn, Held;
    var actions := InterruptedAtStart(id, home, at, input);
    var reserved := Job(home.conn, home.thread, at, input, Reserved, NotSpawned, NotTaken, []);
    var j := reserved.(starter := Attached);
    var told := InterruptTurn(id, j, [], at);
    InterruptedStatus(id, j, at);
    var last := OneTurn(id, j.(interrupt := Told), map[], map[], [Completion(id, told)]);
    ReservedThenAttached(id, reserved);
    SameHeld(id, reserved, j);
    TakenThenRead(id, j, home.conn, map[]);
    RecordedThenTold(id, j, home.conn, map[], at, told);
    LoggedNext(id, j.(interrupt := Told), map[], [Completion(id, told)]);
    StartEntry(map[], home, id, at, home, id);
    LogsOfOneTurn(id, j.(interrupt := Told, starter := StartLogged), map[], StartTurn(map[], home, id, at),
                  [Completion(id, told)]);
    StepsRun(map[], actions, [
      Start(map[]),
      OneTurn(id, reserved, Held(id, reserved, false), map[], []),
      OneTurn(id, j, Held(id, reserved, true), map[], []),
      OneTurn(id, j.(interrupt := Taken(home.conn)), map[], map[], []),
      OneTurn(id, j.(interrupt := LogRead(home.conn, [])), map[], map[], []),
      OneTurn(id, j.(interrupt := Recorded(told)), map[], map[], []),
      last,
      Step(last, DoLogStart(id))]);
  }

  lemma InterruptedStatus(id: string, j: Job, at: int)
    ensures InterruptTurn(id, j, [], at).status == Interrupted
  {
  }

  lemma SameHeld(id: string, i: Job, j: Job)
    requires i.thread == j.thread && i.startedAt == j.startedAt
    ensures Held(id, i, true) == Held(id, j, true)
  {
  }

  lemma LogsOfOneTurn(id: string, j: Job, table: Table, logs: Logs<LogKey>, completions: seq<Completion>)
    ensures var w := OneTurn(id, j, table, logs, completions);
            w.logs == logs && w.completions == completions && w.jobs == map[id := j]
  {
  }

  lemma OthersEmpty(home: LogKey, key: LogKey, id: string, at: int)
    requires key != home
    ensures LogOf(StartTurn(map[], home, id, at), key) == []
  {
  }

  /** So does an interrupt from another connection, however late it comes. */
  lemma OtherConnectionLeavesOpen(id: string, home: LogKey, other: string, at: int, input: Item)
    requires other != home.conn
    ensures var w := Run(map[], InterruptedElsewhere(id, home, other, at, input));
            && |w.completions| == 1 && w.completions[0].id == id && w.completions[0].turn.status == Interrupted
            && Entry(w.logs, home, id) == Some(RecordedTurn(id, at, None, InProgress, None, []))
  {
    hide Step, Run, StartTurn, OneTurn, InterruptTurn, Held, LogOf, Entry;
    var logs := StartTurn(map[], home, id, at);
    OthersEmpty(home, LogKey(other, home.thread), id, at);
    var actions := InterruptedElsewhere(id, home, other, at, input);
    var reserved := Job(home.conn, home.thread, at, input, Reserved, NotSpawned, NotTaken, []);
    var attached := reserved.(starter := Attached);
    var j := reserved.(starter := StartLogged);
    var told := InterruptTurn(id, j, [], at);
    InterruptedStatus(id, j, at);
    var last := OneTurn(id, j.(interrupt := Told), map[], logs, [Completion(id, told)]);
    ReservedThenAttached(id, reserved);
    SameHeld(id, reserved, j);
    LoggedNext(id, attached, Held(id, j, true), []);
    TakenThenRead(id, j, other, logs);
    RecordedThenTold(id, j, other, logs, at, told);
    StartEntry(map[], home, id, at, home, id);
    LogsOfOneTurn(id, j.(interrupt := Told), map[], logs, [Completion(id, told)]);
    StepsRun(map[], actions, [
      Start(map[]),
      OneTurn(id, reserved, Held(id, reserved, false), map[], []),
      OneTurn(id, attached, Held(id, j, true), map[], []),
      OneTurn(id, j, Held(id, j, true), logs, []),
      OneTurn(id, j.(interrupt := Taken(other)), map[], logs, []),
      OneTurn(id, j.(interrupt := LogRead(other, [])), map[], logs, []),
      OneTurn(id, j.(interrupt := Recorded(told)), map[], logs, []),
      last]);
  }

  /** A chain of steps is a run. */
  lemma {:induction false} StepsRun(transcripts: map<string, seq<Turn>>, actions: seq<Action>, worlds: seq<World>)
    requires |worlds| == |actions| + 1 && worlds[0] == Start(transcripts)
    requires forall i :: 0 <= i < |actions| ==> worlds[i + 1] == Step(worlds[i], actions[i])
    ensures Run(transcripts, actions) == worlds[|actions|]
  {
    if actions != [] {
      hide Step;
      StepsRun(transcripts, actions[..|actions| - 1], worlds[..|actions|]);
    }
  }

  // ---- A steer ----

  /** A whole turn with one steer, up to its end in the log. */
  function Steered(id: string, home: LogKey, at: int, input: Item, item: Item): seq<Action> {
    [DoReserve(id, home.conn, home.thread, at, input), DoAttach(id), DoLogStart(id), DoLogInput(id),
     DoSteer(id, home.conn, item), DoEnd(id, at, None), DoRemove(id), DoLogEnd(id)]
  }

  lemma InputThenSteer(id: string, j: Job, table: Table, logs: Logs<LogKey>, item: Item)
    requires j.starter == StartLogged && j.steered == []
    requires TurnPos(LogOf(AddItem(logs, j.Home(), id, j.input), j.Home()), id) >= 0
    ensures var spawned := j.(starter := Spawned, pump := Pumping([j.input], []));
            var input := AddItem(logs, j.Home(), id, j.input);
            && Step(OneTurn(id, j, table, logs, []), DoLogInput(id)) == OneTurn(id, spawned, table, input, [])
            && Step(OneTurn(id, spawned, table, input, []), DoSteer(id, j.conn, item))
               == OneTurn(id, spawned.(steered := [item]), table, AddItem(input, j.Home(), id, item), [])
  {
    hide AddItem, TurnPos, LogOf;
    var spawned := j.(starter := Spawned, pump := Pumping([j.input], []));
    OneJob(id, j, spawned);
    OneJob(id, spawned, spawned.(steered := [item]));
    assert [] + [item] == [item];
  }

  lemma Ends(id: string, j: Job, table: Table, logs: Logs<LogKey>, at: int)
    requires j.pump == Pumping([j.input], [])
    ensures Step(OneTurn(id, j, table, logs, []), DoEnd(id, at, None))
            == OneTurn(id, j.(pump := Ended(PumpTurn(id, j, [j.input], at, None))), table, logs, [])
  {
    hide PumpTurn;
    OneJob(id, j, j.(pump := Ended(PumpTurn(id, j, [j.input], at, None))));
  }

  lemma Removes(id: string, j: Job, logs: Logs<LogKey>, turn: Turn)
    ensures Step(OneTurn(id, j.(pump := Ended(turn)), Held(id, j, true), logs, []), DoRemove(id))
            == OneTurn(id, j.(pump := Won(turn)), map[], logs, [])
  {
    OneJob(id, j.(pump := Ended(turn)), j.(pump := Won(turn)));
    assert Held(id, j, true) - {j.thread} == map[];
  }

  lemma LogsEnd(id: string, j: Job, logs: Logs<LogKey>, turn: Turn, at: int)
    requires turn.completedAt == Some(at) && turn.status == Succeeded && turn.error == None
    ensures Step(OneTurn(id, j.(pump := Won(turn)), map[], logs, []), DoLogEnd(id))
            == OneTurn(id, j.(pump := WonLogged(turn)), map[],
                       CompleteTurn(logs, j.Home(), id, at, Succeeded, None), [])
  {
    hide CompleteTurn;
    OneJob(id, j.(pump := Won(turn)), j.(pump := WonLogged(turn)));
  }

  lemma EntryIsPos(logs: Logs<LogKey>, key: LogKey, id: string)
    ensures Entry(logs, key, id).Some? <==> TurnPos(LogOf(logs, key), id) >= 0
  {
  }

  /** The job of such a run before its end. */
  function SteeredJob(home: LogKey, at: int, input: Item, item: Item): Job {
    Job(home.conn, home.thread, at, input, Spawned, Pumping([input], []), NotTaken, [item])
  }

  /** What such a run leaves. */
  lemma SteeredRun(id: string, home: LogKey, at: int, input: Item, item: Item)
    ensures var w, j := Run(map[], Steered(id, home, at, input, item)), SteeredJob(home, at, input, item);
            w.jobs == map[id := j.(pump := WonLogged(PumpTurn(id, j, [input], at, None)))]
  {
    hide Step, Run, StartTurn, AddItem, CompleteTurn, OneTurn, PumpTurn, Held, Entry, TurnPos, LogOf;
    var j := SteeredJob(home, at, input, item);
    var reserved := j.(starter := Reserved, pump := NotSpawned, steered := []);
    var attached, logged := reserved.(starter := Attached), reserved.(starter := StartLogged);
    var turn, table := PumpTurn(id, j, [input], at, None), Held(id, j, true);
    var started := StartTurn(map[], home, id, at);
    var first := AddItem(started, home, id, input);
    var logs := AddItem(first, home, id, item);
    var closed := CompleteTurn(logs, home, id, at, Succeeded, None);
    ReservedThenAttached(id, reserved);
    SameHeld(id, reserved, j);
    LoggedNext(id, attached, table, []);
    StartEntry(map[], home, id, at, home, id);
    AddEntry(started, home, id, input, home, id);
    EntryIsPos(first, home, id);
    InputThenSteer(id, logged, table, started, item);
    Ends(id, j, table, logs, at);
    Removes(id, j, logs, turn);
    TurnOfJob(id, j, [input], at);
    LogsEnd(id, j, logs, turn, at);
    LogsOfOneTurn(id, j.(pump := WonLogged(turn)), map[], closed, []);
    StepsRun(map[], Steered(id, home, at, input, item), [
      Start(map[]),
      OneTurn(id, reserved, Held(id, reserved, false), map[], []),
      OneTurn(id, attached, table, map[], []),
      OneTurn(id, logged, table, started, []),
      OneTurn(id, j.(steered := []), table, first, []),
      OneTurn(id, j, table, logs, []),
      OneTurn(id, j.(pump := Ended(turn)), table, logs, []),
      OneTurn(id, j.(pump := Won(turn)), map[], logs, []),
      OneTurn(id, j.(pump := WonLogged(turn)), map[], closed, [])]);
  }

  lemma TurnOfJob(id: string, j: Job, items: seq<Item>, at: int)
    ensures var turn := PumpTurn(id, j, items, at, None);
            turn.items == items && turn.completedAt == Some(at) && turn.status == Succeeded && turn.error == None
  {
  }

  /** After such a run the log's entry is another turn than the pump's. */
  lemma SteerPartsCopies(id: string, home: LogKey, at: int, input: Item, item: Item)
    requires item.id != input.id
    ensures var w := Run(map[], Steered(id, home, at, input, item));
            && id in w.jobs && HasTurn(w.jobs[id].pump) && Entry(w.logs, home, id).Some?
            && PlayBack(Entry(w.logs, home, id).value) != w.jobs[id].pump.turn
  {
    hide Run, PlayBack, Entry, PumpTurn, Steered;
    SteeredRun(id, home, at, input, item);
    TurnOfJob(id, SteeredJob(home, at, input, item), [input], at);
    assert !HasId([input], item.id);
    CopiesAgree(map[], Steered(id, home, at, input, item), id);
  }
}
