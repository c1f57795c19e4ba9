/**
 What an amp turn says when it is over, read off the steps of its tasks: its status, error and
 times, in the turn the pump stores, in the log, in the transcript and in the notification, and
 the same of a turn that was interrupted. Transcripts hold exactly the turns that were stored.
 */
module AmpTurnEnds {
  import opened Common
  import opened AmpTranslator
  import opened AmpLog
  import opened AmpTurns
  import opened AmpCopies

  /** The step does something in this world. */
  ghost predicate Possible(w: World, a: Action) {
    match a
    case DoReserve(id, _, thread, _, _) => FreshId(w, id) && thread !in w.table
    case DoEnd(id, _, _) => id in w.jobs && w.jobs[id].pump.Pumping? && w.jobs[id].pump.due == []
    case DoReadLog(id) => id in w.jobs && w.jobs[id].interrupt.Taken?
    case DoLogInterrupt(id, _) => id in w.jobs && w.jobs[id].interrupt.LogRead?
    case DoStore(id, ok) => id in w.jobs && w.jobs[id].pump.WonLogged? && ok
    case _ => a.id in w.jobs
  }

  /** Somewhere in the run this step was taken. */
  ghost predicate Happened(transcripts: map<string, seq<Turn>>, actions: seq<Action>, a: Action) {
    exists k :: 0 <= k < |actions| && actions[k] == a && Possible(Run(transcripts, actions[..k]), a)
  }

  /** The items an interrupt finds: those of the last turn in the log of its connection. */
  ghost function ItemsFound(w: World, id: string): seq<Item>
    requires id in w.jobs && w.jobs[id].interrupt.Taken?
  {
    var log := LogOf(w.logs, LogKey(w.jobs[id].interrupt.conn, w.jobs[id].thread));
    if log == [] then [] else log[|log| - 1].items
  }

  ghost predicate Found(transcripts: map<string, seq<Turn>>, actions: seq<Action>, id: string, items: seq<Item>) {
    exists k :: 0 <= k < |actions| && actions[k] == DoReadLog(id)
                && var w := Run(transcripts, actions[..k]);
                   Possible(w, actions[k]) && items == ItemsFound(w, id)
  }

  /** The turn, field by field; the duration is in milliseconds and never negative. */
  predicate TurnSays(t: Turn, id: string, startedAt: int, at: int, status: TurnStatus, error: Option<string>) {
    && t.id == id && t.status == status && t.error == error
    && t.startedAt == Some(startedAt) && t.completedAt == Some(at)
    && t.durationMs == Some(if at < startedAt then 0 else (at - startedAt) * 1000)
  }

  /** The turn of a pump that ended: failed exactly if there was an error, which it carries. */
  ghost predicate EndedTurn(transcripts: map<string, seq<Turn>>, actions: seq<Action>, id: string, startedAt: int,
                            t: Turn)
  {
    exists at, error :: Happened(transcripts, actions, DoEnd(id, at, error))
                        && TurnSays(t, id, startedAt, at, if error.Some? then Failed else Succeeded, error)
  }

  /** The turn of an interrupt, with the items it found. */
  ghost predicate InterruptedTurn(transcripts: map<string, seq<Turn>>, actions: seq<Action>, id: string, startedAt: int,
                                  t: Turn)
  {
    && Found(transcripts, actions, id, t.items)
    && exists at :: Happened(transcripts, actions, DoLogInterrupt(id, at))
                    && TurnSays(t, id, startedAt, at, Interrupted, Some("amp turn interrupted"))
  }

  /** What a job holds is what its steps said. */
  ghost predicate JobTruth(transcripts: map<string, seq<Turn>>, actions: seq<Action>, id: string, j: Job) {
    && Happened(transcripts, actions, DoReserve(id, j.conn, j.thread, j.startedAt, j.input))
    && (HasTurn(j.pump) ==> EndedTurn(transcripts, actions, id, j.startedAt, j.pump.turn))
    && (j.interrupt.LogRead? ==> Found(transcripts, actions, id, j.interrupt.items))
    && (j.interrupt.Recorded? ==> InterruptedTurn(transcripts, actions, id, j.startedAt, j.interrupt.turn))
  }

  /** A notification carries the turn of the pump or of the interrupt that sent it. */
  ghost predicate NoteTruth(transcripts: map<string, seq<Turn>>, actions: seq<Action>, w: World, c: Completion) {
    && c.id in w.jobs
    && (EndedTurn(transcripts, actions, c.id, w.jobs[c.id].startedAt, c.turn)
        || InterruptedTurn(transcripts, actions, c.id, w.jobs[c.id].startedAt, c.turn))
  }

  ghost predicate Truthful(transcripts: map<string, seq<Turn>>, actions: seq<Action>) {
    var w := Run(transcripts, actions);
    && (forall id :: id in w.jobs ==> JobTruth(transcripts, actions, id, w.jobs[id]))
    && (forall c :: c in w.completions ==> NoteTruth(transcripts, actions, w, c))
  }

  // ---- What has happened stays so ----

  lemma HappenedBefore(transcripts: map<string, seq<Turn>>, actions: seq<Action>, a: Action)
    requires actions != [] && Happened(transcripts, actions[..|actions| - 1], a)
    ensures Happened(transcripts, actions, a)
  {
    hide Possible, Run;
    var front := actions[..|actions| - 1];
    var k :| 0 <= k < |front| && front[k] == a && Possible(Run(transcripts, front[..k]), a);
    assert front[..k] == actions[..k] && actions[k] == a;
  }

  lemma HappensNow(transcripts: map<string, seq<Turn>>, actions: seq<Action>)
    requires actions != [] && Possible(Run(transcripts, actions[..|actions| - 1]), actions[|actions| - 1])
    ensures Happened(transcripts, actions, actions[|actions| - 1])
  {
  }

  lemma FoundBefore(transcripts: map<string, seq<Turn>>, actions: seq<Action>, id: string, items: seq<Item>)
    requires actions != [] && Found(transcripts, actions[..|actions| - 1], id, items)
    ensures Found(transcripts, actions, id, items)
  {
    hide Run;
    var front := actions[..|actions| - 1];
    var k :| 0 <= k < |front| && front[k] == DoReadLog(id)
             && var w := Run(transcripts, front[..k]); Possible(w, front[k]) && items == ItemsFound(w, id);
    assert front[..k] == actions[..k] && actions[k] == front[k];
  }

  lemma EndedBefore(transcripts: map<string, seq<Turn>>, actions: seq<Action>, id: string, startedAt: int, t: Turn)
    requires actions != [] && EndedTurn(transcripts, actions[..|actions| - 1], id, startedAt, t)
    ensures EndedTurn(transcripts, actions, id, startedAt, t)
  {
    hide Happened, TurnSays;
    var front := actions[..|actions| - 1];
    var at, error :| Happened(transcripts, front, DoEnd(id, at, error))
                     && TurnSays(t, id, startedAt, at, if error.Some? then Failed else Succeeded, error);
    HappenedBefore(transcripts, actions, DoEnd(id, at, error));
  }

  lemma InterruptedBefore(transcripts: map<string, seq<Turn>>, actions: seq<Action>, id: string, startedAt: int,
                          t: Turn)
    requires actions != [] && InterruptedTurn(transcripts, actions[..|actions| - 1], id, startedAt, t)
    ensures InterruptedTurn(transcripts, actions, id, startedAt, t)
  {
    hide Happened, TurnSays, Found;
    var front := actions[..|actions| - 1];
    FoundBefore(transcripts, actions, id, t.items);
    var at :| Happened(transcripts, front, DoLogInterrupt(id, at))
              && TurnSays(t, id, startedAt, at, Interrupted, Some("amp turn interrupted"));
    HappenedBefore(transcripts, actions, DoLogInterrupt(id, at));
  }

  lemma TruthBefore(transcripts: map<string, seq<Turn>>, actions: seq<Action>, id: string, j: Job)
    requires actions != [] && JobTruth(transcripts, actions[..|actions| - 1], id, j)
    ensures JobTruth(transcripts, actions, id, j)
  {
    hide Happened, EndedTurn, InterruptedTurn, Found;
    HappenedBefore(transcripts, actions, DoReserve(id, j.conn, j.thread, j.startedAt, j.input));
    if HasTurn(j.pump) {
      EndedBefore(transcripts, actions, id, j.startedAt, j.pump.turn);
    }
    if j.interrupt.LogRead? {
      FoundBefore(transcripts, actions, id, j.interrupt.items);
    }
    if j.interrupt.Recorded? {
      InterruptedBefore(transcripts, actions, id, j.startedAt, j.interrupt.turn);
    }
  }

  // ---- Step by step ----

  lemma PumpTurnSays(id: string, j: Job, items: seq<Item>, at: int, error: Option<string>)
    ensures TurnSays(PumpTurn(id, j, items, at, error), id, j.startedAt, at,
                     if error.Some? then Failed else Succeeded, error)
  {
  }

  lemma InterruptTurnSays(id: string, j: Job, items: seq<Item>, at: int)
    ensures InterruptTurn(id, j, items, at).items == items
    ensures TurnSays(InterruptTurn(id, j, items, at), id, j.startedAt, at, Interrupted, Some("amp turn interrupted"))
  {
  }

  /** What a step may change in its job without saying anything new about the turn. */
  predicate SaysNothingNew(j: Job, k: Job) {
    && k.conn == j.conn && k.thread == j.thread && k.startedAt == j.startedAt && k.input == j.input
    && (HasTurn(k.pump) ==> HasTurn(j.pump) && k.pump.turn == j.pump.turn)
    && (k.interrupt.LogRead? || k.interrupt.Recorded? ==> k.interrupt == j.interrupt)
  }

  lemma NothingNew(transcripts: map<string, seq<Turn>>, actions: seq<Action>, id: string, j: Job, k: Job)
    requires JobTruth(transcripts, actions, id, j) && SaysNothingNew(j, k)
    ensures JobTruth(transcripts, actions, id, k)
  {
    hide Happened, EndedTurn, InterruptedTurn, Found;
  }

  lemma OtherSteps(w: World, a: Action)
    requires a.id in w.jobs && !(a.DoEnd? && Possible(w, a)) && !(a.DoReadLog? && Possible(w, a))
    requires !(a.DoLogInterrupt? && Possible(w, a))
    ensures a.id in Step(w, a).jobs && SaysNothingNew(w.jobs[a.id], Step(w, a).jobs[a.id])
  {
    hide StartTurn, AddItem, CompleteTurn, RemoveIfMatches, Attach, Reserve, ThreadLog, PumpTurn, InterruptTurn, Holds,
         StoredOf, TurnPos;
  }

  lemma OwnTruth(transcripts: map<string, seq<Turn>>, actions: seq<Action>)
    requires actions != []
    requires var front, a := actions[..|actions| - 1], actions[|actions| - 1];
             var w := Run(transcripts, front);
             a.id in w.jobs && JobTruth(transcripts, front, a.id, w.jobs[a.id])
    ensures var a, w := actions[|actions| - 1], Run(transcripts, actions);
            a.id in w.jobs && JobTruth(transcripts, actions, a.id, w.jobs[a.id])
  {
    var front, a := actions[..|actions| - 1], actions[|actions| - 1];
    var w, id := Run(transcripts, front), a.id;
    var j := w.jobs[id];
    assert Run(transcripts, actions) == Step(w, a);
    hide Run, Happened, EndedTurn, InterruptedTurn, Found, JobTruth;
    TruthBefore(transcripts, actions, id, j);
    if a.DoEnd? && Possible(w, a) {
      HappensNow(transcripts, actions);
      EndTruth(transcripts, actions, j, a.at, a.error, id);
    } else if a.DoReadLog? && Possible(w, a) {
      ReadTruth(transcripts, actions);
    } else if a.DoLogInterrupt? && Possible(w, a) {
      HappensNow(transcripts, actions);
      InterruptTruth(transcripts, actions, j, a.at, id);
    } else {
      OtherSteps(w, a);
      hide Step;
      NothingNew(transcripts, actions, id, j, Step(w, a).jobs[id]);
    }
  }

  lemma EndTruth(transcripts: map<string, seq<Turn>>, actions: seq<Action>, j: Job, at: int, error: Option<string>,
                 id: string)
    requires JobTruth(transcripts, actions, id, j) && j.pump.Pumping?
    requires Happened(transcripts, actions, DoEnd(id, at, error))
    ensures JobTruth(transcripts, actions, id, j.(pump := Ended(PumpTurn(id, j, j.pump.items, at, error))))
  {
    hide Happened, InterruptedTurn, Found, PumpTurn, TurnSays;
    PumpTurnSays(id, j, j.pump.items, at, error);
  }

  lemma InterruptTruth(transcripts: map<string, seq<Turn>>, actions: seq<Action>, j: Job, at: int, id: string)
    requires JobTruth(transcripts, actions, id, j) && j.interrupt.LogRead?
    requires Happened(transcripts, actions, DoLogInterrupt(id, at))
    ensures JobTruth(transcripts, actions, id, j.(interrupt := Recorded(InterruptTurn(id, j, j.interrupt.items, at))))
  {
    hide Happened, EndedTurn, Found, InterruptTurn, TurnSays;
    InterruptTurnSays(id, j, j.interrupt.items, at);
  }

  lemma ReadTruth(transcripts: map<string, seq<Turn>>, actions: seq<Action>)
    requires actions != []
    requires var a, w := actions[|actions| - 1], Run(transcripts, actions[..|actions| - 1]);
             a.DoReadLog? && Possible(w, a) && JobTruth(transcripts, actions, a.id, w.jobs[a.id])
    ensures var a, w := actions[|actions| - 1], Run(transcripts, actions);
            a.id in w.jobs && JobTruth(transcripts, actions, a.id, w.jobs[a.id])
  {
    var front, a := actions[..|actions| - 1], actions[|actions| - 1];
    var w := Run(transcripts, front);
    var j := w.jobs[a.id];
    assert Run(transcripts, actions) == Step(w, a);
    hide Run, Happened, EndedTurn, InterruptedTurn, LogOf;
    assert Found(transcripts, actions, a.id, ItemsFound(w, a.id));
    hide Found;
    LastPlayed(w.logs, LogKey(j.interrupt.conn, j.thread));
    assert Step(w, a).jobs[a.id] == j.(interrupt := LogRead(j.interrupt.conn, ItemsFound(w, a.id)));
  }

  lemma LastPlayed(logs: Logs<LogKey>, key: LogKey)
    ensures var log := ThreadLog(logs, key);
            |log| == |LogOf(logs, key)| && (log != [] ==> log[|log| - 1].items == LogOf(logs, key)[|log| - 1].items)
  {
  }

  /** The notifications after a step: the old ones, and perhaps one of the step's own turn. */
  lemma StepSays(w: World, a: Action, c: Completion)
    requires c in Step(w, a).completions && c !in w.completions
    ensures a.id in w.jobs && c.id == a.id
    ensures (HasTurn(w.jobs[a.id].pump) && c.turn == w.jobs[a.id].pump.turn)
            || (w.jobs[a.id].interrupt.Recorded? && c.turn == w.jobs[a.id].interrupt.turn)
  {
    hide StartTurn, AddItem, CompleteTurn, RemoveIfMatches, Attach, Reserve, ThreadLog, PumpTurn, InterruptTurn, Holds,
         StoredOf, TurnPos, FreshId;
  }

  lemma StartedStays(w: World, a: Action, id: string)
    requires id in w.jobs
    ensures id in Step(w, a).jobs && Step(w, a).jobs[id].startedAt == w.jobs[id].startedAt
  {
    hide StartTurn, AddItem, CompleteTurn, RemoveIfMatches, Attach, Reserve, ThreadLog, PumpTurn, InterruptTurn, Holds,
         StoredOf, TurnPos;
  }

  lemma NewJobTruth(transcripts: map<string, seq<Turn>>, actions: seq<Action>)
    requires actions != []
    requires var a, w := actions[|actions| - 1], Run(transcripts, actions[..|actions| - 1]);
             a.id !in w.jobs && a.id in Step(w, a).jobs
    ensures var a, w := actions[|actions| - 1], Run(transcripts, actions);
            a.id in w.jobs && JobTruth(transcripts, actions, a.id, w.jobs[a.id])
  {
    HappensNow(transcripts, actions);
    hide FreshId, Happened, EndedTurn, InterruptedTurn, Found, Reserve;
  }

  /** In every run jobs and notifications say what the steps said. */
  lemma {:induction false} RunTruthful(transcripts: map<string, seq<Turn>>, actions: seq<Action>)
    ensures Truthful(transcripts, actions)
  {
    if actions != [] {
      var front, a := actions[..|actions| - 1], actions[|actions| - 1];
      RunTruthful(transcripts, front);
      var w, after := Run(transcripts, front), Run(transcripts, actions);
      assert after == Step(w, a);
      hide Run, Step, JobTruth, NoteTruth, OthersKept, Times;
      StepLocal(w, a);
      forall id | id in after.jobs ensures JobTruth(transcripts, actions, id, after.jobs[id]) {
        JobStays(transcripts, actions, id);
      }
      forall c | c in after.completions ensures NoteTruth(transcripts, actions, after, c) {
        NoteStays(transcripts, actions, c);
      }
    }
  }

  lemma JobStays(transcripts: map<string, seq<Turn>>, actions: seq<Action>, id: string)
    requires actions != [] && Truthful(transcripts, actions[..|actions| - 1]) && id in Run(transcripts, actions).jobs
    ensures JobTruth(transcripts, actions, id, Run(transcripts, actions).jobs[id])
  {
    var front, a := actions[..|actions| - 1], actions[|actions| - 1];
    var w := Run(transcripts, front);
    assert Run(transcripts, actions) == Step(w, a);
    hide Run, Step, JobTruth, NoteTruth, OthersKept, Times;
    StepLocal(w, a);
    if id != a.id {
      TruthBefore(transcripts, actions, id, w.jobs[id]);
    } else if id in w.jobs {
      OwnTruth(transcripts, actions);
    } else {
      NewJobTruth(transcripts, actions);
    }
  }

  lemma NoteStays(transcripts: map<string, seq<Turn>>, actions: seq<Action>, c: Completion)
    requires actions != [] && Truthful(transcripts, actions[..|actions| - 1])
    requires c in Run(transcripts, actions).completions
    ensures NoteTruth(transcripts, actions, Run(transcripts, actions), c)
  {
    var front, a := actions[..|actions| - 1], actions[|actions| - 1];
    var w := Run(transcripts, front);
    assert Run(transcripts, actions) == Step(w, a);
    hide Run, Step, EndedTurn, InterruptedTurn, Happened, Found;
    if c in w.completions {
      assert NoteTruth(transcripts, front, w, c);
      StartedStays(w, a, c.id);
      if EndedTurn(transcripts, front, c.id, w.jobs[c.id].startedAt, c.turn) {
        EndedBefore(transcripts, actions, c.id, w.jobs[c.id].startedAt, c.turn);
      } else {
        InterruptedBefore(transcripts, actions, c.id, w.jobs[c.id].startedAt, c.turn);
      }
    } else {
      StepSays(w, a, c);
      StartedStays(w, a, c.id);
      TruthBefore(transcripts, actions, c.id, w.jobs[c.id]);
    }
  }

  // ---- The copies of a turn that is over ----

  /** In every run: the turn of a pump that ended, the entry it closed in the log, the turn in the
      transcript, and the notification, all say how the turn ended. */
  lemma EndIsTold(transcripts: map<string, seq<Turn>>, actions: seq<Action>, id: string)
    requires CleanTranscripts(transcripts) && id in Run(transcripts, actions).jobs
    requires HasTurn(Run(transcripts, actions).jobs[id].pump)
    ensures var w := Run(transcripts, actions);
            var j, entry := w.jobs[id], Entry(w.logs, w.jobs[id].Home(), id);
            && EndedTurn(transcripts, actions, id, j.startedAt, j.pump.turn)
            && (Closing(j.pump) ==>
                  entry.Some? && EndedTurn(transcripts, actions, id, j.startedAt, PlayBack(entry.value)))
            && (forall i :: 0 <= i < |StoredOf(w, j.thread)| && StoredOf(w, j.thread)[i].id == id ==>
                  EndedTurn(transcripts, actions, id, j.startedAt, StoredOf(w, j.thread)[i]))
  {
    RunTruthful(transcripts, actions);
    RunFits(transcripts, actions);
    RunOwned(transcripts, actions);
    hide Run, EndedTurn, Entry, PlayBack, NoteTruth, Times, Distinct;
    var w := Run(transcripts, actions);
    var j := w.jobs[id];
    assert JobTruth(transcripts, actions, id, j) && EntryFits(id, j, Entry(w.logs, j.Home(), id));
    if Closing(j.pump) {
      ClosingIsSpawned(w, id);
      EntrySays(transcripts, actions, id, j, Entry(w.logs, j.Home(), id).value);
    }
  }

  lemma EntrySays(transcripts: map<string, seq<Turn>>, actions: seq<Action>, id: string, j: Job, e: RecordedTurn)
    requires HasTurn(j.pump) && EndedTurn(transcripts, actions, id, j.startedAt, j.pump.turn)
    requires e.turnId == id && e.startedAt == j.startedAt
    requires e.completedAt == j.pump.turn.completedAt && e.status == j.pump.turn.status && e.error == j.pump.turn.error
    ensures EndedTurn(transcripts, actions, id, j.startedAt, PlayBack(e))
  {
    hide Happened;
    var at, error :| Happened(transcripts, actions, DoEnd(id, at, error))
                     && TurnSays(j.pump.turn, id, j.startedAt, at, if error.Some? then Failed else Succeeded, error);
    assert TurnSays(PlayBack(e), id, j.startedAt, at, if error.Some? then Failed else Succeeded, error);
  }

  /** Every notification that a turn is completed says how it ended. */
  lemma AnnouncedIsTold(transcripts: map<string, seq<Turn>>, actions: seq<Action>, c: Completion)
    requires c in Run(transcripts, actions).completions
    ensures var w := Run(transcripts, actions);
            && c.id in w.jobs
            && (EndedTurn(transcripts, actions, c.id, w.jobs[c.id].startedAt, c.turn)
                || InterruptedTurn(transcripts, actions, c.id, w.jobs[c.id].startedAt, c.turn))
  {
    hide Run, EndedTurn, InterruptedTurn, JobTruth;
    RunTruthful(transcripts, actions);
    assert NoteTruth(transcripts, actions, Run(transcripts, actions), c);
  }

  /** The turns that pumps have stored in a thread's transcript, in order. */
  ghost function Filed(transcripts: map<string, seq<Turn>>, actions: seq<Action>, thread: string): seq<Turn> {
    if actions == [] then []
    else
      var front, a := actions[..|actions| - 1], actions[|actions| - 1];
      var w := Run(transcripts, front);
      Filed(transcripts, front, thread)
      + if a.DoStore? && Possible(w, a) && w.jobs[a.id].thread == thread then [w.jobs[a.id].pump.turn] else []
  }

  /** A transcript is what was on disk and then exactly those turns. */
  lemma {:induction false} TranscriptIs(transcripts: map<string, seq<Turn>>, actions: seq<Action>, thread: string)
    ensures StoredOf(Run(transcripts, actions), thread)
            == StoredOf(Start(transcripts), thread) + Filed(transcripts, actions, thread)
  {
    var before := StoredOf(Start(transcripts), thread);
    if actions == [] {
      assert before + [] == before;
    } else {
      var front, a := actions[..|actions| - 1], actions[|actions| - 1];
      hide Step;
      TranscriptIs(transcripts, front, thread);
      StepStored(Run(transcripts, front), a);
      var filed := Filed(transcripts, front, thread);
      assert before + filed + [] == before + (filed + []);
      assert a.DoStore? && Possible(Run(transcripts, front), a) ==>
               before + filed + [Run(transcripts, front).jobs[a.id].pump.turn]
               == before + (filed + [Run(transcripts, front).jobs[a.id].pump.turn]);
    }
  }
}
