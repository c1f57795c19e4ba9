/**
 Whether the log closes a turn that clients were told is completed. An interrupt may come
 between the attachment of a turn's process and the entry of the turn in the log, or from
 another connection, which has a log of its own. What it records is then dropped, and the
 turn's entry stays open for ever.
 */
module AmpClosing {
  import opened Common
  import opened AmpTranslator
  import opened AmpLog
  import opened AmpTurns
  import opened AmpCopies

  /** The interrupt of turn `id` records its completion with this step, in a log that has no entry for it. */
  ghost predicate RecordsAstray(w: World, a: Action, id: string) {
    && a.DoLogInterrupt? && a.id == id && id in w.jobs && w.jobs[id].interrupt.LogRead?
    && Entry(w.logs, LogKey(w.jobs[id].interrupt.conn, w.jobs[id].thread), id).None?
  }

  /** Somewhere in the run the interrupt of the turn recorded its completion where the turn was not logged. */
  ghost predicate RecordedAstray(transcripts: map<string, seq<Turn>>, actions: seq<Action>, id: string) {
    exists k :: 0 <= k < |actions| && RecordsAstray(Run(transcripts, actions[..k]), actions[k], id)
  }

  predicate IsClosed(e: RecordedTurn) {
    e.completedAt.Some? && e.status != InProgress
  }

  predicate IsOpen(e: RecordedTurn) {
    e.completedAt.None? && e.status == InProgress
  }

  predicate InterruptRecorded(i: Interrupt) {
    i.Recorded? || i.Told?
  }

  /** The entry is closed exactly by the pump, or by an interrupt that did not go astray. */
  ghost predicate ClosedBy(j: Job, entry: Option<RecordedTurn>, astray: bool) {
    && (astray ==> InterruptRecorded(j.interrupt))
    && (InterruptRecorded(j.interrupt) && entry.None? ==> astray)
    && (entry.Some? ==>
          if Closing(j.pump) || (InterruptRecorded(j.interrupt) && !astray)
            then IsClosed(entry.value) else IsOpen(entry.value))
  }

  ghost predicate TurnClosed(w: World, id: string, astray: bool) {
    if id in w.jobs then ClosedBy(w.jobs[id], Entry(w.logs, w.jobs[id].Home(), id), astray) else !astray
  }

  /** A step of another turn. */
  lemma OtherCloses(w: World, a: Action, id: string, astray: bool)
    requires a.id != id && TurnClosed(w, id, astray)
    ensures TurnClosed(Step(w, a), id, astray)
  {
    hide Step, Entry, ClosedBy, OthersKept, Times;
    StepEntries(w, a);
    StepLocal(w, a);
  }

  lemma StarterCloses(w: World, a: Action, astray: bool)
    requires a.id in w.jobs && OneOwner(w, a.id) && TurnClosed(w, a.id, astray)
    requires EntryFits(a.id, w.jobs[a.id], Entry(w.logs, w.jobs[a.id].Home(), a.id))
    ensures TurnClosed(StarterStep(w, a), a.id, astray)
  {
    hide StartTurn, AddItem, Entry, Attach, RemoveIfMatches, Times, Holds, RecordAll, Upsert, HasId;
    var j, id := w.jobs[a.id], a.id;
    StartEntry(w.logs, j.Home(), id, j.startedAt, j.Home(), id);
    AddEntry(w.logs, j.Home(), id, j.input, j.Home(), id);
  }

  lemma PumpCloses(w: World, a: Action, astray: bool)
    requires a.id in w.jobs && OneOwner(w, a.id) && TurnClosed(w, a.id, astray)
    requires EntryFits(a.id, w.jobs[a.id], Entry(w.logs, w.jobs[a.id].Home(), a.id))
    ensures TurnClosed(PumpStep(w, a), a.id, astray)
  {
    hide StartTurn, AddItem, CompleteTurn, Entry, Attach, RemoveIfMatches, Times, Holds, RecordAll, Upsert,
         HasId, StoredOf;
    var j, id := w.jobs[a.id], a.id;
    if a.DoRecord? && j.pump.Pumping? && j.pump.due != [] {
      AddEntry(w.logs, j.Home(), id, j.pump.due[0], j.Home(), id);
    } else if a.DoLogEnd? && j.pump.Won? {
      var t := j.pump.turn;
      CompleteEntry(w.logs, j.Home(), id, ValueOr(t.completedAt, 0), t.status, t.error, j.Home(), id);
    }
  }

  /** The interrupt closes the entry of its own log, if there is one. */
  lemma InterruptCloses(w: World, a: Action, astray: bool)
    requires a.DoLogInterrupt? && a.id in w.jobs && TurnClosed(w, a.id, astray)
    requires forall key :: Entry(w.logs, key, a.id).Some? ==> key == w.jobs[a.id].Home()
    ensures TurnClosed(ClientStep(w, a), a.id, astray || RecordsAstray(w, a, a.id))
  {
    var j, id := w.jobs[a.id], a.id;
    hide CompleteTurn, Entry, InterruptTurn, Closing, ThreadLog, StartTurn, AddItem;
    if j.interrupt.LogRead? {
      CompleteEntry(w.logs, LogKey(j.interrupt.conn, j.thread), id, a.at, Interrupted, INTERRUPTED, j.Home(), id);
    }
  }

  lemma ClientCloses(w: World, a: Action, astray: bool)
    requires a.id in w.jobs && OneOwner(w, a.id) && TableOwned(w) && TurnClosed(w, a.id, astray)
    requires forall key :: Entry(w.logs, key, a.id).Some? ==> key == w.jobs[a.id].Home()
    ensures TurnClosed(ClientStep(w, a), a.id, astray || RecordsAstray(w, a, a.id))
  {
    var j, id := w.jobs[a.id], a.id;
    if a.DoLogInterrupt? {
      InterruptCloses(w, a, astray);
    } else if a.DoSteer? {
      hide AddItem, Entry, TurnPos;
      AddEntry(w.logs, LogKey(a.conn, j.thread), id, a.item, j.Home(), id);
    } else {
      hide Entry, RemoveIfMatches, Times, ThreadLog, InterruptTurn;
      if a.DoTake? && Holds(w.table, a.thread, id) {
        assert a.thread == j.thread && j.interrupt == NotTaken;
      }
    }
  }

  lemma StepCloses(w: World, a: Action, id: string, astray: bool)
    requires Owned(w) && LogFits(w) && TurnClosed(w, id, astray)
    ensures TurnClosed(Step(w, a), id, astray || RecordsAstray(w, a, id))
  {
    hide TurnClosed, Entry, EntryFits, StarterStep, PumpStep, ClientStep, FreshId, Times;
    if a.id != id {
      OtherCloses(w, a, id, astray);
    } else if id in w.jobs {
      assert OneOwner(w, id);
      hide OneOwner;
      StarterCloses(w, a, astray);
      PumpCloses(w, a, astray);
      OnlyAtHome(w, id);
      ClientCloses(w, a, astray);
      KnownNotReserved(w, a);
    } else {
      NewTurnOpen(w, a, astray);
    }
  }

  lemma NewTurnOpen(w: World, a: Action, astray: bool)
    requires LogFits(w) && a.id !in w.jobs && TurnClosed(w, a.id, astray)
    ensures TurnClosed(Step(w, a), a.id, astray)
  {
    hide FreshId, EntryFits;
    if a.DoReserve? {
      assert TurnPos(LogOf(w.logs, LogKey(a.conn, a.thread)), a.id) == -1;
    }
  }

  lemma AstrayAppend(transcripts: map<string, seq<Turn>>, actions: seq<Action>, id: string)
    requires actions != []
    ensures RecordedAstray(transcripts, actions, id) <==>
            RecordedAstray(transcripts, actions[..|actions| - 1], id)
            || RecordsAstray(Run(transcripts, actions[..|actions| - 1]), actions[|actions| - 1], id)
  {
    hide RecordsAstray, Run;
    var front, n := actions[..|actions| - 1], |actions| - 1;
    assert forall k :: 0 <= k < n ==> front[..k] == actions[..k] && front[k] == actions[k];
    if RecordsAstray(Run(transcripts, front), actions[n], id) {
      assert RecordsAstray(Run(transcripts, actions[..n]), actions[n], id);
    }
    if RecordedAstray(transcripts, front, id) {
      var k :| 0 <= k < n && RecordsAstray(Run(transcripts, front[..k]), front[k], id);
      assert RecordsAstray(Run(transcripts, actions[..k]), actions[k], id);
    }
    if RecordedAstray(transcripts, actions, id) {
      var k :| 0 <= k < |actions| && RecordsAstray(Run(transcripts, actions[..k]), actions[k], id);
      assert k < n ==> RecordsAstray(Run(transcripts, front[..k]), front[k], id);
    }
  }

  lemma {:induction false} RunCloses(transcripts: map<string, seq<Turn>>, actions: seq<Action>, id: string)
    requires CleanTranscripts(transcripts)
    ensures TurnClosed(Run(transcripts, actions), id, RecordedAstray(transcripts, actions, id))
  {
    if actions != [] {
      var front := actions[..|actions| - 1];
      RunCloses(transcripts, front, id);
      RunFits(transcripts, front);
      RunOwned(transcripts, front);
      AstrayAppend(transcripts, actions, id);
      hide TurnClosed, Owned, LogFits, StoreFits, Step, RecordedAstray, RecordsAstray;
      StepCloses(Run(transcripts, front), actions[|actions| - 1], id, RecordedAstray(transcripts, front, id));
    }
  }

  /**
   A turn that was announced completed and is in the log of its connection is closed there, if
   and only if its interrupt did not record the completion where the turn was not logged, too
   early or in the log of another connection; otherwise the log goes on showing it in progress.
   */
  lemma AnnouncedIsClosed(transcripts: map<string, seq<Turn>>, actions: seq<Action>, id: string)
    requires CleanTranscripts(transcripts)
    requires var w := Run(transcripts, actions);
             id in w.jobs && Times(w.completions, id) > 0 && Entry(w.logs, w.jobs[id].Home(), id).Some?
    ensures var w := Run(transcripts, actions);
            var entry := Entry(w.logs, w.jobs[id].Home(), id).value;
            && (IsClosed(entry) <==> !RecordedAstray(transcripts, actions, id))
            && (IsOpen(entry) <==> RecordedAstray(transcripts, actions, id))
  {
    hide Run, Entry, RecordedAstray, Holds, Times;
    RunCloses(transcripts, actions, id);
    RunOwned(transcripts, actions);
    assert OneOwner(Run(transcripts, actions), id);
  }
}
