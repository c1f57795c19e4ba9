/**
 When an amp turn's item ids are distinct, read off the lines of the amp process: what was
 announced, the results nobody asked for and the calls that were overwritten. Put together
 with the interleaving of the turn's tasks, it says when the log's copy of the turn equals
 the stored one.
 */
module AmpDistinct {
  import opened Common
  import opened AmpTranslator
  import opened AmpConservation
  import opened AmpLog
  import opened AmpTurns
  import opened AmpCopies

  /** The id a block announces: a text's fresh uuid, or the id of a call. */
  function AnnouncedByBlock(b: Block, fromUser: bool): seq<string> {
    if fromUser then []
    else
      match b
      case TextBlock(text, uuid) => if StrOr(text, "") == "" then [] else [uuid]
      case ThinkingBlock(thinking, data, uuid) =>
        if StrOr(if thinking.Missing? then data else thinking, "") == "" then [] else [uuid]
      case ToolUse(id, _, _, uuid) => [StrOr(id, uuid)]
      case _ => []
  }

  function AnnouncedByBlocks(content: seq<Block>, fromUser: bool): seq<string> {
    if content == [] then []
    else AnnouncedByBlocks(content[..|content| - 1], fromUser) + AnnouncedByBlock(content[|content| - 1], fromUser)
  }

  function AnnouncedBy(v: Value): seq<string> {
    match v
    case Assistant(_, content, _, _) => AnnouncedByBlocks(content, false)
    case User(_, content) => AnnouncedByBlocks(content, true)
    case _ => []
  }

  /** The ids some lines announce, in order. */
  function Announced(values: seq<Value>): seq<string> {
    if values == [] then [] else Announced(values[..|values| - 1]) + AnnouncedBy(values[|values| - 1])
  }

  lemma BlockStarts(s: State, parent: Option<string>, b: Block, fromUser: bool)
    ensures var next := if fromUser then UserBlock(s, parent, b) else AssistantBlock(s, parent, b);
            StartedIds(next.notes) == StartedIds(s.notes) + AnnouncedByBlock(b, fromUser)
  {
    hide StartedIds, CompletedIds;
    var ids := StartedIds(s.notes);
    assert ids + [] == ids;
    if fromUser {
      UserStarts(s, parent, b);
    } else {
      match b
      case TextBlock(member, uuid) =>
        var text := StrOr(member, "");
        TextStarts(s, Started(AgentMessage(uuid, ""), parent), AgentDelta(uuid, text, parent), AgentMessage(uuid, text),
                   parent);
      case ThinkingBlock(thinking, data, uuid) =>
        var text := StrOr(if thinking.Missing? then data else thinking, "");
        TextStarts(s, Started(Reasoning(uuid, []), parent), ReasoningDelta(uuid, text, parent), Reasoning(uuid, [text]),
                   parent);
      case ToolUse(id, name, input, uuid) =>
        IdsAppend(s.notes, Started(DynamicTool(StrOr(id, uuid), StrOr(name, "unknown"), ValueOr(input, "{}"), Running,
                                               None, None), parent));
      case _ =>
    }
  }

  lemma TextStarts(s: State, shell: Note, delta: Note, item: Item, parent: Option<string>)
    requires shell.Started? && (delta.AgentDelta? || delta.ReasoningDelta?)
    ensures StartedIds(Finish(Say(s, [shell, delta]), item, parent).notes) == StartedIds(s.notes) + [shell.item.id]
  {
    hide StartedIds, CompletedIds;
    SayTwice(s, shell, delta);
    IdsAppend(s.notes, shell);
    IdsAppend(s.notes + [shell], delta);
    IdsAppend(s.notes + [shell] + [delta], Completed(item, parent));
    var ids := StartedIds(s.notes) + [shell.item.id];
    assert ids + [] == ids;
  }

  lemma UserStarts(s: State, parent: Option<string>, b: Block)
    ensures StartedIds(UserBlock(s, parent, b).notes) == StartedIds(s.notes)
  {
    if b.ToolResult? && b.toolUseId.Str? {
      var note := UserBlock(s, parent, b).notes[|s.notes|];
      hide StartedIds;
      IdsAppend(s.notes, note);
      assert StartedIds(s.notes) + [] == StartedIds(s.notes);
    }
  }

  lemma {:induction false} BlocksStart(s: State, parent: Option<string>, content: seq<Block>, fromUser: bool)
    ensures StartedIds(Blocks(s, parent, content, fromUser).notes)
            == StartedIds(s.notes) + AnnouncedByBlocks(content, fromUser)
  {
    hide StartedIds, AssistantBlock, UserBlock, AnnouncedByBlock;
    if content == [] {
      assert StartedIds(s.notes) + [] == StartedIds(s.notes);
    } else {
      var front, b := content[..|content| - 1], content[|content| - 1];
      BlocksStart(s, parent, front, fromUser);
      BlockStarts(Blocks(s, parent, front, fromUser), parent, b, fromUser);
      var ids, more := AnnouncedByBlocks(front, fromUser), AnnouncedByBlock(b, fromUser);
      assert StartedIds(s.notes) + ids + more == StartedIds(s.notes) + (ids + more);
    }
  }

  lemma TranslateStarts(s: State, v: Value, order: seq<string>)
    requires forall id :: id in order ==> id in s.pending && s.pending[id].id == id
    ensures StartedIds(Translate(s, v, order).notes) == StartedIds(s.notes) + AnnouncedBy(v)
  {
    hide StartedIds, Blocks, Drain, AnnouncedByBlocks;
    assert StartedIds(s.notes) + [] == StartedIds(s.notes);
    match v
    case Assistant(parent, content, usage, _) =>
      BlocksStart(s, parent, content, false);
      UsageStarts(Blocks(s, parent, content, false), usage);
    case User(parent, content) => BlocksStart(s, parent, content, true);
    case Result(usage, _) =>
      UsageStarts(s, usage);
      DrainBalanced(Usage(s, usage), order, s.pending);
    case OtherValue =>
  }

  lemma UsageStarts(s: State, usage: bool)
    ensures StartedIds(Usage(s, usage).notes) == StartedIds(s.notes)
  {
    hide StartedIds;
    IdsAppend(s.notes, TokenUsage);
    assert StartedIds(s.notes) + [] == StartedIds(s.notes);
  }

  /** The ids started are those the lines announce, in order. */
  lemma {:induction false} StartedAreAnnounced(states: seq<State>, initial: seq<Item>, values: seq<Value>,
                                               orders: seq<seq<string>>, k: nat)
    requires IsRun(states, initial, values, orders) && k <= |values|
    ensures StartedIds(states[k].notes) == Announced(values[..k])
  {
    hide Translate, AnnouncedBy;
    if k > 0 {
      StartedAreAnnounced(states, initial, values, orders, k - 1);
      RunInvariant(states, initial, values, orders, k - 1);
      hide StartedIds, CompletedIds, Kept, Books;
      TranslateStarts(states[k - 1], values[k - 1], orders[k - 1]);
      assert values[..k][..k - 1] == values[..k - 1];
    }
  }

  function ItemIds(items: seq<Item>): seq<string> {
    seq(|items|, i requires 0 <= i < |items| => items[i].id)
  }

  lemma {:induction false} CompletedHaveIds(notes: seq<Note>)
    ensures ItemIds(CompletedItems(notes)) == CompletedIds(notes)
  {
    if notes != [] {
      CompletedHaveIds(notes[..|notes| - 1]);
    }
  }

  lemma {:induction false} DistinctIff(ids: seq<string>)
    ensures Distinct(ids) <==> forall x: string :: multiset(ids)[x] <= 1
  {
    if ids != [] {
      var front, last := ids[..|ids| - 1], ids[|ids| - 1];
      assert front + [last] == ids;
      DistinctIff(front);
      DistinctAppend(front, last);
      assert multiset(ids) == multiset(front) + multiset{last};
      if Distinct(front) && last !in front {
        forall x: string ensures multiset(ids)[x] <= 1 {
        }
      } else if last in front {
        assert multiset(ids)[last] >= 2;
      } else {
        var x: string :| multiset(front)[x] > 1;
        assert multiset(ids)[x] > 1;
      }
    }
  }

  /** How often an id may still come without coming twice, by the ledger of the lines. */
  ghost predicate EachOnce(initial: seq<Item>, values: seq<Value>) {
    var l := Books(values);
    forall x: string ::
      multiset(ItemIds(initial))[x] + multiset(Announced(values))[x] + l.orphans[x]
      <= 1 + l.overwritten[x] + multiset(l.due)[x]
  }

  /**
   The items of a turn have distinct ids, if and only if no id comes twice among the initial
   items, the ids the lines announce and the results nobody asked for, not counting the calls
   that were overwritten or are still due.
   */
  lemma ItemsDistinctIff(states: seq<State>, initial: seq<Item>, values: seq<Value>, orders: seq<seq<string>>)
    requires IsRun(states, initial, values, orders)
    ensures DistinctItemIds(states[|values|].items) <==> EachOnce(initial, values)
  {
    var s, l := states[|values|], Books(values);
    assert values[..|values|] == values;
    RunInvariant(states, initial, values, orders, |values|);
    StartedAreAnnounced(states, initial, values, orders, |values|);
    KeptIds(s, initial);
    hide IsRun, Books, StartedIds, CompletedIds, Announced, Kept, ItemIds, Distinct, DistinctItemIds;
    OnceIff(ItemIds(initial), Announced(values), CompletedIds(s.notes), l);
  }

  lemma KeptIds(s: State, initial: seq<Item>)
    requires Kept(s, initial)
    ensures DistinctItemIds(s.items) <==> Distinct(ItemIds(initial) + CompletedIds(s.notes))
  {
    hide CompletedIds, CompletedItems;
    CompletedHaveIds(s.notes);
    assert ItemIds(s.items) == ItemIds(initial) + ItemIds(s.completed);
    assert forall i :: 0 <= i < |s.items| ==> ItemIds(s.items)[i] == s.items[i].id;
  }

  lemma OnceIff(initial: seq<string>, started: seq<string>, done: seq<string>, l: Ledger)
    requires multiset(started) + l.orphans == multiset(done) + multiset(l.due) + l.overwritten
    ensures Distinct(initial + done) <==> forall x: string ::
              multiset(initial)[x] + multiset(started)[x] + l.orphans[x] <= 1 + l.overwritten[x] + multiset(l.due)[x]
  {
    hide Distinct;
    DistinctIff(initial + done);
    forall x: string
      ensures multiset(initial + done)[x] + l.overwritten[x] + multiset(l.due)[x]
              == multiset(initial)[x] + multiset(started)[x] + l.orphans[x]
    {
      SameCount(multiset(started), l.orphans, multiset(done), multiset(l.due), l.overwritten, x);
      assert multiset(initial + done)[x] == multiset(initial)[x] + multiset(done)[x];
    }
  }

  lemma SameCount(a: multiset<string>, o: multiset<string>, c: multiset<string>, d: multiset<string>,
                  w: multiset<string>, x: string)
    requires a + o == c + d + w
    ensures a[x] + o[x] == c[x] + d[x] + w[x]
  {
    assert (a + o)[x] == (c + d + w)[x];
  }

  /** Calls with fresh ids, each answered at most once after its call, and fresh uuids. */
  lemma PairedEachOnce(initial: seq<Item>, values: seq<Value>)
    requires forall i :: 0 <= i < |values| - 1 ==> !values[i].Result?
    requires WellPaired(Events(values)) && Distinct(ItemIds(initial) + Announced(values))
    ensures EachOnce(initial, values)
  {
    hide Announced, WellPaired;
    var ids := ItemIds(initial) + Announced(values);
    DistinctIff(ids);
    assert forall x: string :: multiset(ids)[x] == multiset(ItemIds(initial))[x] + multiset(Announced(values))[x];
    if values != [] {
      NoOrphans(values);
    }
  }

  lemma NoOrphans(values: seq<Value>)
    requires values != [] && forall i :: 0 <= i < |values| - 1 ==> !values[i].Result?
    requires WellPaired(Events(values))
    ensures Books(values).orphans == multiset{}
  {
    hide WellPaired;
    if values[|values| - 1].Result? {
      var front := values[..|values| - 1];
      BooksAreEvents(front);
      assert Events(values) == Events(front) + [] == Events(front);
      PairedBooks(Events(front));
    } else {
      BooksAreEvents(values);
      PairedBooks(Events(values));
    }
  }

  // ---- The turn these lines make ----

  /** The pump of turn `id` takes the items this step hands over. */
  ghost predicate Feeds(w: World, a: Action, id: string) {
    a.DoTranslate? && a.id == id && id in w.jobs && w.jobs[id].pump.Pumping? && w.jobs[id].pump.due == []
  }

  /** All the completed items the translator of turn `id` has handed to its pump. */
  ghost function Fed(transcripts: map<string, seq<Turn>>, actions: seq<Action>, id: string): seq<Item> {
    if actions == [] then []
    else
      var front, last := actions[..|actions| - 1], actions[|actions| - 1];
      Fed(transcripts, front, id) + if Feeds(Run(transcripts, front), last, id) then last.completed else []
  }

  /** The pump's items are the user's message and what it was fed. */
  ghost predicate HoldsFed(w: World, id: string, fed: seq<Item>) {
    if id !in w.jobs || w.jobs[id].pump.NotSpawned? then fed == []
    else
      var j := w.jobs[id];
      (if j.pump.Pumping? then j.pump.items else j.pump.turn.items) == [j.input] + fed
  }

  lemma OwnStepHolds(w: World, a: Action, fed: seq<Item>)
    requires HoldsFed(w, a.id, fed)
    requires a.id in w.jobs && !w.jobs[a.id].pump.NotSpawned? ==> w.jobs[a.id].starter == Spawned
    ensures HoldsFed(Step(w, a), a.id, fed + if Feeds(w, a, a.id) then a.completed else [])
  {
    hide StartTurn, AddItem, CompleteTurn, RemoveIfMatches, Attach, Reserve, ThreadLog, InterruptTurn, FreshId, Times,
         StoredOf;
    assert fed + [] == fed && (a.id in w.jobs ==> [w.jobs[a.id].input] + [] == [w.jobs[a.id].input]);
    if a.id in w.jobs {
      KnownNotReserved(w, a);
    }
    if Feeds(w, a, a.id) {
      var input := w.jobs[a.id].input;
      assert [input] + fed + a.completed == [input] + (fed + a.completed);
    }
  }

  lemma PumpIsSpawned(w: World, id: string)
    requires Owned(w) && id in w.jobs
    ensures !w.jobs[id].pump.NotSpawned? ==> w.jobs[id].starter == Spawned
  {
    hide Times, TableOwned;
    assert OneOwner(w, id);
  }

  lemma {:induction false} PumpHoldsFed(transcripts: map<string, seq<Turn>>, actions: seq<Action>, id: string)
    ensures HoldsFed(Run(transcripts, actions), id, Fed(transcripts, actions, id))
  {
    if actions != [] {
      var front, a := actions[..|actions| - 1], actions[|actions| - 1];
      PumpHoldsFed(transcripts, front, id);
      RunOwned(transcripts, front);
      var w, fed := Run(transcripts, front), Fed(transcripts, front, id);
      assert fed + [] == fed;
      if a.id == id {
        if id in w.jobs {
          PumpIsSpawned(w, id);
        }
        hide HoldsFed, Step, OneOwner;
        OwnStepHolds(w, a, fed);
      } else {
        hide Step, OneOwner, OthersKept, Times;
        StepLocal(w, a);
      }
    }
  }

  /**
   When the pump of a turn has been fed what the translator makes of amp's lines: once the log's
   entry is closed, the stored turn equals the turn the log plays back, if and only if no steer
   landed and no id comes twice on the lines.
   */
  lemma CopiesAgreeOnLines(transcripts: map<string, seq<Turn>>, actions: seq<Action>, id: string, states: seq<State>,
                           values: seq<Value>, orders: seq<seq<string>>)
    requires CleanTranscripts(transcripts)
    requires var w := Run(transcripts, actions); id in w.jobs && Closing(w.jobs[id].pump)
    requires var j := Run(transcripts, actions).jobs[id];
             && IsRun(states, [j.input], values, orders)
             && Fed(transcripts, actions, id) == states[|values|].completed
             && forall s :: s in j.steered ==> !HasId(j.pump.turn.items, s.id)
    ensures var w := Run(transcripts, actions);
            var entry, j := Entry(w.logs, w.jobs[id].Home(), id), w.jobs[id];
            && entry.Some?
            && (PlayBack(entry.value) == j.pump.turn <==> j.steered == [] && EachOnce([j.input], values))
  {
    hide Run, IsRun, PlayBack, Entry, HasId, EachOnce, Fed, DistinctItemIds;
    var j := Run(transcripts, actions).jobs[id];
    PumpHoldsFed(transcripts, actions, id);
    RunInvariant(states, [j.input], values, orders, |values|);
    ItemsDistinctIff(states, [j.input], values, orders);
    CopiesAgree(transcripts, actions, id);
  }

  /** So a turn without steers whose calls are paired and whose ids are fresh is the same in both copies. */
  lemma PairedCopiesAgree(transcripts: map<string, seq<Turn>>, actions: seq<Action>, id: string, states: seq<State>,
                          values: seq<Value>, orders: seq<seq<string>>)
    requires CleanTranscripts(transcripts)
    requires var w := Run(transcripts, actions); id in w.jobs && Closing(w.jobs[id].pump)
    requires var j := Run(transcripts, actions).jobs[id];
             && IsRun(states, [j.input], values, orders)
             && Fed(transcripts, actions, id) == states[|values|].completed
             && (forall s :: s in j.steered ==> !HasId(j.pump.turn.items, s.id))
             && Distinct([j.input.id] + Announced(values))
    requires WellPaired(Events(values)) && forall i :: 0 <= i < |values| - 1 ==> !values[i].Result?
    ensures var w := Run(transcripts, actions);
            var entry, j := Entry(w.logs, w.jobs[id].Home(), id), w.jobs[id];
            entry.Some? && (PlayBack(entry.value) == j.pump.turn <==> j.steered == [])
  {
    hide Run, IsRun, PlayBack, Entry, HasId, EachOnce, Fed, Announced, Events, WellPaired, Distinct;
    var j := Run(transcripts, actions).jobs[id];
    assert ItemIds([j.input]) == [j.input.id];
    PairedEachOnce([j.input], values);
    CopiesAgreeOnLines(transcripts, actions, id, states, values, orders);
  }
}
