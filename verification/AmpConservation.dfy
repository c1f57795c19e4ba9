/**
 Nothing is lost between an amp process and its turn: the items of the turn are the ones it
 started with and then every completed item in order; started and completed items balance
 exactly against the tools still due, the results nobody asked for and the calls that were
 overwritten; and the stream monitor accepts whatever is sent.
 */
module AmpConservation {
  import opened Common
  import opened AmpTranslator
  import SM = StreamMonitor

  /** A run over `values`, each drain in the order listed beside it. */
  ghost predicate IsRun(states: seq<State>, initial: seq<Item>, values: seq<Value>, orders: seq<seq<string>>) {
    && |states| == |values| + 1 && |orders| == |values|
    && states[0] == State(initial, map[], [], [])
    && forall i :: 0 <= i < |values| ==>
         DrainOrder(orders[i], states[i].pending) && states[i + 1] == Translate(states[i], values[i], orders[i])
  }

  function StartedIds(notes: seq<Note>): seq<string> {
    if notes == [] then []
    else StartedIds(notes[..|notes| - 1]) + if notes[|notes| - 1].Started? then [notes[|notes| - 1].item.id] else []
  }

  function CompletedIds(notes: seq<Note>): seq<string> {
    if notes == [] then []
    else CompletedIds(notes[..|notes| - 1]) + if notes[|notes| - 1].Completed? then [notes[|notes| - 1].item.id] else []
  }

  lemma IdsAppend(notes: seq<Note>, note: Note)
    ensures StartedIds(notes + [note]) == StartedIds(notes) + if note.Started? then [note.item.id] else []
    ensures CompletedIds(notes + [note]) == CompletedIds(notes) + if note.Completed? then [note.item.id] else []
  {
    assert (notes + [note])[..|notes|] == notes;
  }

  function CompletedItems(notes: seq<Note>): seq<Item> {
    if notes == [] then []
    else CompletedItems(notes[..|notes| - 1]) + if notes[|notes| - 1].Completed? then [notes[|notes| - 1].item] else []
  }

  lemma ItemsAppend(notes: seq<Note>, note: Note)
    ensures CompletedItems(notes + [note]) == CompletedItems(notes) + if note.Completed? then [note.item] else []
  {
    assert (notes + [note])[..|notes|] == notes;
  }

  /** A count over the blocks alone: the tools whose results are due, the results without a
      call that is due, and the calls that replaced one still due. */
  datatype Ledger = Ledger(due: set<string>, orphans: multiset<string>, overwritten: multiset<string>)

  function BookBlock(l: Ledger, b: Block, fromUser: bool): Ledger {
    if !fromUser && b.ToolUse? then
      var id := StrOr(b.id, b.uuid);
      Ledger(l.due + {id}, l.orphans, if id in l.due then l.overwritten + multiset{id} else l.overwritten)
    else if fromUser && b.ToolResult? && b.toolUseId.Str? then
      var id := b.toolUseId.s;
      Ledger(l.due - {id}, if id in l.due then l.orphans else l.orphans + multiset{id}, l.overwritten)
    else l
  }

  function BookBlocks(l: Ledger, content: seq<Block>, fromUser: bool): Ledger {
    if content == [] then l
    else BookBlock(BookBlocks(l, content[..|content| - 1], fromUser), content[|content| - 1], fromUser)
  }

  function Book(l: Ledger, v: Value): Ledger {
    match v
    case Assistant(_, content, _, _) => BookBlocks(l, content, false)
    case User(_, content) => BookBlocks(l, content, true)
    case Result(_, _) => l.(due := {})
    case OtherValue => l
  }

  function Books(values: seq<Value>): Ledger {
    if values == [] then Ledger({}, multiset{}, multiset{})
    else Book(Books(values[..|values| - 1]), values[|values| - 1])
  }

  /** Every start is matched by a completion or is still due, up to orphans and overwrites. */
  ghost predicate Balanced(s: State, l: Ledger) {
    && s.pending.Keys == l.due
    && (forall id :: id in s.pending ==> s.pending[id].id == id)
    && multiset(StartedIds(s.notes)) + l.orphans
       == multiset(CompletedIds(s.notes)) + multiset(l.due) + l.overwritten
  }

  /** The items are the initial ones followed by the completed ones, in order, and these are
      the items of the `item/completed` notifications, in order. */
  ghost predicate Kept(s: State, initial: seq<Item>) {
    s.items == initial + s.completed && s.completed == CompletedItems(s.notes)
  }

  lemma FinishKept(s: State, item: Item, parent: Option<string>, initial: seq<Item>)
    requires Kept(s, initial)
    ensures Kept(Finish(s, item, parent), initial)
  {
    ItemsAppend(s.notes, Completed(item, parent));
    assert initial + (s.completed + [item]) == (initial + s.completed) + [item];
  }

  lemma SayKept(s: State, note: Note, initial: seq<Item>)
    requires Kept(s, initial) && !note.Completed?
    ensures Kept(Say(s, [note]), initial)
  {
    ItemsAppend(s.notes, note);
  }

  lemma SayTwice(s: State, a: Note, b: Note)
    ensures Say(s, [a, b]) == Say(Say(s, [a]), [b])
  {
    assert s.notes + [a, b] == (s.notes + [a]) + [b];
  }

  lemma BlockKept(s: State, parent: Option<string>, b: Block, initial: seq<Item>)
    requires Kept(s, initial)
    ensures Kept(AssistantBlock(s, parent, b), initial) && Kept(UserBlock(s, parent, b), initial)
  {
    hide CompletedItems;
    match b
    case TextBlock(member, uuid) =>
      var text := StrOr(member, "");
      var a, d := Started(AgentMessage(uuid, ""), parent), AgentDelta(uuid, text, parent);
      SayTwice(s, a, d);
      SayKept(s, a, initial);
      SayKept(Say(s, [a]), d, initial);
      FinishKept(Say(s, [a, d]), AgentMessage(uuid, text), parent, initial);
    case ThinkingBlock(thinking, data, uuid) =>
      var text := StrOr(if thinking.Missing? then data else thinking, "");
      var a, d := Started(Reasoning(uuid, []), parent), ReasoningDelta(uuid, text, parent);
      SayTwice(s, a, d);
      SayKept(s, a, initial);
      SayKept(Say(s, [a]), d, initial);
      FinishKept(Say(s, [a, d]), Reasoning(uuid, [text]), parent, initial);
    case ToolUse(id, name, input, uuid) =>
      SayKept(s, Started(DynamicTool(StrOr(id, uuid), StrOr(name, "unknown"), ValueOr(input, "{}"), Running, None,
              None), parent), initial);
    case ToolResult(toolUseId, content, isError) =>
      if toolUseId.Str? {
        var id, failed := toolUseId.s, ValueOr(isError, false);
        var p := if id in s.pending then s.pending[id] else Pending(id, "unknown", "{}", parent);
        FinishKept(s.(pending := s.pending - {id}),
                   DynamicTool(p.id, p.name, p.input, if failed then Broken else Done, Some(StrOr(content, "")),
                           Some(!failed)),
                   p.parent, initial);
      }
    case OtherBlock =>
  }

  lemma {:induction false} BlocksKept(s: State, parent: Option<string>, content: seq<Block>, fromUser: bool,
                                      initial: seq<Item>)
    requires Kept(s, initial)
    ensures Kept(Blocks(s, parent, content, fromUser), initial)
  {
    hide AssistantBlock, UserBlock, Kept;
    if content != [] {
      var front := content[..|content| - 1];
      BlocksKept(s, parent, front, fromUser, initial);
      BlockKept(Blocks(s, parent, front, fromUser), parent, content[|content| - 1], initial);
    }
  }

  lemma {:induction false} DrainKept(s: State, order: seq<string>, pending: map<string, Pending>, initial: seq<Item>)
    requires Kept(s, initial) && forall id :: id in order ==> id in pending
    ensures Kept(Drain(s, order, pending), initial)
  {
    hide Kept, Finish, AbandonedItem;
    if order != [] {
      var front := order[..|order| - 1];
      DrainKept(s, front, pending, initial);
      var p := pending[order[|order| - 1]];
      FinishKept(Drain(s, front, pending), AbandonedItem(p), p.parent, initial);
    }
  }

  lemma TranslateKept(s: State, v: Value, order: seq<string>, initial: seq<Item>)
    requires Kept(s, initial) && forall id :: id in order ==> id in s.pending
    ensures Kept(Translate(s, v, order), initial)
  {
    hide Blocks, Drain, CompletedItems;
    match v
    case Assistant(parent, content, usage, _) =>
      BlocksKept(s, parent, content, false, initial);
      SayKept(Blocks(s, parent, content, false), TokenUsage, initial);
    case User(parent, content) => BlocksKept(s, parent, content, true, initial);
    case Result(usage, _) =>
      SayKept(s, TokenUsage, initial);
      DrainKept(Usage(s, usage), order, s.pending, initial);
    case OtherValue =>
  }

  /** Balance, operation by operation. */
  lemma SayBalanced(s: State, note: Note, l: Ledger)
    requires Balanced(s, l) && !note.Started? && !note.Completed?
    ensures Balanced(Say(s, [note]), l)
  {
    IdsAppend(s.notes, note);
    assert StartedIds(s.notes) + [] == StartedIds(s.notes) && CompletedIds(s.notes) + [] == CompletedIds(s.notes);
  }

  /** Multiset bookkeeping: one more id on both sides, wherever it is put. */
  lemma AddBoth(a: multiset<string>, o: multiset<string>, c: multiset<string>, d: multiset<string>,
                w: multiset<string>, x: string)
    requires a + o == c + d + w
    ensures (a + multiset{x}) + o == c + (d + multiset{x}) + w
    ensures (a + multiset{x}) + o == c + d + (w + multiset{x})
    ensures (a + multiset{x}) + o == (c + multiset{x}) + d + w
    ensures a + (o + multiset{x}) == (c + multiset{x}) + d + w
  {
    assert (a + multiset{x}) + o == (a + o) + multiset{x};
    assert a + (o + multiset{x}) == (a + o) + multiset{x};
    assert (c + d + w) + multiset{x} == c + (d + multiset{x}) + w;
    assert (c + d + w) + multiset{x} == c + d + (w + multiset{x});
    assert (c + d + w) + multiset{x} == (c + multiset{x}) + d + w;
  }

  lemma Cancel(a: multiset<string>, b: multiset<string>, c: multiset<string>, d: multiset<string>)
    requires a + b == c + d
    ensures a == c <==> b == d
  {
    forall x: string ensures a[x] + b[x] == c[x] + d[x] {
      assert (a + b)[x] == (c + d)[x];
    }
  }

  lemma StartedAppend(notes: seq<Note>, item: Item, parent: Option<string>)
    ensures multiset(StartedIds(notes + [Started(item, parent)])) == multiset(StartedIds(notes)) + multiset{item.id}
    ensures CompletedIds(notes + [Started(item, parent)]) == CompletedIds(notes)
  {
    IdsAppend(notes, Started(item, parent));
    assert CompletedIds(notes) + [] == CompletedIds(notes);
    assert multiset(StartedIds(notes) + [item.id]) == multiset(StartedIds(notes)) + multiset{item.id};
  }

  lemma CompletedAppend(notes: seq<Note>, item: Item, parent: Option<string>)
    ensures multiset(CompletedIds(notes + [Completed(item, parent)]))
            == multiset(CompletedIds(notes)) + multiset{item.id}
    ensures StartedIds(notes + [Completed(item, parent)]) == StartedIds(notes)
  {
    IdsAppend(notes, Completed(item, parent));
    assert StartedIds(notes) + [] == StartedIds(notes);
    assert multiset(CompletedIds(notes) + [item.id]) == multiset(CompletedIds(notes)) + multiset{item.id};
  }

  /** A text item is started and completed at once. */
  lemma TextBalanced(s: State, shell: Note, delta: Note, item: Item, parent: Option<string>, l: Ledger)
    requires Balanced(s, l) && shell.Started? && shell.item.id == item.id
             && (delta.AgentDelta? || delta.ReasoningDelta?)
    ensures Balanced(Finish(Say(s, [shell, delta]), item, parent), l)
  {
    hide StartedIds, CompletedIds;
    SayTwice(s, shell, delta);
    StartedAppend(s.notes, shell.item, shell.parent);
    var said := s.notes + [shell];
    IdsAppend(said, delta);
    assert StartedIds(said) + [] == StartedIds(said) && CompletedIds(said) + [] == CompletedIds(said);
    CompletedAppend(said + [delta], item, parent);
    var a, o, c, d, w := multiset(StartedIds(s.notes)), l.orphans, multiset(CompletedIds(s.notes)), multiset(l.due),
            l.overwritten;
    AddBoth(a, o, c, d, w, item.id);
  }

  lemma UseBalanced(s: State, p: Pending, parent: Option<string>, l: Ledger)
    requires Balanced(s, l)
    ensures var item := DynamicTool(p.id, p.name, p.input, Running, None, None);
            var next := Ledger(l.due + {p.id}, l.orphans,
                               if p.id in l.due then l.overwritten + multiset{p.id} else l.overwritten);
            Balanced(Say(s, [Started(item, parent)]).(pending := s.pending[p.id := p]), next)
  {
    hide StartedIds, CompletedIds;
    StartedAppend(s.notes, DynamicTool(p.id, p.name, p.input, Running, None, None), parent);
    AddBoth(multiset(StartedIds(s.notes)), l.orphans, multiset(CompletedIds(s.notes)), multiset(l.due),
            l.overwritten, p.id);
    if p.id in l.due {
      assert l.due + {p.id} == l.due;
    } else {
      assert multiset(l.due + {p.id}) == multiset(l.due) + multiset{p.id};
    }
  }

  lemma ResultBalanced(s: State, id: string, item: Item, parent: Option<string>, l: Ledger)
    requires Balanced(s, l) && item.id == id
    ensures Balanced(Finish(s.(pending := s.pending - {id}), item, parent),
                     Ledger(l.due - {id}, if id in l.due then l.orphans else l.orphans + multiset{id}, l.overwritten))
  {
    hide StartedIds, CompletedIds;
    CompletedAppend(s.notes, item, parent);
    var a, o, c, d, w := multiset(StartedIds(s.notes)), l.orphans, multiset(CompletedIds(s.notes)), multiset(l.due),
            l.overwritten;
    if id in l.due {
      var rest := multiset(l.due - {id});
      assert d == rest + multiset{id};
      assert c + (rest + multiset{id}) + w == (c + multiset{id}) + rest + w;
    } else {
      assert l.due - {id} == l.due;
      AddBoth(a, o, c, d, w, id);
    }
  }

  lemma BlockBalanced(s: State, parent: Option<string>, b: Block, fromUser: bool, l: Ledger)
    requires Balanced(s, l)
    ensures Balanced(if fromUser then UserBlock(s, parent, b) else AssistantBlock(s, parent, b),
                    BookBlock(l, b, fromUser))
  {
    hide StartedIds, CompletedIds, Finish, Say;
    match b
    case TextBlock(member, uuid) =>
      var text := StrOr(member, "");
      TextBalanced(s, Started(AgentMessage(uuid, ""), parent), AgentDelta(uuid, text, parent), AgentMessage(uuid,
              text), parent, l);
    case ThinkingBlock(thinking, data, uuid) =>
      var text := StrOr(if thinking.Missing? then data else thinking, "");
      TextBalanced(s, Started(Reasoning(uuid, []), parent), ReasoningDelta(uuid, text, parent), Reasoning(uuid,
              [text]), parent, l);
    case ToolUse(id, name, input, uuid) =>
      UseBalanced(s, Pending(StrOr(id, uuid), StrOr(name, "unknown"), ValueOr(input, "{}"), parent), parent, l);
    case ToolResult(toolUseId, content, isError) =>
      if toolUseId.Str? {
        var id, failed := toolUseId.s, ValueOr(isError, false);
        var p := if id in s.pending then s.pending[id] else Pending(id, "unknown", "{}", parent);
        ResultBalanced(s, id,
                       DynamicTool(p.id, p.name, p.input, if failed then Broken else Done, Some(StrOr(content, "")),
                               Some(!failed)),
                       p.parent, l);
      }
    case OtherBlock =>
  }

  lemma {:induction false} BlocksBalanced(s: State, parent: Option<string>, content: seq<Block>,
                                          fromUser: bool, l: Ledger)
    requires Balanced(s, l)
    ensures Balanced(Blocks(s, parent, content, fromUser), BookBlocks(l, content, fromUser))
  {
    hide AssistantBlock, UserBlock, Balanced, BookBlock;
    if content != [] {
      var front := content[..|content| - 1];
      BlocksBalanced(s, parent, front, fromUser, l);
      BlockBalanced(Blocks(s, parent, front, fromUser), parent, content[|content| - 1], fromUser, BookBlocks(l,
              front, fromUser));
    }
  }

  /** Draining completes the drained tools: what was due has its completion. */
  lemma {:induction false} DrainBalanced(s: State, order: seq<string>, pending: map<string, Pending>)
    requires forall id :: id in order ==> id in pending && pending[id].id == id
    ensures StartedIds(Drain(s, order, pending).notes) == StartedIds(s.notes)
    ensures multiset(CompletedIds(Drain(s, order, pending).notes)) == multiset(CompletedIds(s.notes)) + multiset(order)
  {
    hide StartedIds, CompletedIds;
    if order != [] {
      var front, id := order[..|order| - 1], order[|order| - 1];
      DrainBalanced(s, front, pending);
      var before := Drain(s, front, pending);
      var p := pending[id];
      IdsAppend(before.notes, Completed(AbandonedItem(p), p.parent));
      assert StartedIds(before.notes) + [] == StartedIds(before.notes);
      assert multiset(CompletedIds(before.notes) + [id]) == multiset(CompletedIds(before.notes)) + multiset{id};
      assert front + [id] == order;
    }
  }

  lemma {:induction false} OrderIsDue(order: seq<string>, due: set<string>)
    requires Distinct(order) && forall id :: id in order <==> id in due
    ensures multiset(order) == multiset(due)
  {
    if order == [] {
      assert due == {};
    } else {
      var front, id := order[..|order| - 1], order[|order| - 1];
      assert front + [id] == order;
      DistinctAppend(front, id);
      OrderIsDue(front, due - {id});
      assert multiset(due - {id}) + multiset{id} == multiset(due);
    }
  }

  lemma TranslateBalanced(s: State, v: Value, order: seq<string>, l: Ledger)
    requires Balanced(s, l) && DrainOrder(order, s.pending)
    ensures Balanced(Translate(s, v, order), Book(l, v))
  {
    hide Blocks, BookBlocks, StartedIds, CompletedIds, Drain, Distinct;
    match v
    case Assistant(parent, content, usage, _) =>
      BlocksBalanced(s, parent, content, false, l);
      SayBalanced(Blocks(s, parent, content, false), TokenUsage, BookBlocks(l, content, false));
    case User(parent, content) => BlocksBalanced(s, parent, content, true, l);
    case Result(usage, _) =>
      SayBalanced(s, TokenUsage, l);
      DrainBalanced(Usage(s, usage), order, s.pending);
      OrderIsDue(order, l.due);
    case OtherValue =>
  }

  lemma {:induction false} RunInvariant(states: seq<State>, initial: seq<Item>, values: seq<Value>,
                                        orders: seq<seq<string>>, k: nat)
    requires IsRun(states, initial, values, orders) && k <= |values|
    ensures Kept(states[k], initial) && Balanced(states[k], Books(values[..k]))
  {
    hide Translate, Book;
    if k == 0 {
      assert initial + [] == initial;
    } else {
      RunInvariant(states, initial, values, orders, k - 1);
      hide Kept, Balanced;
      TranslateKept(states[k - 1], values[k - 1], orders[k - 1], initial);
      TranslateBalanced(states[k - 1], values[k - 1], orders[k - 1], Books(values[..k - 1]));
      assert values[..k][..k - 1] == values[..k - 1];
    }
  }

  /** Main theorem: once the result line is in, no tool is pending, the items are the initial
      ones followed by every completed item in order, and started and completed ids are equal
      as multisets if and only if the results nobody was waiting for are, as a multiset, the
      calls that were overwritten. */
  lemma Conservation(states: seq<State>, initial: seq<Item>, values: seq<Value>, orders: seq<seq<string>>)
    requires IsRun(states, initial, values, orders) && values != [] && values[|values| - 1].Result?
    ensures var s, l := states[|values|], Books(values);
            && s.pending == map[]
            && s.items == initial + s.completed
            && s.completed == CompletedItems(s.notes)
            && (multiset(StartedIds(s.notes)) == multiset(CompletedIds(s.notes)) <==> l.orphans == l.overwritten)
  {
    hide StartedIds, CompletedIds, CompletedItems, Drain, BookBlocks, Blocks;
    RunInvariant(states, initial, values, orders, |values|);
    assert values[..|values|] == values;
    var s, l := states[|values|], Books(values);
    assert s == Translate(states[|values| - 1], values[|values| - 1], orders[|values| - 1]);
    assert l.due == {};
    var started, done := multiset(StartedIds(s.notes)), multiset(CompletedIds(s.notes));
    assert started + l.orphans == done + l.overwritten;
    Cancel(started, l.orphans, done, l.overwritten);
  }

  /** A result nobody asked for completes an item that was never started. */
  lemma OrphanResultUnbalances(id: string, content: Member, isError: Option<bool>)
    ensures var values := [User(None, [ToolResult(Str(id), content, isError)]), Result(false, None)];
            Books(values) == Ledger({}, multiset{id}, multiset{})
    ensures var values := [User(None, [ToolResult(Str(id), content, isError)]), Result(false, None)];
            var s := Translate(Translate(State([], map[], [], []), values[0], []), values[1], []);
            s.pending == map[] && StartedIds(s.notes) == [] && CompletedIds(s.notes) == [id]
  {
    var b := ToolResult(Str(id), content, isError);
    var values := [User(None, [b]), Result(false, None)];
    assert values[..1] == [values[0]] && [values[0]][..0] == [] && [b][..0] == [];
    var none: multiset<string>, nobody: set<string> := multiset{}, {};
    assert nobody - {id} == nobody && none + multiset{id} == multiset{id};
    assert BookBlocks(Ledger({}, none, none), [b], true) == Ledger({}, multiset{id}, none);
    assert Books([values[0]]) == Ledger({}, multiset{id}, none);
    var s := UserBlock(State([], map[], [], []), None, b);
    assert Blocks(State([], map[], [], []), None, [b], true) == s;
    IdsAppend([], s.notes[0]);
    assert s.notes == [] + [s.notes[0]];
    assert StartedIds([]) + [] == [] && CompletedIds([]) + [id] == [id];
  }

  /** A tool is called, or a result for it comes in. */
  datatype Event = Use(id: string) | Answer(id: string)

  function EventOf(b: Block, fromUser: bool): seq<Event> {
    if !fromUser && b.ToolUse? then [Use(StrOr(b.id, b.uuid))]
    else if fromUser && b.ToolResult? && b.toolUseId.Str? then [Answer(b.toolUseId.s)]
    else []
  }

  function EventsOfBlocks(content: seq<Block>, fromUser: bool): seq<Event> {
    if content == [] then []
    else EventsOfBlocks(content[..|content| - 1], fromUser) + EventOf(content[|content| - 1], fromUser)
  }

  function EventsOf(v: Value): seq<Event> {
    match v
    case Assistant(_, content, _, _) => EventsOfBlocks(content, false)
    case User(_, content) => EventsOfBlocks(content, true)
    case _ => []
  }

  function Events(values: seq<Value>): seq<Event> {
    if values == [] then [] else Events(values[..|values| - 1]) + EventsOf(values[|values| - 1])
  }

  /** Each tool is called once, and answered at most once, after its call. */
  predicate WellPaired(events: seq<Event>) {
    forall i :: 0 <= i < |events| ==>
      events[i] !in events[..i] && (events[i].Answer? ==> Use(events[i].id) in events[..i])
  }

  function BookEvent(l: Ledger, e: Event): Ledger {
    match e
    case Use(id) => Ledger(l.due + {id}, l.orphans, if id in l.due then l.overwritten + multiset{id} else l.overwritten)
    case Answer(id) => Ledger(l.due - {id}, if id in l.due then l.orphans else l.orphans + multiset{id}, l.overwritten)
  }

  function BookEvents(l: Ledger, events: seq<Event>): Ledger {
    if events == [] then l else BookEvent(BookEvents(l, events[..|events| - 1]), events[|events| - 1])
  }

  lemma {:induction false} BookEventsConcat(l: Ledger, a: seq<Event>, b: seq<Event>)
    ensures BookEvents(l, a + b) == BookEvents(BookEvents(l, a), b)
  {
    hide BookEvent;
    if b == [] {
      assert a + b == a;
    } else {
      BookEventsConcat(l, a, b[..|b| - 1]);
      assert (a + b)[..|a + b| - 1] == a + b[..|b| - 1];
    }
  }

  lemma {:induction false} BlocksBookEvents(l: Ledger, content: seq<Block>, fromUser: bool)
    ensures BookBlocks(l, content, fromUser) == BookEvents(l, EventsOfBlocks(content, fromUser))
  {
    if content != [] {
      var front, b := content[..|content| - 1], content[|content| - 1];
      BlocksBookEvents(l, front, fromUser);
      BookEventsConcat(l, EventsOfBlocks(front, fromUser), EventOf(b, fromUser));
      var before := BookBlocks(l, front, fromUser);
      assert BookEvents(before, EventOf(b, fromUser)) == BookBlock(before, b, fromUser) by {
        if EventOf(b, fromUser) != [] {
          assert EventOf(b, fromUser)[..0] == [];
        }
      }
    }
  }

  lemma {:induction false} BooksAreEvents(values: seq<Value>)
    requires forall v :: v in values ==> !v.Result?
    ensures Books(values) == BookEvents(Ledger({}, multiset{}, multiset{}), Events(values))
  {
    hide BookBlocks, EventsOfBlocks;
    if values != [] {
      var front, v := values[..|values| - 1], values[|values| - 1];
      BooksAreEvents(front);
      BookEventsConcat(Ledger({}, multiset{}, multiset{}), Events(front), EventsOf(v));
      if v.Assistant? || v.User? {
        BlocksBookEvents(Books(front), v.content, v.User?);
      }
    }
  }

  lemma PairedFront(front: seq<Event>, last: Event)
    requires WellPaired(front + [last])
    ensures WellPaired(front) && last !in front && (last.Answer? ==> Use(last.id) in front)
  {
    var events := front + [last];
    forall i | 0 <= i < |front| ensures front[i] == events[i] && front[..i] == events[..i] {
    }
    assert events[|front|] == last && events[..|front|] == front;
  }

  /** The ledger of well-paired events: nothing orphaned, nothing overwritten, and due is what
      was called and not answered. */
  ghost predicate CleanBooks(l: Ledger, events: seq<Event>) {
    && l.orphans == multiset{} && l.overwritten == multiset{}
    && forall id :: id in l.due <==> Use(id) in events && Answer(id) !in events
  }

  lemma CleanStep(l: Ledger, front: seq<Event>, last: Event)
    requires CleanBooks(l, front) && last !in front
    requires if last.Answer? then Use(last.id) in front else Answer(last.id) !in front
    ensures CleanBooks(BookEvent(l, last), front + [last])
  {
    forall e: Event ensures e in front + [last] <==> e in front || e == last {
    }
  }

  /** An answer never precedes its call. */
  lemma {:induction false} AnswersFollow(events: seq<Event>, id: string)
    requires WellPaired(events) && Answer(id) in events
    ensures Use(id) in events
  {
    var i :| 0 <= i < |events| && events[i] == Answer(id);
    assert Use(id) in events[..i];
  }

  lemma {:induction false} PairedBooks(events: seq<Event>)
    requires WellPaired(events)
    ensures CleanBooks(BookEvents(Ledger({}, multiset{}, multiset{}), events), events)
  {
    if events != [] {
      var front, last := events[..|events| - 1], events[|events| - 1];
      assert events == front + [last];
      PairedFront(front, last);
      PairedBooks(front);
      if last.Use? && Answer(last.id) in front {
        AnswersFollow(front, last.id);
      }
      hide WellPaired, CleanBooks, BookEvent;
      CleanStep(BookEvents(Ledger({}, multiset{}, multiset{}), front), front, last);
    }
  }

  /** With every tool called once and answered at most once after its call, the ids started
      and the ids completed are the same multiset once the result line is in. */
  lemma StartedEqualsCompleted(states: seq<State>, initial: seq<Item>, values: seq<Value>, orders: seq<seq<string>>)
    requires IsRun(states, initial, values, orders) && values != []
    requires var n := |values| - 1; values[n].Result? && forall v :: v in values[..n] ==> !v.Result?
    requires WellPaired(Events(values))
    ensures multiset(StartedIds(states[|values|].notes)) == multiset(CompletedIds(states[|values|].notes))
  {
    hide StartedIds, CompletedIds, IsRun, WellPaired;
    var front := values[..|values| - 1];
    Conservation(states, initial, values, orders);
    BooksAreEvents(front);
    assert Events(values) == Events(front) + [] == Events(front);
    PairedBooks(Events(front));
  }

  /** The JSON of an item as the monitor reads it. */
  function View(item: Item): SM.ItemView<string> {
    match item
    case AgentMessage(id, text) => SM.ItemView(Some(id), Some("agentMessage"), Some(text), None)
    case Reasoning(id, content) => SM.ItemView(Some(id), Some("reasoning"), None, Some(content))
    case DynamicTool(id, _, _, _, _, _) => SM.ItemView(Some(id), Some("dynamicToolCall"), None, None)
    case UserMessage(id, _) => SM.ItemView(Some(id), Some("userMessage"), None, Some([]))
  }

  function FrameOf(step: string, note: Note): SM.Frame<string> {
    SM.Frame(step, true,
             match note
             case Started(item, _) => SM.ItemStarted(Some(View(item)))
             case AgentDelta(id, delta, _) => SM.AgentDelta(Some(id), Some(delta))
             case ReasoningDelta(id, delta, _) => SM.ReasoningDelta(Some(id), Some(delta))
             case Completed(item, _) => SM.ItemCompleted(Some(View(item)))
             case TokenUsage => SM.OtherNotification)
  }

  function Transcript(step: string, notes: seq<Note>): seq<SM.Frame<string>> {
    seq(|notes|, i requires 0 <= i < |notes| => FrameOf(step, notes[i]))
  }

  ghost function Watched(step: string, notes: seq<Note>): SM.Monitor<string> {
    SM.Watch(SM.Fresh(), Transcript(step, notes))
  }

  ghost predicate AtRest(m: SM.Monitor<string>) {
    m.findings == [] && forall id :: id in m.items ==> m.items[id].completed
  }

  lemma WatchedAppend(step: string, notes: seq<Note>, note: Note)
    ensures Watched(step, notes + [note]) == SM.Observe(Watched(step, notes), FrameOf(step, note))
  {
    SM.WatchAppend(SM.Fresh(), Transcript(step, notes), FrameOf(step, note));
    assert Transcript(step, notes + [note]) == Transcript(step, notes) + [FrameOf(step, note)];
  }

  /** A tool notification or a usage report: nothing the monitor follows. */
  lemma QuietAtRest(step: string, notes: seq<Note>, note: Note)
    requires AtRest(Watched(step, notes))
    requires note.TokenUsage? || ((note.Started? || note.Completed?) && note.item.DynamicTool?)
    ensures AtRest(Watched(step, notes + [note]))
  {
    hide Watched;
    WatchedAppend(step, notes, note);
  }

  lemma AgentAtRest(step: string, notes: seq<Note>, id: string, text: string, parent: Option<string>)
    requires AtRest(Watched(step, notes)) && text != ""
    ensures AtRest(Watched(step, notes + [Started(AgentMessage(id, ""), parent), AgentDelta(id, text, parent)]
                                 + [Completed(AgentMessage(id, text), parent)]))
  {
    hide Watched;
    var a, b, c := Started(AgentMessage(id, ""), parent), AgentDelta(id, text, parent), Completed(AgentMessage(id,
            text), parent);
    WatchedAppend(step, notes, a);
    WatchedAppend(step, notes + [a], b);
    WatchedAppend(step, notes + [a] + [b], c);
    assert notes + [a, b] + [c] == notes + [a] + [b] + [c];
    assert "" + text == text;
  }

  lemma ReasoningAtRest(step: string, notes: seq<Note>, id: string, text: string, parent: Option<string>)
    requires AtRest(Watched(step, notes)) && text != ""
    ensures AtRest(Watched(step, notes + [Started(Reasoning(id, []), parent), ReasoningDelta(id, text, parent)]
                                 + [Completed(Reasoning(id, [text]), parent)]))
  {
    hide Watched;
    var a, b, c := Started(Reasoning(id, []), parent), ReasoningDelta(id, text, parent), Completed(Reasoning(id,
            [text]), parent);
    WatchedAppend(step, notes, a);
    WatchedAppend(step, notes + [a], b);
    WatchedAppend(step, notes + [a] + [b], c);
    assert notes + [a, b] + [c] == notes + [a] + [b] + [c];
    assert "" + text == text;
    FlattenAppend([], text);
    assert [] + [text] == [text];
  }

  lemma BlockAtRest(step: string, s: State, parent: Option<string>, b: Block)
    requires AtRest(Watched(step, s.notes))
    ensures AtRest(Watched(step, AssistantBlock(s, parent, b).notes))
            && AtRest(Watched(step, UserBlock(s, parent, b).notes))
  {
    hide AtRest, Watched;
    match b
    case TextBlock(member, uuid) =>
      var text := StrOr(member, "");
      if text != "" {
        AgentAtRest(step, s.notes, uuid, text, parent);
      }
    case ThinkingBlock(thinking, data, uuid) =>
      var text := StrOr(if thinking.Missing? then data else thinking, "");
      if text != "" {
        ReasoningAtRest(step, s.notes, uuid, text, parent);
      }
    case ToolUse(id, name, input, uuid) =>
      QuietAtRest(step, s.notes, Started(DynamicTool(StrOr(id, uuid), StrOr(name, "unknown"), ValueOr(input, "{}"),
              Running, None, None), parent));
    case ToolResult(toolUseId, content, isError) =>
      if toolUseId.Str? {
        var id, failed := toolUseId.s, ValueOr(isError, false);
        var p := if id in s.pending then s.pending[id] else Pending(id, "unknown", "{}", parent);
        QuietAtRest(step, s.notes, Completed(
          DynamicTool(p.id, p.name, p.input, if failed then Broken else Done, Some(StrOr(content, "")),
                  Some(!failed)), p.parent));
      }
    case OtherBlock =>
  }

  lemma {:induction false} BlocksAtRest(step: string, s: State, parent: Option<string>,
                                        content: seq<Block>, fromUser: bool)
    requires AtRest(Watched(step, s.notes))
    ensures AtRest(Watched(step, Blocks(s, parent, content, fromUser).notes))
  {
    hide AtRest, Watched, AssistantBlock, UserBlock;
    if content != [] {
      BlocksAtRest(step, s, parent, content[..|content| - 1], fromUser);
      BlockAtRest(step, Blocks(s, parent, content[..|content| - 1], fromUser), parent, content[|content| - 1]);
    }
  }

  lemma {:induction false} DrainAtRest(step: string, s: State, order: seq<string>, pending: map<string, Pending>)
    requires AtRest(Watched(step, s.notes)) && forall id :: id in order ==> id in pending
    ensures AtRest(Watched(step, Drain(s, order, pending).notes))
  {
    hide AtRest, Watched;
    if order != [] {
      DrainAtRest(step, s, order[..|order| - 1], pending);
      var p := pending[order[|order| - 1]];
      QuietAtRest(step, Drain(s, order[..|order| - 1], pending).notes, Completed(AbandonedItem(p), p.parent));
    }
  }

  lemma TranslateAtRest(step: string, s: State, v: Value, order: seq<string>)
    requires AtRest(Watched(step, s.notes)) && forall id :: id in order ==> id in s.pending
    ensures AtRest(Watched(step, Translate(s, v, order).notes))
  {
    hide AtRest, Watched, Blocks, Drain;
    match v
    case Assistant(parent, content, usage, _) =>
      BlocksAtRest(step, s, parent, content, false);
      QuietAtRest(step, Blocks(s, parent, content, false).notes, TokenUsage);
    case User(parent, content) => BlocksAtRest(step, s, parent, content, true);
    case Result(usage, _) =>
      QuietAtRest(step, s.notes, TokenUsage);
      DrainAtRest(step, Usage(s, usage), order, s.pending);
    case OtherValue =>
  }

  lemma {:induction false} RunAtRest(step: string, states: seq<State>, initial: seq<Item>, values: seq<Value>,
                                     orders: seq<seq<string>>, k: nat)
    requires IsRun(states, initial, values, orders) && k <= |values|
    ensures AtRest(Watched(step, states[k].notes))
  {
    if k > 0 {
      hide AtRest, Watched, Translate, Distinct;
      RunAtRest(step, states, initial, values, orders, k - 1);
      TranslateAtRest(step, states[k - 1], values[k - 1], orders[k - 1]);
    }
  }

  /** The monitor accepts the notifications of every run, at every point. */
  lemma RunAccepted(step: string, states: seq<State>, initial: seq<Item>, values: seq<Value>,
                    orders: seq<seq<string>>, k: nat)
    requires IsRun(states, initial, values, orders) && k <= |values|
    ensures SM.Accepts(Transcript(step, states[k].notes))
  {
    hide IsRun;
    RunAtRest(step, states, initial, values, orders, k);
  }
}
