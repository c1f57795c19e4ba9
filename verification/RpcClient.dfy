/**
 The conformance harness's JSON-RPC client (crates/bridge-conformance/src/transport.rs):
 responses may arrive out of order and between notifications.
 */
module RpcClient {
  import opened Common

  /** The `id` member: absent, an integer, or any other value. */
  datatype IdMember = NoId | Num(n: int) | OtherId

  /** The `method` member: absent, a string, or any other value. */
  datatype MethodMember = NoMethod | Name(name: string) | OtherMethod

  datatype Frame = Frame(id: IdMember, member: MethodMember, body: string)

  /**
   What a read yields: a frame; an end of waiting (deadline, closed transport, bad line); or a
   deadline that hits inside a line, whose first part is gone with the read.
   */
  datatype Event = Line(frame: Frame) | Silence | Torn(frame: Frame)

  /** `taken` lists every event taken from the wire so far. */
  datatype State = State(pending: seq<Frame>, incoming: seq<Event>, taken: seq<Event>)

  /** The state after taking the next event from the wire. */
  function Next(s: State): State
    requires s.incoming != []
  {
    State(s.pending, s.incoming[1..], s.taken + [s.incoming[0]])
  }

  function Keep(s: State, f: Frame): State {
    s.(pending := s.pending + [f])
  }

  /** What a call gives back; a wait without a response gives back no notifications. */
  datatype Result = Result(state: State, response: Option<Frame>, notes: seq<Frame>)

  /** Position of the first frame with this id, or the length. */
  function PositionOf(frames: seq<Frame>, id: int): (p: nat)
    ensures p <= |frames|
    ensures p < |frames| ==> frames[p].id == Num(id)
    ensures forall i :: 0 <= i < p ==> frames[i].id != Num(id)
  {
    if frames == [] || frames[0].id == Num(id) then 0 else 1 + PositionOf(frames[1..], id)
  }

  function Without(frames: seq<Frame>, p: nat): seq<Frame>
    requires p < |frames|
  {
    frames[..p] + frames[p + 1..]
  }

  /** `wait_for_response` after some notifications. */
  function Await(s: State, id: int, notes: seq<Frame>): Result
    decreases |s.incoming|
  {
    var p := PositionOf(s.pending, id);
    if p < |s.pending| then Result(s.(pending := Without(s.pending, p)), Some(s.pending[p]), notes)
    else if s.incoming == [] then Result(s, None, [])
    else
      var rest := Next(s);
      match s.incoming[0]
      case Line(f) =>
        if f.id == Num(id) then Result(rest, Some(f), notes)
        else if StrayInWait(f) then Await(Keep(rest, f), id, notes)
        else Await(rest, id, notes + [f])
      case _ => Result(rest, None, [])
  }

  predicate StrayInWait(f: Frame) {
    f.id != NoId && f.member == NoMethod
  }

  /** `drain_notifications_until`, or `drain_idle` when there is no list of methods to stop at. */
  function Collect(s: State, stops: Option<set<string>>, notes: seq<Frame>): Result
    decreases |s.incoming|
  {
    if s.incoming == [] then Result(s, None, notes)
    else
      var rest := Next(s);
      match s.incoming[0]
      case Line(f) =>
        if !NoteInDrain(f, stops) then Collect(Keep(rest, f), stops, notes)
        else if stops.Some? && f.member.name in stops.value then Result(rest, None, notes + [f])
        else Collect(rest, stops, notes + [f])
      case _ => Result(rest, None, notes)
  }

  predicate NoteInDrain(f: Frame, stops: Option<set<string>>) {
    f.member.Name? || (f.member.OtherMethod? && stops.None?)
  }

  class JsonRpcClient {
    var nextId: int
    var pending: seq<Frame>
    var incoming: seq<Event>
    ghost var taken: seq<Event>

    ghost function Now(): State
      reads this
    {
      State(pending, incoming, taken)
    }

    constructor (wire: seq<Event>)
      ensures nextId == 1 && Now() == State([], wire, [])
    {
      nextId, pending, incoming, taken := 1, [], wire, [];
    }

    method SendRequest() returns (id: int)
      modifies this`nextId
      ensures id == old(nextId) && nextId == old(nextId) + 1
    {
      id := nextId;
      nextId := nextId + 1;
    }

    method TakePendingResponse(id: int) returns (response: Option<Frame>)
      modifies this`pending
      ensures var p := PositionOf(old(pending), id);
              if p == |old(pending)| then response == None && pending == old(pending)
              else response == Some(old(pending)[p]) && pending == Without(old(pending), p)
    {
      var p := 0;
      while p < |pending| && pending[p].id != Num(id)
        invariant p <= |pending|
        invariant PositionOf(pending, id) == p + PositionOf(pending[p..], id)
      {
        assert pending[p..][1..] == pending[p + 1..];
        p := p + 1;
      }
      if p == |pending| {
        return None;
      }
      response := Some(pending[p]);
      pending := pending[..p] + pending[p + 1..];
    }

    method WaitForResponse(id: int) returns (response: Option<Frame>, notes: seq<Frame>)
      modifies this`pending, this`incoming, this`taken
      ensures var r := Await(old(Now()), id, []);
              Now() == r.state && response == r.response && notes == r.notes
    {
      notes := [];
      while true
        invariant Await(Now(), id, notes) == Await(old(Now()), id, [])
        decreases |incoming|
      {
        response := TakePendingResponse(id);
        if response.Some? {
          return;
        }
        if incoming == [] {
          return None, [];
        }
        var event := incoming[0];
        taken, incoming := Next(Now()).taken, incoming[1..];
        if !event.Line? {
          return None, [];
        }
        var value := event.frame;
        if value.id == Num(id) {
          return Some(value), notes;
        }
        if value.id != NoId && value.member == NoMethod {
          pending := pending + [value];
          continue;
        }
        notes := notes + [value];
      }
    }

    method DrainNotificationsUntil(stops: set<string>) returns (notes: seq<Frame>, stoppedBy: Option<string>)
      modifies this`pending, this`incoming, this`taken
      ensures var r := Collect(old(Now()), Some(stops), []);
              Now() == r.state && notes == r.notes
      ensures stoppedBy.Some? ==> notes != [] && notes[|notes| - 1].member == Name(stoppedBy.value)
      ensures stoppedBy.Some? ==> stoppedBy.value in stops
      ensures forall i :: 0 <= i < |notes| && (i < |notes| - 1 || stoppedBy.None?) ==>
        notes[i].member.Name? && notes[i].member.name !in stops
    {
      notes := [];
      while incoming != []
        invariant Collect(Now(), Some(stops), notes) == Collect(old(Now()), Some(stops), [])
        invariant forall i :: 0 <= i < |notes| ==> notes[i].member.Name? && notes[i].member.name !in stops
        decreases |incoming|
      {
        var event := incoming[0];
        taken, incoming := Next(Now()).taken, incoming[1..];
        if !event.Line? {
          return notes, None;
        }
        var value := event.frame;
        if value.member.Name? {
          notes := notes + [value];
          if value.member.name in stops {
            return notes, Some(value.member.name);
          }
        } else {
          pending := pending + [value];
        }
      }
      stoppedBy := None;
    }

    method DrainIdle() returns (notes: seq<Frame>)
      modifies this`pending, this`incoming, this`taken
      ensures var r := Collect(old(Now()), None, []);
              Now() == r.state && notes == r.notes
    {
      notes := [];
      while incoming != []
        invariant Collect(Now(), None, notes) == Collect(old(Now()), None, [])
        decreases |incoming|
      {
        var event := incoming[0];
        taken, incoming := Next(Now()).taken, incoming[1..];
        if !event.Line? {
          return;
        }
        var value := event.frame;
        if value.member != NoMethod {
          notes := notes + [value];
        } else {
          pending := pending + [value];
        }
      }
    }
  }

  // ---- Which calls lose a frame ----

  function LineOf(e: Event): seq<Frame> {
    if e.Line? then [e.frame] else []
  }

  /** The frames read whole. */
  function Lines(events: seq<Event>): seq<Frame> {
    if events == [] then [] else Lines(events[..|events| - 1]) + LineOf(events[|events| - 1])
  }

  lemma LinesAppend(events: seq<Event>, e: Event)
    ensures Lines(events + [e]) == Lines(events) + LineOf(e)
  {
    assert (events + [e])[..|events|] == events;
  }

  lemma {:induction false} LinesConcat(a: seq<Event>, b: seq<Event>)
    ensures Lines(a + b) == Lines(a) + Lines(b)
  {
    if b == [] {
      assert a + b == a;
    } else {
      assert (a + b)[..|a + b| - 1] == a + b[..|b| - 1];
      LinesConcat(a, b[..|b| - 1]);
    }
  }

  function Picked(frames: seq<Frame>, p: Frame -> bool): seq<Frame> {
    if frames == [] then []
    else Picked(frames[..|frames| - 1], p) + (if p(frames[|frames| - 1]) then [frames[|frames| - 1]] else [])
  }

  lemma PickedAppend(frames: seq<Frame>, f: Frame, p: Frame -> bool)
    ensures Picked(frames + [f], p) == Picked(frames, p) + (if p(f) then [f] else [])
  {
    assert (frames + [f])[..|frames|] == frames;
  }

  lemma {:induction false} PickedConcat(a: seq<Frame>, b: seq<Frame>, p: Frame -> bool)
    ensures Picked(a + b, p) == Picked(a, p) + Picked(b, p)
  {
    if b == [] {
      assert a + b == a;
    } else {
      assert (a + b)[..|a + b| - 1] == a + b[..|b| - 1];
      PickedConcat(a, b[..|b| - 1], p);
    }
  }

  lemma {:induction false} PickedNone(frames: seq<Frame>, p: Frame -> bool)
    ensures Picked(frames, p) == [] <==> forall f :: f in frames ==> !p(f)
  {
    if frames != [] {
      PickedNone(frames[..|frames| - 1], p);
      assert frames == frames[..|frames| - 1] + [frames[|frames| - 1]];
    }
  }

  function AsSeq(o: Option<Frame>): seq<Frame> {
    match o
    case Some(f) => [f]
    case None => []
  }

  /** The events a call took from the wire. */
  function Slice(s: State, r: Result): seq<Event> {
    if |s.taken| <= |r.state.taken| then r.state.taken[|s.taken|..] else []
  }

  predicate NotStray(f: Frame) {
    !StrayInWait(f)
  }

  /** What a wait that began with these notifications drops: all it saw but strays, if no response came. */
  function Dropped(s: State, notes: seq<Frame>, r: Result): seq<Frame> {
    if r.response.Some? then [] else notes + Picked(Lines(Slice(s, r)), NotStray)
  }

  /** The call took its slice off the front of the wire. */
  ghost predicate Takes(s: State, r: Result) {
    && r.state.taken == s.taken + Slice(s, r)
    && s.incoming == Slice(s, r) + r.state.incoming
  }

  /** Every frame held before or read whole is now pending, returned or among `gone`. */
  ghost predicate Accounts(s: State, notes: seq<Frame>, r: Result, gone: seq<Frame>) {
    multiset(s.pending) + multiset(notes) + multiset(Lines(Slice(s, r))) ==
    multiset(r.state.pending) + multiset(AsSeq(r.response)) + multiset(r.notes) + multiset(gone)
  }

  lemma NothingTaken(s: State, r: Result)
    requires r.state.taken == s.taken && r.state.incoming == s.incoming
    ensures Takes(s, r) && Slice(s, r) == []
  {
  }

  lemma OneTaken(s: State, r: Result)
    requires s.incoming != [] && r.state.taken == Next(s).taken && r.state.incoming == Next(s).incoming
    ensures Takes(s, r) && Slice(s, r) == [s.incoming[0]]
    ensures Lines(Slice(s, r)) == LineOf(s.incoming[0])
  {
    assert Slice(s, r) == [s.incoming[0]];
    LinesAppend([], s.incoming[0]);
    assert [] + [s.incoming[0]] == [s.incoming[0]];
  }

  lemma MoreTaken(s: State, next: State, r: Result)
    requires s.incoming != [] && s.incoming[0].Line?
    requires next.taken == Next(s).taken && next.incoming == Next(s).incoming && Takes(next, r)
    ensures Takes(s, r)
    ensures Lines(Slice(s, r)) == [s.incoming[0].frame] + Lines(Slice(next, r))
  {
    hide Lines;
    var e, slice := s.incoming[0], Slice(next, r);
    assert r.state.taken == s.taken + ([e] + slice) by {
      assert s.taken + [e] + slice == s.taken + ([e] + slice);
    }
    SliceIs(s, r, [e] + slice);
    assert s.incoming == [e] + s.incoming[1..];
    assert [e] + (slice + r.state.incoming) == [e] + slice + r.state.incoming;
    LinesConcat([e], slice);
    LinesAppend([], e);
    NoLines();
    assert [] + [e] == [e];
  }

  lemma SliceIs(s: State, r: Result, slice: seq<Event>)
    requires r.state.taken == s.taken + slice
    ensures Slice(s, r) == slice
  {
  }

  lemma WithoutOne(frames: seq<Frame>, p: nat)
    requires p < |frames|
    ensures multiset(frames) == multiset(Without(frames, p)) + multiset{frames[p]}
  {
    assert frames == frames[..p] + [frames[p]] + frames[p + 1..];
  }

  lemma PickedFirst(f: Frame, rest: seq<Frame>)
    ensures Picked([f] + rest, NotStray) == (if StrayInWait(f) then [] else [f]) + Picked(rest, NotStray)
  {
    PickedConcat([f], rest, NotStray);
    PickedAppend([], f, NotStray);
    assert [] + [f] == [f];
  }

  /** A call that only moved frames it held accounts for them. */
  lemma AccountsHeld(s: State, notes: seq<Frame>, r: Result, gone: seq<Frame>)
    requires Lines(Slice(s, r)) == []
    requires multiset(s.pending) + multiset(notes) ==
             multiset(r.state.pending) + multiset(AsSeq(r.response)) + multiset(r.notes) + multiset(gone)
    ensures Accounts(s, notes, r, gone)
  {
    hide Lines, Slice, AsSeq;
  }

  /** What a wait drops does not change when one frame of it is looked at. */
  lemma DroppedStep(s: State, notes: seq<Frame>, next: State, notes': seq<Frame>, f: Frame, r: Result)
    requires Lines(Slice(s, r)) == [f] + Lines(Slice(next, r))
    requires notes' == notes + (if StrayInWait(f) then [] else [f])
    ensures Dropped(s, notes, r) == Dropped(next, notes', r)
  {
    hide Lines, Slice, Picked;
    var rest := Lines(Slice(next, r));
    PickedFirst(f, rest);
    var first := if StrayInWait(f) then [] else [f];
    assert notes + (first + Picked(rest, NotStray)) == notes + first + Picked(rest, NotStray);
  }

  /** The state and notifications a wait goes on with after a frame that is not its response. */
  function WaitOn(s: State, f: Frame): State
    requires s.incoming != []
  {
    if StrayInWait(f) then Keep(Next(s), f) else Next(s)
  }

  function Noted(notes: seq<Frame>, f: Frame): seq<Frame> {
    notes + (if StrayInWait(f) then [] else [f])
  }

  lemma AwaitGoesOn(s: State, id: int, notes: seq<Frame>)
    requires PositionOf(s.pending, id) == |s.pending|
    requires s.incoming != [] && s.incoming[0].Line? && s.incoming[0].frame.id != Num(id)
    ensures var f := s.incoming[0].frame; Await(s, id, notes) == Await(WaitOn(s, f), id, Noted(notes, f))
  {
    hide PositionOf, Without;
    assert notes + [] == notes;
  }

  lemma WaitOnShape(s: State, f: Frame, notes: seq<Frame>)
    requires s.incoming != []
    ensures WaitOn(s, f).taken == Next(s).taken && WaitOn(s, f).incoming == s.incoming[1..] == Next(s).incoming
    ensures (WaitOn(s, f).pending == s.pending + [f] && Noted(notes, f) == notes)
            || (WaitOn(s, f).pending == s.pending && Noted(notes, f) == notes + [f])
  {
    assert notes + [] == notes;
  }

  /** A wait accounts for everything but what a missing response makes it drop. */
  lemma {:induction false} AwaitAccounts(s: State, id: int, notes: seq<Frame>)
    ensures var r := Await(s, id, notes);
            && Takes(s, r)
            && Accounts(s, notes, r, Dropped(s, notes, r))
            && (r.response.Some? ==> r.response.value.id == Num(id))
    decreases |s.incoming|
  {
    hide PositionOf, Lines, Without, Slice, Picked, Takes, Accounts, WaitOn, Noted;
    if PositionOf(s.pending, id) == |s.pending| && s.incoming != [] && s.incoming[0].Line?
       && s.incoming[0].frame.id != Num(id) {
      hide Dropped;
      var f := s.incoming[0].frame;
      AwaitGoesOn(s, id, notes);
      hide Await, Next;
      var r, next := Await(s, id, notes), WaitOn(s, f);
      WaitOnShape(s, f, notes);
      AwaitAccounts(next, id, Noted(notes, f));
      MoreTaken(s, next, r);
      NotedIs(notes, f);
      DroppedStep(s, notes, next, Noted(notes, f), f, r);
      AccountsStep(s, notes, next, Noted(notes, f), r, Dropped(s, notes, r));
    } else {
      AwaitEnds(s, id, notes);
    }
  }

  lemma NotedIs(notes: seq<Frame>, f: Frame)
    ensures Noted(notes, f) == notes + (if StrayInWait(f) then [] else [f])
  {
  }

  /** A wait that takes at most one event and is over. */
  lemma AwaitEnds(s: State, id: int, notes: seq<Frame>)
    requires !(PositionOf(s.pending, id) == |s.pending| && s.incoming != [] && s.incoming[0].Line?
               && s.incoming[0].frame.id != Num(id))
    ensures var r := Await(s, id, notes);
            && Takes(s, r)
            && Accounts(s, notes, r, Dropped(s, notes, r))
            && (r.response.Some? ==> r.response.value.id == Num(id))
  {
    hide PositionOf, Lines, Without, Slice, Picked, Takes, Accounts;
    var r, p := Await(s, id, notes), PositionOf(s.pending, id);
    NoLines();
    assert notes + [] == notes;
    if p < |s.pending| {
      WithoutOne(s.pending, p);
      NothingTaken(s, r);
      AccountsHeld(s, notes, r, []);
    } else if s.incoming == [] {
      NothingTaken(s, r);
      AccountsHeld(s, notes, r, notes);
    } else {
      OneTaken(s, r);
      if s.incoming[0].Line? {
        AccountsLast(s, notes, r);
      } else {
        AccountsHeld(s, notes, r, notes);
      }
    }
  }

  /** The frame read last is the response, or the last notification. */
  lemma AccountsLast(s: State, notes: seq<Frame>, r: Result)
    requires s.incoming != [] && s.incoming[0].Line? && Lines(Slice(s, r)) == [s.incoming[0].frame]
    requires r.state.pending == s.pending
    requires (r.response == Some(s.incoming[0].frame) && r.notes == notes)
             || (r.response == None && r.notes == notes + [s.incoming[0].frame])
    ensures Accounts(s, notes, r, [])
  {
    hide Lines, Slice;
  }

  lemma NoLines()
    ensures Lines([]) == [] && forall p :: Picked([], p) == []
  {
  }

  /** Accounting for the rest of a call accounts for the call. */
  lemma AccountsStep(s: State, notes: seq<Frame>, next: State, notes': seq<Frame>, r: Result, gone: seq<Frame>)
    requires s.incoming != [] && s.incoming[0].Line?
    requires Accounts(next, notes', r, gone)
    requires Lines(Slice(s, r)) == [s.incoming[0].frame] + Lines(Slice(next, r))
    requires (next.pending == s.pending + [s.incoming[0].frame] && notes' == notes)
             || (next.pending == s.pending && notes' == notes + [s.incoming[0].frame])
    ensures Accounts(s, notes, r, gone)
  {
    hide Lines, Slice, AsSeq;
    var f, rest := s.incoming[0].frame, Lines(Slice(next, r));
    assert multiset([f] + rest) == multiset{f} + multiset(rest);
    assert multiset(s.pending) + multiset(notes) + (multiset{f} + multiset(rest)) ==
           multiset(next.pending) + multiset(notes') + multiset(rest);
  }

  /** A drain accounts for everything. */
  lemma {:induction false} CollectAccounts(s: State, stops: Option<set<string>>, notes: seq<Frame>)
    ensures var r := Collect(s, stops, notes);
            Takes(s, r) && Accounts(s, notes, r, []) && r.response == None
    decreases |s.incoming|
  {
    hide Lines, Slice, Takes, Accounts;
    var r := Collect(s, stops, notes);
    NoLines();
    if s.incoming == [] {
      NothingTaken(s, r);
      AccountsHeld(s, notes, r, []);
    } else if !s.incoming[0].Line? {
      OneTaken(s, r);
      AccountsHeld(s, notes, r, []);
    } else {
      var f := s.incoming[0].frame;
      if NoteInDrain(f, stops) && stops.Some? && f.member.name in stops.value {
        OneTaken(s, r);
        AccountsLast(s, notes, r);
      } else {
        var note := NoteInDrain(f, stops);
        var next, notes' := if note then Next(s) else Keep(Next(s), f), if note then notes + [f] else notes;
        CollectAccounts(next, stops, notes');
        MoreTaken(s, next, r);
        AccountsStep(s, notes, next, notes', r, []);
      }
    }
  }

  /** A frame with the id comes before any end of waiting. */
  predicate Arrives(incoming: seq<Event>, id: int) {
    incoming != [] && incoming[0].Line? && (incoming[0].frame.id == Num(id) || Arrives(incoming[1..], id))
  }

  /** A wait is answered exactly if its response is pending or arrives before any end of waiting. */
  lemma {:induction false} AnsweredIff(s: State, id: int, notes: seq<Frame>)
    ensures Await(s, id, notes).response.Some? <==>
            (exists f :: f in s.pending && f.id == Num(id)) || Arrives(s.incoming, id)
    decreases |s.incoming|
  {
    var p := PositionOf(s.pending, id);
    if p < |s.pending| {
      assert s.pending[p] in s.pending;
    } else if s.incoming != [] && s.incoming[0].Line? && s.incoming[0].frame.id != Num(id) {
      var f := s.incoming[0].frame;
      AnsweredIff(if StrayInWait(f) then Keep(Next(s), f) else Next(s), id,
                  if StrayInWait(f) then notes else notes + [f]);
    }
  }

  // ---- Any sequence of calls ----

  datatype Op = WaitFor(id: int) | DrainUntil(stops: set<string>) | Drain

  function Do(s: State, op: Op): Result {
    match op
    case WaitFor(id) => Await(s, id, [])
    case DrainUntil(stops) => Collect(s, Some(stops), [])
    case Drain => Collect(s, None, [])
  }

  /** The client after some calls, and what they gave back, in order. */
  datatype World = World(state: State, responses: seq<Frame>, notes: seq<Frame>)

  function RunOps(wire: seq<Event>, ops: seq<Op>): World {
    if ops == [] then World(State([], wire, []), [], [])
    else
      var w := RunOps(wire, ops[..|ops| - 1]);
      var r := Do(w.state, ops[|ops| - 1]);
      World(r.state, w.responses + AsSeq(r.response), w.notes + r.notes)
  }

  /** The result of the call at position `i`, and the events it took. */
  function ResultAt(wire: seq<Event>, ops: seq<Op>, i: nat): Result
    requires i < |ops|
  {
    Do(RunOps(wire, ops[..i]).state, ops[i])
  }

  function SliceAt(wire: seq<Event>, ops: seq<Op>, i: nat): seq<Event>
    requires i < |ops|
  {
    Slice(RunOps(wire, ops[..i]).state, ResultAt(wire, ops, i))
  }

  /** The call is no wait, or got its response, or read nothing but strays. */
  ghost predicate KeepsAll(op: Op, r: Result, slice: seq<Event>) {
    op.WaitFor? && r.response.None? ==> forall e :: e in slice && e.Line? ==> StrayInWait(e.frame)
  }

  ghost predicate AllCallsKeep(wire: seq<Event>, ops: seq<Op>) {
    forall i :: 0 <= i < |ops| ==> KeepsAll(ops[i], ResultAt(wire, ops, i), SliceAt(wire, ops, i))
  }

  /** What the last of some calls dropped. */
  function DroppedBy(s: State, op: Op): seq<Frame> {
    if op.WaitFor? then Dropped(s, [], Do(s, op)) else []
  }

  /** What all the waits without a response dropped. */
  function AllDropped(wire: seq<Event>, ops: seq<Op>): seq<Frame> {
    if ops == [] then []
    else AllDropped(wire, ops[..|ops| - 1]) + DroppedBy(RunOps(wire, ops[..|ops| - 1]).state, ops[|ops| - 1])
  }

  lemma DoAccounts(s: State, op: Op)
    ensures Takes(s, Do(s, op)) && Accounts(s, [], Do(s, op), DroppedBy(s, op))
  {
    match op
    case WaitFor(id) => AwaitAccounts(s, id, []);
    case DrainUntil(stops) => CollectAccounts(s, Some(stops), []);
    case Drain => CollectAccounts(s, None, []);
  }

  lemma {:induction false} LinesHold(events: seq<Event>, f: Frame)
    ensures f in Lines(events) <==> Line(f) in events
  {
    if events != [] {
      LinesHold(events[..|events| - 1], f);
      assert events == events[..|events| - 1] + [events[|events| - 1]];
    }
  }

  lemma DroppedNone(s: State, op: Op)
    ensures DroppedBy(s, op) == [] <==> KeepsAll(op, Do(s, op), Slice(s, Do(s, op)))
  {
    hide Do, Slice, Lines, Picked;
    var slice := Slice(s, Do(s, op));
    PickedNone(Lines(slice), NotStray);
    assert [] + Picked(Lines(slice), NotStray) == Picked(Lines(slice), NotStray);
    forall f
      ensures f in Lines(slice) <==> Line(f) in slice
    {
      LinesHold(slice, f);
    }
    if forall f :: f in Lines(slice) ==> !NotStray(f) {
      forall e | e in slice && e.Line?
        ensures StrayInWait(e.frame)
      {
        assert e == Line(e.frame) && e.frame in Lines(slice);
      }
    }
  }

  lemma SameAt(wire: seq<Event>, ops: seq<Op>, i: nat)
    requires i + 1 < |ops|
    ensures ResultAt(wire, ops[..|ops| - 1], i) == ResultAt(wire, ops, i)
    ensures SliceAt(wire, ops[..|ops| - 1], i) == SliceAt(wire, ops, i)
  {
    hide RunOps, Do, Slice;
    assert ops[..|ops| - 1][..i] == ops[..i];
  }

  lemma {:induction false} AllDroppedNone(wire: seq<Event>, ops: seq<Op>)
    ensures AllDropped(wire, ops) == [] <==> AllCallsKeep(wire, ops)
  {
    if ops != [] {
      var front, n := ops[..|ops| - 1], |ops| - 1;
      AllDroppedNone(wire, front);
      DroppedNone(RunOps(wire, front).state, ops[n]);
      hide RunOps, Do, Slice, DroppedBy;
      assert KeepsAll(ops[n], ResultAt(wire, ops, n), SliceAt(wire, ops, n)) <==>
             DroppedBy(RunOps(wire, front).state, ops[n]) == [];
      hide ResultAt, SliceAt, KeepsAll;
      forall i | 0 <= i < n
        ensures KeepsAll(front[i], ResultAt(wire, front, i), SliceAt(wire, front, i)) <==>
                KeepsAll(ops[i], ResultAt(wire, ops, i), SliceAt(wire, ops, i))
      {
        SameAt(wire, ops, i);
      }
      KeepSplit(wire, ops);
    }
  }

  /** All calls keep everything if the last one does and all before it do. */
  lemma KeepSplit(wire: seq<Event>, ops: seq<Op>)
    requires ops != []
    requires forall i :: 0 <= i < |ops| - 1 ==>
      (KeepsAll(ops[..|ops| - 1][i], ResultAt(wire, ops[..|ops| - 1], i), SliceAt(wire, ops[..|ops| - 1], i)) <==>
       KeepsAll(ops[i], ResultAt(wire, ops, i), SliceAt(wire, ops, i)))
    ensures AllCallsKeep(wire, ops) <==>
            AllCallsKeep(wire, ops[..|ops| - 1])
            && KeepsAll(ops[|ops| - 1], ResultAt(wire, ops, |ops| - 1), SliceAt(wire, ops, |ops| - 1))
  {
    hide ResultAt, SliceAt, KeepsAll;
  }

  /** Every frame read whole came back once, is pending, or is among `gone`. */
  ghost predicate Settled(w: World, gone: seq<Frame>) {
    multiset(Lines(w.state.taken)) ==
    multiset(w.responses) + multiset(w.notes) + multiset(w.state.pending) + multiset(gone)
  }

  lemma OneMoreCall(w: World, r: Result, gone: seq<Frame>, more: seq<Frame>)
    requires Settled(w, gone) && Takes(w.state, r) && Accounts(w.state, [], r, more)
    ensures Settled(World(r.state, w.responses + AsSeq(r.response), w.notes + r.notes), gone + more)
  {
    LinesConcat(w.state.taken, Slice(w.state, r));
    hide Lines, AsSeq, Slice;
    var slice, response := Lines(Slice(w.state, r)), AsSeq(r.response);
    AddUp(multiset(Lines(w.state.taken)), multiset(slice), multiset(w.state.pending), multiset(r.state.pending),
          multiset(w.responses), multiset(response), multiset(w.notes),
          multiset(r.notes), multiset(gone), multiset(more));
  }

  lemma AddUp(read: multiset<Frame>, slice: multiset<Frame>, before: multiset<Frame>, after: multiset<Frame>,
              a: multiset<Frame>, a': multiset<Frame>, b: multiset<Frame>, b': multiset<Frame>,
              c: multiset<Frame>, c': multiset<Frame>)
    requires read == a + b + before + c
    requires before + multiset{} + slice == after + a' + b' + c'
    ensures read + slice == (a + a') + (b + b') + after + (c + c')
  {
    forall f
      ensures (read + slice)[f] == ((a + a') + (b + b') + after + (c + c'))[f]
    {
      assert read[f] == (a + b + before + c)[f];
      assert (before + multiset{} + slice)[f] == (after + a' + b' + c')[f];
    }
  }

  /** Over any calls nothing goes missing but what waits without a response drop. */
  lemma {:induction false} CallsAccount(wire: seq<Event>, ops: seq<Op>)
    ensures RunOps(wire, ops).state.taken + RunOps(wire, ops).state.incoming == wire
    ensures Settled(RunOps(wire, ops), AllDropped(wire, ops))
  {
    hide Do, Lines, Slice, DroppedBy, Accounts, Settled, Takes;
    if ops == [] {
      SettledAtFirst(wire);
      assert [] + wire == wire;
    } else {
      var before, op := RunOps(wire, ops[..|ops| - 1]), ops[|ops| - 1];
      CallsAccount(wire, ops[..|ops| - 1]);
      DoAccounts(before.state, op);
      TakesKeepWire(before.state, Do(before.state, op));
      OneMoreCall(before, Do(before.state, op), AllDropped(wire, ops[..|ops| - 1]), DroppedBy(before.state, op));
    }
  }

  lemma SettledAtFirst(wire: seq<Event>)
    ensures Settled(World(State([], wire, []), [], []), [])
  {
  }

  lemma TakesKeepWire(s: State, r: Result)
    requires Takes(s, r)
    ensures r.state.taken + r.state.incoming == s.taken + s.incoming
  {
    hide Slice;
    assert s.taken + Slice(s, r) + r.state.incoming == s.taken + (Slice(s, r) + r.state.incoming);
  }

  lemma NoneMissing(all: multiset<Frame>, gone: seq<Frame>)
    ensures all + multiset(gone) == all <==> gone == []
  {
    if gone != [] {
      assert (all + multiset(gone))[gone[0]] == all[gone[0]] + multiset(gone)[gone[0]];
      assert multiset(gone)[gone[0]] >= 1;
    }
  }

  /** Every frame that was on the wire, cut lines included. */
  function Arrived(events: seq<Event>): seq<Frame> {
    if events == [] then []
    else
      var last := events[|events| - 1];
      Arrived(events[..|events| - 1]) + (if last.Silence? then [] else [last.frame])
  }

  function TornLines(events: seq<Event>): seq<Frame> {
    if events == [] then []
    else
      var last := events[|events| - 1];
      TornLines(events[..|events| - 1]) + (if last.Torn? then [last.frame] else [])
  }

  lemma {:induction false} ArrivedSplits(events: seq<Event>)
    ensures multiset(Arrived(events)) == multiset(Lines(events)) + multiset(TornLines(events))
    decreases |events|
  {
    if events != [] {
      var front, last := events[..|events| - 1], events[|events| - 1];
      ArrivedSplits(front);
      ArrivedLast(events);
      hide Arrived, Lines, TornLines;
    }
  }

  lemma ArrivedLast(events: seq<Event>)
    requires events != []
    ensures var front, last := events[..|events| - 1], events[|events| - 1];
            && multiset(Lines(events))
                  == multiset(Lines(front)) + (if last.Line? then multiset{last.frame} else multiset{})
            && multiset(TornLines(events))
                  == multiset(TornLines(front)) + (if last.Torn? then multiset{last.frame} else multiset{})
            && multiset(Arrived(events))
                  == multiset(Arrived(front)) + (if last.Silence? then multiset{} else multiset{last.frame})
  {
    var front, last := events[..|events| - 1], events[|events| - 1];
    assert Lines(events) == Lines(front) + LineOf(last);
    assert Lines(front) + [] == Lines(front) && TornLines(front) + [] == TornLines(front)
        && Arrived(front) + [] == Arrived(front);
    hide Arrived, Lines, TornLines;
  }

  lemma {:induction false} NoneTorn(events: seq<Event>)
    ensures TornLines(events) == [] <==> forall e :: e in events ==> !e.Torn?
  {
    if events != [] {
      NoneTorn(events[..|events| - 1]);
      assert events == events[..|events| - 1] + [events[|events| - 1]];
    }
  }

  /**
   Over any calls, every frame that came off the wire is exactly once a response, a notification
   or still pending, if and only if no deadline cut a line and every wait got its response or
   read nothing but responses to other requests.
   */
  lemma NothingLost(wire: seq<Event>, ops: seq<Op>)
    ensures var w := RunOps(wire, ops);
            && w.state.taken + w.state.incoming == wire
            && (multiset(Arrived(w.state.taken))
                  == multiset(w.responses) + multiset(w.notes) + multiset(w.state.pending)
                <==> (forall e :: e in w.state.taken ==> !e.Torn?) && AllCallsKeep(wire, ops))
  {
    hide RunOps, AllCallsKeep, Lines, Arrived, TornLines, AllDropped;
    var w := RunOps(wire, ops);
    CallsAccount(wire, ops);
    ArrivedSplits(w.state.taken);
    NoneTorn(w.state.taken);
    AllDroppedNone(wire, ops);
    var kept := multiset(w.responses) + multiset(w.notes) + multiset(w.state.pending);
    var gone := AllDropped(wire, ops) + TornLines(w.state.taken);
    assert multiset(Arrived(w.state.taken)) == kept + multiset(gone);
    NoneMissing(kept, gone);
  }

  /** If every wait gets its response and no line is cut, nothing is lost. */
  lemma AnsweredCallsLoseNothing(wire: seq<Event>, ops: seq<Op>)
    requires forall i :: 0 <= i < |ops| && ops[i].WaitFor? ==> ResultAt(wire, ops, i).response.Some?
    requires forall e :: e in wire ==> !e.Torn?
    ensures var w := RunOps(wire, ops);
            multiset(Arrived(w.state.taken)) == multiset(w.responses) + multiset(w.notes) + multiset(w.state.pending)
  {
    NothingLost(wire, ops);
    hide RunOps, ResultAt, SliceAt, Arrived;
    assert forall e :: e in RunOps(wire, ops).state.taken ==> e in wire by {
      var w := RunOps(wire, ops);
      assert w.state.taken + w.state.incoming == wire;
    }
  }

  /** A wait that fails after a notification loses it. */
  lemma FailedWaitLosesNote(note: Frame, id: int)
    requires note.id == NoId
    ensures var w := RunOps([Line(note), Silence], [WaitFor(id)]);
            && Arrived(w.state.taken) == [note]
            && w.responses == [] && w.notes == [] && w.state.pending == []
  {
    var wire: seq<Event> := [Line(note), Silence];
    var s := State([], wire, []);
    assert [WaitFor(id)][..0] == [];
    assert Next(s) == State([], [Silence], [Line(note)]);
    assert Next(Next(s)) == State([], [], [Line(note), Silence]);
    assert Await(s, id, []) == Result(Next(Next(s)), None, []);
    ArrivedTwo(note);
  }

  /** A deadline inside a line leaves it nowhere, even in a drain. */
  lemma TornLineLost(frame: Frame)
    ensures var w := RunOps([Torn(frame)], [Drain]);
            && Arrived(w.state.taken) == [frame]
            && w.responses == [] && w.notes == [] && w.state.pending == []
  {
    var wire: seq<Event> := [Torn(frame)];
    assert [Drain][..0] == [];
    assert Next(State([], wire, [])) == State([], [], wire);
    assert wire[..0] == [] && Arrived(wire) == [] + [frame];
  }

  lemma ArrivedTwo(note: Frame)
    ensures Arrived([Line(note), Silence]) == [note]
  {
    assert [Line(note), Silence][..1] == [Line(note)] && [Line(note)][..0] == [];
    assert Arrived([Line(note)]) == [] + [note];
    assert [note] + [] == [note];
  }

  // ---- Order ----

  /** The ids that some calls wait for. */
  function Awaited(ops: seq<Op>): set<int> {
    set op | op in ops && op.WaitFor? :: op.id
  }

  /** The frame is a response, a notification, or a request of the server whose id nobody waits for. */
  predicate Plain(f: Frame, ids: set<int>) {
    if f.member == NoMethod then f.id != NoId
    else f.member.Name? && (f.id.Num? ==> f.id.n !in ids)
  }

  predicate HasMethod(f: Frame) {
    f.member != NoMethod
  }

  predicate AllPlain(wire: seq<Event>, ids: set<int>) {
    forall e :: e in wire && e.Line? ==> Plain(e.frame, ids)
  }

  /** The notifications among the frames read whole. */
  function Notes(events: seq<Event>): seq<Frame> {
    Picked(Lines(events), HasMethod)
  }

  /** What a call takes off the wire becomes its notifications, in order, unless it drops them. */
  lemma DoOrder(s: State, op: Op, ids: set<int>)
    requires op.WaitFor? ==> op.id in ids
    requires AllPlain(s.incoming, ids)
    ensures Do(s, op).notes + DroppedBy(s, op) == Notes(Slice(s, Do(s, op)))
  {
    match op
    case WaitFor(id) => AwaitOrder(s, id, [], ids);
    case DrainUntil(stops) => CollectOrder(s, Some(stops), [], ids);
    case Drain => CollectOrder(s, None, [], ids);
  }

  lemma NotesFirst(f: Frame, rest: seq<Frame>)
    ensures Picked([f] + rest, HasMethod) == (if HasMethod(f) then [f] else []) + Picked(rest, HasMethod)
  {
    PickedConcat([f], rest, HasMethod);
    PickedAppend([], f, HasMethod);
    assert [] + [f] == [f];
  }

  lemma OrderStep(s: State, notes: seq<Frame>, next: State, notes': seq<Frame>, f: Frame, r: Result)
    requires Lines(Slice(s, r)) == [f] + Lines(Slice(next, r))
    requires notes' == notes + (if HasMethod(f) then [f] else [])
    ensures notes + Notes(Slice(s, r)) == notes' + Notes(Slice(next, r))
  {
    hide Lines, Slice, Picked;
    var rest := Lines(Slice(next, r));
    NotesFirst(f, rest);
    var first := if HasMethod(f) then [f] else [];
    assert notes + (first + Picked(rest, HasMethod)) == notes + first + Picked(rest, HasMethod);
  }

  lemma {:induction false} AwaitOrder(s: State, id: int, notes: seq<Frame>, ids: set<int>)
    requires id in ids
    requires AllPlain(s.incoming, ids)
    ensures var r := Await(s, id, notes);
            r.notes + Dropped(s, notes, r) == notes + Notes(Slice(s, r))
    decreases |s.incoming|
  {
    hide PositionOf, Without, Picked, Lines, Slice, Accounts, Takes, WaitOn, Noted, Notes;
    if PositionOf(s.pending, id) == |s.pending| && s.incoming != [] && s.incoming[0].Line?
       && s.incoming[0].frame.id != Num(id) {
      hide Dropped;
      var f := s.incoming[0].frame;
      assert s.incoming[0] in s.incoming && Plain(f, ids);
      AwaitGoesOn(s, id, notes);
      hide Await, Next;
      var r, next := Await(s, id, notes), WaitOn(s, f);
      WaitOnShape(s, f, notes);
      assert forall e :: e in s.incoming[1..] ==> e in s.incoming;
      AwaitOrder(next, id, Noted(notes, f), ids);
      AwaitAccounts(next, id, Noted(notes, f));
      MoreTaken(s, next, r);
      NotedIs(notes, f);
      DroppedStep(s, notes, next, Noted(notes, f), f, r);
      OrderStep(s, notes, next, Noted(notes, f), f, r);
    } else {
      AwaitEndsInOrder(s, id, notes, ids);
    }
  }

  lemma AwaitEndsInOrder(s: State, id: int, notes: seq<Frame>, ids: set<int>)
    requires id in ids
    requires AllPlain(s.incoming, ids)
    requires !(PositionOf(s.pending, id) == |s.pending| && s.incoming != [] && s.incoming[0].Line?
               && s.incoming[0].frame.id != Num(id))
    ensures var r := Await(s, id, notes);
            r.notes + Dropped(s, notes, r) == notes + Notes(Slice(s, r))
  {
    hide PositionOf, Without, Picked, Lines, Slice;
    var r := Await(s, id, notes);
    NoLines();
    assert [] + (notes + []) == notes + [] == notes;
    if PositionOf(s.pending, id) < |s.pending| || s.incoming == [] {
      NothingTaken(s, r);
    } else {
      OneTaken(s, r);
      if s.incoming[0].Line? {
        var f := s.incoming[0].frame;
        assert s.incoming[0] in s.incoming && Plain(f, ids);
        NotesFirst(f, []);
        assert [f] + [] == [f];
      }
    }
  }

  lemma {:induction false} CollectOrder(s: State, stops: Option<set<string>>, notes: seq<Frame>, ids: set<int>)
    requires AllPlain(s.incoming, ids)
    ensures var r := Collect(s, stops, notes);
            r.notes == notes + Notes(Slice(s, r))
    decreases |s.incoming|
  {
    var r := Collect(s, stops, notes);
    hide Picked, Lines, Slice, Accounts;
    NoLines();
    assert notes + [] == notes;
    if s.incoming == [] {
      NothingTaken(s, r);
    } else if !s.incoming[0].Line? {
      OneTaken(s, r);
    } else {
      var f := s.incoming[0].frame;
      assert s.incoming[0] in s.incoming && Plain(f, ids);
      if NoteInDrain(f, stops) && stops.Some? && f.member.name in stops.value {
        OneTaken(s, r);
        NotesFirst(f, []);
        assert [f] + [] == [f];
      } else {
        var note := NoteInDrain(f, stops);
        var next, notes' := if note then Next(s) else Keep(Next(s), f), if note then notes + [f] else notes;
        assert forall e :: e in next.incoming ==> e in s.incoming;
        CollectOrder(next, stops, notes', ids);
        CollectAccounts(next, stops, notes');
        MoreTaken(s, next, r);
        NotesFirst(f, Lines(Slice(next, r)));
        assert notes + [f] + Notes(Slice(next, r)) == notes + ([f] + Notes(Slice(next, r)));
        assert notes + ([] + Notes(Slice(next, r))) == notes + Notes(Slice(next, r));
      }
    }
  }

  /** The notifications returned and those dropped are together as many as were read. */
  lemma {:induction false} NotesCount(wire: seq<Event>, ops: seq<Op>, ids: set<int>)
    requires AllPlain(wire, ids) && Awaited(ops) <= ids
    ensures var w := RunOps(wire, ops);
            && AllPlain(w.state.incoming, ids)
            && |w.notes| + |AllDropped(wire, ops)| == |Notes(w.state.taken)|
            && (AllDropped(wire, ops) == [] ==> w.notes == Notes(w.state.taken))
  {
    NoLines();
    if ops != [] {
      var w, op := RunOps(wire, ops[..|ops| - 1]), ops[|ops| - 1];
      assert forall o :: o in ops[..|ops| - 1] ==> o in ops;
      assert op in ops && (op.WaitFor? ==> op.id in Awaited(ops));
      NotesCount(wire, ops[..|ops| - 1], ids);
      DoAccounts(w.state, op);
      hide Picked, Lines, Do, DroppedBy, Accounts, Slice;
      DoOrder(w.state, op, ids);
      LinesConcat(w.state.taken, Slice(w.state, Do(w.state, op)));
      PickedConcat(Lines(w.state.taken), Lines(Slice(w.state, Do(w.state, op))), HasMethod);
      assert forall e :: e in Do(w.state, op).state.incoming ==> e in w.state.incoming;
    }
  }

  /**
   On a wire of responses, notifications and requests of the server whose ids nobody waits for,
   the frames with a method that any calls return are those read, in the order of the wire and
   however responses are mixed in, if and only if every wait got its response or read nothing
   but responses to other requests.
   */
  lemma WireOrder(wire: seq<Event>, ops: seq<Op>)
    requires AllPlain(wire, Awaited(ops))
    ensures RunOps(wire, ops).notes == Notes(RunOps(wire, ops).state.taken) <==> AllCallsKeep(wire, ops)
  {
    hide RunOps, AllCallsKeep, Notes, AllDropped;
    NotesCount(wire, ops, Awaited(ops));
    AllDroppedNone(wire, ops);
  }
}
