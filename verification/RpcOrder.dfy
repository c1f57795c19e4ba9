/**
 Order in the JSON-RPC client: what is pending stays in the order of the wire, and a wait takes
 the earliest frame with its id, pending ones before new ones.
 */
module RpcOrder {
  import opened Common
  import opened RpcClient

  /** The frames of `a` occur in `b` in this order. */
  predicate Within(a: seq<Frame>, b: seq<Frame>) {
    if a == [] then true
    else if b == [] then false
    else
      var x, y := a[|a| - 1], b[|b| - 1];
      (x == y && Within(a[..|a| - 1], b[..|b| - 1])) || Within(a, b[..|b| - 1])
  }

  lemma WithinMore(a: seq<Frame>, b: seq<Frame>, f: Frame)
    requires Within(a, b)
    ensures Within(a, b + [f]) && Within(a + [f], b + [f])
  {
    assert (b + [f])[..|b|] == b && (a + [f])[..|a|] == a;
  }

  function But(a: seq<Frame>, p: nat): seq<Frame>
    requires p < |a|
  {
    a[..p] + a[p + 1..]
  }

  lemma ButLast(a: seq<Frame>, p: nat)
    requires p < |a|
    ensures if p == |a| - 1 then But(a, p) == a[..p] else But(a, p) == But(a[..|a| - 1], p) + [a[|a| - 1]]
  {
  }

  /** One frame less is still in order. */
  lemma {:induction false} WithinFewer(a: seq<Frame>, b: seq<Frame>, p: nat)
    requires Within(a, b) && p < |a|
    ensures Within(But(a, p), b)
    decreases |b|
  {
    var front, last := b[..|b| - 1], b[|b| - 1];
    assert front + [last] == b;
    ButLast(a, p);
    hide But;
    if Within(a, front) {
      WithinFewer(a, front, p);
      WithinMore(But(a, p), front, last);
    } else if p == |a| - 1 {
      WithinMore(a[..p], front, last);
    } else {
      WithinFewer(a[..|a| - 1], front, p);
      WithinMore(But(a[..|a| - 1], p), front, last);
    }
  }

  /** The pending frames are frames read, in the order they were read. */
  predicate InOrder(s: State) {
    Within(s.pending, Lines(s.taken))
  }

  lemma KeepInOrder(s: State, f: Frame)
    requires InOrder(s) && s.incoming != [] && s.incoming[0] == Line(f)
    ensures InOrder(Keep(Next(s), f)) && InOrder(Next(s))
  {
    hide Within;
    LinesAppend(s.taken, Line(f));
    WithinMore(s.pending, Lines(s.taken), f);
  }

  lemma EndInOrder(s: State)
    requires InOrder(s) && s.incoming != [] && !s.incoming[0].Line?
    ensures InOrder(Next(s))
  {
    LinesAppend(s.taken, s.incoming[0]);
    assert Lines(s.taken) + [] == Lines(s.taken);
  }

  lemma {:induction false} AwaitInOrder(s: State, id: int, notes: seq<Frame>)
    requires InOrder(s)
    ensures InOrder(Await(s, id, notes).state)
    decreases |s.incoming|
  {
    hide Within, Lines, Next, Keep;
    if PositionOf(s.pending, id) < |s.pending| {
      WithinFewer(s.pending, Lines(s.taken), PositionOf(s.pending, id));
    } else if s.incoming != [] {
      if s.incoming[0].Line? {
        var f := s.incoming[0].frame;
        KeepInOrder(s, f);
        Shorter(s, f);
        if f.id != Num(id) {
          AwaitInOrder(if StrayInWait(f) then Keep(Next(s), f) else Next(s), id,
                       if StrayInWait(f) then notes else notes + [f]);
        }
      } else {
        EndInOrder(s);
      }
    }
  }

  lemma Shorter(s: State, f: Frame)
    requires s.incoming != []
    ensures |Next(s).incoming| < |s.incoming| && |Keep(Next(s), f).incoming| < |s.incoming|
  {
  }

  lemma {:induction false} CollectInOrder(s: State, stops: Option<set<string>>, notes: seq<Frame>)
    requires InOrder(s)
    ensures InOrder(Collect(s, stops, notes).state)
    decreases |s.incoming|
  {
    hide Within, Lines, Next, Keep;
    if s.incoming != [] {
      if s.incoming[0].Line? {
        var f := s.incoming[0].frame;
        KeepInOrder(s, f);
        Shorter(s, f);
        if !NoteInDrain(f, stops) {
          CollectInOrder(Keep(Next(s), f), stops, notes);
        } else if stops.None? || f.member.name !in stops.value {
          CollectInOrder(Next(s), stops, notes + [f]);
        }
      } else {
        EndInOrder(s);
      }
    }
  }

  /** After any calls the pending frames are in the order of the wire. */
  lemma {:induction false} PendingInOrder(wire: seq<Event>, ops: seq<Op>)
    ensures InOrder(RunOps(wire, ops).state)
  {
    if ops != [] {
      PendingInOrder(wire, ops[..|ops| - 1]);
      var s := RunOps(wire, ops[..|ops| - 1]).state;
      hide InOrder;
      match ops[|ops| - 1]
      case WaitFor(id) => AwaitInOrder(s, id, []);
      case DrainUntil(stops) => CollectInOrder(s, Some(stops), []);
      case Drain => CollectInOrder(s, None, []);
    }
  }

  /** A wait returns the first pending frame with its id, or else the first that arrives. */
  lemma {:induction false} AnswerIsEarliest(s: State, id: int, notes: seq<Frame>) returns (k: nat)
    requires Await(s, id, notes).response.Some?
    ensures var f := Await(s, id, notes).response.value;
            if exists p :: p in s.pending && p.id == Num(id) then
              && k < |s.pending| && s.pending[k] == f && f.id == Num(id)
              && forall i :: 0 <= i < k ==> s.pending[i].id != Num(id)
            else
              && k < |s.incoming| && s.incoming[k] == Line(f) && f.id == Num(id)
              && forall i :: 0 <= i < k ==> s.incoming[i].Line? && s.incoming[i].frame.id != Num(id)
    decreases |s.incoming|
  {
    k := PositionOf(s.pending, id);
    if k < |s.pending| {
      assert s.pending[k] in s.pending;
    } else {
      assert forall p :: p in s.pending ==> p.id != Num(id);
      var f := s.incoming[0].frame;
      if f.id == Num(id) {
        k := 0;
      } else {
        var next := if StrayInWait(f) then Keep(Next(s), f) else Next(s);
        var rest := AnswerIsEarliest(next, id, if StrayInWait(f) then notes else notes + [f]);
        assert forall p :: p in next.pending ==> p.id != Num(id);
        k := rest + 1;
        forall i | 0 <= i < k ensures s.incoming[i].Line? && s.incoming[i].frame.id != Num(id) {
          assert i > 0 ==> next.incoming[i - 1] == s.incoming[i];
        }
      }
    }
  }

  // ---- What each call does with what it reads ----

  predicate HasName(f: Frame) {
    f.member.Name?
  }

  predicate HasAny(f: Frame) {
    f.member != NoMethod
  }

  predicate HasNone(f: Frame) {
    f.member == NoMethod
  }

  /** A frame with an id and no method is a response. */
  predicate IsResponse(f: Frame) {
    f.id != NoId && f.member == NoMethod
  }

  predicate IsOther(f: Frame) {
    f.id == NoId || f.member != NoMethod
  }

  predicate LacksName(f: Frame) {
    !HasName(f)
  }

  lemma PickedFirstOf(f: Frame, rest: seq<Frame>, p: Frame -> bool)
    ensures Picked([f] + rest, p) == (if p(f) then [f] else []) + Picked(rest, p)
  {
    PickedConcat([f], rest, p);
    PickedAppend([], f, p);
    assert [] + [f] == [f];
  }

  /** A frame read first goes to the notifications or is put aside, the others after it. */
  lemma ReadFirst(held: seq<Frame>, f: Frame, rest: seq<Frame>, p: Frame -> bool)
    ensures held + Picked([f] + rest, p) == (if p(f) then held + [f] else held) + Picked(rest, p)
  {
    PickedFirstOf(f, rest, p);
    assert held + ([f] + Picked(rest, p)) == held + [f] + Picked(rest, p);
    assert held + ([] + Picked(rest, p)) == held + Picked(rest, p);
  }

  lemma NothingRead(held: seq<Frame>, p: Frame -> bool)
    ensures held + Picked([], p) == held
  {
  }

  /** A drain with a list of methods returns what has a method that is a string, and puts the rest aside. */
  lemma {:induction false} DrainUntilReads(s: State, stops: set<string>, notes: seq<Frame>)
    ensures var r := Collect(s, Some(stops), notes);
            && r.notes == notes + Picked(Lines(Slice(s, r)), HasName)
            && r.state.pending == s.pending + Picked(Lines(Slice(s, r)), LacksName)
    decreases |s.incoming|
  {
    var r := Collect(s, Some(stops), notes);
    hide Picked, Lines, Slice, Accounts;
    NoLines();
    NothingRead(notes, HasName);
    NothingRead(s.pending, LacksName);
    if s.incoming == [] {
      NothingTaken(s, r);
    } else if !s.incoming[0].Line? {
      OneTaken(s, r);
    } else {
      var f := s.incoming[0].frame;
      if HasName(f) && f.member.name in stops {
        OneTaken(s, r);
        assert [f] == [f] + [];
        ReadFirst(notes, f, [], HasName);
        ReadFirst(s.pending, f, [], LacksName);
        NothingRead(notes + [f], HasName);
      } else {
        var next, notes' := if HasName(f) then Next(s) else Keep(Next(s), f), if HasName(f) then notes + [f] else notes;
        DrainUntilReads(next, stops, notes');
        CollectAccounts(next, Some(stops), notes');
        MoreTaken(s, next, r);
        ReadFirst(notes, f, Lines(Slice(next, r)), HasName);
        ReadFirst(s.pending, f, Lines(Slice(next, r)), LacksName);
      }
    }
  }

  /** A drain until silence returns what has any method at all, and puts the rest aside. */
  lemma {:induction false} DrainReads(s: State, notes: seq<Frame>)
    ensures var r := Collect(s, None, notes);
            && r.notes == notes + Picked(Lines(Slice(s, r)), HasAny)
            && r.state.pending == s.pending + Picked(Lines(Slice(s, r)), HasNone)
    decreases |s.incoming|
  {
    var r := Collect(s, None, notes);
    hide Picked, Lines, Slice, Accounts;
    NoLines();
    NothingRead(notes, HasAny);
    NothingRead(s.pending, HasNone);
    if s.incoming == [] {
      NothingTaken(s, r);
    } else if !s.incoming[0].Line? {
      OneTaken(s, r);
    } else {
      var f := s.incoming[0].frame;
      var next, notes' := if HasAny(f) then Next(s) else Keep(Next(s), f), if HasAny(f) then notes + [f] else notes;
      DrainReads(next, notes');
      CollectAccounts(next, None, notes');
      MoreTaken(s, next, r);
      ReadFirst(notes, f, Lines(Slice(next, r)), HasAny);
      ReadFirst(s.pending, f, Lines(Slice(next, r)), HasNone);
    }
  }

  /** What a wait has read before its response, if that came from the wire. */
  function BeforeAnswer(s: State, id: int, r: Result): seq<Frame> {
    var lines := Lines(Slice(s, r));
    if r.response.Some? && lines != [] then lines[..|lines| - 1] else lines
  }

  ghost predicate Reads(s: State, id: int, notes: seq<Frame>, r: Result) {
    var lines, before := Lines(Slice(s, r)), BeforeAnswer(s, id, r);
    && (r.response.Some? ==> r.notes == notes + Picked(before, IsOther))
    && (r.response.None? ==> r.notes == [] && r.state.pending == s.pending + Picked(before, IsResponse))
    && (r.response.Some? && lines != [] ==>
          lines == before + [r.response.value] && r.state.pending == s.pending + Picked(before, IsResponse))
    && (r.response.Some? && (forall p :: p in s.pending ==> p.id != Num(id)) ==> lines != [])
  }

  /** A wait puts aside the responses it reads, and returns everything else it read before its own
      response, which is the last it read, unless it was pending and nothing was read. */
  lemma {:induction false} WaitReads(s: State, id: int, notes: seq<Frame>)
    ensures Reads(s, id, notes, Await(s, id, notes))
    decreases |s.incoming|
  {
    if PositionOf(s.pending, id) == |s.pending| && s.incoming != [] && s.incoming[0].Line?
       && s.incoming[0].frame.id != Num(id) {
      hide Picked, Lines, Slice, Accounts, Without, PositionOf, Reads;
      var f := s.incoming[0].frame;
      AwaitGoesOn(s, id, notes);
      hide Await, Next;
      var r, next, notes' := Await(s, id, notes), WaitOn(s, f), Noted(notes, f);
      WaitOnShape(s, f, notes);
      WaitReads(next, id, notes');
      AwaitAccounts(next, id, notes');
      MoreTaken(s, next, r);
      ReadsMore(s, next, id, notes, f, r);
    } else {
      WaitReadsEnd(s, id, notes);
    }
  }

  lemma ReadsMore(s: State, next: State, id: int, notes: seq<Frame>, f: Frame, r: Result)
    requires s.incoming != [] && next == WaitOn(s, f) && f.id != Num(id) && PositionOf(s.pending, id) == |s.pending|
    requires Lines(Slice(s, r)) == [f] + Lines(Slice(next, r))
    requires Reads(next, id, Noted(notes, f), r)
    ensures Reads(s, id, notes, r)
  {
    hide Picked, Lines, Slice, PositionOf;
    assert forall p :: p in s.pending ==> p.id != Num(id);
    assert forall p :: p in next.pending ==> p.id != Num(id);
    OneMoreRead(s, next, id, notes, f, r);
  }

  lemma WaitReadsEnd(s: State, id: int, notes: seq<Frame>)
    requires !(PositionOf(s.pending, id) == |s.pending| && s.incoming != [] && s.incoming[0].Line?
               && s.incoming[0].frame.id != Num(id))
    ensures Reads(s, id, notes, Await(s, id, notes))
  {
    var r := Await(s, id, notes);
    hide Picked, Lines, Slice, Accounts, Without, PositionOf;
    NoLines();
    NothingRead(notes, IsOther);
    NothingRead(s.pending, IsResponse);
    if PositionOf(s.pending, id) < |s.pending| || s.incoming == [] {
      NothingTaken(s, r);
      assert PositionOf(s.pending, id) < |s.pending| ==> s.pending[PositionOf(s.pending, id)] in s.pending;
    } else {
      OneTaken(s, r);
      if s.incoming[0].Line? {
        var f := s.incoming[0].frame;
        assert [f][..0] == [] && [] + [f] == [f];
      }
    }
  }

  lemma OneMoreRead(s: State, next: State, id: int, notes: seq<Frame>, f: Frame, r: Result)
    requires s.incoming != [] && next == WaitOn(s, f)
    requires Lines(Slice(s, r)) == [f] + Lines(Slice(next, r))
    requires r.response.Some? ==> Lines(Slice(next, r)) != []
    ensures BeforeAnswer(s, id, r) == [f] + BeforeAnswer(next, id, r)
    ensures r.response.Some? && Lines(Slice(next, r)) == BeforeAnswer(next, id, r) + [r.response.value] ==>
              Lines(Slice(s, r)) == BeforeAnswer(s, id, r) + [r.response.value]
    ensures Noted(notes, f) + Picked(BeforeAnswer(next, id, r), IsOther)
            == notes + Picked([f] + BeforeAnswer(next, id, r), IsOther)
    ensures next.pending + Picked(BeforeAnswer(next, id, r), IsResponse)
            == s.pending + Picked([f] + BeforeAnswer(next, id, r), IsResponse)
  {
    hide Picked, Lines, Slice;
    ReadFirst(notes, f, BeforeAnswer(next, id, r), IsOther);
    ReadFirst(s.pending, f, BeforeAnswer(next, id, r), IsResponse);
    assert notes + [] == notes;
  }
}
