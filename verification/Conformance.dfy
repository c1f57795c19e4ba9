/**
 Comparing two transcripts (crates/bridge-conformance/src/diff.rs): frames grouped by step,
 the kinds of notifications, and the fingerprints of what was sent.
 */
module Conformance {
  import opened Common
  import opened Fingerprint

  datatype Kind = Response | Notification

  datatype Frame = Frame(step: string, kind: Kind, name: string, raw: Json)

  function Member(v: Json, key: string): Option<Json> {
    if v.Object? then Lookup(v.fields, key) else None
  }

  function Lookup(fields: seq<Field>, key: string): Option<Json> {
    if fields == [] then None
    else if fields[0].key == key then Some(fields[0].value)
    else Lookup(fields[1..], key)
  }

  /** The part of a frame whose shape is compared; an error response has none. */
  function Payload(f: Frame): Json {
    match f.kind
    case Response => if Member(f.raw, "error").Some? then Null else ValueOr(Member(f.raw, "result"), Null)
    case Notification => ValueOr(Member(f.raw, "params"), Null)
  }

  function Print(f: Frame): set<string> {
    Of(Payload(f))
  }

  // ---- Grouping by step ----

  /** The frames of step `s` at the very end. */
  function TrailingRun(frames: seq<Frame>, s: string): seq<Frame> {
    if frames == [] || frames[|frames| - 1].step != s then []
    else TrailingRun(frames[..|frames| - 1], s) + [frames[|frames| - 1]]
  }

  /** The last uninterrupted run of frames of step `s`. */
  function LastRun(frames: seq<Frame>, s: string): seq<Frame> {
    if frames == [] then []
    else if frames[|frames| - 1].step == s then TrailingRun(frames, s)
    else LastRun(frames[..|frames| - 1], s)
  }

  function Steps(frames: seq<Frame>): set<string> {
    set i | 0 <= i < |frames| :: frames[i].step
  }

  function Groups(frames: seq<Frame>): map<string, seq<Frame>> {
    map s | s in Steps(frames) && s != "" :: LastRun(frames, s)
  }

  lemma RunAppend(frames: seq<Frame>, f: Frame, s: string)
    ensures LastRun(frames + [f], s) == if f.step == s then TrailingRun(frames, s) + [f] else LastRun(frames, s)
    ensures TrailingRun(frames + [f], s) == if f.step == s then TrailingRun(frames, s) + [f] else []
    ensures Steps(frames + [f]) == Steps(frames) + {f.step}
  {
    assert (frames + [f])[..|frames|] == frames;
    var more := frames + [f];
    assert forall i :: 0 <= i < |frames| ==> more[i] == frames[i];
    assert more[|frames|] == f;
  }

  lemma GroupsAppend(frames: seq<Frame>, f: Frame)
    ensures Groups(frames + [f]) ==
            if f.step == "" then Groups(frames) else Groups(frames)[f.step := TrailingRun(frames, f.step) + [f]]
  {
    hide Steps, TrailingRun, LastRun;
    RunAppend(frames, f, f.step);
    var after := if f.step == "" then Groups(frames) else Groups(frames)[f.step := TrailingRun(frames, f.step) + [f]];
    assert Groups(frames + [f]).Keys == after.Keys;
    forall s | s in after
      ensures Groups(frames + [f])[s] == after[s]
    {
      RunAppend(frames, f, s);
    }
  }

  /** The groups once the one still open is closed. */
  function Closed(groups: map<string, seq<Frame>>, current: string, run: seq<Frame>): map<string, seq<Frame>> {
    if current == "" then groups else groups[current := run]
  }

  /** What the pass over the first `i` frames has established. */
  ghost predicate Passed(frames: seq<Frame>, i: nat, current: string, start: nat, groups: map<string, seq<Frame>>) {
    && start <= i <= |frames|
    && (if i == 0 then current == "" && start == 0 else current == frames[i - 1].step)
    && (current != "" ==> frames[start..i] == TrailingRun(frames[..i], current))
    && Closed(groups, current, frames[start..i]) == Groups(frames[..i])
  }

  lemma PassSame(frames: seq<Frame>, i: nat, current: string, start: nat, groups: map<string, seq<Frame>>)
    requires Passed(frames, i, current, start, groups) && i < |frames| && frames[i].step == current
    ensures Passed(frames, i + 1, current, start, groups)
  {
    hide TrailingRun, Groups, LastRun, Steps;
    var f := frames[i];
    assert frames[..i + 1] == frames[..i] + [f];
    assert frames[start..i + 1] == frames[start..i] + [f];
    GroupsAppend(frames[..i], f);
    RunAppend(frames[..i], f, f.step);
  }

  lemma PassNew(frames: seq<Frame>, i: nat, current: string, start: nat, groups: map<string, seq<Frame>>)
    requires Passed(frames, i, current, start, groups) && i < |frames| && frames[i].step != current
    ensures Passed(frames, i + 1, frames[i].step, i, Closed(groups, current, frames[start..i]))
  {
    var f := frames[i];
    assert frames[..i + 1] == frames[..i] + [f];
    assert frames[i..i + 1] == [f] == [] + [f];
    GroupsAppend(frames[..i], f);
    RunAppend(frames[..i], f, f.step);
    TrailingOther(frames, i, f.step);
    hide TrailingRun, Groups, LastRun;
  }

  /** `group_by_step`: one pass, closing a group whenever the step changes. */
  method GroupByStep(frames: seq<Frame>) returns (groups: map<string, seq<Frame>>)
    ensures groups == Groups(frames)
  {
    groups := map[];
    var current, start := "", 0;
    assert Passed(frames, 0, "", 0, map[]);
    for i := 0 to |frames|
      invariant Passed(frames, i, current, start, groups)
    {
      if frames[i].step != current {
        PassNew(frames, i, current, start, groups);
        hide Groups, TrailingRun;
        if current != "" {
          groups := groups[current := frames[start..i]];
        }
        current, start := frames[i].step, i;
      } else {
        PassSame(frames, i, current, start, groups);
      }
    }
    assert frames[..|frames|] == frames;
    hide Groups, TrailingRun;
    if current != "" {
      assert frames[start..] == frames[start..|frames|];
      groups := groups[current := frames[start..]];
    }
  }

  lemma TrailingOther(frames: seq<Frame>, i: nat, s: string)
    requires i < |frames| && (i > 0 ==> frames[i - 1].step != s)
    ensures TrailingRun(frames[..i], s) == []
  {
  }

  function OfStep(frames: seq<Frame>, s: string): seq<Frame> {
    if frames == [] then []
    else OfStep(frames[..|frames| - 1], s) + (if frames[|frames| - 1].step == s then [frames[|frames| - 1]] else [])
  }

  /** Between two frames of the step every frame is of the step. */
  predicate Contiguous(frames: seq<Frame>, s: string) {
    forall i, j, k :: 0 <= i < j < k < |frames| && frames[i].step == s && frames[k].step == s ==> frames[j].step == s
  }

  /** Once the step has begun it goes on to the end. */
  predicate ToTheEnd(frames: seq<Frame>, s: string) {
    forall i, j :: 0 <= i < j < |frames| && frames[i].step == s ==> frames[j].step == s
  }

  lemma {:induction false} NoFrames(frames: seq<Frame>, s: string)
    ensures OfStep(frames, s) == [] <==> forall i :: 0 <= i < |frames| ==> frames[i].step != s
  {
    if frames != [] {
      var front := frames[..|frames| - 1];
      NoFrames(front, s);
      assert forall i :: 0 <= i < |front| ==> front[i] == frames[i];
      if OfStep(front, s) != [] {
        var i :| 0 <= i < |front| && front[i].step == s;
        assert frames[i].step == s;
      }
    }
  }

  lemma {:induction false} TrailingIsAll(frames: seq<Frame>, s: string)
    ensures TrailingRun(frames, s) == OfStep(frames, s) <==> ToTheEnd(frames, s)
  {
    if frames != [] {
      var front, last := frames[..|frames| - 1], frames[|frames| - 1];
      TrailingIsAll(front, s);
      NoFrames(front, s);
      assert forall i :: 0 <= i < |front| ==> front[i] == frames[i];
      hide OfStep, TrailingRun;
      EndSplit(frames, s);
      TrailingSplit(frames, s);
    }
  }

  lemma TrailingSplit(frames: seq<Frame>, s: string)
    requires frames != []
    ensures var front, last := frames[..|frames| - 1], frames[|frames| - 1];
            TrailingRun(frames, s) == OfStep(frames, s) <==>
              (if last.step == s then TrailingRun(front, s) == OfStep(front, s) else OfStep(front, s) == [])
  {
    var front, last := frames[..|frames| - 1], frames[|frames| - 1];
    if last.step == s && TrailingRun(frames, s) == OfStep(frames, s) {
      assert TrailingRun(frames, s)[..|TrailingRun(frames, s)| - 1] == TrailingRun(front, s);
      assert OfStep(frames, s)[..|OfStep(frames, s)| - 1] == OfStep(front, s);
    }
  }

  lemma EndSplit(frames: seq<Frame>, s: string)
    requires frames != []
    ensures var front, last := frames[..|frames| - 1], frames[|frames| - 1];
            ToTheEnd(frames, s) <==>
              (if last.step == s then ToTheEnd(front, s) else forall i :: 0 <= i < |front| ==> front[i].step != s)
  {
    var front := frames[..|frames| - 1];
    assert forall i :: 0 <= i < |front| ==> front[i] == frames[i];
  }

  lemma ContiguousSplit(frames: seq<Frame>, s: string)
    requires frames != []
    ensures var front, last := frames[..|frames| - 1], frames[|frames| - 1];
            Contiguous(frames, s) <==> (if last.step == s then ToTheEnd(frames, s) else Contiguous(front, s))
  {
    var front, last := frames[..|frames| - 1], frames[|frames| - 1];
    assert forall i :: 0 <= i < |front| ==> front[i] == frames[i];
    if last.step == s && Contiguous(frames, s) {
      forall i, j | 0 <= i < j < |frames| && frames[i].step == s
        ensures frames[j].step == s
      {
        if j < |frames| - 1 {
          assert frames[|frames| - 1].step == s;
        }
      }
    }
  }

  lemma SkipLast(frames: seq<Frame>, s: string)
    requires frames != [] && frames[|frames| - 1].step != s
    ensures OfStep(frames, s) == OfStep(frames[..|frames| - 1], s)
  {
  }

  /** The group of a step holds all its frames exactly when they are one run. */
  lemma {:induction false} LastRunIsAll(frames: seq<Frame>, s: string)
    ensures LastRun(frames, s) == OfStep(frames, s) <==> Contiguous(frames, s)
  {
    if frames != [] {
      var front, last := frames[..|frames| - 1], frames[|frames| - 1];
      hide OfStep, TrailingRun, Contiguous, ToTheEnd;
      ContiguousSplit(frames, s);
      if last.step == s {
        TrailingIsAll(frames, s);
      } else {
        LastRunIsAll(front, s);
        SkipLast(frames, s);
      }
    }
  }

  /** The groups partition the frames exactly when every step is one run with a non-empty label. */
  lemma GroupsPartition(frames: seq<Frame>)
    ensures (forall s :: s in Steps(frames) ==> s in Groups(frames) && Groups(frames)[s] == OfStep(frames, s))
            <==> "" !in Steps(frames) && forall s :: s in Steps(frames) ==> Contiguous(frames, s)
  {
    forall s | s in Steps(frames)
      ensures LastRun(frames, s) == OfStep(frames, s) <==> Contiguous(frames, s)
    {
      LastRunIsAll(frames, s);
    }
  }

  /** A step that comes back loses its first frame, and a frame without a step is in no group. */
  lemma SplitStepLosesFrames(first: Frame, between: Frame, last: Frame)
    requires first.step == last.step != "" && between.step == ""
    ensures Groups([first, between, last]) == map[first.step := [last]]
    ensures OfStep([first, between, last], first.step) == [first, last]
  {
    var frames := [first, between, last];
    assert frames[..2] == [first, between] && [first, between][..1] == [first];
    assert TrailingRun([first, between], first.step) == [] && [] + [last] == [last];
    assert LastRun(frames, first.step) == [last];
    assert Steps(frames) == {first.step, ""} by {
      assert frames[0] == first && frames[1] == between;
    }
    assert OfStep([first], first.step) == [] + [first];
  }

  // ---- Comparing ----

  datatype Key = Key(name: string, kind: Kind)

  predicate HasKey(f: Frame, key: Key) {
    f.name == key.name && f.kind == key.kind
  }

  /** All paths of the frames with this method and kind. */
  function Union(frames: seq<Frame>, key: Key): set<string> {
    set i, p | 0 <= i < |frames| && HasKey(frames[i], key) && p in Print(frames[i]) :: p
  }

  lemma UnionAppend(frames: seq<Frame>, f: Frame, key: Key)
    ensures Union(frames + [f], key) == Union(frames, key) + (if HasKey(f, key) then Print(f) else {})
  {
    var more := frames + [f];
    assert forall i :: 0 <= i < |frames| ==> more[i] == frames[i];
    assert more[|frames|] == f;
  }

  function Get(prints: map<Key, set<string>>, k: Key): set<string> {
    if k in prints then prints[k] else {}
  }

  ghost predicate Covers(prints: map<Key, set<string>>, frames: seq<Frame>) {
    && (forall k :: Get(prints, k) == Union(frames, k))
    && (forall k :: k in prints ==> prints[k] != {})
  }

  lemma CoversAppend(prints: map<Key, set<string>>, frames: seq<Frame>, f: Frame)
    requires Covers(prints, frames)
    ensures var key := Key(f.name, f.kind);
            Covers(if Print(f) == {} then prints else prints[key := Get(prints, key) + Print(f)], frames + [f])
  {
    var key := Key(f.name, f.kind);
    var after := if Print(f) == {} then prints else prints[key := Get(prints, key) + Print(f)];
    forall k
      ensures Get(after, k) == Union(frames + [f], k)
    {
      UnionAppend(frames, f, k);
      hide Union, Print;
      assert HasKey(f, k) <==> k == key;
      assert Get(prints, k) == Union(frames, k);
    }
  }

  /** `group_fingerprints`; methods and kinds without any path are left out. */
  method GroupFingerprints(frames: seq<Frame>) returns (prints: map<Key, set<string>>)
    ensures Covers(prints, frames)
  {
    prints := map[];
    assert Covers(prints, frames[..0]);
    for i := 0 to |frames|
      invariant Covers(prints, frames[..i])
    {
      hide Covers, Print;
      var f := frames[i];
      assert frames[..i + 1] == frames[..i] + [f];
      CoversAppend(prints, frames[..i], f);
      var paths, key := Print(f), Key(f.name, f.kind);
      if paths != {} {
        prints := prints[key := (if key in prints then prints[key] else {}) + paths];
      }
    }
    assert frames[..|frames|] == frames;
  }

  datatype Divergence = Divergence(skippedMethods: set<string>, skippedSteps: set<string>,
                                   skippedNotifications: set<string>, fieldPaths: seq<(string, set<string>)>)

  function Allowed(div: Divergence, name: string): set<string> {
    set i, p | 0 <= i < |div.fieldPaths| && div.fieldPaths[i].0 == name && p in div.fieldPaths[i].1 :: p
  }

  predicate Skips(div: Divergence, key: Key) {
    match key.kind
    case Response => key.name in div.skippedMethods
    case Notification => key.name in div.skippedNotifications
  }

  datatype Finding =
    | MissingNotification(step: string, name: string)
    | ExtraNotification(step: string, name: string)
    | KeyDifference(step: string, name: string, kind: Kind, missing: set<string>, extra: set<string>)

  function Notified(frames: seq<Frame>): set<string> {
    set i | 0 <= i < |frames| && frames[i].kind == Notification :: frames[i].name
  }

  function GroupOf(frames: seq<Frame>, step: string): seq<Frame> {
    if step in Groups(frames) then Groups(frames)[step] else []
  }

  /** The finding is about a kind of notification only one side of the step has. */
  predicate NotificationFinding(step: string, r: seq<Frame>, t: seq<Frame>, div: Divergence, f: Finding) {
    && f.step == step
    && !f.KeyDifference?
    && f.name !in div.skippedNotifications
    && (f.MissingNotification? ==> f.name in Notified(r) && f.name !in Notified(t))
    && (f.ExtraNotification? ==> f.name in Notified(t) && f.name !in Notified(r))
  }

  /** The finding lists the paths one side of the step has and the other has not, for one method and kind. */
  predicate KeyFinding(step: string, r: seq<Frame>, t: seq<Frame>, div: Divergence, f: Finding) {
    && f.step == step
    && f.KeyDifference?
    && !Skips(div, Key(f.name, f.kind))
    && f.missing == Union(r, Key(f.name, f.kind)) - Union(t, Key(f.name, f.kind)) - Allowed(div, f.name)
    && f.extra == Union(t, Key(f.name, f.kind)) - Union(r, Key(f.name, f.kind)) - Allowed(div, f.name)
    && (f.missing != {} || f.extra != {})
  }

  /** The finding belongs to the report of layers 2 and 3. */
  predicate IsFinding(r: seq<Frame>, t: seq<Frame>, div: Divergence, f: Finding) {
    && (f.step in Groups(r) || f.step in Groups(t))
    && f.step !in div.skippedSteps
    && (NotificationFinding(f.step, GroupOf(r, f.step), GroupOf(t, f.step), div, f)
        || KeyFinding(f.step, GroupOf(r, f.step), GroupOf(t, f.step), div, f))
  }

  /** Kinds of notification present on one side only. */
  method CompareNotifications(step: string, r: seq<Frame>, t: seq<Frame>, div: Divergence) returns (found: set<Finding>)
    ensures forall f :: f in found <==> NotificationFinding(step, r, t, div, f)
  {
    var gone, added := Notified(r) - Notified(t), Notified(t) - Notified(r);
    hide Notified;
    found := {};
    var rest, done: set<string> := gone, {};
    while rest != {}
      invariant rest + done == gone
      invariant forall f :: f in found <==>
        f.MissingNotification? && f.step == step && f.name in done && f.name !in div.skippedNotifications
      decreases |rest|
    {
      var m :| m in rest;
      rest, done := rest - {m}, done + {m};
      if m !in div.skippedNotifications {
        found := found + {MissingNotification(step, m)};
      }
    }
    rest, done := added, {};
    while rest != {}
      invariant rest + done == added
      invariant forall f :: f in found <==>
        f.step == step && f.name !in div.skippedNotifications
        && (if f.MissingNotification? then f.name in gone else f.ExtraNotification? && f.name in done)
      decreases |rest|
    {
      var m :| m in rest;
      rest, done := rest - {m}, done + {m};
      if m in div.skippedNotifications {
        continue;
      }
      found := found + {ExtraNotification(step, m)};
    }
  }

  function KeyOf(f: Finding): Key {
    Key(f.name, if f.KeyDifference? then f.kind else Notification)
  }

  /** For one method and kind there is at most one finding, and this is it. */
  lemma KeyDecides(step: string, r: seq<Frame>, t: seq<Frame>, div: Divergence, key: Key,
                   rp: set<string>, tp: set<string>)
    requires rp == Union(r, key) && tp == Union(t, key)
    ensures var missing, extra := rp - tp - Allowed(div, key.name), tp - rp - Allowed(div, key.name);
            forall f :: KeyFinding(step, r, t, div, f) && KeyOf(f) == key <==>
              !Skips(div, key) && (missing != {} || extra != {})
              && f == KeyDifference(step, key.name, key.kind, missing, extra)
  {
    hide Union, Allowed, Skips;
  }

  /** The comparison of one method and kind within the step. */
  method CompareKey(step: string, r: seq<Frame>, t: seq<Frame>, div: Divergence, key: Key,
                    rp: set<string>, tp: set<string>) returns (found: set<Finding>)
    requires rp == Union(r, key) && tp == Union(t, key)
    ensures forall f :: f in found <==> KeyFinding(step, r, t, div, f) && KeyOf(f) == key
  {
    KeyDecides(step, r, t, div, key, rp, tp);
    hide Union, Allowed, Skips, KeyFinding;
    if (rp == {} && tp == {}) || Skips(div, key) {
      return {};
    }
    var missing, extra := rp - tp - Allowed(div, key.name), tp - rp - Allowed(div, key.name);
    found := if missing != {} || extra != {} then {KeyDifference(step, key.name, key.kind, missing, extra)} else {};
  }

  /** Fingerprints of each method and kind, united over the step. */
  method CompareKeys(step: string, r: seq<Frame>, t: seq<Frame>, div: Divergence) returns (found: set<Finding>)
    ensures forall f :: f in found <==> KeyFinding(step, r, t, div, f)
  {
    hide Union, KeyFinding, KeyOf;
    var rPrints := GroupFingerprints(r);
    var tPrints := GroupFingerprints(t);
    var rest := rPrints.Keys + tPrints.Keys;
    FindingsHavePaths(step, r, t, div);
    found := {};
    while rest != {}
      invariant forall f :: f in found ==> KeyFinding(step, r, t, div, f)
      invariant forall f :: KeyFinding(step, r, t, div, f) ==> f in found || KeyOf(f) in rest
      decreases |rest|
    {
      var key :| key in rest;
      rest := rest - {key};
      var one := CompareKey(step, r, t, div, key, Get(rPrints, key), Get(tPrints, key));
      found := found + one;
    }
  }

  lemma FindingsHavePaths(step: string, r: seq<Frame>, t: seq<Frame>, div: Divergence)
    ensures forall f :: KeyFinding(step, r, t, div, f) ==> Union(r, KeyOf(f)) != {} || Union(t, KeyOf(f)) != {}
  {
    hide Union, Allowed, Skips;
  }

  /** Layers 2 and 3 of `compare`. */
  method Compare(r: seq<Frame>, t: seq<Frame>, div: Divergence) returns (found: set<Finding>)
    ensures forall f :: f in found <==> IsFinding(r, t, div, f)
  {
    var rGroups := GroupByStep(r);
    var tGroups := GroupByStep(t);
    found := {};
    var rest, done: set<string> := rGroups.Keys + tGroups.Keys, {};
    hide Groups, NotificationFinding, KeyFinding, IsFinding;
    while rest != {}
      invariant rest + done == Groups(r).Keys + Groups(t).Keys
      invariant forall f :: f in found <==> f.step in done && IsFinding(r, t, div, f)
      decreases |rest|
    {
      var step :| step in rest;
      rest, done := rest - {step}, done + {step};
      StepDecides(r, t, div, step);
      if step in div.skippedSteps {
        continue;
      }
      var rFrames := if step in rGroups then rGroups[step] else [];
      var tFrames := if step in tGroups then tGroups[step] else [];
      var notifications := CompareNotifications(step, rFrames, tFrames, div);
      var keys := CompareKeys(step, rFrames, tFrames, div);
      hide GroupOf;
      found := found + (notifications + keys);
    }
    EveryFindingHasStep(r, t, div);
  }

  /** The findings of one step. */
  lemma StepDecides(r: seq<Frame>, t: seq<Frame>, div: Divergence, step: string)
    requires step in Groups(r) || step in Groups(t)
    ensures forall f :: IsFinding(r, t, div, f) && f.step == step <==>
      step !in div.skippedSteps
      && (NotificationFinding(step, GroupOf(r, step), GroupOf(t, step), div, f)
          || KeyFinding(step, GroupOf(r, step), GroupOf(t, step), div, f))
  {
    hide Groups, GroupOf, Union, Notified, Allowed, Skips;
  }

  lemma EveryFindingHasStep(r: seq<Frame>, t: seq<Frame>, div: Divergence)
    ensures forall f :: IsFinding(r, t, div, f) ==> f.step in Groups(r).Keys + Groups(t).Keys
  {
    hide Groups, GroupOf, NotificationFinding, KeyFinding;
  }

  // ---- What the report depends on ----

  /** Frame by frame the same step, kind, method and fingerprint. */
  predicate SamePrints(a: seq<Frame>, b: seq<Frame>) {
    |a| == |b| && forall i :: 0 <= i < |a| ==>
      a[i].step == b[i].step && a[i].kind == b[i].kind && a[i].name == b[i].name && Print(a[i]) == Print(b[i])
  }

  lemma {:induction false} SameRuns(a: seq<Frame>, b: seq<Frame>, s: string)
    requires SamePrints(a, b)
    ensures SamePrints(TrailingRun(a, s), TrailingRun(b, s)) && SamePrints(LastRun(a, s), LastRun(b, s))
  {
    hide Print;
    if a != [] {
      SameRuns(a[..|a| - 1], b[..|b| - 1], s);
    }
  }

  lemma SameGroups(a: seq<Frame>, b: seq<Frame>, step: string)
    requires SamePrints(a, b)
    ensures step in Groups(a) <==> step in Groups(b)
    ensures SamePrints(GroupOf(a, step), GroupOf(b, step))
  {
    SameRuns(a, b, step);
    hide Print, LastRun;
    if step in Steps(a) {
      var i :| 0 <= i < |a| && a[i].step == step;
      assert b[i].step == step;
    }
    if step in Steps(b) {
      var i :| 0 <= i < |b| && b[i].step == step;
      assert a[i].step == step;
    }
  }

  lemma SameWithin(a: seq<Frame>, b: seq<Frame>)
    requires SamePrints(a, b)
    ensures Notified(a) == Notified(b)
    ensures forall k :: Union(a, k) == Union(b, k)
  {
    forall m
      ensures m in Notified(a) <==> m in Notified(b)
    {
      NotifiedSame(a, b, m);
      NotifiedSame(b, a, m);
    }
    forall k
      ensures Union(a, k) == Union(b, k)
    {
      UnionSame(a, b, k);
      UnionSame(b, a, k);
    }
  }

  lemma NotifiedSame(a: seq<Frame>, b: seq<Frame>, m: string)
    requires SamePrints(a, b)
    ensures m in Notified(a) ==> m in Notified(b)
  {
    if m in Notified(a) {
      var i :| 0 <= i < |a| && a[i].kind == Notification && a[i].name == m;
      assert b[i].kind == Notification && b[i].name == m;
    }
  }

  lemma UnionSame(a: seq<Frame>, b: seq<Frame>, k: Key)
    requires SamePrints(a, b)
    ensures Union(a, k) <= Union(b, k)
  {
    hide Print;
    forall p | p in Union(a, k)
      ensures p in Union(b, k)
    {
      var i :| 0 <= i < |a| && HasKey(a[i], k) && p in Print(a[i]);
      assert HasKey(b[i], k) && p in Print(b[i]);
    }
  }

  /** The report depends on steps, kinds, methods and fingerprints only. */
  lemma ReportFromPrints(r: seq<Frame>, r': seq<Frame>, t: seq<Frame>, t': seq<Frame>, div: Divergence, f: Finding)
    requires SamePrints(r, r') && SamePrints(t, t')
    ensures IsFinding(r, t, div, f) <==> IsFinding(r', t', div, f)
  {
    hide Groups, GroupOf, Notified, Union, SamePrints, Allowed, Skips;
    SameGroups(r, r', f.step);
    SameGroups(t, t', f.step);
    SameWithin(GroupOf(r, f.step), GroupOf(r', f.step));
    SameWithin(GroupOf(t, f.step), GroupOf(t', f.step));
  }

  /** Frame by frame alike inside `result` or `params`. */
  ghost predicate AlikeFrames(a: seq<Frame>, b: seq<Frame>) {
    |a| == |b| && forall i :: 0 <= i < |a| ==>
      a[i].step == b[i].step && a[i].kind == b[i].kind && a[i].name == b[i].name && Alike(Payload(a[i]), Payload(b[i]))
  }

  /**
   Adding or dropping null fields, reordering fields and permuting or repeating array elements,
   at any depth of the payloads of either transcript, changes no finding.
   */
  lemma ReportIgnoresPresentation(r: seq<Frame>, r': seq<Frame>, t: seq<Frame>, t': seq<Frame>,
                                  div: Divergence, f: Finding)
    requires AlikeFrames(r, r') && AlikeFrames(t, t')
    ensures IsFinding(r, t, div, f) <==> IsFinding(r', t', div, f)
  {
    AlikePrints(r, r');
    AlikePrints(t, t');
    ReportFromPrints(r, r', t, t', div, f);
  }

  lemma AlikePrints(a: seq<Frame>, b: seq<Frame>)
    requires AlikeFrames(a, b)
    ensures SamePrints(a, b)
  {
    forall i | 0 <= i < |a|
      ensures Print(a[i]) == Print(b[i])
    {
      AlikeSameFingerprint(Payload(a[i]), Payload(b[i]));
    }
  }

  function Mirrored(f: Finding): Finding {
    match f
    case MissingNotification(step, name) => ExtraNotification(step, name)
    case ExtraNotification(step, name) => MissingNotification(step, name)
    case KeyDifference(step, name, kind, missing, extra) => KeyDifference(step, name, kind, extra, missing)
  }

  /** Exchanging the transcripts exchanges missing and extra. */
  lemma ReportMirrored(r: seq<Frame>, t: seq<Frame>, div: Divergence, f: Finding)
    ensures IsFinding(r, t, div, f) <==> IsFinding(t, r, div, Mirrored(f))
  {
    hide Groups, Notified, Union, Allowed, Skips;
  }

  /** A step agrees: only skipped kinds of notification and allowed paths differ. */
  ghost predicate StepAgrees(r: seq<Frame>, t: seq<Frame>, div: Divergence) {
    && (forall m :: m in Notified(r) && m !in div.skippedNotifications ==> m in Notified(t))
    && (forall m :: m in Notified(t) && m !in div.skippedNotifications ==> m in Notified(r))
    && (forall k :: !Skips(div, k) ==>
          Union(r, k) - Allowed(div, k.name) == Union(t, k) - Allowed(div, k.name))
  }

  /** Nothing is reported exactly when every step not skipped agrees. */
  lemma NothingReported(r: seq<Frame>, t: seq<Frame>, div: Divergence)
    ensures (forall f :: !IsFinding(r, t, div, f)) <==>
            forall s :: (s in Groups(r) || s in Groups(t)) && s !in div.skippedSteps ==>
              StepAgrees(GroupOf(r, s), GroupOf(t, s), div)
  {
    hide Groups, GroupOf, Notified, Union, Allowed, Skips;
    if forall f :: !IsFinding(r, t, div, f) {
      forall s | (s in Groups(r) || s in Groups(t)) && s !in div.skippedSteps
        ensures StepAgrees(GroupOf(r, s), GroupOf(t, s), div)
      {
        QuietStepAgrees(r, t, div, s);
      }
    }
    if forall s :: (s in Groups(r) || s in Groups(t)) && s !in div.skippedSteps ==>
         StepAgrees(GroupOf(r, s), GroupOf(t, s), div) {
      forall f
        ensures !IsFinding(r, t, div, f)
      {
        if IsFinding(r, t, div, f) {
          AgreeingStepQuiet(GroupOf(r, f.step), GroupOf(t, f.step), div, f);
          assert false;
        }
      }
    }
  }

  lemma QuietStepAgrees(r: seq<Frame>, t: seq<Frame>, div: Divergence, s: string)
    requires forall f :: !IsFinding(r, t, div, f)
    requires (s in Groups(r) || s in Groups(t)) && s !in div.skippedSteps
    ensures StepAgrees(GroupOf(r, s), GroupOf(t, s), div)
  {
    hide Groups, GroupOf, Notified, Union, Allowed, Skips;
    var a, b := GroupOf(r, s), GroupOf(t, s);
    forall m | m !in div.skippedNotifications
      ensures m in Notified(a) <==> m in Notified(b)
    {
      assert !IsFinding(r, t, div, MissingNotification(s, m)) && !IsFinding(r, t, div, ExtraNotification(s, m));
    }
    forall k | !Skips(div, k)
      ensures Union(a, k) - Allowed(div, k.name) == Union(b, k) - Allowed(div, k.name)
    {
      var missing, extra := Union(a, k) - Union(b, k) - Allowed(div, k.name), Union(b, k) - Union(a,
              k) - Allowed(div, k.name);
      assert Key(k.name, k.kind) == k;
      assert !IsFinding(r, t, div, KeyDifference(s, k.name, k.kind, missing, extra));
      OutsideAllowed(Union(a, k), Union(b, k), Allowed(div, k.name));
    }
  }

  lemma OutsideAllowed(a: set<string>, b: set<string>, allowed: set<string>)
    ensures a - allowed == b - allowed <==> a - b - allowed == {} && b - a - allowed == {}
  {
    if a - b - allowed != {} {
      var p :| p in a - b - allowed;
      assert p in a - allowed && p !in b - allowed;
    }
    if b - a - allowed != {} {
      var p :| p in b - a - allowed;
      assert p in b - allowed && p !in a - allowed;
    }
    if a - b - allowed == {} && b - a - allowed == {} {
      assert forall p :: p in a && p !in b && p !in allowed ==> p in a - b - allowed;
      assert forall p :: p in b && p !in a && p !in allowed ==> p in b - a - allowed;
    }
  }

  lemma AgreeingStepQuiet(r: seq<Frame>, t: seq<Frame>, div: Divergence, f: Finding)
    requires StepAgrees(r, t, div)
    ensures !NotificationFinding(f.step, r, t, div, f) && !KeyFinding(f.step, r, t, div, f)
  {
    hide Notified, Union, Allowed, Skips;
    if KeyFinding(f.step, r, t, div, f) {
      var k := Key(f.name, f.kind);
      OutsideAllowed(Union(r, k), Union(t, k), Allowed(div, k.name));
    }
  }
}
