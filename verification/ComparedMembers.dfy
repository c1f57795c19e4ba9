/**
 The report of a comparison, said on the raw JSON of the frames: which member of a frame is
 compared, how a path is spelled, which frames make up a step, and which differences are left
 out.
 */
module ComparedMembers {
  import opened Common
  import opened Fingerprint
  import opened Conformance

  /** The first field with this key. */
  predicate FirstField(v: Json, key: string, i: int): (first: bool)
    ensures first ==> v.Object? && 0 <= i < |v.fields|
  {
    && v.Object? && 0 <= i < |v.fields| && v.fields[i].key == key
    && forall j :: 0 <= j < i ==> v.fields[j].key != key
  }

  /** The value of a frame that is compared: the result of a response without an error, or the
      params of a notification. */
  ghost predicate IsCompared(f: Frame, value: Json) {
    match f.kind
    case Response =>
      && (forall i :: !FirstField(f.raw, "error", i))
      && exists i :: FirstField(f.raw, "result", i) && value == f.raw.fields[i].value
    case Notification => exists i :: FirstField(f.raw, "params", i) && value == f.raw.fields[i].value
  }

  /** A path as it is written. */
  function Spelled(hops: seq<Hop>): string {
    if hops == [] then ""
    else
      var before := Spelled(hops[..|hops| - 1]);
      match hops[|hops| - 1]
      case Into(key) => if before == "" then key else before + "." + key
      case Elements => before + "[]"
  }

  /** The compared value of the frame can be descended along a path written like this. */
  ghost predicate HasPath(f: Frame, p: string) {
    exists value, hops :: IsCompared(f, value) && hops != [] && Reached(value, hops) && Spelled(hops) == p
  }

  lemma {:induction false} LookupIs(fields: seq<Field>, key: string)
    ensures var found := Lookup(fields, key);
            && (found.None? <==> forall i :: 0 <= i < |fields| ==> fields[i].key != key)
            && (found.Some? ==> exists i :: 0 <= i < |fields| && fields[i].key == key && fields[i].value == found.value
                                            && forall j :: 0 <= j < i ==> fields[j].key != key)
  {
    if fields != [] {
      var rest := fields[1..];
      LookupIs(rest, key);
      assert forall i :: 0 <= i < |rest| ==> rest[i] == fields[i + 1];
      if fields[0].key != key {
        var found := Lookup(rest, key);
        assert found == Lookup(fields, key);
        if found.Some? {
          var i :| 0 <= i < |rest| && rest[i].key == key && rest[i].value == found.value
                   && forall j :: 0 <= j < i ==> rest[j].key != key;
          assert fields[i + 1].key == key && fields[i + 1].value == found.value;
          forall j | 0 <= j < i + 1 ensures fields[j].key != key {
            assert j > 0 ==> rest[j - 1] == fields[j];
          }
        } else {
          forall i | 0 <= i < |fields| ensures fields[i].key != key {
            assert i > 0 ==> rest[i - 1] == fields[i];
          }
        }
      }
    }
  }

  lemma MemberIs(v: Json, key: string)
    ensures Member(v, key).None? <==> forall i :: !FirstField(v, key, i)
    ensures Member(v, key).Some? ==> exists i :: FirstField(v, key, i) && v.fields[i].value == Member(v, key).value
    ensures forall i :: FirstField(v, key, i) ==> Member(v, key) == Some(v.fields[i].value)
  {
    if v.Object? {
      LookupIs(v.fields, key);
      hide Lookup;
      if Member(v, key).Some? {
        var i :| 0 <= i < |v.fields| && v.fields[i].key == key && v.fields[i].value == Member(v, key).value
                 && forall j :: 0 <= j < i ==> v.fields[j].key != key;
        assert FirstField(v, key, i);
        forall k | FirstField(v, key, k) ensures k == i {
        }
      }
    }
  }

  /** The compared value is the payload, unless there is none. */
  lemma ComparedIs(f: Frame)
    ensures forall value :: IsCompared(f, value) ==> Payload(f) == value
    ensures (forall value :: !IsCompared(f, value)) ==> Payload(f) == Null
  {
    MemberIs(f.raw, "error");
    MemberIs(f.raw, "result");
    MemberIs(f.raw, "params");
    hide Member, FirstField;
    var name := if f.kind == Response then "result" else "params";
    if Member(f.raw, name).Some? && (f.kind == Response ==> Member(f.raw, "error").None?) {
      assert IsCompared(f, Member(f.raw, name).value);
    }
  }

  lemma {:induction false} RenderLast(prefix: string, hops: seq<Hop>, hop: Hop)
    ensures Render(prefix, hops + [hop]) == Down(Render(prefix, hops), hop)
    decreases |hops|
  {
    if hops == [] {
      assert [] + [hop] == [hop];
    } else {
      assert (hops + [hop])[0] == hops[0] && (hops + [hop])[1..] == hops[1..] + [hop];
      RenderLast(Down(prefix, hops[0]), hops[1..], hop);
    }
  }

  lemma {:induction false} SpelledIs(hops: seq<Hop>)
    ensures Render("", hops) == Spelled(hops)
  {
    if hops != [] {
      var front, hop := hops[..|hops| - 1], hops[|hops| - 1];
      SpelledIs(front);
      assert front + [hop] == hops;
      RenderLast("", front, hop);
    }
  }

  /** A path is in the print of a frame exactly if the raw frame has it. */
  lemma PrintIsRaw(f: Frame, p: string)
    ensures p in Print(f) <==> HasPath(f, p)
  {
    ComparedIs(f);
    FingerprintIsPopulatedPaths(Payload(f), "", p);
    hide IsCompared, Payload, Reached, Spelled, Fingerprint.Render;
    if p in Print(f) {
      var hops: seq<Hop> :| hops != [] && Reached(Payload(f), hops) && Fingerprint.Render("", hops) == p;
      SpelledIs(hops);
      NullHasNone(hops);
      assert IsCompared(f, Payload(f));
    }
    if HasPath(f, p) {
      var value, hops :| IsCompared(f, value) && hops != [] && Reached(value, hops) && Spelled(hops) == p;
      SpelledIs(hops);
      assert Populated(Payload(f), "", p);
    }
  }

  lemma NullHasNone(hops: seq<Hop>)
    ensures hops != [] ==> !Reached(Null, hops)
  {
  }

  // ---- The frames of a step ----

  /** Frame `i` belongs to the last uninterrupted run of its step. */
  predicate InLastRun(frames: seq<Frame>, s: string, i: int): (within: bool)
    ensures within ==> 0 <= i < |frames|
  {
    && 0 <= i < |frames| && frames[i].step == s
    && forall j, m :: i < m < j < |frames| && frames[j].step == s ==> frames[m].step == s
  }

  lemma {:induction false} TrailingIs(frames: seq<Frame>, s: string, f: Frame)
    ensures f in TrailingRun(frames, s) <==>
            exists i :: 0 <= i < |frames| && frames[i] == f && forall j :: i <= j < |frames| ==> frames[j].step == s
  {
    if frames != [] {
      var n := |frames| - 1;
      var front := frames[..n];
      TrailingIs(front, s, f);
      if frames[n].step == s {
        assert TrailingRun(frames, s) == TrailingRun(front, s) + [frames[n]];
        if f in TrailingRun(front, s) {
          var i :| 0 <= i < n && front[i] == f && forall j :: i <= j < n ==> front[j].step == s;
          assert frames[i] == f && forall j :: i <= j < |frames| ==> frames[j].step == s;
        }
        if i :| 0 <= i < |frames| && frames[i] == f && forall j :: i <= j < |frames| ==> frames[j].step == s {
          if i < n {
            assert front[i] == f && forall j :: i <= j < n ==> front[j] == frames[j];
          }
        }
      }
    }
  }

  lemma {:induction false} LastRunIs(frames: seq<Frame>, s: string, f: Frame)
    ensures f in LastRun(frames, s) <==> exists i :: InLastRun(frames, s, i) && frames[i] == f
  {
    if frames != [] {
      var n := |frames| - 1;
      var front := frames[..n];
      if frames[n].step == s {
        TrailingIs(frames, s, f);
        EndsInRun(frames, s);
      } else {
        LastRunIs(front, s, f);
        forall i ensures InLastRun(frames, s, i) <==> InLastRun(front, s, i) {
          SkipsLast(frames, s, i);
        }
        hide InLastRun;
        if i :| InLastRun(frames, s, i) && frames[i] == f {
          assert front[i] == f;
        }
        if i :| InLastRun(front, s, i) && front[i] == f {
          assert frames[i] == f;
        }
      }
    }
  }

  lemma EndsInRun(frames: seq<Frame>, s: string)
    requires frames != [] && frames[|frames| - 1].step == s
    ensures forall i :: InLastRun(frames, s, i) <==>
              0 <= i < |frames| && forall j :: i <= j < |frames| ==> frames[j].step == s
  {
    forall i | InLastRun(frames, s, i) ensures forall j :: i <= j < |frames| ==> frames[j].step == s {
      forall j | i <= j < |frames| ensures frames[j].step == s {
        assert j == i || j == |frames| - 1 || frames[j].step == s;
      }
    }
  }

  lemma SkipsLast(frames: seq<Frame>, s: string, i: int)
    requires frames != [] && frames[|frames| - 1].step != s
    ensures InLastRun(frames, s, i) <==> InLastRun(frames[..|frames| - 1], s, i)
  {
    var n := |frames| - 1;
    var front := frames[..n];
    assert forall j :: 0 <= j < n ==> front[j] == frames[j];
    if InLastRun(front, s, i) {
      forall j, m | i < m < j < |frames| && frames[j].step == s ensures frames[m].step == s {
        assert front[j].step == s && front[m] == frames[m];
      }
    }
    if InLastRun(frames, s, i) {
      forall j, m | i < m < j < n && front[j].step == s ensures front[m].step == s {
        assert frames[j].step == s && front[m] == frames[m];
      }
    }
  }

  /** Some frame of the step, of this method and kind, has the path. */
  ghost predicate StepHas(frames: seq<Frame>, s: string, name: string, kind: Kind, p: string) {
    s != "" && exists i ::
      InLastRun(frames, s, i) && frames[i].name == name && frames[i].kind == kind && HasPath(frames[i], p)
  }

  /** Some frame of the step is a notification of this method. */
  ghost predicate StepNotifies(frames: seq<Frame>, s: string, name: string) {
    s != "" && exists i :: InLastRun(frames, s, i) && frames[i].name == name && frames[i].kind == Notification
  }

  lemma GroupHolds(frames: seq<Frame>, s: string, f: Frame)
    ensures f in GroupOf(frames, s) <==> s != "" && exists i :: InLastRun(frames, s, i) && frames[i] == f
  {
    LastRunIs(frames, s, f);
    hide LastRun;
    if s != "" && s in Steps(frames) {
      assert GroupOf(frames, s) == LastRun(frames, s);
    }
    if i :| InLastRun(frames, s, i) && frames[i] == f {
      assert s in Steps(frames);
    }
  }

  lemma UnionIs(frames: seq<Frame>, s: string, name: string, kind: Kind, p: string)
    ensures p in Union(GroupOf(frames, s), Key(name, kind)) <==> StepHas(frames, s, name, kind, p)
  {
    hide GroupOf, Print, HasPath, InLastRun;
    var group := GroupOf(frames, s);
    if p in Union(group, Key(name, kind)) {
      var i :| 0 <= i < |group| && HasKey(group[i], Key(name, kind)) && p in Print(group[i]);
      PrintIsRaw(group[i], p);
      assert group[i] in group;
      GroupHolds(frames, s, group[i]);
    }
    if StepHas(frames, s, name, kind, p) {
      var i :| InLastRun(frames, s, i) && frames[i].name == name && frames[i].kind == kind && HasPath(frames[i], p);
      PrintIsRaw(frames[i], p);
      GroupHolds(frames, s, frames[i]);
      var k :| 0 <= k < |group| && group[k] == frames[i];
      assert HasKey(group[k], Key(name, kind)) && p in Print(group[k]);
    }
  }

  lemma NotifiedIs(frames: seq<Frame>, s: string, name: string)
    ensures name in Notified(GroupOf(frames, s)) <==> StepNotifies(frames, s, name)
  {
    hide GroupOf, InLastRun;
    var group := GroupOf(frames, s);
    if name in Notified(group) {
      var i :| 0 <= i < |group| && group[i].kind == Notification && group[i].name == name;
      assert group[i] in group;
      GroupHolds(frames, s, group[i]);
    }
    if StepNotifies(frames, s, name) {
      var i :| InLastRun(frames, s, i) && frames[i].name == name && frames[i].kind == Notification;
      GroupHolds(frames, s, frames[i]);
      var k :| 0 <= k < |group| && group[k] == frames[i];
      assert group[k].kind == Notification && group[k].name == name;
    }
  }

  /** The step is compared at all. */
  ghost predicate StepCompared(r: seq<Frame>, t: seq<Frame>, div: Divergence, s: string) {
    && s != "" && s !in div.skippedSteps
    && ((exists i :: 0 <= i < |r| && r[i].step == s) || (exists i :: 0 <= i < |t| && t[i].step == s))
  }

  ghost predicate PathAllowed(div: Divergence, name: string, p: string) {
    exists i :: 0 <= i < |div.fieldPaths| && div.fieldPaths[i].0 == name && p in div.fieldPaths[i].1
  }

  /** The paths one side of a step has, the other has not, and nobody allows. */
  ghost predicate Lacking(r: seq<Frame>, t: seq<Frame>, div: Divergence, s: string, name: string, kind: Kind,
                          paths: set<string>)
  {
    forall p :: p in paths <==>
      StepHas(r, s, name, kind, p) && !StepHas(t, s, name, kind, p) && !PathAllowed(div, name, p)
  }

  lemma StepsCompared(r: seq<Frame>, t: seq<Frame>, div: Divergence, s: string)
    ensures (s in Groups(r) || s in Groups(t)) && s !in div.skippedSteps <==> StepCompared(r, t, div, s)
  {
    hide LastRun;
  }

  lemma LackingIs(r: seq<Frame>, t: seq<Frame>, div: Divergence, s: string, name: string, kind: Kind,
                  paths: set<string>)
    ensures Lacking(r, t, div, s, name, kind, paths) <==>
            paths == Union(GroupOf(r, s), Key(name, kind)) - Union(GroupOf(t, s), Key(name, kind)) - Allowed(div, name)
  {
    hide GroupOf, Union, StepHas;
    forall p ensures p in Union(GroupOf(r, s), Key(name, kind)) <==> StepHas(r, s, name, kind, p) {
      UnionIs(r, s, name, kind, p);
    }
    forall p ensures p in Union(GroupOf(t, s), Key(name, kind)) <==> StepHas(t, s, name, kind, p) {
      UnionIs(t, s, name, kind, p);
    }
    assert forall p :: p in Allowed(div, name) <==> PathAllowed(div, name, p);
  }

  /** A difference of paths is reported exactly if the raw frames of the step differ like this. */
  lemma KeyDifferenceIff(r: seq<Frame>, t: seq<Frame>, div: Divergence, s: string, name: string, kind: Kind,
                         missing: set<string>, extra: set<string>)
    ensures IsFinding(r, t, div, KeyDifference(s, name, kind, missing, extra)) <==>
            && StepCompared(r, t, div, s)
            && (kind == Response ==> name !in div.skippedMethods)
            && (kind == Notification ==> name !in div.skippedNotifications)
            && Lacking(r, t, div, s, name, kind, missing) && Lacking(t, r, div, s, name, kind, extra)
            && (missing != {} || extra != {})
  {
    StepsCompared(r, t, div, s);
    LackingIs(r, t, div, s, name, kind, missing);
    LackingIs(t, r, div, s, name, kind, extra);
    hide Groups, GroupOf, Union, Lacking, StepCompared, Allowed;
  }

  /** A missing or extra kind of notification is reported exactly if one side of the step has it. */
  lemma NotificationIff(r: seq<Frame>, t: seq<Frame>, div: Divergence, s: string, name: string)
    ensures IsFinding(r, t, div, MissingNotification(s, name)) <==>
            StepCompared(r, t, div, s) && name !in div.skippedNotifications
            && StepNotifies(r, s, name) && !StepNotifies(t, s, name)
    ensures IsFinding(r, t, div, ExtraNotification(s, name)) <==>
            StepCompared(r, t, div, s) && name !in div.skippedNotifications
            && StepNotifies(t, s, name) && !StepNotifies(r, s, name)
  {
    StepsCompared(r, t, div, s);
    NotifiedIs(r, s, name);
    NotifiedIs(t, s, name);
    hide Groups, GroupOf, Notified, StepNotifies, StepCompared;
  }

  /** Two responses of the same method, each alone in its step: their results are compared. */
  lemma OneResponse(r: Frame, t: Frame, div: Divergence, missing: set<string>, extra: set<string>)
    requires r.step == t.step != "" && r.name == t.name && r.kind == Response && t.kind == Response
    requires r.step !in div.skippedSteps && r.name !in div.skippedMethods
    requires forall p :: p in missing <==> HasPath(r, p) && !HasPath(t, p) && !PathAllowed(div, r.name, p)
    requires forall p :: p in extra <==> HasPath(t, p) && !HasPath(r, p) && !PathAllowed(div, r.name, p)
    requires missing != {} || extra != {}
    ensures IsFinding([r], [t], div, KeyDifference(r.step, r.name, Response, missing, extra))
  {
    hide HasPath, PathAllowed;
    forall p ensures StepHas([r], r.step, r.name, Response, p) <==> HasPath(r, p) {
      AloneHas(r, p);
    }
    forall p ensures StepHas([t], r.step, r.name, Response, p) <==> HasPath(t, p) {
      AloneHas(t, p);
    }
    hide StepHas;
    KeyDifferenceIff([r], [t], div, r.step, r.name, Response, missing, extra);
    assert [r][0].step == r.step;
  }

  lemma AloneHas(f: Frame, p: string)
    requires f.step != ""
    ensures StepHas([f], f.step, f.name, f.kind, p) <==> HasPath(f, p)
  {
    hide HasPath;
    assert InLastRun([f], f.step, 0);
  }
}
