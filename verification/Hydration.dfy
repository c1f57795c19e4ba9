/**
 Filling the thread index from a scan of amp's thread files
 (crates/amp-bridge/src/index.rs, `hydrate_missing_amp_threads`).
 */
module Hydration {
  import opened Common

  datatype Entry = Entry(threadId: string, ampId: Option<string>, preview: string)

  /** An entry is known by its thread id and by the amp thread it stands for. */
  function Ids(e: Entry): set<string> {
    {e.threadId} + (if e.ampId.Some? then {e.ampId.value} else {})
  }

  type Entries = map<string, Entry>

  ghost predicate Keyed(entries: Entries) {
    forall k :: k in entries ==> entries[k].threadId == k
  }

  function Known(entries: Entries): set<string> {
    set k, id | k in entries && id in Ids(entries[k]) :: id
  }

  function Hydrated(entries: Entries, scanned: seq<Entry>): Entries {
    if scanned == [] then entries
    else
      var e, last := Hydrated(entries, scanned[..|scanned| - 1]), scanned[|scanned| - 1];
      if Ids(last) !! Known(e) then e[last.threadId := last] else e
  }

  class ThreadIndex {
    var entries: Entries

    constructor (initial: Entries)
      ensures entries == initial
    {
      entries := initial;
    }

    method Insert(e: Entry)
      modifies this
      ensures entries == old(entries)[e.threadId := e]
    {
      entries := entries[e.threadId := e];
    }
  }

  lemma KnownInsert(entries: Entries, e: Entry)
    requires e.threadId !in entries
    ensures Known(entries[e.threadId := e]) == Known(entries) + Ids(e)
  {
    var after := entries[e.threadId := e];
    hide Ids;
    forall id | id in Known(entries) + Ids(e)
      ensures id in Known(after)
    {
      if id in Ids(e) {
        assert id in Ids(after[e.threadId]);
      } else {
        var k :| k in entries && id in Ids(entries[k]);
        assert id in Ids(after[k]);
      }
    }
    forall id | id in Known(after)
      ensures id in Known(entries) + Ids(e)
    {
      var k :| k in after && id in Ids(after[k]);
      assert k == e.threadId || id in Ids(entries[k]);
    }
  }

  lemma KeyIsKnown(entries: Entries, id: string)
    requires Keyed(entries) && id in entries
    ensures id in Known(entries)
  {
    assert id in Ids(entries[id]);
  }

  lemma IdsDisjoint(e: Entry, known: set<string>)
    ensures Ids(e) !! known <==> e.threadId !in known && (e.ampId.Some? ==> e.ampId.value !in known)
    ensures known + Ids(e) == known + {e.threadId} + (if e.ampId.Some? then {e.ampId.value} else {})
  {
    assert e.threadId in Ids(e);
    assert e.ampId.Some? ==> e.ampId.value in Ids(e);
  }

  /** An entry that shares no known id gets a key of its own. */
  lemma InsertNew(entries: Entries, e: Entry)
    requires Keyed(entries) && Ids(e) !! Known(entries)
    ensures e.threadId !in entries
    ensures Keyed(entries[e.threadId := e])
    ensures Known(entries[e.threadId := e]) == Known(entries) + Ids(e)
    ensures |entries[e.threadId := e]| == |entries| + 1
  {
    assert e.threadId in Ids(e);
    if e.threadId in entries {
      KeyIsKnown(entries, e.threadId);
    }
    KnownInsert(entries, e);
  }

  /** What a pass over the first `i` scanned entries has established. */
  ghost predicate Midway(start: Entries, now: Entries, scanned: seq<Entry>, i: nat, known: set<string>, added: nat) {
    && i <= |scanned|
    && now == Hydrated(start, scanned[..i])
    && Keyed(now)
    && known == Known(now)
    && added == |now| - |start|
  }

  lemma HydratedNext(start: Entries, scanned: seq<Entry>, i: nat)
    requires i < |scanned|
    ensures Hydrated(start, scanned[..i + 1]) ==
            var now := Hydrated(start, scanned[..i]);
            if Ids(scanned[i]) !! Known(now) then now[scanned[i].threadId := scanned[i]] else now
    ensures Hydrated(start, []) == start
  {
    assert scanned[..i + 1][..i] == scanned[..i];
    hide Ids, Known;
  }

  lemma OneMore(start: Entries, now: Entries, scanned: seq<Entry>, i: nat, known: set<string>, added: nat)
    requires Midway(start, now, scanned, i, known, added) && i < |scanned|
    ensures var e := scanned[i];
            if Ids(e) !! known then Midway(start, now[e.threadId := e], scanned, i + 1, known + Ids(e), added + 1)
            else Midway(start, now, scanned, i + 1, known, added)
  {
    hide Ids, Known, Keyed, Hydrated;
    HydratedNext(start, scanned, i);
    if Ids(scanned[i]) !! known {
      InsertNew(now, scanned[i]);
    }
  }

  /** One pass over the scan; what is added is counted. */
  method HydrateMissing(index: ThreadIndex, scanned: seq<Entry>) returns (added: nat)
    requires Keyed(index.entries)
    modifies index
    ensures index.entries == Hydrated(old(index.entries), scanned)
    ensures Keyed(index.entries)
    ensures added == |index.entries| - |old(index.entries)|
  {
    if scanned == [] {
      return 0;
    }
    var known := Known(index.entries);
    added := 0;
    HydratedNext(index.entries, scanned, 0);
    assert scanned[..0] == [];
    hide Hydrated, Ids, Known, Keyed;
    for i := 0 to |scanned|
      invariant Midway(old(index.entries), index.entries, scanned, i, known, added)
    {
      var e := scanned[i];
      OneMore(old(index.entries), index.entries, scanned, i, known, added);
      IdsDisjoint(e, known);
      hide Midway;
      if e.threadId in known || (e.ampId.Some? && e.ampId.value in known) {
        continue;
      }
      known := known + {e.threadId} + (if e.ampId.Some? then {e.ampId.value} else {});
      index.Insert(e);
      added := added + 1;
    }
    assert scanned[..|scanned|] == scanned;
  }

  /** Every entry that was there stays as it was. */
  lemma {:induction false} ExistingKept(entries: Entries, scanned: seq<Entry>)
    requires Keyed(entries)
    ensures Keyed(Hydrated(entries, scanned))
    ensures forall k :: k in entries ==> k in Hydrated(entries, scanned) && Hydrated(entries, scanned)[k] == entries[k]
  {
    if scanned != [] {
      var e, last := Hydrated(entries, scanned[..|scanned| - 1]), scanned[|scanned| - 1];
      ExistingKept(entries, scanned[..|scanned| - 1]);
      if last.threadId in e {
        KeyIsKnown(e, last.threadId);
        assert last.threadId in Ids(last);
      }
    }
  }

  lemma DisjointFromKnown(entries: Entries, e: Entry, k: string)
    requires Ids(e) !! Known(entries) && k in entries
    ensures Ids(e) !! Ids(entries[k])
  {
    assert forall id :: id in Ids(entries[k]) ==> id in Known(entries);
  }

  /** Whatever was added was scanned and shares no id with any other entry, old or added. */
  lemma {:induction false} AddedShareNothing(entries: Entries, scanned: seq<Entry>, k: string, other: string)
    requires Keyed(entries)
    requires k in Hydrated(entries, scanned) && k !in entries
    requires other in Hydrated(entries, scanned) && other != k
    ensures Hydrated(entries, scanned)[k] in scanned
    ensures Ids(Hydrated(entries, scanned)[k]) !! Ids(Hydrated(entries, scanned)[other])
  {
    var e, last := Hydrated(entries, scanned[..|scanned| - 1]), scanned[|scanned| - 1];
    ExistingKept(entries, scanned[..|scanned| - 1]);
    if Ids(last) !! Known(e) && k == last.threadId {
      DisjointFromKnown(e, last, other);
    } else if Ids(last) !! Known(e) && other == last.threadId {
      DisjointFromKnown(e, last, k);
      AddedWasScanned(entries, scanned[..|scanned| - 1], k);
    } else {
      AddedShareNothing(entries, scanned[..|scanned| - 1], k, other);
    }
  }

  /** Said of the ids themselves: neither the thread id nor the amp id of an added entry is the
      thread id or the amp id of another. */
  lemma AddedIsNew(entries: Entries, scanned: seq<Entry>, k: string, other: string)
    requires Keyed(entries)
    requires k in Hydrated(entries, scanned) && k !in entries
    requires other in Hydrated(entries, scanned) && other != k
    ensures var e, o := Hydrated(entries, scanned)[k], Hydrated(entries, scanned)[other];
            && e in scanned && e.threadId == k && o.threadId == other
            && e.ampId != Some(other) && o.ampId != Some(k)
            && (e.ampId.Some? ==> e.ampId != o.ampId)
  {
    var after := Hydrated(entries, scanned);
    AddedShareNothing(entries, scanned, k, other);
    ExistingKept(entries, scanned);
    hide Hydrated;
    var e, o := after[k], after[other];
    assert forall id :: id in Ids(e) ==> id !in Ids(o);
    assert e.threadId in Ids(e) && o.threadId in Ids(o);
    assert e.ampId.Some? ==> e.ampId.value in Ids(e);
    assert o.ampId.Some? ==> o.ampId.value in Ids(o);
  }

  lemma {:induction false} AddedWasScanned(entries: Entries, scanned: seq<Entry>, k: string)
    requires k in Hydrated(entries, scanned) && k !in entries
    ensures Hydrated(entries, scanned)[k] in scanned
  {
    var e, last := Hydrated(entries, scanned[..|scanned| - 1]), scanned[|scanned| - 1];
    if !(Ids(last) !! Known(e) && k == last.threadId) {
      AddedWasScanned(entries, scanned[..|scanned| - 1], k);
    }
  }

  /** Ids once known stay known, and every scanned entry has a known id in the end. */
  lemma {:induction false} ScannedAreKnown(entries: Entries, scanned: seq<Entry>)
    requires Keyed(entries)
    ensures Known(entries) <= Known(Hydrated(entries, scanned))
    ensures forall e :: e in scanned ==> !(Ids(e) !! Known(Hydrated(entries, scanned)))
  {
    if scanned != [] {
      var front, last := scanned[..|scanned| - 1], scanned[|scanned| - 1];
      var before := Hydrated(entries, front);
      ScannedAreKnown(entries, front);
      ExistingKept(entries, front);
      if Ids(last) !! Known(before) {
        if last.threadId in before {
          KeyIsKnown(before, last.threadId);
        }
        KnownInsert(before, last);
      }
      hide Known;
      assert last.threadId in Ids(last);
      forall e | e in scanned
        ensures !(Ids(e) !! Known(Hydrated(entries, scanned)))
      {
        assert e in front || e == last;
      }
    }
  }

  lemma {:induction false} KnownAddsNothing(entries: Entries, scanned: seq<Entry>)
    requires forall e :: e in scanned ==> !(Ids(e) !! Known(entries))
    ensures Hydrated(entries, scanned) == entries
  {
    hide Known, Ids;
    if scanned != [] {
      KnownAddsNothing(entries, scanned[..|scanned| - 1]);
    }
  }

  /** A second pass over the same scan, or over any part of it in any order, adds nothing. */
  lemma SecondPassAddsNothing(entries: Entries, scanned: seq<Entry>, again: seq<Entry>)
    requires Keyed(entries)
    requires forall e :: e in again ==> e in scanned
    ensures Hydrated(Hydrated(entries, scanned), again) == Hydrated(entries, scanned)
  {
    ScannedAreKnown(entries, scanned);
    KnownAddsNothing(Hydrated(entries, scanned), again);
  }

  /** A scanned entry is added exactly if it shares no id with what is there when its turn comes. */
  lemma AddedIffNew(entries: Entries, scanned: seq<Entry>, i: nat)
    requires Keyed(entries) && i < |scanned|
    ensures var before := Hydrated(entries, scanned[..i]);
            Hydrated(entries, scanned[..i + 1]) ==
              (if exists k :: k in before && !(Ids(scanned[i]) !! Ids(before[k])) then before
               else before[scanned[i].threadId := scanned[i]])
  {
    assert scanned[..i + 1][..i] == scanned[..i];
    SharesWithSome(Hydrated(entries, scanned[..i]), scanned[i]);
  }

  lemma SharesWithSome(entries: Entries, e: Entry)
    ensures !(Ids(e) !! Known(entries)) <==> exists k :: k in entries && !(Ids(e) !! Ids(entries[k]))
  {
    if !(Ids(e) !! Known(entries)) {
      var id :| id in Ids(e) && id in Known(entries);
      var k :| k in entries && id in Ids(entries[k]);
      assert !(Ids(e) !! Ids(entries[k]));
    }
    forall k | k in entries && !(Ids(e) !! Ids(entries[k]))
      ensures !(Ids(e) !! Known(entries))
    {
      var id :| id in Ids(e) && id in Ids(entries[k]);
      assert id in Known(entries);
    }
  }
}
