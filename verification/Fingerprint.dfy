/**
 Key fingerprints of JSON values (crates/bridge-conformance/src/schema.rs): the dotted paths
 under which a value is populated.
 */
module Fingerprint {
  datatype Field = Field(key: string, value: Json)

  datatype Json = Null | Scalar(text: string) | Array(items: seq<Json>) | Object(fields: seq<Field>)

  function Under(prefix: string, key: string): string {
    if prefix == "" then key else prefix + "." + key
  }

  function Inside(prefix: string): string {
    prefix + "[]"
  }

  /** `walk`: the paths below `v`. */
  function Walk(v: Json, prefix: string): set<string> {
    match v
    case Object(fields) =>
      set i, p | 0 <= i < |fields| && fields[i].value != Null
                 && p in {Under(prefix, fields[i].key)} + Walk(fields[i].value, Under(prefix, fields[i].key)) :: p
    case Array(items) =>
      {Inside(prefix)} + set i, p | 0 <= i < |items| && p in Walk(items[i], Inside(prefix)) :: p
    case _ => {}
  }

  function Of(v: Json): set<string> {
    Walk(v, "")
  }

  /** `walk` as it runs: one shared set that every visit adds to. */
  method WalkInto(v: Json, prefix: string, found: set<string>) returns (out: set<string>)
    ensures out == found + Walk(v, prefix)
    decreases v
  {
    hide Walk, Under;
    out := found;
    WalkNothing(v, prefix);
    match v {
      case Object(fields) =>
        for n := 0 to |fields|
          invariant out == found + Walk(Object(fields[..n]), prefix)
        {
          WalkFields(fields, n, prefix);
          if fields[n].value != Null {
            var path := Under(prefix, fields[n].key);
            out := out + {path};
            out := WalkInto(fields[n].value, path, out);
          }
        }
        assert fields[..|fields|] == fields;
      case Array(items) =>
        out := out + {Inside(prefix)};
        for n := 0 to |items|
          invariant out == found + Walk(Array(items[..n]), prefix)
        {
          WalkItems(items, n, prefix);
          out := WalkInto(items[n], Inside(prefix), out);
        }
        assert items[..|items|] == items;
      case _ =>
    }
  }

  lemma WalkNothing(v: Json, prefix: string)
    ensures v.Null? || v.Scalar? ==> Walk(v, prefix) == {}
    ensures Walk(Object([]), prefix) == {} && Walk(Array([]), prefix) == {Inside(prefix)}
  {
  }

  lemma WalkFields(fields: seq<Field>, n: nat, prefix: string)
    requires n < |fields|
    ensures var path := Under(prefix, fields[n].key);
            Walk(Object(fields[..n + 1]), prefix) == Walk(Object(fields[..n]), prefix) +
              (if fields[n].value == Null then {} else {path} + Walk(fields[n].value, path))
  {
    var more, fewer := fields[..n + 1], fields[..n];
    assert forall i :: 0 <= i < n ==> more[i] == fewer[i];
    assert more[n] == fields[n];
  }

  lemma WalkItems(items: seq<Json>, n: nat, prefix: string)
    requires n < |items|
    ensures Walk(Array(items[..n + 1]), prefix) == Walk(Array(items[..n]), prefix) + Walk(items[n], Inside(prefix))
  {
    var more, fewer := items[..n + 1], items[..n];
    assert forall i :: 0 <= i < n ==> more[i] == fewer[i];
    assert more[n] == items[n];
  }

  // ---- Which paths a fingerprint holds ----

  /** A way down into a value: to the field of an object, or to some element of an array. */
  datatype Hop = Into(key: string) | Elements

  /** The value can be descended this way without meeting a null field. */
  ghost predicate Reached(v: Json, hops: seq<Hop>)
    decreases |hops|
  {
    if hops == [] then true
    else
      match hops[0]
      case Into(key) =>
        v.Object? && exists i ::
          0 <= i < |v.fields| && HasField(v.fields[i], key) && Reached(v.fields[i].value, hops[1..])
      case Elements =>
        v.Array? && (|hops| == 1 || exists i :: 0 <= i < |v.items| && Reached(v.items[i], hops[1..]))
  }

  predicate HasField(f: Field, key: string) {
    f.key == key && f.value != Null
  }

  function Down(prefix: string, hop: Hop): string {
    match hop
    case Into(key) => Under(prefix, key)
    case Elements => Inside(prefix)
  }

  function Render(prefix: string, hops: seq<Hop>): string
    decreases |hops|
  {
    if hops == [] then prefix else Render(Down(prefix, hops[0]), hops[1..])
  }

  ghost predicate Populated(v: Json, prefix: string, p: string) {
    exists hops: seq<Hop> :: hops != [] && Reached(v, hops) && Render(prefix, hops) == p
  }

  lemma {:induction false} WalkedIsReached(v: Json, prefix: string, p: string) returns (hops: seq<Hop>)
    requires p in Walk(v, prefix)
    ensures hops != [] && Reached(v, hops) && Render(prefix, hops) == p
    decreases v
  {
    match v {
      case Object(fields) =>
        var i :| 0 <= i < |fields| && fields[i].value != Null
          && p in {Under(prefix, fields[i].key)} + Walk(fields[i].value, Under(prefix, fields[i].key));
        var f := fields[i];
        assert HasField(f, f.key);
        if p == Under(prefix, f.key) {
          hops := [Into(f.key)];
          assert hops[1..] == [];
          assert Reached(fields[i].value, hops[1..]);
        } else {
          var rest := WalkedIsReached(f.value, Under(prefix, f.key), p);
          hops := [Into(f.key)] + rest;
          assert hops[1..] == rest;
          assert Reached(fields[i].value, hops[1..]);
        }
      case Array(items) =>
        if p == Inside(prefix) {
          hops := [Elements];
          assert hops[1..] == [];
        } else {
          var i :| 0 <= i < |items| && p in Walk(items[i], Inside(prefix));
          var rest := WalkedIsReached(items[i], Inside(prefix), p);
          hops := [Elements] + rest;
          assert hops[1..] == rest;
          assert Reached(items[i], hops[1..]);
        }
      case _ =>
    }
  }

  lemma {:induction false} ReachedIsWalked(v: Json, prefix: string, hops: seq<Hop>)
    requires hops != [] && Reached(v, hops)
    ensures Render(prefix, hops) in Walk(v, prefix)
    decreases |hops|
  {
    var rest, path := hops[1..], Down(prefix, hops[0]);
    match hops[0]
    case Into(key) =>
      var i :| 0 <= i < |v.fields| && HasField(v.fields[i], key) && Reached(v.fields[i].value, rest);
      if rest != [] {
        ReachedIsWalked(v.fields[i].value, path, rest);
      }
      assert Render(prefix, hops) in {Under(prefix, v.fields[i].key)} + Walk(v.fields[i].value, Under(prefix,
              v.fields[i].key));
    case Elements =>
      if rest != [] {
        var i :| 0 <= i < |v.items| && Reached(v.items[i], rest);
        ReachedIsWalked(v.items[i], path, rest);
      }
  }

  /** A fingerprint holds exactly the paths under which the value is populated. */
  lemma FingerprintIsPopulatedPaths(v: Json, prefix: string, p: string)
    ensures p in Walk(v, prefix) <==> Populated(v, prefix, p)
  {
    if p in Walk(v, prefix) {
      var hops := WalkedIsReached(v, prefix, p);
    }
    if Populated(v, prefix, p) {
      var hops: seq<Hop> :| hops != [] && Reached(v, hops) && Render(prefix, hops) == p;
      ReachedIsWalked(v, prefix, hops);
    }
  }

  lemma {:induction false} ReachedPrefix(v: Json, hops: seq<Hop>, n: nat)
    requires Reached(v, hops) && n <= |hops|
    ensures Reached(v, hops[..n])
    decreases |hops|
  {
    if 0 < n {
      assert hops[..n][1..] == hops[1..][..n - 1];
      match hops[0]
      case Into(key) =>
        var i :| 0 <= i < |v.fields| && HasField(v.fields[i], key) && Reached(v.fields[i].value, hops[1..]);
        ReachedPrefix(v.fields[i].value, hops[1..], n - 1);
        assert Reached(v.fields[i].value, hops[..n][1..]);
      case Elements =>
        if 1 < n {
          var i :| 0 <= i < |v.items| && Reached(v.items[i], hops[1..]);
          ReachedPrefix(v.items[i], hops[1..], n - 1);
          assert Reached(v.items[i], hops[..n][1..]);
        }
    }
  }

  /** Fingerprints are closed under prefixes: whatever lies on the way to a path is a path. */
  lemma PrefixClosed(v: Json, p: string) returns (hops: seq<Hop>)
    requires p in Of(v)
    ensures hops != [] && Render("", hops) == p
    ensures forall n :: 0 < n <= |hops| ==> Render("", hops[..n]) in Of(v)
  {
    hops := WalkedIsReached(v, "", p);
    forall n | 0 < n <= |hops|
      ensures Render("", hops[..n]) in Of(v)
    {
      ReachedPrefix(v, hops, n);
      ReachedIsWalked(v, "", hops[..n]);
    }
  }

  // ---- What a fingerprint does not depend on ----

  /** Every populated part of `a` has its counterpart in `b`. */
  ghost predicate Within(a: Json, b: Json)
    decreases a, 0
  {
    match a
    case Object(fields) =>
      b.Object? && forall i :: 0 <= i < |fields| && fields[i].value != Null ==>
        exists j ::
          0 <= j < |b.fields| && HasField(b.fields[j], fields[i].key) && Within(fields[i].value, b.fields[j].value)
    case Array(items) =>
      b.Array? && forall i :: 0 <= i < |items| ==> Matched(items[i], b.items)
    case _ => true
  }

  ghost predicate Matched(item: Json, items: seq<Json>)
    decreases item, 1
  {
    exists j :: 0 <= j < |items| && Within(item, items[j])
  }

  /** The same up to null fields, field order, and the order and number of array elements, at any depth. */
  ghost predicate Alike(a: Json, b: Json) {
    Within(a, b) && Within(b, a)
  }

  lemma {:induction false} WithinReached(a: Json, b: Json, hops: seq<Hop>)
    requires Within(a, b) && Reached(a, hops)
    ensures Reached(b, hops)
    decreases |hops|
  {
    if hops != [] {
      var rest := hops[1..];
      match hops[0]
      case Into(key) =>
        var i :| 0 <= i < |a.fields| && HasField(a.fields[i], key) && Reached(a.fields[i].value, rest);
        var j :| 0 <= j < |b.fields| && HasField(b.fields[j], a.fields[i].key) && Within(a.fields[i].value,
                b.fields[j].value);
        WithinReached(a.fields[i].value, b.fields[j].value, rest);
        assert HasField(b.fields[j], key) && Reached(b.fields[j].value, rest);
      case Elements =>
        if |hops| > 1 {
          var i :| 0 <= i < |a.items| && Reached(a.items[i], rest);
          assert Matched(a.items[i], b.items);
          var j :| 0 <= j < |b.items| && Within(a.items[i], b.items[j]);
          WithinReached(a.items[i], b.items[j], rest);
          assert Reached(b.items[j], rest);
        }
    }
  }

  lemma WithinSubset(a: Json, b: Json)
    requires Within(a, b)
    ensures Of(a) <= Of(b)
  {
    forall p | p in Of(a)
      ensures p in Of(b)
    {
      var hops := WalkedIsReached(a, "", p);
      WithinReached(a, b, hops);
      ReachedIsWalked(b, "", hops);
    }
  }

  /** Values that are alike have the same fingerprint. */
  lemma AlikeSameFingerprint(a: Json, b: Json)
    requires Alike(a, b)
    ensures Of(a) == Of(b)
  {
    WithinSubset(a, b);
    WithinSubset(b, a);
  }

  lemma {:induction false} WithinItself(v: Json)
    ensures Within(v, v)
    decreases v
  {
    match v {
      case Object(fields) =>
        forall i | 0 <= i < |fields| && fields[i].value != Null
          ensures exists j :: 0 <= j < |fields| && HasField(fields[j], fields[i].key) && Within(fields[i].value,
                  fields[j].value)
        {
          WithinItself(fields[i].value);
          assert HasField(fields[i], fields[i].key);
        }
      case Array(items) =>
        forall i | 0 <= i < |items|
          ensures Matched(items[i], items)
        {
          WithinItself(items[i]);
        }
      case _ =>
    }
  }

  /** Arrays with the same elements, in any order and number, are alike. */
  lemma Rearranged(items: seq<Json>, items': seq<Json>)
    requires forall x :: x in items <==> x in items'
    ensures Alike(Array(items), Array(items'))
  {
    RearrangedWithin(items, items');
    RearrangedWithin(items', items);
  }

  lemma RearrangedWithin(items: seq<Json>, items': seq<Json>)
    requires forall x :: x in items ==> x in items'
    ensures Within(Array(items), Array(items'))
  {
    forall i | 0 <= i < |items|
      ensures Matched(items[i], items')
    {
      assert items[i] in items';
      var j :| 0 <= j < |items'| && items'[j] == items[i];
      WithinItself(items[i]);
      assert Within(items[i], items'[j]);
    }
  }

  /** Objects with the same populated fields are alike, whatever null fields they have. */
  lemma NullFieldsIgnored(fields: seq<Field>, fields': seq<Field>)
    requires forall f: Field :: f.value != Null ==> (f in fields <==> f in fields')
    ensures Alike(Object(fields), Object(fields'))
  {
    NullFieldsWithin(fields, fields');
    NullFieldsWithin(fields', fields);
  }

  lemma NullFieldsWithin(fields: seq<Field>, fields': seq<Field>)
    requires forall f: Field :: f.value != Null && f in fields ==> f in fields'
    ensures Within(Object(fields), Object(fields'))
  {
    forall i | 0 <= i < |fields| && fields[i].value != Null
      ensures exists j :: 0 <= j < |fields'| && HasField(fields'[j], fields[i].key) && Within(fields[i].value,
              fields'[j].value)
    {
      assert fields[i] in fields';
      var j :| 0 <= j < |fields'| && fields'[j] == fields[i];
      WithinItself(fields[i].value);
      assert HasField(fields'[j], fields[i].key);
    }
  }

  /** Replacing the elements of an array by ones alike leaves the array alike. */
  lemma AlikeItems(items: seq<Json>, items': seq<Json>)
    requires |items| == |items'| && forall i :: 0 <= i < |items| ==> Alike(items[i], items'[i])
    ensures Alike(Array(items), Array(items'))
  {
    forall i | 0 <= i < |items|
      ensures Matched(items[i], items') && Matched(items'[i], items)
    {
      assert Alike(items[i], items'[i]);
      hide Within;
    }
  }

  /** Replacing the values of fields by ones alike leaves the object alike. */
  lemma AlikeFields(fields: seq<Field>, fields': seq<Field>)
    requires |fields| == |fields'|
    requires forall i :: 0 <= i < |fields| ==>
      fields[i].key == fields'[i].key && (fields[i].value == Null <==> fields'[i].value == Null)
      && Alike(fields[i].value, fields'[i].value)
    ensures Alike(Object(fields), Object(fields'))
  {
    FieldsWithin(fields, fields');
    FieldsWithin(fields', fields);
  }

  lemma FieldsWithin(fields: seq<Field>, fields': seq<Field>)
    requires |fields| == |fields'|
    requires forall i :: 0 <= i < |fields| ==>
      fields[i].key == fields'[i].key && (fields[i].value == Null <==> fields'[i].value == Null)
      && Within(fields[i].value, fields'[i].value)
    ensures Within(Object(fields), Object(fields'))
  {
    forall i | 0 <= i < |fields| && fields[i].value != Null
      ensures exists j :: 0 <= j < |fields'| && HasField(fields'[j], fields[i].key) && Within(fields[i].value,
              fields'[j].value)
    {
      assert HasField(fields'[i], fields[i].key);
    }
  }
}
