/** The collection reconciliation inside `Repository.Update`
    (Repository.cs:85-112): the persisted collection is diffed by `Id`
    against the caller's collection and changed in place, first by appending
    the additions, then by removing what the caller no longer holds. */
module Reconciliation {
  import opened Seqs
  import opened Entities

  /** The `Id`s present in a collection. */
  function KeySet(s: seq<Item>): set<int>
  {
    set x | x in s :: x.id
  }

  lemma KeySetCons(x: Item, s: seq<Item>)
    ensures KeySet([x] + s) == {x.id} + KeySet(s)
  {
    assert forall y :: y in [x] + s <==> y == x || y in s;
  }

  /** `!keys.Contains(item, comparer)` with the comparer that compares `Id`. */
  function Absent(keys: set<int>): Item -> bool
  {
    (x: Item) => x.id !in keys
  }

  function Present(keys: set<int>): Item -> bool
  {
    (x: Item) => x.id in keys
  }

  /** Line 100-101: incoming items whose `Id` the persisted collection lacks,
      materialised with `ToList` before anything is added. */
  function Additions(existing: seq<Item>, incoming: seq<Item>): seq<Item>
  {
    Filter(Absent(KeySet(existing)), incoming)
  }

  /** Line 107-108: items of the collection as it stands when the removals
      are enumerated whose `Id` the incoming collection lacks. */
  function Removals(current: seq<Item>, incoming: seq<Item>): seq<Item>
  {
    Filter(Absent(KeySet(incoming)), current)
  }

  /** The persisted items that the incoming collection still holds. */
  function Survivors(existing: seq<Item>, incoming: seq<Item>): seq<Item>
  {
    Filter(Present(KeySet(incoming)), existing)
  }

  /** The persisted collection after the add loop and the remove loop, with
      the removals taken from the collection after the additions (the lazy
      `oldIdentifiables` view at line 98 sees the appended items). */
  function Reconciled(existing: seq<Item>, incoming: seq<Item>): seq<Item>
  {
    var grown := existing + Additions(existing, incoming);
    ApplyRemovals(grown, Removals(grown, incoming))
  }

  /** No two items of the collection share an `Id`. */
  predicate DistinctKeys(s: seq<Item>)
  {
    forall i, j :: 0 <= i < j < |s| ==> s[i].id != s[j].id
  }

  /** Additions are never removed: the removals enumerated after appending
      are the same as those of the untouched persisted collection. */
  lemma AdditionsNeverRemoved(existing: seq<Item>, incoming: seq<Item>)
    ensures Removals(existing + Additions(existing, incoming), incoming) == Removals(existing, incoming)
  {
    var ki := KeySet(incoming);
    var a := Additions(existing, incoming);
    FilterConcat(Absent(ki), existing, a);
    forall x | x in a
      ensures !Absent(ki)(x)
    {
      assert x in incoming;
    }
    FilterNone(Absent(ki), a);
  }

  /** The result is the surviving persisted items in their original order,
      followed by the additions in incoming order. */
  lemma ReconciledShape(existing: seq<Item>, incoming: seq<Item>)
    ensures Reconciled(existing, incoming) == Survivors(existing, incoming) + Additions(existing, incoming)
    ensures IsSubsequence(Survivors(existing, incoming), existing)
    ensures IsSubsequence(Additions(existing, incoming), incoming)
  {
    var ki := KeySet(incoming);
    var a := Additions(existing, incoming);
    var grown := existing + a;
    ApplyRemovalsOfFilter(Present(ki), Absent(ki), [], grown);
    assert [] + grown == grown;
    FilterConcat(Present(ki), existing, a);
    forall x | x in a
      ensures Present(ki)(x)
    {
      assert x in incoming;
    }
    FilterAll(Present(ki), a);
    FilterIsSubsequence(Present(ki), existing);
    FilterIsSubsequence(Absent(KeySet(existing)), incoming);
  }

  /** An item is in the result iff it is a persisted item whose `Id` the
      caller kept, or one of the caller's items whose `Id` was new. */
  lemma ReconciledMembers(existing: seq<Item>, incoming: seq<Item>, x: Item)
    ensures x in Reconciled(existing, incoming) <==>
              (x in existing && x.id in KeySet(incoming)) || (x in incoming && x.id !in KeySet(existing))
  {
    ReconciledShape(existing, incoming);
  }

  /** By identity, the result holds exactly the incoming `Id`s. */
  lemma ReconciledKeys(existing: seq<Item>, incoming: seq<Item>)
    ensures KeySet(Reconciled(existing, incoming)) == KeySet(incoming)
  {
    var r := Reconciled(existing, incoming);
    forall k | k in KeySet(incoming)
      ensures k in KeySet(r)
    {
      var y :| y in incoming && y.id == k;
      if k in KeySet(existing) {
        var x :| x in existing && x.id == k;
        ReconciledMembers(existing, incoming, x);
      } else {
        ReconciledMembers(existing, incoming, y);
      }
    }
    forall k | k in KeySet(r)
      ensures k in KeySet(incoming)
    {
      var x :| x in r && x.id == k;
      ReconciledMembers(existing, incoming, x);
    }
  }

  /** The tail of a collection with distinct keys has distinct keys, none of
      them the key of the head. */
  lemma TailDistinct(s: seq<Item>)
    requires s != [] && DistinctKeys(s)
    ensures DistinctKeys(s[1..])
    ensures s[0].id !in KeySet(s[1..])
  {
    var t := s[1..];
    forall i, j | 0 <= i < j < |t| ensures t[i].id != t[j].id {
      assert t[i] == s[i + 1] && t[j] == s[j + 1];
    }
    forall x | x in t ensures x.id != s[0].id {
      var k :| 0 <= k < |t| && t[k] == x;
      assert s[k + 1] == x;
    }
  }

  lemma {:induction false} FilterDistinct(f: Item -> bool, s: seq<Item>)
    requires DistinctKeys(s)
    ensures DistinctKeys(Filter(f, s))
    decreases |s|
  {
    if s != [] {
      var t := s[1..];
      TailDistinct(s);
      FilterDistinct(f, t);
      if f(s[0]) {
        assert Filter(f, s) == [s[0]] + Filter(f, t);
        forall x | x in Filter(f, t) ensures x.id !in {s[0].id} {
          assert x in t;
        }
        ConcatDistinct([s[0]], Filter(f, t), {s[0].id});
      }
    }
  }

  lemma {:induction false} DistinctCardinality(s: seq<Item>)
    requires DistinctKeys(s)
    ensures |KeySet(s)| == |s|
    decreases |s|
  {
    if s != [] {
      var t := s[1..];
      TailDistinct(s);
      DistinctCardinality(t);
      assert s == [s[0]] + t;
      KeySetCons(s[0], t);
    }
  }

  lemma ConcatDistinct(s: seq<Item>, a: seq<Item>, keys: set<int>)
    requires DistinctKeys(s) && DistinctKeys(a)
    requires forall x :: x in s ==> x.id in keys
    requires forall x :: x in a ==> x.id !in keys
    ensures DistinctKeys(s + a)
  {
    var r := s + a;
    forall i, j | 0 <= i < j < |r| ensures r[i].id != r[j].id {
      if j < |s| {
        assert r[i] == s[i] && r[j] == s[j];
      } else if i >= |s| {
        assert r[i] == a[i - |s|] && r[j] == a[j - |s|];
      } else {
        assert r[i] == s[i] && s[i] in s;
        assert r[j] == a[j - |s|] && a[j - |s|] in a;
      }
    }
  }

  /** With distinct keys on both sides, the result has distinct keys and as
      many items as the incoming collection: it is the incoming key set
      with nothing repeated. */
  lemma ReconciledDistinct(existing: seq<Item>, incoming: seq<Item>)
    requires DistinctKeys(existing) && DistinctKeys(incoming)
    ensures DistinctKeys(Reconciled(existing, incoming))
    ensures |Reconciled(existing, incoming)| == |incoming|
  {
    var s := Survivors(existing, incoming);
    var a := Additions(existing, incoming);
    ReconciledShape(existing, incoming);
    FilterDistinct(Present(KeySet(incoming)), existing);
    FilterDistinct(Absent(KeySet(existing)), incoming);
    forall x | x in s ensures x.id in KeySet(existing) {
      assert x in existing;
    }
    ConcatDistinct(s, a, KeySet(existing));
    DistinctCardinality(s + a);
    DistinctCardinality(incoming);
    ReconciledKeys(existing, incoming);
  }

  /** Reconciling again against the same incoming collection changes nothing. */
  lemma ReconciledIdempotent(existing: seq<Item>, incoming: seq<Item>)
    ensures Reconciled(Reconciled(existing, incoming), incoming) == Reconciled(existing, incoming)
  {
    var r := Reconciled(existing, incoming);
    var ki := KeySet(incoming);
    assert Survivors(r, incoming) == r by {
      forall x | x in r ensures Present(ki)(x) {
        ReconciledMembers(existing, incoming, x);
      }
      FilterAll(Present(ki), r);
    }
    assert Additions(r, incoming) == [] by {
      ReconciledKeys(existing, incoming);
      forall y | y in incoming ensures !Absent(KeySet(r))(y) {
        assert y.id in KeySet(incoming);
      }
      FilterNone(Absent(KeySet(r)), incoming);
    }
    ReconciledShape(r, incoming);
    assert r + [] == r;
  }

  /** One iteration of the loop over included properties (lines 85-112):
      `oldCollection.GetType()` on a null reference (line 90), the check for
      `Add` and `Remove` (lines 93-94), `OfType` on a null incoming
      collection (line 97), and otherwise the reconciled collection. */
  function ReconcileStep(cols: map<string, Collection>, incoming: map<string, Collection>, name: string)
    : Result<map<string, Collection>>
  {
    if name !in cols || !cols[name].kind.isCollection then Failure(NullReference)
    else if !cols[name].kind.hasAdd || !cols[name].kind.hasRemove then
      Failure(InvalidOperation(MissingAddOrRemove(name)))
    else if name !in incoming || !incoming[name].kind.isCollection then Failure(ArgumentNull)
    else Success(cols[name := cols[name].(items := Reconciled(cols[name].items, incoming[name].items))])
  }

  /** The persisted collections after the loop, and the exception that
      stopped it, if any; what earlier iterations changed stays changed. */
  datatype Outcome = Outcome(collections: map<string, Collection>, error: Option<Error>)

  function ReconcileAll(cols: map<string, Collection>, incoming: map<string, Collection>, props: seq<Property>)
    : Outcome
    decreases |props|
  {
    if props == [] then Outcome(cols, None)
    else match ReconcileStep(cols, incoming, props[0].name)
      case Failure(e) => Outcome(cols, Some(e))
      case Success(c) => ReconcileAll(c, incoming, props[1..])
  }

  /** Only the collections of the named properties change, and only their
      items: the set of properties and every collection type are kept. */
  lemma {:induction false} ReconcileAllFrame(cols: map<string, Collection>, incoming: map<string, Collection>, props: seq<Property>)
    ensures ReconcileAll(cols, incoming, props).collections.Keys == cols.Keys
    ensures forall n :: n in cols ==> ReconcileAll(cols, incoming, props).collections[n].kind == cols[n].kind
    ensures forall n :: n in cols && (forall p :: p in props ==> p.name != n) ==>
              ReconcileAll(cols, incoming, props).collections[n] == cols[n]
    decreases |props|
  {
    if props != [] {
      match ReconcileStep(cols, incoming, props[0].name)
      case Failure(_) =>
      case Success(c) =>
        ReconcileAllFrame(c, incoming, props[1..]);
        forall n | n in cols && (forall p :: p in props ==> p.name != n)
          ensures forall p :: p in props[1..] ==> p.name != n
        {
          forall p | p in props[1..] ensures p.name != n { assert p in props; }
        }
    }
  }

  /** The named collection already equals its reconciliation. */
  predicate Settled(cols: map<string, Collection>, incoming: map<string, Collection>, name: string)
  {
    name in cols && cols[name].kind.isCollection && cols[name].kind.hasAdd && cols[name].kind.hasRemove &&
    name in incoming && incoming[name].kind.isCollection &&
    Reconciled(cols[name].items, incoming[name].items) == cols[name].items
  }

  lemma SettledStep(cols: map<string, Collection>, incoming: map<string, Collection>, name: string)
    requires Settled(cols, incoming, name)
    ensures ReconcileStep(cols, incoming, name) == Success(cols)
  {
    assert cols[name := cols[name].(items := cols[name].items)] == cols;
  }

  /** A step settles its own collection and keeps every settled one settled. */
  lemma StepSettles(cols: map<string, Collection>, incoming: map<string, Collection>, name: string, other: string)
    requires ReconcileStep(cols, incoming, name).Success?
    requires other == name || Settled(cols, incoming, other)
    ensures Settled(ReconcileStep(cols, incoming, name).value, incoming, other)
  {
    var c := ReconcileStep(cols, incoming, name).value;
    if other == name {
      ReconciledIdempotent(cols[name].items, incoming[name].items);
    } else {
      assert c[other] == cols[other];
    }
  }

  lemma {:induction false} ReconcileAllKeepsSettled(cols: map<string, Collection>, incoming: map<string, Collection>, props: seq<Property>, name: string)
    requires ReconcileAll(cols, incoming, props).error.None?
    requires Settled(cols, incoming, name)
    ensures Settled(ReconcileAll(cols, incoming, props).collections, incoming, name)
    decreases |props|
  {
    if props != [] {
      StepSettles(cols, incoming, props[0].name, name);
      ReconcileAllKeepsSettled(ReconcileStep(cols, incoming, props[0].name).value, incoming, props[1..], name);
    }
  }

  lemma {:induction false} ReconcileAllSettles(cols: map<string, Collection>, incoming: map<string, Collection>, props: seq<Property>)
    requires ReconcileAll(cols, incoming, props).error.None?
    ensures forall p :: p in props ==> Settled(ReconcileAll(cols, incoming, props).collections, incoming, p.name)
    decreases |props|
  {
    if props != [] {
      var c := ReconcileStep(cols, incoming, props[0].name).value;
      ReconcileAllSettles(c, incoming, props[1..]);
      StepSettles(cols, incoming, props[0].name, props[0].name);
      ReconcileAllKeepsSettled(c, incoming, props[1..], props[0].name);
      forall p | p in props
        ensures Settled(ReconcileAll(cols, incoming, props).collections, incoming, p.name)
      {
        if p != props[0] {
          assert p in props[1..];
        }
      }
    }
  }

  lemma {:induction false} ReconcileAllOfSettled(cols: map<string, Collection>, incoming: map<string, Collection>, props: seq<Property>)
    requires forall p :: p in props ==> Settled(cols, incoming, p.name)
    ensures ReconcileAll(cols, incoming, props) == Outcome(cols, None)
    decreases |props|
  {
    if props != [] {
      assert props[0] in props;
      SettledStep(cols, incoming, props[0].name);
      forall p | p in props[1..] ensures Settled(cols, incoming, p.name) {
        assert p in props;
      }
      ReconcileAllOfSettled(cols, incoming, props[1..]);
    }
  }

  /** After a loop that succeeded, every visited property's collection is
      the reconciliation of its persisted items with the caller's items,
      however often the property was visited. */
  lemma {:induction false} ReconcileAllReconciles(cols: map<string, Collection>, incoming: map<string, Collection>, props: seq<Property>)
    requires ReconcileAll(cols, incoming, props).error.None?
    ensures forall p :: p in props ==>
              p.name in cols && p.name in incoming &&
              p.name in ReconcileAll(cols, incoming, props).collections &&
              ReconcileAll(cols, incoming, props).collections[p.name].items
                == Reconciled(cols[p.name].items, incoming[p.name].items)
    decreases |props|
  {
    if props != [] {
      var n := props[0].name;
      var c := ReconcileStep(cols, incoming, n).value;
      var rest := props[1..];
      var out := ReconcileAll(cols, incoming, props);
      assert out == ReconcileAll(c, incoming, rest);
      ReconcileAllReconciles(c, incoming, rest);
      ReconcileAllFrame(c, incoming, rest);
      ReconciledIdempotent(cols[n].items, incoming[n].items);
      forall p | p in props
        ensures p.name in cols && p.name in incoming && p.name in out.collections &&
                out.collections[p.name].items == Reconciled(cols[p.name].items, incoming[p.name].items)
      {
        if p in rest {
          if p.name != n {
            assert c[p.name] == cols[p.name];
          }
        } else if exists q :: q in rest && q.name == n {
          var q :| q in rest && q.name == n;
          assert out.collections[q.name].items == Reconciled(c[n].items, incoming[n].items);
        } else {
          assert p == props[0];
          assert out.collections[n] == c[n];
        }
      }
    }
  }

  /** A second reconciliation of the same properties against the same
      incoming entity, after one that succeeded, changes nothing. */
  lemma ReconcileAllIdempotent(cols: map<string, Collection>, incoming: map<string, Collection>, props: seq<Property>)
    requires ReconcileAll(cols, incoming, props).error.None?
    ensures ReconcileAll(ReconcileAll(cols, incoming, props).collections, incoming, props)
         == ReconcileAll(cols, incoming, props)
  {
    ReconcileAllSettles(cols, incoming, props);
    ReconcileAllOfSettled(ReconcileAll(cols, incoming, props).collections, incoming, props);
  }

  /** The add loop (lines 102-105): `Add` once per addition, in order. */
  method AddEach(target: TrackedEntity, name: string, additions: seq<Item>)
    requires name in target.collections
    modifies target
    ensures target.id == old(target.id) && target.scalars == old(target.scalars)
    ensures target.collections ==
              old(target.collections)[name := old(target.collections[name]).(items := old(target.collections[name].items) + additions)]
  {
    ghost var start := target.collections;
    ghost var c0 := start[name];
    assert c0.items + additions[..0] == c0.items;
    assert start[name := c0.(items := c0.items + additions[..0])] == start;
    for i := 0 to |additions|
      invariant target.id == old(target.id) && target.scalars == old(target.scalars)
      invariant target.collections == start[name := c0.(items := c0.items + additions[..i])]
    {
      assert c0.items + additions[..i + 1] == (c0.items + additions[..i]) + [additions[i]];
      target.Add(name, additions[i]);
    }
    assert additions[..|additions|] == additions;
  }

  /** The remove loop (lines 109-112): `Remove` once per removal, in order. */
  method RemoveEach(target: TrackedEntity, name: string, removals: seq<Item>)
    requires name in target.collections
    modifies target
    ensures target.id == old(target.id) && target.scalars == old(target.scalars)
    ensures target.collections ==
              old(target.collections)[name := old(target.collections[name]).(items := ApplyRemovals(old(target.collections[name].items), removals))]
  {
    ghost var start := target.collections;
    ghost var c0 := start[name];
    assert start[name := c0.(items := c0.items)] == start;
    for j := 0 to |removals|
      invariant target.id == old(target.id) && target.scalars == old(target.scalars)
      invariant name in target.collections
      invariant target.collections == start[name := c0.(items := target.collections[name].items)]
      invariant ApplyRemovals(target.collections[name].items, removals[j..]) == ApplyRemovals(c0.items, removals)
    {
      assert removals[j..][0] == removals[j] && removals[j..][1..] == removals[j + 1..];
      var removed := target.Remove(name, removals[j]);
    }
    assert removals[|removals|..] == [];
  }

  /** The body of the loop over included properties, on the persisted entity:
      the add loop, then the remove loop over the grown collection. */
  method ReconcileProperty(target: TrackedEntity, incoming: map<string, Collection>, name: string)
    returns (err: Option<Error>)
    modifies target
    ensures target.id == old(target.id) && target.scalars == old(target.scalars)
    ensures match ReconcileStep(old(target.collections), incoming, name)
              case Failure(e) => err == Some(e) && target.collections == old(target.collections)
              case Success(c) => err == None && target.collections == c
  {
    if name !in target.collections || !target.collections[name].kind.isCollection {
      return Some(NullReference);
    }
    var kind := target.collections[name].kind;
    if !kind.hasAdd || !kind.hasRemove {
      return Some(InvalidOperation(MissingAddOrRemove(name)));
    }
    if name !in incoming || !incoming[name].kind.isCollection {
      return Some(ArgumentNull);
    }
    ghost var start := target.collections;
    var newItems := incoming[name].items;
    var additions := Additions(target.collections[name].items, newItems);
    AddEach(target, name, additions);
    var removals := Removals(target.collections[name].items, newItems);
    RemoveEach(target, name, removals);
    assert target.collections == start[name := start[name].(items := Reconciled(start[name].items, newItems))];
    err := None;
  }

  /** The `foreach` over the included properties (lines 82-113): each one is
      reconciled in turn; an exception stops the loop and leaves the
      collections already reconciled as they are. */
  method ReconcileProperties(target: TrackedEntity, incoming: map<string, Collection>, props: seq<Property>)
    returns (err: Option<Error>)
    modifies target
    ensures target.id == old(target.id) && target.scalars == old(target.scalars)
    ensures ReconcileAll(old(target.collections), incoming, props) == Outcome(target.collections, err)
  {
    ghost var cols0 := target.collections;
    for i := 0 to |props|
      invariant target.id == old(target.id) && target.scalars == old(target.scalars)
      invariant ReconcileAll(target.collections, incoming, props[i..]) == ReconcileAll(cols0, incoming, props)
    {
      assert props[i..][0] == props[i] && props[i..][1..] == props[i + 1..];
      err := ReconcileProperty(target, incoming, props[i].name);
      if err.Some? {
        return;
      }
    }
    assert props[|props|..] == [];
    err := None;
  }
}
