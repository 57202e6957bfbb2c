/** The situations of WhenWorkingWithTheRepository.cs, plus the other paths
    of `Update`, `Dispose` and `IncludeMany`, replayed on the model: the
    entity types of the tests as descriptors, and client methods whose
    postconditions follow from the repository's contracts alone. */
module Scenarios {
  import opened Seqs
  import opened Entities
  import opened Extensions
  import opened Reconciliation
  import opened Persistence

  const IntType: PropertyType := PropertyType("System.Int32", false, {"System.IComparable"})
  const StringType: PropertyType :=
    PropertyType("System.String", false, {IEnumerable, "System.Collections.Generic.IEnumerable`1[System.Char]"})
  const TestEntityCollectionType: PropertyType :=
    PropertyType("System.Collections.Generic.ICollection`1[TestEntity]", true,
                 {IEnumerable, "System.Collections.Generic.IEnumerable`1[TestEntity]"})

  const IdProp: Property := Property(IdProperty, IntType, false)
  const NameProp: Property := Property("Name", StringType, false)
  const KeyNameProp: Property := Property("Name", StringType, true)
  const TestEntitiesProp: Property := Property("TestEntities", TestEntityCollectionType, false)

  /** `TestEntity`: only `Id`. */
  const TestEntityType: TypeDescriptor := TypeDescriptor([IdProp])
  /** `NonKeyed`: `Id`, `Name` and a `TestEntities` collection. */
  const NonKeyedType: TypeDescriptor := TypeDescriptor([IdProp, NameProp, TestEntitiesProp])
  /** `KeyedNonId`: as `NonKeyed`, but `Name` carries `[Key]`. */
  const KeyedNonIdType: TypeDescriptor := TypeDescriptor([IdProp, KeyNameProp, TestEntitiesProp])

  /** A `string` property is never a collection; `ICollection<TestEntity>` is. */
  lemma EnumerablePropertiesOfKeyedNonId()
    ensures GetEnumerableProperties(KeyedNonIdType) == [TestEntitiesProp]
  {
    assert !IsEnumerableProperty(IdProp) && !IsEnumerableProperty(KeyNameProp);
    assert IsEnumerableProperty(TestEntitiesProp);
    FilterCons(IsEnumerableProperty, TestEntitiesProp, []);
    FilterCons(IsEnumerableProperty, KeyNameProp, [TestEntitiesProp]);
    FilterCons(IsEnumerableProperty, IdProp, [KeyNameProp, TestEntitiesProp]);
    assert KeyedNonIdType.properties == [IdProp] + [KeyNameProp, TestEntitiesProp];
  }

  lemma {:induction false} EnumerablePropertiesOfNonKeyed()
    ensures GetEnumerableProperties(NonKeyedType) == [TestEntitiesProp]
  {
    assert !IsEnumerableProperty(IdProp) && !IsEnumerableProperty(NameProp);
    FilterCons(IsEnumerableProperty, TestEntitiesProp, []);
    FilterCons(IsEnumerableProperty, NameProp, [TestEntitiesProp]);
    FilterCons(IsEnumerableProperty, IdProp, [NameProp, TestEntitiesProp]);
    assert NonKeyedType.properties == [IdProp] + [NameProp, TestEntitiesProp];
  }

  /** The key of a `KeyedNonId` is its `Name`, whatever its `Id`; the key of
      a `TestEntity` is its `Id`. */
  lemma KeysOfTestTypes(name: string, id: int, e: Entity)
    requires e.id == id && e.scalars == map["Name" := StringValue(name)]
    ensures GetKeyValue(KeyedNonIdType, e) == Success(StringValue(name))
    ensures GetKeyValue(TestEntityType, e) == Success(IntValue(id))
    ensures GetKeyValue(NonKeyedType, e) == Success(IntValue(id))
  {
    assert KeyedNonIdType.properties[1].hasKeyAttribute;
  }

  lemma TestKeySets(existing: seq<Item>, incoming: seq<Item>)
    requires existing == [Item(2, 10), Item(3, 11), Item(1, 12)]
    requires incoming == [Item(1, 20), Item(4, 21)]
    ensures KeySet(existing) == {1, 2, 3} && KeySet(incoming) == {1, 4}
  {
    assert existing == [Item(2, 10)] + ([Item(3, 11)] + ([Item(1, 12)] + []));
    KeySetCons(Item(1, 12), []);
    KeySetCons(Item(3, 11), [Item(1, 12)]);
    KeySetCons(Item(2, 10), [Item(3, 11), Item(1, 12)]);
    assert incoming == [Item(1, 20)] + ([Item(4, 21)] + []);
    KeySetCons(Item(4, 21), []);
    KeySetCons(Item(1, 20), [Item(4, 21)]);
  }

  lemma TestSurvivors(existing: seq<Item>, keys: set<int>)
    requires existing == [Item(2, 10), Item(3, 11), Item(1, 12)]
    requires keys == {1, 4}
    ensures Filter(Present(keys), existing) == [Item(1, 12)]
  {
    assert existing == [Item(2, 10)] + ([Item(3, 11)] + ([Item(1, 12)] + []));
    FilterCons(Present(keys), Item(1, 12), []);
    FilterCons(Present(keys), Item(3, 11), [Item(1, 12)]);
    FilterCons(Present(keys), Item(2, 10), [Item(3, 11), Item(1, 12)]);
  }

  lemma TestAdditions(incoming: seq<Item>, keys: set<int>)
    requires incoming == [Item(1, 20), Item(4, 21)]
    requires keys == {1, 2, 3}
    ensures Filter(Absent(keys), incoming) == [Item(4, 21)]
  {
    assert incoming == [Item(1, 20)] + ([Item(4, 21)] + []);
    FilterCons(Absent(keys), Item(4, 21), []);
    FilterCons(Absent(keys), Item(1, 20), [Item(4, 21)]);
  }

  /** Lines 321-327 of the test: persisted [2, 3, 1] against incoming
      [1, 4] gives [1, 4], where 1 is still the persisted object and 4 is
      the caller's. */
  lemma TestCollectionReconciled(existing: seq<Item>, incoming: seq<Item>)
    requires existing == [Item(2, 10), Item(3, 11), Item(1, 12)]
    requires incoming == [Item(1, 20), Item(4, 21)]
    ensures Reconciled(existing, incoming) == [Item(1, 12), Item(4, 21)]
  {
    TestKeySets(existing, incoming);
    TestSurvivors(existing, KeySet(incoming));
    TestAdditions(incoming, KeySet(existing));
    ReconciledShape(existing, incoming);
  }

  /** The `[Key]` name alone keys a `KeyedNonId`. */
  lemma KeyOfKeyedNonId(name: string, id: int, e: Entity)
    requires e.id == id && e.scalars == map["Name" := StringValue(name)]
    ensures GetKeyValue(KeyedNonIdType, e) == Success(StringValue(name))
  {
    KeysOfTestTypes(name, id, e);
  }

  /** Including "TestEntities" selects the collection property of `KeyedNonId`. */
  lemma IncludedOfKeyedNonId()
    ensures IncludedProperties(KeyedNonIdType, Some(["TestEntities"])) == [TestEntitiesProp]
  {
    EnumerablePropertiesOfKeyedNonId();
  }

  /** The loop of that update, on its one included property. */
  lemma KeyedNonIdOutcome(cols: map<string, Collection>, incoming: map<string, Collection>)
    requires cols == map["TestEntities" := Collection([Item(2, 10), Item(3, 11), Item(1, 12)], ListKind)]
    requires incoming == map["TestEntities" := Collection([Item(1, 20), Item(4, 21)], ListKind)]
    ensures ReconcileAll(cols, incoming, [TestEntitiesProp])
         == Outcome(map["TestEntities" := Collection([Item(1, 12), Item(4, 21)], ListKind)], None)
  {
    TestCollectionReconciled(cols["TestEntities"].items, incoming["TestEntities"].items);
    assert [TestEntitiesProp][1..] == [];
  }

  /** AndUpdatingWithAKeyedNonIdEntity (lines 306-330): the entity is found
      by its `[Key]` name, its collection is reconciled in place to exactly
      [1, 4], `SetModified` is called once with the caller's entity, and that
      entity, whose own collection is still [1, 4], is returned. */
  method UpdateKeyedNonId() returns (r: Result<Entity>, detached: Entity, persistedItems: seq<Item>,
                                     calls: seq<(TrackedEntity, Entity)>, persisted: TrackedEntity)
    ensures r == Success(detached)
    ensures detached.id == 0 && detached.scalars == map["Name" := StringValue("updated")]
    ensures "TestEntities" in detached.collections
    ensures detached.collections["TestEntities"].items == [Item(1, 20), Item(4, 21)]
    ensures persistedItems == [Item(1, 12), Item(4, 21)]
    ensures calls == [(persisted, detached)]
  {
    persisted := new TrackedEntity(Entity(1, map["Name" := StringValue("updated")],
      map["TestEntities" := Collection([Item(2, 10), Item(3, 11), Item(1, 12)], ListKind)]));
    var context := new Context(ContextSubclass, map[StringValue("updated") := persisted]);
    var made := Repository.Construct(KeyedNonIdType, context);
    var repository := made.value;
    detached := Entity(0, map["Name" := StringValue("updated")],
      map["TestEntities" := Collection([Item(1, 20), Item(4, 21)], ListKind)]);
    KeyOfKeyedNonId("updated", 0, detached);
    IncludedOfKeyedNonId();
    KeyedNonIdOutcome(persisted.collections, detached.collections);
    r := repository.Update(detached, Some(["TestEntities"]));
    persistedItems := persisted.collections["TestEntities"].items;
    calls := context.modifiedCalls;
  }

  /** AndConstructingWithADbContextThatDoesntImplementIContext (lines 63-71);
      a null context fails the same `is IContext` test. */
  method ConstructWithBadContext() returns (r: Result<Repository>, none: Result<Repository>)
    ensures r == Failure(InvalidOperation(ContextLacksIContext))
    ensures none == Failure(InvalidOperation(ContextLacksIContext))
  {
    var bad := new Context(PlainDbContext, map[]);
    r := Repository.Construct(TestEntityType, bad);
    none := Repository.Construct(TestEntityType, null);
  }

  /** AndUpdating (lines 199-223), on an entity that also holds a
      collection: with null includes the persisted collection is left as it
      is, the scalars are copied, `SetModified` is called once with the
      persisted object and the caller's entity, and the caller's entity is
      returned. */
  method UpdateWithNullIncludes() returns (r: Result<Entity>, detached: Entity, persistedItems: seq<Item>,
                                           persistedName: Value, calls: seq<(TrackedEntity, Entity)>, persisted: TrackedEntity)
    ensures r == Success(detached)
    ensures persistedItems == [Item(2, 10)] && persistedName == StringValue("new")
    ensures calls == [(persisted, detached)]
  {
    persisted := new TrackedEntity(Entity(1, map["Name" := StringValue("old")],
      map["TestEntities" := Collection([Item(2, 10)], ListKind)]));
    var context := new Context(ContextSubclass, map[IntValue(1) := persisted]);
    var made := Repository.Construct(NonKeyedType, context);
    var repository := made.value;
    detached := Entity(1, map["Name" := StringValue("new")], map["TestEntities" := Collection([], ListKind)]);
    KeysOfTestTypes("new", 1, detached);
    r := repository.Update(detached, None);
    persistedItems := persisted.collections["TestEntities"].items;
    persistedName := persisted.scalars["Name"];
    calls := context.modifiedCalls;
  }

  /** A key the context does not hold: `InvalidOperationException` before
      `SetModified` is reached (Repository.cs:74-76). */
  method UpdateNotFound() returns (r: Result<Entity>, calls: seq<(TrackedEntity, Entity)>)
    ensures r == Failure(InvalidOperation(NotFound(IntValue(5))))
    ensures calls == []
  {
    var other := new TrackedEntity(Entity(1, map[], map[]));
    var context := new Context(ContextSubclass, map[IntValue(1) := other]);
    var made := Repository.Construct(TestEntityType, context);
    var repository := made.value;
    var detached := Entity(5, map["Name" := StringValue("x")], map[]);
    KeysOfTestTypes("x", 5, detached);
    r := repository.Update(detached, Some(["TestEntities"]));
    calls := context.modifiedCalls;
  }

  /** A persisted collection type without `Remove` (Repository.cs:90-94):
      `InvalidOperationException` naming the property; nothing changes. */
  method UpdateWithoutRemove() returns (r: Result<Entity>, persistedItems: seq<Item>, calls: seq<(TrackedEntity, Entity)>)
    ensures r == Failure(InvalidOperation(MissingAddOrRemove("TestEntities")))
    ensures persistedItems == [Item(2, 10)] && calls == []
  {
    var persisted := new TrackedEntity(Entity(1, map[],
      map["TestEntities" := Collection([Item(2, 10)], CollectionKind(true, true, false))]));
    var context := new Context(ContextSubclass, map[IntValue(1) := persisted]);
    var made := Repository.Construct(NonKeyedType, context);
    var repository := made.value;
    var detached := Entity(1, map["Name" := StringValue("x")], map["TestEntities" := Collection([Item(4, 21)], ListKind)]);
    KeysOfTestTypes("x", 1, detached);
    EnumerablePropertiesOfNonKeyed();
    assert IncludedProperties(NonKeyedType, Some(["TestEntities"])) == [TestEntitiesProp];
    r := repository.Update(detached, Some(["TestEntities"]));
    persistedItems := persisted.collections["TestEntities"].items;
    calls := context.modifiedCalls;
  }

  /** AndDisposing (lines 359-380) disposes once: the context is released
      and disposed. Disposing again does nothing, by the null check of
      Repository.cs:219. */
  method DisposeTwice() returns (released: bool, disposals: nat)
    ensures released && disposals == 1
  {
    var context := new Context(ContextSubclass, map[]);
    var made := Repository.Construct(TestEntityType, context);
    var repository := made.value;
    repository.Dispose();
    repository.Dispose();
    released := repository.context == null;
    disposals := context.disposeCount;
  }

  /** `IncludeMany` with an empty array leaves the query as it is; with two
      names it applies both, in order. */
  method IncludeManyOnArrays() returns (empty: Query, two: Query)
    ensures empty == Query("TestEntities", [])
    ensures two == Query("TestEntities", ["A", "B"])
  {
    var q := Query("TestEntities", []);
    empty := IncludeMany(q, Some([]));
    IncludeAllAppends(q, []);
    two := IncludeMany(q, Some(["A", "B"]));
    IncludeAllAppends(q, ["A", "B"]);
  }
}
