# Repository<T> for Entity Framework — a Dafny model

`Repository<T>` (PSNS-IMF persistence-entityframework) binds a generic
repository to an Entity Framework `DbContext`. Most of its members hand
the call straight to `DbSet`. The logic it adds is the **detached-entity
update**:

- `Update(entity, includes)` resolves the entity's key: `Id`, or the single
  `[Key]` property.
- It finds the persisted entity under that key.
- For every included collection property, it reconciles the persisted
  collection with the caller's collection, in place and by `Id`. New items
  are appended, then items the caller no longer holds are removed.
- It then lets the context copy the scalar values across and returns the
  caller's entity.

This project models that update, key resolution, the constructor's
`IContext` check, disposal, and the two extension methods
`GetEnumerableProperties` and `IncludeMany`. It proves what they promise.

Modules:

- `Seqs`: defines LINQ `Where` as `Filter`, `List<T>.Remove` as
  `RemoveFirst`, and a run of removals as `ApplyRemovals`, with their
  lemmas.
- `Entities`: defines the values.
  - Entities, items and collections.
  - Reflection descriptors (`TypeDescriptor`, `Property`, `PropertyType`)
    in place of `GetType().GetProperties()`.
  - Exception kinds, as `Result`/`Error`.
  - `TrackedEntity`, the persisted object whose collections `Add` and
    `Remove` change.
- `Extensions`: `GetEnumerableProperties`, `Include` as recording a path,
  and `IncludeMany` as the loop the source has.
- `Reconciliation`:
  - The specification of one collection's reconciliation (`Reconciled`)
    and of the loop over included properties (`ReconcileStep`,
    `ReconcileAll`).
  - Their properties: order, members, key set, distinct keys,
    idempotence and frame.
  - The imperative add and remove loops that are proved against them.
- `Persistence`: `GetKeyValue`, the included-property selection, the
  `Context` (store, `SetModified` and `Dispose`), and the `Repository`
  class (`Construct`, `Find`, `Update`, `Dispose`, `DisposeCore`).
- `Scenarios`: the situations of the unit tests, plus the other paths of
  `Update`, `Dispose` and `IncludeMany`, replayed as client methods. Their
  postconditions follow only from the contracts above.

Notes on the model:

- **Removals are computed after the additions.** `oldIdentifiables` is a
  lazy view over the persisted collection, so when the removals are
  enumerated at line 107 of Repository.cs it already holds the appended
  items. Read another way, both lists are computed before anything is
  mutated. `Reconciliation.AdditionsNeverRemoved` proves that the two
  readings give the same removals.
- **The `Context` cast.** The constructor accepts any context that
  implements `IContext`. Update then casts the context with
  `_dbContext as Context` (line 116). A context that implements `IContext`
  without deriving from `Context` therefore gets a `NullReferenceException`,
  but only after its collections have been reconciled. `ContextKind` models
  this and `Update`'s contract states it.
- **The order of failures** inside one iteration follows the statements:
  1. a null persisted collection (line 90) gives `NullReference`;
  2. a missing `Add` or `Remove` (lines 93-94) gives `InvalidOperation`;
  3. a null incoming collection, where `OfType` throws (line 97), gives
     `ArgumentNull`.

  An exception leaves the collections reconciled by earlier iterations
  changed.

## Model

| member | source | states |
|---|---|---|
| Persistence.GetKeyValue | src/Psns.Common.Persistence.EntityFramework/Repository.cs:121-132 | fails with InvalidOperation exactly when two properties carry `[Key]`; otherwise the key is the value of every `[Key]` property, and with none it is `Id` |
| Seqs.FilterTwo | src/Psns.Common.Persistence.EntityFramework/Repository.cs:125 | the `Where` before `SingleOrDefault` keeps two or more properties iff two positions satisfy the predicate (both directions) |
| Persistence.IncludedProperties | src/Psns.Common.Persistence.EntityFramework/Repository.cs:78-83 | null or empty includes select nothing; otherwise a property is selected iff it is an enumerable property of the type named in the includes; names matching nothing are skipped; the selected properties keep the order the type descriptor lists them in |
| Persistence.Repository.Construct | src/Psns.Common.Persistence.EntityFramework/Repository.cs:33-39 | fails with InvalidOperation iff the context is null or does not implement IContext; otherwise a fresh repository bound to that context |
| Persistence.Repository.Find | src/Psns.Common.Persistence.EntityFramework/Repository.cs:139-142 | the entity stored under the key, or null; NullReference once disposed |
| Persistence.Repository.Update | src/Psns.Common.Persistence.EntityFramework/Repository.cs:70-119 | key failure propagated; missing entity is InvalidOperation with no SetModified; otherwise old's collections become ReconcileAll of the included properties, and on success SetModified(old, entity) is recorded exactly once, scalars copied and the caller's entity returned; a failure in the loop or a non-`Context` context returns that failure with no SetModified; store and disposal untouched |
| Persistence.Repository.Dispose | src/Psns.Common.Persistence.EntityFramework/Repository.cs:205-209 | the context is null afterwards; a bound context is disposed once, nothing else of it changes |
| Persistence.Repository.DisposeCore | src/Psns.Common.Persistence.EntityFramework/Repository.cs:215-225 | when disposing, a bound context is disposed once and released, an already released one is left alone; when not disposing nothing changes |
| Persistence.Context.SetModified | src/Psns.Common.Persistence.EntityFramework/Context.cs:44-47 | the tracked entity takes the scalar values of the updated one, its collections are kept, and the call is recorded |
| Entities.TrackedEntity.Add | src/Psns.Common.Persistence.EntityFramework/Repository.cs:104 | `add.Invoke` appends the item to the named collection and changes nothing else |
| Entities.TrackedEntity.Remove | src/Psns.Common.Persistence.EntityFramework/Repository.cs:111 | `remove.Invoke` drops the first occurrence of that object, reporting whether there was one, and changes nothing else |
| Reconciliation.AddEach | src/Psns.Common.Persistence.EntityFramework/Repository.cs:102-105 | the add loop leaves the named collection as its old items followed by every addition, in order, and changes nothing else |
| Reconciliation.RemoveEach | src/Psns.Common.Persistence.EntityFramework/Repository.cs:109-112 | the remove loop leaves the named collection as its old items with each removal applied in turn (first occurrence each), and changes nothing else |
| Reconciliation.ReconcileProperty | src/Psns.Common.Persistence.EntityFramework/Repository.cs:85-112 | the add loop then the remove loop leave the named collection equal to ReconcileStep of the old collections, or raise that step's exception with nothing changed |
| Reconciliation.ReconcileProperties | src/Psns.Common.Persistence.EntityFramework/Repository.cs:82-113 | the loop over included properties yields exactly ReconcileAll: the collections after it and the exception that stopped it |
| Reconciliation.AdditionsNeverRemoved | src/Psns.Common.Persistence.EntityFramework/Repository.cs:100-108 | removals enumerated after appending the additions equal those of the untouched persisted collection: no appended item is removed |
| Reconciliation.ReconciledShape | src/Psns.Common.Persistence.EntityFramework/Repository.cs:100-112 | the result is the surviving persisted items in persisted order followed by the additions in incoming order |
| Reconciliation.ReconciledMembers | src/Psns.Common.Persistence.EntityFramework/Repository.cs:100-112 | an object is in the result iff it is a persisted object whose Id the caller kept or a caller's object whose Id was new: survivors are not replaced, additions are the caller's instances |
| Reconciliation.ReconciledKeys | src/Psns.Common.Persistence.EntityFramework/Repository.cs:100-112 | the result's Id set equals the incoming Id set |
| Reconciliation.ReconciledDistinct | src/Psns.Common.Persistence.EntityFramework/Repository.cs:100-112 | with distinct Ids on both sides, the result has distinct Ids and as many items as the incoming collection |
| Reconciliation.ReconciledIdempotent | src/Psns.Common.Persistence.EntityFramework/Repository.cs:100-112 | reconciling the result again against the same incoming collection changes nothing |
| Reconciliation.ReconcileAllFrame | src/Psns.Common.Persistence.EntityFramework/Repository.cs:82-113 | the loop keeps the set of properties and every collection type, and leaves collections of properties not visited unchanged |
| Reconciliation.ReconcileAllIdempotent | src/Psns.Common.Persistence.EntityFramework/Repository.cs:82-113 | after a loop that succeeded, running it again with the same incoming entity changes nothing |
| Reconciliation.ReconcileAllReconciles | src/Psns.Common.Persistence.EntityFramework/Repository.cs:82-113 | after a loop that succeeded, every visited property's collection is the reconciliation of its persisted items with the caller's items, even when a property is visited more than once |
| Extensions.GetEnumerableProperties | src/Psns.Common.Persistence.EntityFramework/Extensions.cs:23-30 | a property is returned iff its type is generic and implements IEnumerable; the result is a subsequence of the declared properties |
| Seqs.Filter | src/Psns.Common.Persistence.EntityFramework/Extensions.cs:28-29 | `Where` keeps exactly the elements satisfying the predicate and never grows the sequence |
| Extensions.IncludeAllAppends | src/Psns.Common.Persistence.EntityFramework/Extensions.cs:45-46 | including each name in turn adds every name exactly once, in order, and changes nothing else |
| Extensions.IncludeMany | src/Psns.Common.Persistence.EntityFramework/Extensions.cs:39-50 | null includes return the query unchanged; otherwise the query with each name included once, in array order |
| Scenarios.EnumerablePropertiesOfKeyedNonId | test/EntityFramework.UnitTests/WhenWorkingWithTheRepository.cs:239-252 | of `Id`, `[Key] Name` and `TestEntities`, only the collection is enumerable: a string is never treated as a collection |
| Scenarios.KeysOfTestTypes | test/EntityFramework.UnitTests/WhenWorkingWithTheRepository.cs:306-314 | a KeyedNonId with Id 0 is keyed by its Name; TestEntity and NonKeyed are keyed by Id |
| Scenarios.TestCollectionReconciled | test/EntityFramework.UnitTests/WhenWorkingWithTheRepository.cs:321-323 | persisted [2, 3, 1] against incoming [1, 4] becomes [1, 4], with 1 the persisted object and 4 the caller's |
| Scenarios.UpdateKeyedNonId | test/EntityFramework.UnitTests/WhenWorkingWithTheRepository.cs:306-330 | the update succeeds and returns the caller's entity itself (Id 0, Name "updated", its own collection still [1, 4]); the persisted collection becomes exactly [1, 4], with the persisted object for 1 and the caller's for 4; SetModified is recorded exactly once, with (old, entity) |
| Scenarios.ConstructWithBadContext | test/EntityFramework.UnitTests/WhenWorkingWithTheRepository.cs:63-71 | a plain DbContext, and a null context, are refused with InvalidOperation |
| Scenarios.UpdateWithNullIncludes | test/EntityFramework.UnitTests/WhenWorkingWithTheRepository.cs:214-221 | with null includes the persisted collection is unchanged, the scalars are copied, SetModified is recorded once with (old, entity) and the entity is returned |
| Scenarios.UpdateNotFound | src/Psns.Common.Persistence.EntityFramework/Repository.cs:74-76 | an unknown key gives InvalidOperation naming the key and no SetModified |
| Scenarios.UpdateWithoutRemove | src/Psns.Common.Persistence.EntityFramework/Repository.cs:90-94 | a persisted collection type without Remove gives InvalidOperation naming the property; the collection and the calls are unchanged |
| Scenarios.DisposeTwice | src/Psns.Common.Persistence.EntityFramework/Repository.cs:215-225 | after two disposals the context is released and was disposed exactly once: the second call finds no context to dispose |
| Scenarios.IncludeManyOnArrays | src/Psns.Common.Persistence.EntityFramework/Extensions.cs:43-49 | an empty array leaves the query unchanged; two names are included in order |

## Left out

- `All`, `FindAsync`, the predicate `Find`, `Create`, `Delete`, `SaveChanges` and `SaveChangesAsync` (Repository.cs:46-59, 149-191) hand the call to `DbSet` or `DbContext`, whose semantics belong to Entity Framework. `Find(key)` is modelled as a lookup in the context's store.
- `RelationshipLoaderAdapter.Load` (Repository.cs:80) drives Entity Framework's lazy loading through a process-wide slot. It is treated as a step that changes nothing, which is what the tests install. src/Project45/RelationshipLoaderAdapter.cs is not part of this model.
- Reflection is replaced by explicit type descriptors. The runtime type of the entity is taken to be `T`, so `entity.GetType()` and `old.GetType()` describe the same properties.
- `GetProperties()` promises no particular order. `TypeDescriptor.properties` stands for whatever order reflection reports, and the model follows it. That order matters, because the loop over included properties stops at the first failure.
- Persistence.Repository.Update: `Entity` is a value, so a null entity cannot be passed. The `NullReferenceException` at line 123 of Repository.cs for a null entity is not modelled.
- `IdentifiableComparer` is not among the files of this model. Its equality is taken to be equality of `Id`.
- Reconciliation.ReconcileStep: `OfType<IIdentifiable>` also drops elements that are not identifiable. Every item of a collection is modelled as identifiable, so that filtering is not modelled.
- Entities.TrackedEntity.Add: a collection is a value held by the entity, so aliasing between collection objects is not modelled. Examples are the caller's entity sharing a list with the persisted one, or `Add` changing the incoming collection.
- Persistence.Context.SetModified: only the effect of the base `Context.SetModified` is modelled, that is copying scalar values and recording the call. The change-tracking state of Entity Framework's entry is not modelled, and neither are overrides such as src/Project45/Context.cs.
- Persistence.Repository.Find: a `Null` key is looked up like any other value. Entity Framework's own handling of a null key value is not modelled.
- `Include` is modelled only as recording the requested path on a query value; what it loads is not modelled. `AsNoTracking` is not modelled at all: it is used only by the left-out `All` and predicate `Find`.
- The finaliser `~Repository`, `Dispose(false)` from it and `GC.SuppressFinalize` are memory-management interactions with the runtime. `DisposeCore(false)` is modelled and changes nothing.
- Asynchronous members and concurrency are not modelled.
