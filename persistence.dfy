/** `Repository<T>` of Repository.cs over a model of the Entity Framework
    context it is bound to: key resolution, `Find`, the detached-entity
    `Update` and disposal. */
module Persistence {
  import opened Seqs
  import opened Entities
  import opened Extensions
  import opened Reconciliation

  predicate HasKeyAttribute(p: Property)
  {
    p.hasKeyAttribute
  }

  /** `GetKeyValue` (lines 121-132): the value of the single `[Key]`
      property if there is one, otherwise `Id`; `SingleOrDefault` throws
      when two properties carry `[Key]`. */
  function GetKeyValue(t: TypeDescriptor, e: Entity): (r: Result<Value>)
    ensures r.Failure? <==>
              exists i, j :: 0 <= i < j < |t.properties| && t.properties[i].hasKeyAttribute && t.properties[j].hasKeyAttribute
    ensures r.Failure? ==> r.error == InvalidOperation(MultipleKeyProperties)
    ensures r.Success? ==>
              forall i :: 0 <= i < |t.properties| && t.properties[i].hasKeyAttribute ==>
                r.value == PropertyValue(e, t.properties[i].name)
    ensures (forall i :: 0 <= i < |t.properties| ==> !t.properties[i].hasKeyAttribute) ==> r == Success(IntValue(e.id))
  {
    var keys := Filter(HasKeyAttribute, t.properties);
    FilterTwo(HasKeyAttribute, t.properties);
    if |keys| > 1 then Failure(InvalidOperation(MultipleKeyProperties))
    else if |keys| == 1 then
      assert keys[0] in keys;
      assert forall i :: 0 <= i < |t.properties| ==> t.properties[i] in t.properties;
      Success(PropertyValue(e, keys[0].name))
    else
      assert forall i :: 0 <= i < |t.properties| ==> t.properties[i] in t.properties;
      Success(IntValue(e.id))
  }

  function IncludableIn(names: seq<string>): Property -> bool
  {
    (p: Property) => IsEnumerableProperty(p) && p.name in names
  }

  function NamedIn(names: seq<string>): Property -> bool
  {
    (p: Property) => p.name in names
  }

  /** The properties the loop of `Update` visits (lines 78, 82-83): none for
      a null or empty include array; otherwise the enumerable properties
      named in the array, in the order the descriptor lists them, each once. */
  function IncludedProperties(t: TypeDescriptor, includes: Option<seq<string>>): (r: seq<Property>)
    ensures includes.None? || includes.value == [] ==> r == []
    ensures forall p :: p in r <==>
              includes.Some? && p.name in includes.value && p in t.properties && IsEnumerableProperty(p)
    ensures IsSubsequence(r, t.properties)
  {
    if includes.None? || |includes.value| == 0 then []
    else
      var names := includes.value;
      FilterFilter(IsEnumerableProperty, NamedIn(names), IncludableIn(names), t.properties);
      FilterIsSubsequence(IncludableIn(names), t.properties);
      Filter(NamedIn(names), GetEnumerableProperties(t))
  }

  /** What the `DbContext` handed to the constructor is: a plain
      `DbContext`, one that implements `IContext` without deriving from the
      abstract `Context`, or a subclass of `Context`. */
  datatype ContextKind = PlainDbContext | IContextImplementation | ContextSubclass

  /** The persistence context: the entities `Set<T>().Find` can return, by
      key, and a record of the calls the repository makes on it. */
  class Context {
    const kind: ContextKind
    var store: map<Value, TrackedEntity>
    /** One entry per `SetModified(entity, updated)` call. */
    var modifiedCalls: seq<(TrackedEntity, Entity)>
    var disposeCount: nat

    constructor (kind: ContextKind, store: map<Value, TrackedEntity>)
      ensures this.kind == kind && this.store == store
      ensures modifiedCalls == [] && disposeCount == 0
    {
      this.kind, this.store := kind, store;
      modifiedCalls, disposeCount := [], 0;
    }

    /** `Context.SetModified` (Context.cs:44-47): `SetValues` copies the
        scalar values of `updated` onto the tracked `entity`, marking it
        modified; collections are not scalar values and are kept. */
    method SetModified(entity: TrackedEntity, updated: Entity)
      modifies this, entity
      ensures entity.id == updated.id && entity.scalars == updated.scalars
      ensures entity.collections == old(entity.collections)
      ensures modifiedCalls == old(modifiedCalls) + [(entity, updated)]
      ensures store == old(store) && disposeCount == old(disposeCount)
    {
      entity.id, entity.scalars := updated.id, updated.scalars;
      modifiedCalls := modifiedCalls + [(entity, updated)];
    }

    method Dispose()
      modifies this
      ensures disposeCount == old(disposeCount) + 1
      ensures store == old(store) && modifiedCalls == old(modifiedCalls)
    {
      disposeCount := disposeCount + 1;
    }
  }

  class Repository {
    /** The reflection view of `T`. */
    const entityType: TypeDescriptor
    /** `_dbContext`; null once the repository is disposed. */
    var context: Context?

    constructor Bind(entityType: TypeDescriptor, dbContext: Context)
      ensures this.entityType == entityType && context == dbContext
    {
      this.entityType, context := entityType, dbContext;
    }

    /** The constructor (lines 33-39): a null context, or one that does not
        implement `IContext`, is refused with `InvalidOperationException`. */
    static method Construct(entityType: TypeDescriptor, dbContext: Context?) returns (r: Result<Repository>)
      ensures r.Failure? <==> dbContext == null || dbContext.kind == PlainDbContext
      ensures r.Failure? ==> r.error == InvalidOperation(ContextLacksIContext)
      ensures r.Success? ==> fresh(r.value) && r.value.context == dbContext && r.value.entityType == entityType
    {
      if dbContext == null || dbContext.kind == PlainDbContext {
        return Failure(InvalidOperation(ContextLacksIContext));
      }
      var repository := new Repository.Bind(entityType, dbContext);
      return Success(repository);
    }

    /** `Find(key)` (lines 139-142): the tracked entity stored under the key,
        or null; a disposed repository has no context to ask. */
    method Find(key: Value) returns (r: Result<TrackedEntity?>)
      ensures context == null ==> r == Failure(NullReference)
      ensures context != null && key in context.store ==> r == Success(context.store[key])
      ensures context != null && key !in context.store ==> r == Success(null)
    {
      if context == null {
        return Failure(NullReference);
      }
      if key in context.store {
        return Success(context.store[key]);
      }
      return Success(null);
    }

    /** The tracked entity an `Update` of `entity` may change. */
    ghost function UpdateTarget(entity: Entity): set<TrackedEntity>
      reads this, context
    {
      if context == null then {}
      else match GetKeyValue(entityType, entity)
        case Failure(_) => {}
        case Success(key) => if key in context.store then {context.store[key]} else {}
    }

    /** `Update` (lines 70-119). */
    method Update(entity: Entity, includes: Option<seq<string>>) returns (r: Result<Entity>)
      modifies context, UpdateTarget(entity)
      ensures context == old(context)
      ensures context != null ==> context.store == old(context.store) && context.disposeCount == old(context.disposeCount)
      ensures match GetKeyValue(entityType, entity)
        case Failure(e) =>
          r == Failure(e) && (context != null ==> context.modifiedCalls == old(context.modifiedCalls))
        case Success(key) =>
          if context == null then r == Failure(NullReference)
          else if key !in context.store then
            r == Failure(InvalidOperation(NotFound(key))) && context.modifiedCalls == old(context.modifiedCalls)
          else
            var o := context.store[key];
            var out := ReconcileAll(old(o.collections), entity.collections, IncludedProperties(entityType, includes));
            o.collections == out.collections &&
            if out.error.Some? || context.kind != ContextSubclass then
              r == Failure(if out.error.Some? then out.error.value else NullReference) &&
              o.id == old(o.id) && o.scalars == old(o.scalars) &&
              context.modifiedCalls == old(context.modifiedCalls)
            else
              r == Success(entity) &&
              o.id == entity.id && o.scalars == entity.scalars &&
              context.modifiedCalls == old(context.modifiedCalls) + [(o, entity)]
    {
      var keyValue := GetKeyValue(entityType, entity);
      if keyValue.Failure? {
        return Failure(keyValue.error);
      }
      var key := keyValue.value;
      var found := Find(key);
      if found.Failure? {
        return Failure(found.error);
      }
      var o := found.value;
      if o == null {
        return Failure(InvalidOperation(NotFound(key)));
      }
      if includes.Some? && |includes.value| > 0 {
        // The relationship loader runs at this point; it changes nothing in this model.
        var err := ReconcileProperties(o, entity.collections, IncludedProperties(entityType, includes));
        if err.Some? {
          return Failure(err.value);
        }
      }
      if context.kind != ContextSubclass {
        return Failure(NullReference);
      }
      context.SetModified(o, entity);
      return Success(entity);
    }

    /** `Dispose()` (lines 205-209). */
    method Dispose()
      modifies this, context
      ensures context == null
      ensures old(context) != null ==> old(context).disposeCount == old(context.disposeCount) + 1
      ensures old(context) != null ==>
                old(context).store == old(context.store) && old(context).modifiedCalls == old(context.modifiedCalls)
    {
      DisposeCore(true);
    }

    /** `Dispose(bool)` (lines 215-225): when disposing, a context that is
        still bound is disposed once and released; otherwise nothing. */
    method DisposeCore(disposing: bool)
      modifies this, context
      ensures disposing ==> context == null
      ensures !disposing ==> context == old(context)
      ensures disposing && old(context) != null ==> old(context).disposeCount == old(context.disposeCount) + 1
      ensures !disposing && old(context) != null ==> old(context).disposeCount == old(context.disposeCount)
      ensures old(context) != null ==>
                old(context).store == old(context.store) && old(context).modifiedCalls == old(context.modifiedCalls)
    {
      if disposing {
        if context != null {
          context.Dispose();
          context := null;
        }
      }
    }
  }
}
