/** The values the repository works on: identifiable entities, the
    descriptors that stand for .NET reflection over an entity type, the
    failures the repository raises, and the store-tracked entity object. */
module Entities {
  import Seqs

  datatype Option<+T> = None | Some(value: T)

  /** A .NET exception, by kind; `InvalidOperation` carries its cause. */
  datatype Error =
    | InvalidOperation(cause: Cause)
    | NullReference   // a member used through a null reference
    | ArgumentNull    // a LINQ operator called on a null source

  datatype Cause =
    | ContextLacksIContext                 // Repository.cs:35-36
    | MultipleKeyProperties                // SingleOrDefault at Repository.cs:125
    | NotFound(key: Value)                 // Repository.cs:75-76
    | MissingAddOrRemove(property: string) // Repository.cs:93-94

  datatype Result<+T> = Success(value: T) | Failure(error: Error)

  /** A boxed scalar: what `GetValue` returns for a non-collection property. */
  datatype Value = Null | IntValue(i: int) | StringValue(s: string)

  /** The name of the integer identity property of every `IIdentifiable`. */
  const IdProperty: string := "Id"

  /** The non-generic `System.Collections.IEnumerable` interface. */
  const IEnumerable: string := "System.Collections.IEnumerable"

  /** What reflection reports about a property's declared type: whether it
      is a constructed generic type and which interfaces it implements. */
  datatype PropertyType = PropertyType(name: string, isGeneric: bool, interfaces: set<string>)

  /** One entry of `GetProperties()`; `hasKeyAttribute` is `[Key]`. */
  datatype Property = Property(name: string, propertyType: PropertyType, hasKeyAttribute: bool)

  /** An entity type, as reflection sees it: its public properties, in the
      order `GetProperties()` reports them (reflection promises no particular
      order; the model keeps whichever one it reports). */
  datatype TypeDescriptor = TypeDescriptor(properties: seq<Property>)

  /** A member of a related collection: its `Id` and the identity of the
      object itself (two items are the same object iff they are equal). */
  datatype Item = Item(id: int, instance: nat)

  /** What the runtime type of a collection object offers: whether it is a
      non-generic `ICollection` (the `as ICollection` casts) and whether it
      has public `Add` and `Remove` methods. */
  datatype CollectionKind = CollectionKind(isCollection: bool, hasAdd: bool, hasRemove: bool)

  const ListKind: CollectionKind := CollectionKind(true, true, true)

  datatype Collection = Collection(items: seq<Item>, kind: CollectionKind)

  /** A detached entity: its `Id`, its other scalar properties and its
      collection properties; a property missing from a map is null. */
  datatype Entity = Entity(id: int, scalars: map<string, Value>, collections: map<string, Collection>)

  /** `property.GetValue(entity)` for a scalar property. */
  function PropertyValue(e: Entity, name: string): Value
  {
    if name == IdProperty then IntValue(e.id)
    else if name in e.scalars then e.scalars[name]
    else Null
  }

  /** An entity object owned by the persistence context. Its collections
      are changed in place through `Add` and `Remove`. */
  class TrackedEntity {
    var id: int
    var scalars: map<string, Value>
    var collections: map<string, Collection>

    constructor (e: Entity)
      ensures Snapshot() == e
    {
      id, scalars, collections := e.id, e.scalars, e.collections;
    }

    /** The entity's current property values. */
    function Snapshot(): Entity
      reads this
    {
      Entity(id, scalars, collections)
    }

    /** `Add` on the collection held by property `name`: appends `x`. */
    method Add(name: string, x: Item)
      requires name in collections
      modifies this
      ensures id == old(id) && scalars == old(scalars)
      ensures collections == old(collections)[name := old(collections[name]).(items := old(collections[name].items) + [x])]
    {
      var c := collections[name];
      collections := collections[name := c.(items := c.items + [x])];
    }

    /** `Remove` on the collection held by property `name`: drops the first
        element that is the object `x`; reports whether there was one. */
    method Remove(name: string, x: Item) returns (removed: bool)
      requires name in collections
      modifies this
      ensures id == old(id) && scalars == old(scalars)
      ensures removed <==> x in old(collections[name].items)
      ensures collections == old(collections)[name := old(collections[name]).(items := Seqs.RemoveFirst(old(collections[name].items), x))]
    {
      var c := collections[name];
      removed := x in c.items;
      collections := collections[name := c.(items := Seqs.RemoveFirst(c.items, x))];
    }
  }
}
