/** The extension methods of Extensions.cs: the reflection filter that
    finds collection-typed properties, and `IncludeMany`. */
module Extensions {
  import opened Seqs
  import opened Entities

  /** The property's type is generic and implements `IEnumerable`. */
  predicate IsEnumerableProperty(p: Property)
  {
    p.propertyType.isGeneric && IEnumerable in p.propertyType.interfaces
  }

  /** `GetEnumerableProperties`: the properties of the type whose type is a
      generic `IEnumerable`, in the order the descriptor lists them. */
  function GetEnumerableProperties(t: TypeDescriptor): (r: seq<Property>)
    ensures forall p :: p in r <==> p in t.properties && IsEnumerableProperty(p)
    ensures IsSubsequence(r, t.properties)
  {
    FilterIsSubsequence(IsEnumerableProperty, t.properties);
    Filter(IsEnumerableProperty, t.properties)
  }

  /** A query over one entity set, with the navigation paths that `Include`
      has asked to load eagerly, in the order they were asked for. */
  datatype Query = Query(source: string, includePaths: seq<string>)

  /** `IQueryable<T>.Include(path)`. */
  function Include(q: Query, path: string): Query
  {
    q.(includePaths := q.includePaths + [path])
  }

  /** `Include` applied for each name, first to last. */
  function IncludeAll(q: Query, names: seq<string>): Query
    decreases |names|
  {
    if names == [] then q else IncludeAll(Include(q, names[0]), names[1..])
  }

  /** Each name is included exactly once, in order, and nothing else changes. */
  lemma {:induction false} IncludeAllAppends(q: Query, names: seq<string>)
    ensures IncludeAll(q, names) == q.(includePaths := q.includePaths + names)
    decreases |names|
  {
    if names != [] {
      IncludeAllAppends(Include(q, names[0]), names[1..]);
      assert q.includePaths + [names[0]] + names[1..] == q.includePaths + names;
    }
  }

  /** `IncludeMany`: a null array leaves the query as it is; otherwise the
      loop reassigns the query with one `Include` per name. */
  method IncludeMany(query: Query, includes: Option<seq<string>>) returns (r: Query)
    ensures includes.None? ==> r == query
    ensures includes.Some? ==> r == IncludeAll(query, includes.value)
    ensures includes.Some? ==> r.source == query.source && r.includePaths == query.includePaths + includes.value
  {
    r := query;
    if includes.Some? {
      var names := includes.value;
      for i := 0 to |names|
        invariant IncludeAll(r, names[i..]) == IncludeAll(query, names)
      {
        assert names[i..][0] == names[i] && names[i..][1..] == names[i + 1..];
        r := Include(r, names[i]);
      }
      assert names[|names|..] == [];
      IncludeAllAppends(query, names);
    }
  }
}
