/**
 * The per-assembly test-collection factory: a memo table from collection
 * names to collection objects. Every lookup of a name after the first
 * returns the object created by the first, and bindings are never changed
 * or removed.
 */
module CollectionRegistry {
  import opened CollectionNaming

  /** The identity token of a collection, determined by the assembly the
      factory serves and the collection's display name. */
  datatype CollectionId = CollectionId(assemblyPath: string, displayName: string)

  /** A test collection. Callers compare collections by reference. */
  class TestCollection {
    const DisplayName: string
    const Id: CollectionId

    constructor (assemblyPath: string, displayName: string)
      ensures DisplayName == displayName
      ensures Id == CollectionId(assemblyPath, displayName)
    {
      DisplayName := displayName;
      Id := CollectionId(assemblyPath, displayName);
    }
  }

  /** The factory for one assembly: one collection per resolved name. */
  class Registry {
    const assemblyPath: string
    var collections: map<string, TestCollection>

    /** Every bound collection carries its key as display name and an
        identity derived from this factory's assembly and that name. */
    ghost predicate Valid()
      reads this
    {
      forall name | name in collections ::
        collections[name].DisplayName == name &&
        collections[name].Id == CollectionId(assemblyPath, name)
    }

    constructor (assemblyPath: string)
      ensures Valid()
      ensures this.assemblyPath == assemblyPath
      ensures collections == map[]
    {
      this.assemblyPath := assemblyPath;
      collections := map[];
    }

    /** The collection of a test class: the one already bound to its
        resolved name, or a new one bound to that name. */
    method Get(testClass: TypeInfo) returns (r: TestCollection)
      requires Valid()
      modifies this
      ensures Valid()
      ensures r.DisplayName == ResolveName(testClass)
      ensures r.Id == CollectionId(assemblyPath, ResolveName(testClass))
      ensures ResolveName(testClass) in collections && collections[ResolveName(testClass)] == r
      ensures ResolveName(testClass) in old(collections) ==>
                r == old(collections)[ResolveName(testClass)] && collections == old(collections)
      ensures ResolveName(testClass) !in old(collections) ==>
                fresh(r) && collections == old(collections)[ResolveName(testClass) := r]
      ensures forall name | name in old(collections) ::
                name in collections && collections[name] == old(collections)[name]
    {
      var name := ResolveName(testClass);
      if name in collections {
        r := collections[name];
      } else {
        r := new TestCollection(assemblyPath, name);
        collections := collections[name := r];
      }
    }

    /** Two bound names share a collection object exactly when they are
        the same name. */
    lemma SharedIffSameName(name1: string, name2: string)
      requires Valid()
      requires name1 in collections && name2 in collections
      ensures collections[name1] == collections[name2] <==> name1 == name2
    {
    }

    /** The factory holds exactly one collection object per bound name:
        there are as many distinct collections as names. */
    lemma OneCollectionPerName()
      requires Valid()
      ensures |collections.Values| == |collections.Keys|
    {
      forall name1, name2 | name1 in collections && name2 in collections && collections[name1] == collections[name2]
        ensures name1 == name2
      {
        SharedIffSameName(name1, name2);
      }
      InjectiveValuesCount(collections);
    }
  }

  /** A map that never binds two keys to one value has as many values as keys. */
  lemma {:induction false} InjectiveValuesCount<K, V>(m: map<K, V>)
    requires forall k1, k2 | k1 in m && k2 in m && m[k1] == m[k2] :: k1 == k2
    ensures |m.Values| == |m.Keys|
  {
    if |m| > 0 {
      var k :| k in m;
      var rest := m - {k};
      InjectiveValuesCount(rest);
      assert m.Keys == rest.Keys + {k};
      assert m.Values == rest.Values + {m[k]};
      assert m[k] !in rest.Values;
    }
  }

  /** Two lookups on one factory return the same object exactly when the
      two classes resolve to the same name, whatever was bound before. */
  method GetTwice(factory: Registry, type1: TypeInfo, type2: TypeInfo)
    returns (result1: TestCollection, result2: TestCollection)
    requires factory.Valid()
    modifies factory
    ensures factory.Valid()
    ensures result1 == result2 <==> SameCollection(type1, type2)
    ensures result1.DisplayName == ResolveName(type1) && result2.DisplayName == ResolveName(type2)
  {
    result1 := factory.Get(type1);
    result2 := factory.Get(type2);
  }

  /** Factories for different assemblies never share a collection object,
      even for equal display names. */
  lemma ScopeIsolation(a: Registry, b: Registry, name1: string, name2: string)
    requires a.Valid() && b.Valid()
    requires a.assemblyPath != b.assemblyPath
    requires name1 in a.collections && name2 in b.collections
    ensures a.collections[name1] != b.collections[name2]
  {
  }
}
