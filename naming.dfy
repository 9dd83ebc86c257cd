/**
 * Name resolution for test collections: a test class belongs to the
 * collection named by its collection attribute, or, without one, to a
 * collection whose name is derived from the class's fully-qualified name.
 * Declared and derived names live in one flat namespace.
 */
module CollectionNaming {
  import opened Wrappers

  /** A test class as the factory sees it: its fully-qualified name and
      the argument of its collection attribute, if it carries one. */
  datatype TypeInfo = TypeInfo(name: string, collectionAttribute: Option<string>)

  /** The fixed text that precedes a class name in a default collection name. */
  const DefaultPrefix: string := "Test collection for "

  /** The collection name of a test class: the declared name verbatim, or
      DefaultPrefix followed by the fully-qualified class name. */
  function ResolveName(testClass: TypeInfo): (r: string)
    ensures testClass.collectionAttribute.Some? ==> r == testClass.collectionAttribute.value
    ensures testClass.collectionAttribute.None? ==>
              |r| == |DefaultPrefix| + |testClass.name| &&
              r[..|DefaultPrefix|] == DefaultPrefix &&
              r[|DefaultPrefix|..] == testClass.name
  {
    match testClass.collectionAttribute
    case Some(declared) => declared
    case None => DefaultPrefix + testClass.name
  }

  /** Two classes fall into the same collection exactly when their
      resolved names are equal. */
  predicate SameCollection(a: TypeInfo, b: TypeInfo) {
    ResolveName(a) == ResolveName(b)
  }

  /** Classes without a collection attribute and with different
      fully-qualified names get different collection names. */
  lemma DefaultNamesDistinct(a: TypeInfo, b: TypeInfo)
    requires a.collectionAttribute.None? && b.collectionAttribute.None?
    ensures SameCollection(a, b) <==> a.name == b.name
  {
  }

  /** Classes with collection attributes share a collection exactly when
      the declared names are equal. */
  lemma DeclaredNamesDecide(a: TypeInfo, b: TypeInfo)
    requires a.collectionAttribute.Some? && b.collectionAttribute.Some?
    ensures SameCollection(a, b) <==> a.collectionAttribute.value == b.collectionAttribute.value
  {
  }

  /** A declared name equal to another class's default name puts the two
      classes in the same collection: no prefix is reserved. */
  lemma DeclaredNameMayMatchDefault(implicit: TypeInfo, explicit: TypeInfo)
    requires implicit.collectionAttribute.None?
    ensures explicit.collectionAttribute == Some(DefaultPrefix + implicit.name) ==> SameCollection(implicit, explicit)
    ensures explicit.collectionAttribute.Some? && SameCollection(implicit, explicit) ==>
              explicit.collectionAttribute.value == DefaultPrefix + implicit.name
  {
  }
}
