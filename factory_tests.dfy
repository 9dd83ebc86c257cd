/**
 * The four documented scenarios of the collection-per-class factory, each
 * building a factory for one assembly and looking up two test classes. The
 * postconditions are the scenarios' assertions.
 */
module FactoryScenarios {
  import opened Wrappers
  import opened CollectionNaming
  import opened CollectionRegistry

  /** Classes without a collection attribute each get their own collection,
      named after the class. */
  method DefaultCollectionBehaviorIsCollectionPerClass()
    returns (result1: TestCollection, result2: TestCollection)
    ensures result1 != result2
    ensures result1.DisplayName == "Test collection for FullyQualified.Type.Number1"
    ensures result2.DisplayName == "Test collection for FullyQualified.Type.Number2"
  {
    var type1 := TypeInfo("FullyQualified.Type.Number1", None);
    var type2 := TypeInfo("FullyQualified.Type.Number2", None);
    var factory := new Registry(@"C:\Foo\bar.dll");
    result1 := factory.Get(type1);
    result2 := factory.Get(type2);
  }

  /** Classes declaring the same collection name share one collection. */
  method ClassesDecoratedWithSameCollectionNameAreInSameTestCollection()
    returns (result1: TestCollection, result2: TestCollection)
    ensures result1 == result2
    ensures result1.DisplayName == "My Collection"
  {
    var attr := "My Collection";
    var type1 := TypeInfo("type1", Some(attr));
    var type2 := TypeInfo("type2", Some(attr));
    var factory := new Registry(@"C:\Foo\bar.dll");
    result1 := factory.Get(type1);
    result2 := factory.Get(type2);
  }

  /** Classes declaring different collection names get different collections. */
  method ClassesWithDifferentCollectionNamesHaveDifferentCollectionObjects()
    returns (result1: TestCollection, result2: TestCollection)
    ensures result1 != result2
    ensures result1.DisplayName == "Collection 1"
    ensures result2.DisplayName == "Collection 2"
  {
    var type1 := TypeInfo("type1", Some("Collection 1"));
    var type2 := TypeInfo("type2", Some("Collection 2"));
    var factory := new Registry(@"C:\Foo\bar.dll");
    result1 := factory.Get(type1);
    result2 := factory.Get(type2);
  }

  /** A declared name equal to another class's default name joins that
      class's collection. */
  method ExplicitlySpecifyingACollectionWithTheSameNameAsAnImplicitWorks()
    returns (result1: TestCollection, result2: TestCollection)
    ensures result1 == result2
    ensures result1.DisplayName == "Test collection for type1"
  {
    var type1 := TypeInfo("type1", None);
    var type2 := TypeInfo("type2", Some("Test collection for type1"));
    var factory := new Registry(@"C:\Foo\bar.dll");
    result1 := factory.Get(type1);
    result2 := factory.Get(type2);
    DeclaredNameMayMatchDefault(type1, type2);
  }
}
