# Collection-per-class test-collection factory

A Dafny model of the xUnit.net component that sorts the test classes of one
assembly into test collections. It is the collection-per-class factory,
`CollectionPerClassTestCollectionFactory`. A test class carries a
fully-qualified name and, optionally, a collection attribute with a
collection name. The factory is built for one assembly. Its operation
`Get(type)` resolves the class's collection name and returns the
collection bound to that name. When the name is not yet bound, `Get` first
creates a new collection and binds it. Collections are compared by
reference, so two classes share a collection exactly when `Get` returns
the same object for both.

The factory's implementation file is not part of this model. Its behaviour
is taken from its four tests in `test2/test.xunit2/Sdk/Frameworks/CollectionPerClassTestCollectionFactoryTests.cs`.

Files:

- `wrappers.dfy`: `Option`, for the optional collection attribute.
- `naming.dfy` (module `CollectionNaming`): the test-class input
  `TypeInfo`, the pure name resolution `ResolveName` and the lemmas
  about which classes share a name.
- `registry.dfy` (module `CollectionRegistry`): `TestCollection`, a
  class with a constant display name and identity, and `Registry`, the
  factory. `Registry` is a class with a mutable name-to-collection map and a
  `Get` method that modifies it.
- `factory_tests.dfy` (module `FactoryScenarios`): the four test
  scenarios. Each one builds a factory for `C:\Foo\bar.dll`, looks up two
  classes and states the test's assertions as postconditions.

The invariant `Registry.Valid` says that each bound collection has its key
as display name and an identity derived from the factory's assembly path
and that name. So two bound names share an object exactly when they are
equal. `Get` only adds bindings. It returns the existing binding unchanged,
or a fresh object that it adds under the resolved name.

## Model

| member | source | states |
|---|---|---|
| `CollectionNaming.ResolveName` | test2/test.xunit2/Sdk/Frameworks/CollectionPerClassTestCollectionFactoryTests.cs:20-21 | a declared collection name is returned verbatim; without one, the name is the text "Test collection for " followed by the whole fully-qualified class name |
| `CollectionNaming.DefaultNamesDistinct` | test2/test.xunit2/Sdk/Frameworks/CollectionPerClassTestCollectionFactoryTests.cs:19-21 | two classes without a collection attribute share a collection name if and only if their fully-qualified names are equal |
| `CollectionNaming.DeclaredNamesDecide` | test2/test.xunit2/Sdk/Frameworks/CollectionPerClassTestCollectionFactoryTests.cs:27-29 | two classes with collection attributes share a collection name if and only if the declared names are equal |
| `CollectionNaming.DeclaredNameMayMatchDefault` | test2/test.xunit2/Sdk/Frameworks/CollectionPerClassTestCollectionFactoryTests.cs:61-62 | a declared name equal to another class's default name resolves to that class's name, and a declared name matches a class's default name only if it is that exact text: one flat namespace |
| `CollectionRegistry.TestCollection.constructor` | test2/test.xunit2/Sdk/Frameworks/CollectionPerClassTestCollectionFactoryTests.cs:16-21 | a new collection carries the given display name and the identity (assembly path, display name) |
| `CollectionRegistry.Registry.constructor` | test2/test.xunit2/Sdk/Frameworks/CollectionPerClassTestCollectionFactoryTests.cs:12-14 | the factory is bound to one assembly path and starts with no collections |
| `CollectionRegistry.Registry.Get` | test2/test.xunit2/Sdk/Frameworks/CollectionPerClassTestCollectionFactoryTests.cs:16-17 | the result's display name is the resolved name and its identity is the assembly path and that name; a bound name returns the old binding with the map unchanged; an unbound name returns a fresh collection, now bound to that name; no existing binding changes |
| `CollectionRegistry.Registry.SharedIffSameName` | test2/test.xunit2/Sdk/Frameworks/CollectionPerClassTestCollectionFactoryTests.cs:34-37 | two bound names share a collection object if and only if they are the same name |
| `CollectionRegistry.Registry.OneCollectionPerName` | test2/test.xunit2/Sdk/Frameworks/CollectionPerClassTestCollectionFactoryTests.cs:50-53 | a valid factory holds as many distinct collection objects as bound names |
| `CollectionRegistry.GetTwice` | test2/test.xunit2/Sdk/Frameworks/CollectionPerClassTestCollectionFactoryTests.cs:16-19 | two lookups on one factory, whatever its earlier state, return the same object if and only if the two classes resolve to the same collection name |
| `CollectionRegistry.ScopeIsolation` | test2/test.xunit2/Sdk/Frameworks/CollectionPerClassTestCollectionFactoryTests.cs:12-14 | a design property, not one the tests exercise (they build one factory each): factories for different assembly paths never share a collection object, even for equal names; the proof rests on each collection's identity carrying its factory's assembly path |
| `FactoryScenarios.DefaultCollectionBehaviorIsCollectionPerClass` | test2/test.xunit2/Sdk/Frameworks/CollectionPerClassTestCollectionFactoryTests.cs:8-22 | two classes without an attribute get different collections, named "Test collection for FullyQualified.Type.Number1" and "...Number2" |
| `FactoryScenarios.ClassesDecoratedWithSameCollectionNameAreInSameTestCollection` | test2/test.xunit2/Sdk/Frameworks/CollectionPerClassTestCollectionFactoryTests.cs:25-39 | two classes declaring "My Collection" get the same object, whose display name is "My Collection" |
| `FactoryScenarios.ClassesWithDifferentCollectionNamesHaveDifferentCollectionObjects` | test2/test.xunit2/Sdk/Frameworks/CollectionPerClassTestCollectionFactoryTests.cs:42-56 | classes declaring "Collection 1" and "Collection 2" get different objects with those display names |
| `FactoryScenarios.ExplicitlySpecifyingACollectionWithTheSameNameAsAnImplicitWorks` | test2/test.xunit2/Sdk/Frameworks/CollectionPerClassTestCollectionFactoryTests.cs:59-72 | a class declaring "Test collection for type1" shares the collection of the unattributed class type1, and the collection's display name is that text |

## Left out

- Thread safety of `Get`: the factory is modelled as sequential. Running `Get` concurrently with at most one creation per name is a concurrency concern. The sequential postconditions of `Get` cover the same outcome for one caller at a time.
- Attribute lookup through reflection and the test doubles that stand in for types and assemblies: a test class is a plain `TypeInfo` value, with a name and an optional declared collection name. The assembly is its path.
- The form of a collection's identity token: no test states it. `CollectionId` keeps it as the pair of assembly path and display name and does not model how a GUID would be derived from them.
- Rejecting empty or malformed class names: `ResolveName` accepts every name, including the empty one. None of the four tests passes an empty or malformed name, so rejecting such names is not modelled.
- The other files in the repository are not part of this model. The equality-assertion tests and the `Assert.True` test exercise the `Assert` library, which is not part of this model. `TimeoutException` is an exception in that library's hierarchy whose only logic is formatting its message.
