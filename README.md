# cdimock core in Dafny

A model of the core of cdimock, a JUnit 5 / CDI library that puts test doubles into
a CDI container. The model covers three parts:

- **Mock-field discovery and bean synthesis** (`CdiMockExtension`, file
  `cdi_mock_extension.dfy`). The extension walks the test class and its superclasses,
  superclass first. It collects every declared field that has no `@Inject`, has no
  `@Produces`, and has either `@CdiMock` or an annotation whose type is named
  exactly `org.mockito.Mock`. It then registers one alternative bean per collected
  field. The bean has the field's generic type, the `CdiMock` stereotype and the
  field's qualifier annotations. It is created by reading the field off the current
  test instance (`GetMock`; `CreateMock` is the `createWith` callback).
  - Reflection is replaced by plain data. A `JavaClass` is a class identity, an
    optional superclass and a sequence of declared `Field`s. A field carries the
    names of its annotation types.
  - The datatypes also admit hierarchies Java cannot produce. `WellFormed` states
    what Java guarantees: a class names itself as the declaring class of each field
    it declares, declares each field name once, and is not its own ancestor. The
    properties that need this guarantee require it.
  - The bean manager's `isQualifier` is a function parameter.
  - The class context's test class and the method context's test instance are
    explicit `Option` parameters, not static fields.
  - The registered beans are returned as a sequence of `BeanDescriptor` records.
- **The `@TestExecutionScoped` context** (`TestExecution.TestExecutionContext`, file
  `test_execution_context.dfy`). This is a class with one field, `instances`. It is
  `None` while the context is inactive and a map from contextual to `Instance` while
  it is active.
  - The contextual's `create` and `destroy` are code outside the model. The value
    `create` returns is a parameter (`created`) of the methods that call it.
  - Every create and destroy call is appended to the ghost log `calls`. This is how
    "created once" and "destroyed exactly once" are stated.
  - `Valid()` is the class invariant: every stored instance sits under its own
    contextual, and a logged `create` call returned it.
- **The class veto** (`ExcludeClasses`, file `exclude_classes_extension.dfy`). The
  extension holds a fixed list of classes. It calls `veto()` on a
  `ProcessAnnotatedType` event exactly when the event's class is in the list.

Shared definitions are in `wrappers.dfy`: `Option`, `Result`, `Outcome`, and the Java
notions the model needs. `Ref` is a Java reference (`Null` or an object). The
exceptions the source lets escape are a datatype.

Behaviour kept as the code has it, although a scope with lazy caching, usage errors
and aggregated destruction failures might be expected:

- The two-argument `get` (TestExecutionContext.java:40) uses `orElse`, so `create`
  runs on every call and its instance replaces the stored one. The call still returns
  the instance that was stored before, if it is non-null. An instance replaced this
  way is never destroyed (`RepeatedGetScenario`). The model does not turn this into
  lazy caching.
- `create`, the two-argument `get` on an inactive context, and `deactivate` on an
  inactive context throw `NullPointerException`; there is no dedicated usage error.
  `create` calls the contextual's `create` before the `put` fails, and the log shows
  that call.
- `activate` on an active context replaces the map without destroying anything. It is
  not an error.
- `deactivate` does not collect failures of `destroy`, because the code has no
  aggregation.

## Model

| member | source | states |
|---|---|---|
| CdiMockExtension.Chain | src/main/java/rocks/limburg/cdimock/CdiMockExtension.java:73-77 | the walk visits the class and then its superclasses up to the root, ancestor first: each class's superclass is the one before it, the first has none, the class itself is last, and a null class gives an empty walk |
| CdiMockExtension.HasMockAnnotation | src/main/java/rocks/limburg/cdimock/CdiMockExtension.java:85-93 | holds iff the field carries `@CdiMock` or an annotation whose type name is exactly `org.mockito.Mock` |
| CdiMockExtension.MockFieldsDeclared | src/main/java/rocks/limburg/cdimock/CdiMockExtension.java:78-82 | a declared field is kept iff it has no `@Inject`, no `@Produces` and a mock annotation |
| CdiMockExtension.CollectedIff | src/main/java/rocks/limburg/cdimock/CdiMockExtension.java:73-83 | a field is collected iff a class of the chain declares it, it lacks `@Inject` and `@Produces`, and it has a mock annotation |
| CdiMockExtension.AncestorFieldsFirst | src/main/java/rocks/limburg/cdimock/CdiMockExtension.java:77-82 | the fields collected for any ancestor form a prefix of those collected for the descendant, so superclass fields are added before subclass fields |
| CdiMockExtension.DistinctMockFields | src/main/java/rocks/limburg/cdimock/CdiMockExtension.java:73-83 | in a hierarchy Java can produce (every class names itself as declaring class of its fields, declares each name once, and is not its own ancestor), the walk never meets the same field twice and every collected field is declared by a class of the chain |
| CdiMockExtension.OneEntryPerMockField | src/main/java/rocks/limburg/cdimock/CdiMockExtension.java:77-82 | in such a hierarchy fields of different declaring classes stay distinct, so the `HashSet` holds exactly one entry per collected field |
| CdiMockExtension.CollectMockTypes | src/main/java/rocks/limburg/cdimock/CdiMockExtension.java:73-83 | a null class leaves the accumulator unchanged; the accumulator only grows; the result is the accumulator plus exactly the collected fields of the chain, added superclass first |
| CdiMockExtension.MockBean | src/main/java/rocks/limburg/cdimock/CdiMockExtension.java:60-67 | the bean configured for a field has the field's generic type, the CdiMock stereotype, as qualifiers exactly the field's annotations that `isQualifier` accepts, the alternative flag, and is created from that field |
| CdiMockExtension.RegisterMockBeans | src/main/java/rocks/limburg/cdimock/CdiMockExtension.java:59-67 | exactly one bean per field of the set: as many beans as fields, created from exactly those fields, no two from the same field, each the `MockBean` of its field |
| CdiMockExtension.AddMockBeans | src/main/java/rocks/limburg/cdimock/CdiMockExtension.java:54-68 | one bean per collected field of the test class, each the `MockBean` of its field; in a hierarchy Java can produce, as many beans as declared mock fields; no bean when the class context has no test class |
| CdiMockExtension.NoMockMessage | src/main/java/rocks/limburg/cdimock/CdiMockExtension.java:97-101 | the message starts with "No mock configured for field <field name> in class <declaring class's simple name>" |
| CdiMockExtension.GetValue | src/main/java/rocks/limburg/cdimock/CdiMockExtension.java:104-111 | `field.get` succeeds iff the instance is an instance of the field's declaring class, and then carries the field's value (null included); otherwise the `IllegalArgumentException` escapes as it is |
| CdiMockExtension.GetMock | src/main/java/rocks/limburg/cdimock/CdiMockExtension.java:95-111 | succeeds iff there is a test instance, it is an instance of the declaring class and the field is non-null, and then returns that exact value; fails with `IllegalArgumentException`, unwrapped, iff the instance has the wrong class; otherwise fails with `IllegalStateException` carrying the "no mock configured" message |
| CdiMockExtension.CreateMock | src/main/java/rocks/limburg/cdimock/CdiMockExtension.java:67 | the `createWith` callback succeeds iff there is a test instance of the bean field's declaring class whose field is non-null, and returns that value; it fails with `IllegalArgumentException` iff the instance has the wrong class, and otherwise with `IllegalStateException` carrying the "no mock configured" message |
| CdiMockExtension.CollectedFieldReadable | src/main/java/rocks/limburg/cdimock/CdiMockExtension.java:104-107 | in a hierarchy Java can produce, a field collected from a class is readable on every instance of that class: `getMock` never fails with `IllegalArgumentException` there |
| CdiMockExtension.FixtureMockFields | src/test/java/rocks/limburg/cdimock/CdiMockExtensionTest.java:43-56 | of the unit test's ten fields (seven without annotations, then the injected, the produced and the `@CdiMock` one) only the `@CdiMock` one is collected |
| CdiMockExtension.FixtureWellFormed | src/test/java/rocks/limburg/cdimock/CdiMockExtensionTest.java:41-56 | the unit test's class, with `Object` as superclass, is a hierarchy Java can produce |
| CdiMockExtension.UnsetMockFails | src/test/java/rocks/limburg/cdimock/CdiMockExtensionTest.java:87-97 | with the test itself as instance and the field unset, creation fails with an `IllegalStateException` whose message starts with "No mock configured for field unsetMock" |
| CdiMockExtension.WrongTypeFails | src/test/java/rocks/limburg/cdimock/CdiMockExtensionTest.java:77-85 | with a plain `Object` as test instance, creation fails with `IllegalArgumentException` |
| CdiMockExtension.UnsetMockScenario | src/test/java/rocks/limburg/cdimock/CdiMockExtensionTest.java:77-97 | for the unit test's class the extension registers exactly one bean, the unset mock field's, and creating it gives the two failures above |
| TestExecution.TestExecutionContext.constructor | src/main/java/rocks/limburg/cdimock/TestExecutionContext.java:31 | a new context is inactive and has made no calls |
| TestExecution.TestExecutionContext.IsActive | src/main/java/rocks/limburg/cdimock/TestExecutionContext.java:57-60 | the context is active iff the instance map is present |
| TestExecution.TestExecutionContext.GetScope | src/main/java/rocks/limburg/cdimock/TestExecutionContext.java:33-36 | the scope is always `TestExecutionScoped` |
| TestExecution.TestExecutionContext.GetInstance | src/main/java/rocks/limburg/cdimock/TestExecutionContext.java:68-70 | there is an entry iff the context is active and the map has one for the contextual, and it is the stored one |
| TestExecution.TestExecutionContext.Get | src/main/java/rocks/limburg/cdimock/TestExecutionContext.java:43-46 | returns the value stored for the contextual, or null when there is none or the context is inactive; it changes nothing |
| TestExecution.TestExecutionContext.Activate | src/main/java/rocks/limburg/cdimock/TestExecutionContext.java:48-50 | afterwards the context is active with an empty map and every `get` answers null |
| TestExecution.TestExecutionContext.NewInstance | src/main/java/rocks/limburg/cdimock/TestExecutionContext.java:78-82 | calls the contextual's `create` once and keeps contextual, creational context and created value |
| TestExecution.TestExecutionContext.DestroyInstance | src/main/java/rocks/limburg/cdimock/TestExecutionContext.java:88-90 | calls the contextual's `destroy` once with the instance's value and creational context |
| TestExecution.TestExecutionContext.Create | src/main/java/rocks/limburg/cdimock/TestExecutionContext.java:62-66 | calls `create` exactly once; if active, stores the new instance under the contextual (overwriting), leaves other entries unchanged and returns the new value; if inactive, throws `NullPointerException` after the call |
| TestExecution.TestExecutionContext.GetWithCreationalContext | src/main/java/rocks/limburg/cdimock/TestExecutionContext.java:38-41 | always calls `create` once and stores its instance; on an active context returns the previously stored non-null value if there is one, else the new value, and a following `get` returns the new value; inactive, throws `NullPointerException` |
| TestExecution.TestExecutionContext.Deactivate | src/main/java/rocks/limburg/cdimock/TestExecutionContext.java:52-55 | on an active context, calls `destroy` exactly once on every stored instance and on nothing else, then leaves the context inactive; on an inactive one throws `NullPointerException` and calls nothing |
| TestExecution.RepeatedGetScenario | src/main/java/rocks/limburg/cdimock/TestExecutionContext.java:39-41 | two requests for one contextual both answer the first created value, `create` runs twice, and deactivation destroys only the second instance |
| ExcludeClasses.ExcludeClassesExtension.constructor | src/main/java/rocks/limburg/cdimock/ExcludeClassesExtension.java:29-37 | the veto list is exactly the given classes, in order, and is a constant of the extension from then on |
| ExcludeClasses.ExcludeClassesExtension.Exclude | src/main/java/rocks/limburg/cdimock/ExcludeClassesExtension.java:31-33 | builds a new extension whose veto list is exactly the given classes, in order |
| ExcludeClasses.ExcludeClassesExtension.RemoveClasses | src/main/java/rocks/limburg/cdimock/ExcludeClassesExtension.java:39-43 | vetoes the event once iff its class is in the list, and not at all otherwise; the list is not modified |
| ExcludeClasses.SameClassScenario | src/main/java/rocks/limburg/cdimock/ExcludeClassesExtension.java:39-43 | two events for a listed class are each vetoed once, and an event for an unlisted class is not vetoed |

## Left out

- `CdiMocking.java` (the JUnit callbacks that fire CDI events) is not part of this model. It calls extension methods that the modelled `CdiMockExtension` does not have.
- `MockFactory`, bulk `@MockitoBeans` registration and exclusion by annotation are not in the modelled revision of the source.
- `addBeansAndScope` calls `addMockBeans` and then the empty `addTestMethodScope`, so `AddMockBeans` stands for both.
- The CDI container, the `BeanConfigurator` fluent API and reflection are replaced by plain data. Generic types are strings. Annotations are a set of type names, so their order and repetition on a field are not modelled, and neither are their member values: `@Named("a")` and `@Named("b")` both appear as the qualifier `javax.inject.Named`.
- The static `classContext` and `methodContext` fields are explicit parameters. The `NullPointerException` that occurs when they were never set is not modelled.
- CollectMockTypes: the shared `HashSet` accumulator is passed in and returned as a value rather than updated in place.
- RegisterMockBeans and Deactivate: the iteration order of the `HashSet` and of the `ConcurrentHashMap` is unspecified in Java. The model leaves it open with a nondeterministic choice.
- GetMock: static fields are treated like instance fields. Exceptions from `setAccessible` (access control) are not modelled, only the `IllegalArgumentException` that `field.get` throws for an instance of the wrong class.
- The contextual's `create` and `destroy` are assumed to return normally. A `destroy` that throws would stop `deactivate` and leave the context active. That path is not modelled.
- The contextual's `create` and `destroy` are also assumed not to call back into this context. In CDI they run the bean's constructor, `@PostConstruct` and `@PreDestroy`, and that code may resolve another `@TestExecutionScoped` bean. The model rules out two such cases. In the first, a `create` resolves another bean of this scope, which stores a second entry while `Create` is still running; `Create` then changes more than the one entry its contract names. In the second, a `destroy` creates a bean during `deactivate`; that entry is dropped with the map without being destroyed, and `Deactivate` then does not destroy every instance it drops.
- Concurrency: the thread safety of `ConcurrentHashMap` and the atomicity of get/create are not modelled; the model is sequential.
- `CdiContainer` and the other test classes are container bootstrapping. Only the assertions of `CdiMockExtensionTest` are modelled.
