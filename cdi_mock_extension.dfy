/** The CDI extension that discovers the mock fields of a test class and
    registers one alternative bean per mock field, whose instance is read off
    the current test instance when the container asks for it. Reflection is
    replaced by plain data: a class is its identity, an optional superclass and
    its declared fields; a field carries the names of its annotation types. */
module CdiMockExtension {
  import opened Wrappers
  import opened Java

  type AnnotationName = string

  const INJECT: AnnotationName := "javax.inject.Inject"
  const PRODUCES: AnnotationName := "javax.enterprise.inject.Produces"
  const CDI_MOCK: AnnotationName := "rocks.limburg.cdimock.CdiMock"
  /** Mockito's marker, recognised by name so that the library need not depend on it. */
  const MOCKITO_MOCK: AnnotationName := "org.mockito.Mock"

  /** A declared field. Two fields are equal only if their declaring classes
      are, so a field re-declared in a subclass is a different field. */
  datatype Field = Field(
    declaringClass: ClassRef,
    name: string,
    fieldType: ClassRef,
    genericType: string,
    annotations: set<AnnotationName>)

  datatype JavaClass = JavaClass(
    ref: ClassRef,
    superclass: Option<JavaClass>,
    declaredFields: seq<Field>)

  /** The current test instance: its run-time class and the non-default field
      values; a field that is not in the map holds `null`. */
  datatype TestInstance = TestInstance(runtimeClass: JavaClass, fieldValues: map<Field, Ref>)

  /** What `addBean()` is configured with: one type, the stereotype, the
      qualifiers, the alternative flag, and the field whose value
      `createWith` returns. */
  datatype BeanDescriptor = BeanDescriptor(
    beanType: string,
    stereotype: AnnotationName,
    qualifiers: set<AnnotationName>,
    alternative: bool,
    createWith: Field)

  // ---------------------------------------------------------------------
  // Discovery of mock fields
  // ---------------------------------------------------------------------

  /** The class and its superclasses, the most ancestral first. */
  function Chain(cls: Option<JavaClass>): (chain: seq<JavaClass>)
    ensures cls.None? <==> chain == []
    ensures cls.Some? ==> chain[|chain| - 1] == cls.value
    ensures chain != [] ==> chain[0].superclass.None?
    ensures forall i | 0 < i < |chain| :: chain[i].superclass == Some(chain[i - 1])
    decreases cls
  {
    match cls
    case None => []
    case Some(c) => Chain(c.superclass) + [c]
  }

  /** The field is declared by the class or by one of its superclasses. */
  ghost predicate DeclaredInChain(f: Field, cls: Option<JavaClass>) {
    exists a :: a in Chain(cls) && f in a.declaredFields
  }

  predicate HasMockAnnotation(f: Field)
    ensures HasMockAnnotation(f) <==> CDI_MOCK in f.annotations || MOCKITO_MOCK in f.annotations
  {
    CDI_MOCK in f.annotations || exists name | name in f.annotations :: name == MOCKITO_MOCK
  }

  /** The three filters applied to each declared field. */
  predicate IsMockField(f: Field) {
    INJECT !in f.annotations && PRODUCES !in f.annotations && HasMockAnnotation(f)
  }

  /** The declared fields that pass the filters, in declaration order. */
  function MockFieldsDeclared(fields: seq<Field>): (r: seq<Field>)
    ensures forall f :: f in r <==> f in fields && IsMockField(f)
  {
    if fields == [] then []
    else
      var init := fields[..|fields| - 1];
      var last := fields[|fields| - 1];
      assert fields == init + [last];
      if IsMockField(last) then MockFieldsDeclared(init) + [last] else MockFieldsDeclared(init)
  }

  /** The mock fields of the class, in the order the walk adds them. */
  function MockFields(cls: Option<JavaClass>): (r: seq<Field>)
    decreases cls
  {
    match cls
    case None => []
    case Some(c) => MockFields(c.superclass) + MockFieldsDeclared(c.declaredFields)
  }

  function Elements(s: seq<Field>): (r: set<Field>)
    ensures forall f :: f in r <==> f in s
  {
    set f | f in s
  }

  /** The `HashSet` the walk fills. */
  function MockFieldSet(cls: Option<JavaClass>): (r: set<Field>) {
    Elements(MockFields(cls))
  }

  /** A field is collected iff some class of the chain declares it, it is
      neither injected nor produced, and it carries a mock annotation. */
  lemma {:induction false} CollectedIff(cls: Option<JavaClass>, f: Field)
    ensures f in MockFields(cls) <==> DeclaredInChain(f, cls) && IsMockField(f)
    decreases cls
  {
    match cls
    case None =>
    case Some(c) =>
      CollectedIff(c.superclass, f);
      assert Chain(cls) == Chain(c.superclass) + [c];
      if DeclaredInChain(f, c.superclass) {
        var a :| a in Chain(c.superclass) && f in a.declaredFields;
        assert a in Chain(cls);
      }
      if f in c.declaredFields {
        assert c in Chain(cls);
      }
      if DeclaredInChain(f, cls) {
        var a :| a in Chain(cls) && f in a.declaredFields;
        assert a == c || a in Chain(c.superclass);
      }
  }

  /** What a superclass contributes is added before anything its subclasses
      contribute: the fields collected from an ancestor form a prefix of the
      fields collected from the descendant. */
  lemma {:induction false} AncestorFieldsFirst(cls: Option<JavaClass>, a: JavaClass)
    requires a in Chain(cls)
    ensures MockFields(Some(a)) <= MockFields(cls)
    decreases cls
  {
    match cls
    case Some(c) =>
      if a != c {
        assert a in Chain(c.superclass);
        AncestorFieldsFirst(c.superclass, a);
        var p, q := MockFields(Some(a)), MockFields(c.superclass);
        assert MockFields(cls) == q + MockFieldsDeclared(c.declaredFields);
        assert (q + MockFieldsDeclared(c.declaredFields))[..|p|] == q[..|p|];
      }
  }

  // ---------------------------------------------------------------------
  // Hierarchies Java can produce
  // ---------------------------------------------------------------------

  /** What `getDeclaredFields()` guarantees of one class: each field it
      returns names the class as its declaring class, and no two share a
      name. */
  ghost predicate DeclaresOwnFields(c: JavaClass) {
    && (forall f | f in c.declaredFields :: f.declaringClass == c.ref)
    && (forall i, j | 0 <= i < j < |c.declaredFields| :: c.declaredFields[i].name != c.declaredFields[j].name)
  }

  /** The identities of the class and its superclasses. */
  function ChainRefs(cls: Option<JavaClass>): (refs: set<ClassRef>)
    ensures forall a | a in Chain(cls) :: a.ref in refs
  {
    set a | a in Chain(cls) :: a.ref
  }

  /** A hierarchy Java can produce: every class declares its own fields and
      no class of the chain is its own ancestor. */
  ghost predicate WellFormed(cls: Option<JavaClass>)
    decreases cls
  {
    match cls
    case None => true
    case Some(c) => DeclaresOwnFields(c) && WellFormed(c.superclass) && c.ref !in ChainRefs(c.superclass)
  }

  predicate Distinct(s: seq<Field>) {
    forall i, j | 0 <= i < j < |s| :: s[i] != s[j]
  }

  lemma DistinctConcat(s: seq<Field>, t: seq<Field>)
    requires Distinct(s) && Distinct(t)
    requires forall f | f in s :: f !in t
    ensures Distinct(s + t)
  {
    forall i, j | 0 <= i < j < |s + t|
      ensures (s + t)[i] != (s + t)[j]
    {
      if i < |s| && |s| <= j {
        assert (s + t)[i] in s && (s + t)[j] == t[j - |s|];
      }
    }
  }

  /** A sequence without repetitions has as many elements as its set. */
  lemma {:induction false} DistinctElements(s: seq<Field>)
    requires Distinct(s)
    ensures |Elements(s)| == |s|
  {
    if s != [] {
      var init, last := s[..|s| - 1], s[|s| - 1];
      assert s == init + [last];
      DistinctElements(init);
      ElementsAppend(init, last);
      assert forall k | 0 <= k < |init| :: init[k] == s[k] != last;
    }
  }

  lemma {:induction false} MockFieldsDeclaredDistinct(fields: seq<Field>)
    requires forall i, j | 0 <= i < j < |fields| :: fields[i].name != fields[j].name
    ensures Distinct(MockFieldsDeclared(fields))
  {
    if fields != [] {
      var init, last := fields[..|fields| - 1], fields[|fields| - 1];
      assert fields == init + [last];
      MockFieldsDeclaredDistinct(init);
      assert forall k | 0 <= k < |init| :: init[k].name == fields[k].name != last.name;
      if IsMockField(last) {
        DistinctConcat(MockFieldsDeclared(init), [last]);
      }
    }
  }

  /** In a hierarchy Java can produce the walk never meets a field twice,
      and every field it collects is declared by a class of the chain. */
  lemma {:induction false} DistinctMockFields(cls: Option<JavaClass>)
    requires WellFormed(cls)
    ensures Distinct(MockFields(cls))
    ensures forall f | f in MockFields(cls) :: f.declaringClass in ChainRefs(cls)
    decreases cls
  {
    match cls
    case None =>
    case Some(c) =>
      DistinctMockFields(c.superclass);
      MockFieldsDeclaredDistinct(c.declaredFields);
      var inherited, own := MockFields(c.superclass), MockFieldsDeclared(c.declaredFields);
      assert forall f | f in own :: f.declaringClass == c.ref;
      DistinctConcat(inherited, own);
      assert Chain(cls) == Chain(c.superclass) + [c];
      assert ChainRefs(cls) == ChainRefs(c.superclass) + {c.ref};
  }

  /** Fields declared by different classes of the chain stay distinct, so
      the `HashSet` holds one entry per collected field and the extension
      registers one bean per declared mock field. */
  lemma OneEntryPerMockField(cls: Option<JavaClass>)
    requires WellFormed(cls)
    ensures |MockFieldSet(cls)| == |MockFields(cls)|
  {
    DistinctMockFields(cls);
    DistinctElements(MockFields(cls));
  }

  lemma MockFieldsDeclaredStep(fields: seq<Field>, i: nat)
    requires i < |fields|
    ensures MockFieldsDeclared(fields[..i + 1])
      == MockFieldsDeclared(fields[..i]) + if IsMockField(fields[i]) then [fields[i]] else []
  {
    assert fields[..i + 1][..i] == fields[..i];
  }

  lemma ElementsAppend(s: seq<Field>, f: Field)
    ensures Elements(s + [f]) == Elements(s) + {f}
  {
  }

  /** Walks the class and its superclasses, superclass first, adding every
      mock field to the accumulator. `added` records the calls to `add`. */
  method CollectMockTypes(cls: Option<JavaClass>, mockTypes: set<Field>)
    returns (result: set<Field>, ghost added: seq<Field>)
    ensures cls.None? ==> result == mockTypes
    ensures mockTypes <= result
    ensures added == MockFields(cls)
    ensures result == mockTypes + Elements(added)
    ensures forall f :: f in result <==> f in mockTypes || (DeclaredInChain(f, cls) && IsMockField(f))
    decreases cls
  {
    if cls.None? {
      return mockTypes, [];
    }
    var c := cls.value;
    result, added := CollectMockTypes(c.superclass, mockTypes);
    var i := 0;
    while i < |c.declaredFields|
      invariant 0 <= i <= |c.declaredFields|
      invariant added == MockFields(c.superclass) + MockFieldsDeclared(c.declaredFields[..i])
      invariant result == mockTypes + Elements(added)
    {
      var f := c.declaredFields[i];
      MockFieldsDeclaredStep(c.declaredFields, i);
      if IsMockField(f) {
        ElementsAppend(added, f);
        result := result + {f};
        added := added + [f];
      }
      i := i + 1;
    }
    assert c.declaredFields[..i] == c.declaredFields;
    forall f | true
      ensures f in result <==> f in mockTypes || (DeclaredInChain(f, cls) && IsMockField(f))
    {
      CollectedIff(cls, f);
    }
  }

  // ---------------------------------------------------------------------
  // Bean synthesis
  // ---------------------------------------------------------------------

  /** The configuration of one `addBean()` call for a mock field: the
      field's generic type, the CdiMock stereotype, exactly the annotations
      the bean manager calls qualifiers, alternative, and created from `f`. */
  function MockBean(f: Field, isQualifier: AnnotationName -> bool): (b: BeanDescriptor)
    ensures b.beanType == f.genericType
    ensures b.stereotype == CDI_MOCK
    ensures forall a :: a in b.qualifiers <==> a in f.annotations && isQualifier(a)
    ensures b.alternative
    ensures b.createWith == f
  {
    BeanDescriptor(f.genericType, CDI_MOCK, set a | a in f.annotations && isQualifier(a), true, f)
  }

  /** The fields the beans are created from. */
  function CreatedFrom(beans: seq<BeanDescriptor>): (fields: set<Field>)
    ensures forall i | 0 <= i < |beans| :: beans[i].createWith in fields
  {
    if beans == [] then {}
    else CreatedFrom(beans[..|beans| - 1]) + {beans[|beans| - 1].createWith}
  }

  lemma CreatedFromAppend(beans: seq<BeanDescriptor>, b: BeanDescriptor)
    ensures CreatedFrom(beans + [b]) == CreatedFrom(beans) + {b.createWith}
  {
    assert (beans + [b])[..|beans|] == beans;
  }

  /** `CreatedFrom` holds nothing but the fields the beans are created from. */
  lemma {:induction false} CreatedFromOnly(beans: seq<BeanDescriptor>, f: Field)
    requires f in CreatedFrom(beans)
    ensures exists i | 0 <= i < |beans| :: beans[i].createWith == f
  {
    var last := beans[|beans| - 1];
    if f != last.createWith {
      CreatedFromOnly(beans[..|beans| - 1], f);
      var i :| 0 <= i < |beans| - 1 && beans[..|beans| - 1][i].createWith == f;
      assert beans[i].createWith == f;
    } else {
      assert beans[|beans| - 1].createWith == f;
    }
  }

  /** The `forEach` over the collected fields: one `addBean()` per field, in
      the set's iteration order, which the model leaves unspecified. */
  method RegisterMockBeans(mockTypes: set<Field>, isQualifier: AnnotationName -> bool)
    returns (beans: seq<BeanDescriptor>)
    ensures |beans| == |mockTypes|
    ensures CreatedFrom(beans) == mockTypes
    ensures forall i, j | 0 <= i < j < |beans| :: beans[i].createWith != beans[j].createWith
    ensures forall i | 0 <= i < |beans| :: beans[i] == MockBean(beans[i].createWith, isQualifier)
  {
    beans := [];
    var remaining := mockTypes;
    while remaining != {}
      invariant remaining <= mockTypes
      invariant |beans| + |remaining| == |mockTypes|
      invariant CreatedFrom(beans) == mockTypes - remaining
      invariant forall i, j | 0 <= i < j < |beans| :: beans[i].createWith != beans[j].createWith
      invariant forall i | 0 <= i < |beans| :: beans[i] == MockBean(beans[i].createWith, isQualifier)
      decreases remaining
    {
      var f :| f in remaining;
      var b := MockBean(f, isQualifier);
      CreatedFromAppend(beans, b);
      beans := beans + [b];
      remaining := remaining - {f};
    }
  }

  /** Registers one bean per mock field of the test class, and none when the
      class context has no test class. The registered descriptors are
      returned in registration order. */
  method AddMockBeans(testClass: Option<JavaClass>, isQualifier: AnnotationName -> bool)
    returns (beans: seq<BeanDescriptor>)
    ensures testClass.None? ==> beans == []
    ensures |beans| == |MockFieldSet(testClass)|
    ensures CreatedFrom(beans) == MockFieldSet(testClass)
    ensures forall i, j | 0 <= i < j < |beans| :: beans[i].createWith != beans[j].createWith
    ensures forall i | 0 <= i < |beans| :: beans[i] == MockBean(beans[i].createWith, isQualifier)
    ensures WellFormed(testClass) ==> |beans| == |MockFields(testClass)|
  {
    var mockTypes: set<Field> := {};
    if testClass.Some? {
      ghost var added;
      mockTypes, added := CollectMockTypes(testClass, mockTypes);
    }
    assert mockTypes == MockFieldSet(testClass);
    beans := RegisterMockBeans(mockTypes, isQualifier);
    if WellFormed(testClass) {
      OneEntryPerMockField(testClass);
    }
  }

  // ---------------------------------------------------------------------
  // Reading a mock off the current test instance
  // ---------------------------------------------------------------------

  /** `instance` is an instance of `cls` or of one of its subclasses. */
  predicate IsInstanceOf(instance: TestInstance, cls: ClassRef) {
    exists a | a in Chain(Some(instance.runtimeClass)) :: a.ref == cls
  }

  /** The value of `f` on `instance`; a field without an entry holds `null`. */
  function FieldValue(instance: TestInstance, f: Field): (v: Ref)
    ensures f !in instance.fieldValues ==> v == Null
    ensures f in instance.fieldValues ==> v == instance.fieldValues[f]
  {
    if f in instance.fieldValues then instance.fieldValues[f] else Null
  }

  /** `field.get(instance)`, which rejects an instance of the wrong class;
      the exception is rethrown as it is. */
  function GetValue(instance: TestInstance, f: Field): (r: Result<Ref, JavaException>)
    ensures r.Success? <==> IsInstanceOf(instance, f.declaringClass)
    ensures r.Success? ==> r.value == FieldValue(instance, f)
    ensures r.Failure? ==> r.error == IllegalArgumentException
  {
    if IsInstanceOf(instance, f.declaringClass) then Success(FieldValue(instance, f))
    else Failure(IllegalArgumentException)
  }

  function NoMockPrefix(f: Field): (s: string) {
    "No mock configured for field " + f.name + " in class " + f.declaringClass.simpleName
  }

  function NoMockAdvice(f: Field): (s: string) {
    ". Please set an instance to that field, i.e. with '"
    + f.fieldType.simpleName + " " + f.name
    + " = Mockito.mock(" + f.fieldType.simpleName + ".class) or with an instance implemented by yourself."
  }

  /** The message of the exception for a mock field without a value. */
  function NoMockMessage(f: Field): (message: string)
    ensures NoMockPrefix(f) <= message
  {
    NoMockPrefix(f) + NoMockAdvice(f)
  }

  /** A field collected from a class of a hierarchy Java can produce can be
      read on every instance of that class: `field.get` does not reject it. */
  lemma CollectedFieldReadable(c: JavaClass, f: Field, values: map<Field, Ref>)
    requires WellFormed(Some(c)) && f in MockFields(Some(c))
    ensures GetValue(TestInstance(c, values), f) == Success(FieldValue(TestInstance(c, values), f))
    ensures GetMock(f, Some(TestInstance(c, values))) != Failure(IllegalArgumentException)
  {
    DistinctMockFields(Some(c));
    var a :| a in Chain(Some(c)) && a.ref == f.declaringClass;
    assert IsInstanceOf(TestInstance(c, values), f.declaringClass);
  }

  /** The instance a mock bean is created with: the value of its field on
      the current test instance. */
  function GetMock(f: Field, testInstance: Option<TestInstance>): (r: Result<Ref, JavaException>)
    ensures r.Success? <==>
      testInstance.Some? && IsInstanceOf(testInstance.value, f.declaringClass)
      && FieldValue(testInstance.value, f) != Null
    ensures r.Success? ==> r.value == FieldValue(testInstance.value, f)
    ensures r.Failure? && r.error.IllegalArgumentException? <==>
      testInstance.Some? && !IsInstanceOf(testInstance.value, f.declaringClass)
    ensures r.Failure? && !r.error.IllegalArgumentException? ==>
      r.error == IllegalStateException(NoMockMessage(f))
  {
    match testInstance
    case None => Failure(IllegalStateException(NoMockMessage(f)))
    case Some(instance) =>
      match GetValue(instance, f)
      case Failure(e) => Failure(e)
      case Success(v) => if v == Null then Failure(IllegalStateException(NoMockMessage(f))) else Success(v)
  }

  /** The `createWith` callback of a registered bean. It ignores the
      creational context it is given and reads the bean's field. */
  function CreateMock(b: BeanDescriptor, testInstance: Option<TestInstance>): (r: Result<Ref, JavaException>)
    ensures r.Success? <==>
      testInstance.Some? && IsInstanceOf(testInstance.value, b.createWith.declaringClass)
      && FieldValue(testInstance.value, b.createWith) != Null
    ensures r.Success? ==> r.value == FieldValue(testInstance.value, b.createWith)
    ensures r.Failure? && r.error.IllegalArgumentException? <==>
      testInstance.Some? && !IsInstanceOf(testInstance.value, b.createWith.declaringClass)
    ensures r.Failure? && !r.error.IllegalArgumentException? ==>
      r.error == IllegalStateException(NoMockMessage(b.createWith))
  {
    GetMock(b.createWith, testInstance)
  }

  // ---------------------------------------------------------------------
  // The fixture of the extension's unit test
  // ---------------------------------------------------------------------

  const OBJECT: JavaClass := JavaClass(ClassRef("java.lang.Object", "Object"), None, [])
  const CONFIGURATION: ClassRef := ClassRef("rocks.limburg.cdimock.Configuration", "Configuration")
  const TEST_CLASS_REF: ClassRef := ClassRef("rocks.limburg.cdimock.CdiMockExtensionTest", "CdiMockExtensionTest")
  const INJECTED_FIELD: Field := Field(TEST_CLASS_REF, "injectedField", CONFIGURATION, CONFIGURATION.name, {INJECT})
  const PRODUCED_FIELD: Field := Field(TEST_CLASS_REF, "producedField", CONFIGURATION, CONFIGURATION.name, {PRODUCES})
  const UNSET_MOCK: Field := Field(TEST_CLASS_REF, "unsetMock", CONFIGURATION, CONFIGURATION.name, {CDI_MOCK})
  /** A field of the fixture that carries no annotation. */
  function PlainField(name: string, fieldType: ClassRef, genericType: string): (f: Field)
    ensures f.declaringClass == TEST_CLASS_REF && f.name == name && f.annotations == {}
  {
    Field(TEST_CLASS_REF, name, fieldType, genericType, {})
  }

  const EXTENSION_CONTEXT: ClassRef := ClassRef("org.junit.jupiter.api.extension.ExtensionContext", "ExtensionContext")
  const CDI_SPI_PACKAGE: string := "javax.enterprise.inject.spi."
  const PLAIN_FIELDS: seq<Field> := [
    PlainField("extension", ClassRef("rocks.limburg.cdimock.CdiMockExtension", "CdiMockExtension"), "rocks.limburg.cdimock.CdiMockExtension"),
    PlainField("classContext", EXTENSION_CONTEXT, EXTENSION_CONTEXT.name),
    PlainField("methodContext", EXTENSION_CONTEXT, EXTENSION_CONTEXT.name),
    PlainField("event", ClassRef(CDI_SPI_PACKAGE + "AfterBeanDiscovery", "AfterBeanDiscovery"), CDI_SPI_PACKAGE + "AfterBeanDiscovery"),
    PlainField("configurer", ClassRef(CDI_SPI_PACKAGE + "configurator.BeanConfigurator", "BeanConfigurator"),
      CDI_SPI_PACKAGE + "configurator.BeanConfigurator<java.lang.Object>"),
    PlainField("creationalContext", ClassRef("javax.enterprise.context.spi.CreationalContext", "CreationalContext"),
      "javax.enterprise.context.spi.CreationalContext<java.lang.Object>"),
    PlainField("creator", ClassRef("org.mockito.ArgumentCaptor", "ArgumentCaptor"),
      "org.mockito.ArgumentCaptor<java.util.function.Function<javax.enterprise.context.spi.CreationalContext<java.lang.Object>, java.lang.Object>>")]

  /** The unit test's class: seven fields without annotations, then the
      injected, the produced and the `@CdiMock` field. */
  const TEST_CLASS: JavaClass := JavaClass(TEST_CLASS_REF, Some(OBJECT),
    PLAIN_FIELDS + [INJECTED_FIELD, PRODUCED_FIELD, UNSET_MOCK])

  /** Of the fixture's fields only the `@CdiMock` one is collected: the
      fields without annotations, the injected and the produced field are
      skipped. */
  lemma FixtureMockFields()
    ensures MockFieldSet(Some(TEST_CLASS)) == {UNSET_MOCK}
  {
    var fields := TEST_CLASS.declaredFields;
    var skipped := PLAIN_FIELDS + [INJECTED_FIELD, PRODUCED_FIELD];
    assert MockFieldsDeclared(fields) == [UNSET_MOCK] by {
      assert forall f | f in skipped :: !IsMockField(f);
      NoMockFieldsDeclared(skipped);
      assert fields[..|fields| - 1] == skipped;
      assert IsMockField(UNSET_MOCK);
    }
    assert MockFields(Some(OBJECT)) == [];
    assert MockFields(Some(TEST_CLASS)) == [UNSET_MOCK];
    assert MockFieldSet(Some(TEST_CLASS)) == {UNSET_MOCK};
  }

  /** The fixture is a hierarchy Java can produce. */
  lemma FixtureWellFormed()
    ensures WellFormed(Some(TEST_CLASS))
  {
    var fields := TEST_CLASS.declaredFields;
    assert forall i | 0 <= i < |fields| :: fields[i].declaringClass == TEST_CLASS_REF;
    assert Chain(Some(OBJECT)) == [OBJECT];
    assert ChainRefs(Some(OBJECT)) == {OBJECT.ref};
    assert |OBJECT.ref.simpleName| != |TEST_CLASS_REF.simpleName|;
  }

  lemma {:induction false} NoMockFieldsDeclared(fields: seq<Field>)
    requires forall f | f in fields :: !IsMockField(f)
    ensures MockFieldsDeclared(fields) == []
  {
    if fields != [] {
      var init := fields[..|fields| - 1];
      assert fields == init + [fields[|fields| - 1]];
      NoMockFieldsDeclared(init);
    }
  }

  /** The test `unsetMock`: with the test itself as test instance, whose
      field holds `null`, creating the mock fails with the "no mock
      configured" message. */
  lemma UnsetMockFails()
    ensures var r := GetMock(UNSET_MOCK, Some(TestInstance(TEST_CLASS, map[])));
      r.Failure? && r.error.IllegalStateException?
      && "No mock configured for field unsetMock" <= r.error.message
  {
    var instance := TestInstance(TEST_CLASS, map[]);
    assert TEST_CLASS in Chain(Some(TEST_CLASS));
    assert IsInstanceOf(instance, UNSET_MOCK.declaringClass);
    var message := NoMockMessage(UNSET_MOCK);
    assert GetMock(UNSET_MOCK, Some(instance)) == Failure(IllegalStateException(message));
    var head := "No mock configured for field unsetMock";
    var prefix := NoMockPrefix(UNSET_MOCK);
    assert prefix == head + " in class " + "CdiMockExtensionTest";
    assert prefix <= message;
    assert message[..|head|] == prefix[..|head|] == head;
  }

  /** The test `instanceOfWrongType`: with a plain `Object` as test
      instance, creating the mock fails with `IllegalArgumentException`. */
  lemma WrongTypeFails()
    ensures GetMock(UNSET_MOCK, Some(TestInstance(OBJECT, map[]))) == Failure(IllegalArgumentException)
  {
    assert Chain(Some(OBJECT)) == [OBJECT];
    assert |OBJECT.ref.simpleName| != |UNSET_MOCK.declaringClass.simpleName|;
    assert !IsInstanceOf(TestInstance(OBJECT, map[]), UNSET_MOCK.declaringClass);
  }

  /** Only the unset `@CdiMock` field of the fixture becomes a bean, and
      that bean is created from it. */
  method UnsetMockScenario(isQualifier: AnnotationName -> bool)
    returns (beans: seq<BeanDescriptor>, unset: Result<Ref, JavaException>, wrongType: Result<Ref, JavaException>)
    ensures |beans| == 1 && beans[0].createWith == UNSET_MOCK
    ensures unset.Failure? && unset.error.IllegalStateException?
    ensures "No mock configured for field unsetMock" <= unset.error.message
    ensures wrongType == Failure(IllegalArgumentException)
  {
    FixtureMockFields();
    beans := AddMockBeans(Some(TEST_CLASS), isQualifier);
    assert beans[0].createWith in CreatedFrom(beans);
    unset := CreateMock(beans[0], Some(TestInstance(TEST_CLASS, map[])));
    UnsetMockFails();
    wrongType := CreateMock(beans[0], Some(TestInstance(OBJECT, map[])));
    WrongTypeFails();
  }
}
