/** The CDI extension that vetoes a fixed list of classes while the container
    processes the annotated types it discovers. */
module ExcludeClasses {
  import opened Java

  /** The `ProcessAnnotatedType` event of one discovered type; `vetoCount`
      counts the calls of `veto()` made on it. */
  class ProcessAnnotatedType {
    const javaClass: ClassRef
    var vetoCount: nat

    constructor (javaClass: ClassRef)
      ensures this.javaClass == javaClass && vetoCount == 0
    {
      this.javaClass := javaClass;
      vetoCount := 0;
    }

    method Veto()
      modifies this
      ensures vetoCount == old(vetoCount) + 1
    {
      vetoCount := vetoCount + 1;
    }
  }

  class ExcludeClassesExtension {
    const classesToVeto: seq<ClassRef>

    constructor (classesToExclude: seq<ClassRef>)
      ensures classesToVeto == classesToExclude
    {
      classesToVeto := classesToExclude;
    }

    /** The factory that test code passes to the container. */
    static method Exclude(classesToExclude: seq<ClassRef>) returns (e: ExcludeClassesExtension)
      ensures fresh(e) && e.classesToVeto == classesToExclude
    {
      e := new ExcludeClassesExtension(classesToExclude);
    }

    /** Vetoes the event, once, iff its class is in the list; the list
        itself is left as it is. */
    method RemoveClasses(event: ProcessAnnotatedType)
      modifies event
      ensures event.vetoCount == old(event.vetoCount) + if event.javaClass in classesToVeto then 1 else 0
    {
      if event.javaClass in classesToVeto {
        event.Veto();
      }
    }
  }

  /** Two events for the same class are decided alike, and a class absent
      from the list is never vetoed. */
  method SameClassScenario(excluded: ClassRef, kept: ClassRef)
    returns (first: nat, second: nat, other: nat)
    requires excluded != kept
    ensures first == 1 && second == 1 && other == 0
  {
    var extension := ExcludeClassesExtension.Exclude([excluded]);
    var e1 := new ProcessAnnotatedType(excluded);
    var e2 := new ProcessAnnotatedType(excluded);
    var e3 := new ProcessAnnotatedType(kept);
    extension.RemoveClasses(e1);
    extension.RemoveClasses(e2);
    extension.RemoveClasses(e3);
    first, second, other := e1.vetoCount, e2.vetoCount, e3.vetoCount;
  }
}
