/** The custom CDI context of the `@TestExecutionScoped` scope: inactive, or
    active with a map from each contextual (a bean) to the instance created
    for it. The contextual's own `create` and `destroy` are code this model
    does not see: the value `create` returns is a parameter of the methods that
    call it, and every call is appended to the ghost log `calls`. */
module TestExecution {
  import opened Wrappers
  import opened Java

  const TEST_EXECUTION_SCOPED: string := "rocks.limburg.cdimock.TestExecutionScoped"

  /** The identity of a bean, the key of the instance map. */
  datatype Contextual = Contextual(beanId: nat)

  datatype CreationalContext = CreationalContext(id: nat)

  /** A created instance together with what is needed to destroy it. */
  datatype Instance = Instance(contextual: Contextual, creationalContext: CreationalContext, value: Ref)

  /** A call made on a contextual. */
  datatype ContextualCall =
    | CreateCall(contextual: Contextual, creationalContext: CreationalContext, created: Ref)
    | DestroyCall(contextual: Contextual, instance: Ref, creationalContext: CreationalContext)

  /** The call `Instance.destroy` makes for `inst`. */
  function DestroyCallFor(inst: Instance): (call: ContextualCall)
    ensures call.DestroyCall? && call.contextual == inst.contextual
  {
    DestroyCall(inst.contextual, inst.value, inst.creationalContext)
  }

  /** The number of destroy calls in `log` made on contextual `c`. */
  function DestroyCount(log: seq<ContextualCall>, c: Contextual): (n: nat)
    ensures n <= |log|
  {
    if log == [] then 0
    else
      var last := log[|log| - 1];
      DestroyCount(log[..|log| - 1], c) + if last.DestroyCall? && last.contextual == c then 1 else 0
  }

  lemma DestroyCountAppend(log: seq<ContextualCall>, x: ContextualCall)
    ensures forall c ::
      DestroyCount(log + [x], c) == DestroyCount(log, c) + (if x.DestroyCall? && x.contextual == c then 1 else 0)
  {
    assert (log + [x])[..|log|] == log;
  }

  /** `log` consists of destroy calls on the instances of `m` and destroys
      each of them exactly once. */
  ghost predicate DestroysEachOnce(log: seq<ContextualCall>, m: map<Contextual, Instance>) {
    && (forall i | 0 <= i < |log| :: log[i].contextual in m && log[i] == DestroyCallFor(m[log[i].contextual]))
    && (forall c | c in m :: DestroyCount(log, c) == 1)
  }

  class TestExecutionContext {
    /** `None` stands for the `null` map of an inactive context. */
    var instances: Option<map<Contextual, Instance>>
    ghost var calls: seq<ContextualCall>

    /** Every stored instance is stored under its own contextual and was
        returned by a logged call of that contextual's `create`. */
    ghost predicate Valid()
      reads this
    {
      instances.Some? ==>
        forall c | c in instances.value ::
          && instances.value[c].contextual == c
          && CreateCall(c, instances.value[c].creationalContext, instances.value[c].value) in calls
    }

    /** The context is active exactly while the map is present. */
    function IsActive(): (active: bool)
      reads this
      ensures active <==> instances != None
    {
      instances.Some?
    }

    constructor ()
      ensures Valid() && !IsActive() && calls == []
    {
      instances := None;
      calls := [];
    }

    function GetScope(): (scope: string)
      ensures scope == TEST_EXECUTION_SCOPED
    {
      TEST_EXECUTION_SCOPED
    }

    /** The stored entry for `c`; there is none in an inactive context. */
    function GetInstance(c: Contextual): (o: Option<Instance>)
      reads this
      ensures o.Some? <==> IsActive() && c in instances.value
      ensures o.Some? ==> o.value == instances.value[c]
    {
      match instances
      case None => None
      case Some(m) => if c in m then Some(m[c]) else None
    }

    /** The one-argument `get`: the value stored for `c`, or `null`. It never
        creates anything. */
    function Get(c: Contextual): (v: Ref)
      reads this
      ensures !IsActive() ==> v == Null
      ensures IsActive() && c in instances.value ==> v == instances.value[c].value
      ensures IsActive() && c !in instances.value ==> v == Null
    {
      match GetInstance(c)
      case None => Null
      case Some(inst) => inst.value
    }

    method Activate()
      modifies this`instances
      ensures Valid() && IsActive() && instances.value == map[]
      ensures forall c :: Get(c) == Null
    {
      instances := Some(map[]);
    }

    /** The constructor of the nested `Instance` class: it calls
        `contextual.create`, which returns `created`. */
    method NewInstance(c: Contextual, cc: CreationalContext, created: Ref) returns (inst: Instance)
      modifies this`calls
      ensures inst == Instance(c, cc, created)
      ensures calls == old(calls) + [CreateCall(c, cc, created)]
    {
      inst := Instance(c, cc, created);
      calls := calls + [CreateCall(c, cc, created)];
    }

    /** `Instance.destroy`: calls `contextual.destroy` with the value and its
        creational context. */
    method DestroyInstance(inst: Instance)
      modifies this`calls
      ensures calls == old(calls) + [DestroyCallFor(inst)]
    {
      calls := calls + [DestroyCallFor(inst)];
    }

    /** Creates an instance and stores it under `c`, replacing any earlier
        entry. Inactive, `create` runs and then the `put` on the null map
        throws. */
    method Create(c: Contextual, cc: CreationalContext, created: Ref) returns (r: Result<Ref, JavaException>)
      requires Valid()
      modifies this
      ensures Valid()
      ensures calls == old(calls) + [CreateCall(c, cc, created)]
      ensures !old(IsActive()) ==> r == Failure(NullPointerException) && !IsActive()
      ensures old(IsActive()) ==>
        && r == Success(created)
        && instances == Some(old(instances.value)[c := Instance(c, cc, created)])
        && Get(c) == created
        && forall d | d != c :: Get(d) == old(Get(d))
    {
      var inst := NewInstance(c, cc, created);
      if instances.None? {
        return Failure(NullPointerException);
      }
      instances := Some(instances.value[c := inst]);
      r := Success(inst.value);
    }

    /** The two-argument `get`. The `orElse` argument is evaluated before
        `orElse` runs, so `create` is called and its result stored on every
        call; the value returned is the one stored before, if there was a
        non-null one. */
    method GetWithCreationalContext(c: Contextual, cc: CreationalContext, created: Ref)
      returns (r: Result<Ref, JavaException>)
      requires Valid()
      modifies this
      ensures Valid()
      ensures calls == old(calls) + [CreateCall(c, cc, created)]
      ensures !old(IsActive()) ==> r == Failure(NullPointerException) && !IsActive()
      ensures old(IsActive()) ==>
        && r == Success(if old(Get(c)) != Null then old(Get(c)) else created)
        && instances == Some(old(instances.value)[c := Instance(c, cc, created)])
        && Get(c) == created
        && forall d | d != c :: Get(d) == old(Get(d))
    {
      var stored := GetInstance(c);
      var previous := if stored.Some? && stored.value.value != Null then Some(stored.value.value) else None;
      var made := Create(c, cc, created);
      match made
      case Failure(e) =>
        r := Failure(e);
      case Success(v) =>
        r := if previous.Some? then Success(previous.value) else Success(v);
    }

    /** Destroys every stored instance, in the map's unspecified iteration
        order, and makes the context inactive. Inactive, reading the null map
        throws and nothing happens. */
    method Deactivate() returns (r: Outcome<JavaException>)
      requires Valid()
      modifies this
      ensures Valid() && !IsActive()
      ensures !old(IsActive()) ==> r == Fail(NullPointerException) && calls == old(calls)
      ensures old(IsActive()) ==>
        && r == Pass
        && |old(calls)| <= |calls|
        && calls[..|old(calls)|] == old(calls)
        && DestroysEachOnce(calls[|old(calls)|..], old(instances.value))
    {
      if instances.None? {
        return Fail(NullPointerException);
      }
      var m := instances.value;
      var remaining := m.Keys;
      ghost var destroyed: seq<ContextualCall> := [];
      while remaining != {}
        invariant remaining <= m.Keys
        invariant instances == Some(m) && Valid()
        invariant calls == old(calls) + destroyed
        invariant forall i | 0 <= i < |destroyed| ::
          destroyed[i].contextual in m.Keys - remaining && destroyed[i] == DestroyCallFor(m[destroyed[i].contextual])
        invariant forall c | c in m :: DestroyCount(destroyed, c) == if c in remaining then 0 else 1
        decreases remaining
      {
        var c :| c in remaining;
        DestroyInstance(m[c]);
        DestroyCountAppend(destroyed, DestroyCallFor(m[c]));
        destroyed := destroyed + [DestroyCallFor(m[c])];
        remaining := remaining - {c};
      }
      assert calls[|old(calls)|..] == destroyed;
      instances := None;
      r := Pass;
    }
  }

  /** Two requests for the same bean within one activation, whose
      `create` returns `first` and then `second`. Both requests answer
      `first`, the map ends up holding `second`, and on deactivation only
      `second` is destroyed: the instance `first` is never destroyed. */
  method RepeatedGetScenario(c: Contextual, cc: CreationalContext, first: Ref, second: Ref)
    returns (r1: Result<Ref, JavaException>, r2: Result<Ref, JavaException>, ghost log: seq<ContextualCall>)
    requires first != Null && first != second
    ensures r1 == Success(first) && r2 == Success(first)
    ensures |log| >= 2 && log[..2] == [CreateCall(c, cc, first), CreateCall(c, cc, second)]
    ensures log[2..] == [DestroyCall(c, second, cc)]
  {
    var context := new TestExecutionContext();
    context.Activate();
    r1 := context.GetWithCreationalContext(c, cc, first);
    assert context.Get(c) == first;
    r2 := context.GetWithCreationalContext(c, cc, second);
    assert context.Get(c) == second;
    assert context.calls == [CreateCall(c, cc, first), CreateCall(c, cc, second)];
    var m := context.instances.value;
    assert m == map[c := Instance(c, cc, second)];
    var done := context.Deactivate();
    log := context.calls;
    ghost var destroyed := log[2..];
    assert DestroyCount(destroyed, c) == 1;
    assert forall i | 0 <= i < |destroyed| :: destroyed[i] == DestroyCall(c, second, cc);
    DestroyCountAll(destroyed, c);
  }

  /** A log made only of destroy calls on `c` holds as many of them as it is long. */
  lemma {:induction false} DestroyCountAll(log: seq<ContextualCall>, c: Contextual)
    requires forall i | 0 <= i < |log| :: log[i].DestroyCall? && log[i].contextual == c
    ensures DestroyCount(log, c) == |log|
  {
    if log != [] {
      DestroyCountAll(log[..|log| - 1], c);
    }
  }
}
