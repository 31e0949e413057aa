/**
 * The base caching aspect: attach-time validation and naming of the wrapped
 * method, and the entry/success hooks that run around every call of it. The
 * eviction policy is the one thing a concrete aspect supplies.
 */
module CacheAspects {
  import opened Wrappers
  import opened CacheKeys
  import opened CacheStore

  // ---------------------------------------------------------------------------
  // Attach time

  /** What attach time sees of the method an aspect is applied to. */
  datatype MethodDescriptor = MethodDescriptor(
    name: string,
    declaringTypeFullName: Option<string>,
    isConstructor: bool,
    returnTypeName: string,
    parameterIsOut: seq<bool>)

  /** A build-time diagnostic: its code and its message. */
  datatype Diagnostic = Diagnostic(code: string, message: string)

  /** The outcome of validation: `Accepted` is a `true` return, `Rejected` a `false` one with its diagnostic. */
  datatype Verdict = Accepted | Rejected(diagnostic: Diagnostic)

  const CannotCacheConstructors := Diagnostic("CX0001", "Cannot cache constructors.")
  const CannotCacheVoidMethods := Diagnostic("CX0002", "Cannot cache void methods.")
  /** The rule is about out parameters; the message text says "return values". */
  const CannotCacheOutParameters := Diagnostic("CX0003", "Cannot cache methods with return values.")

  predicate HasOutParameter(m: MethodDescriptor)
  {
    true in m.parameterIsOut
  }

  /** A method attach time rejects on none of the three rules. */
  predicate IsCacheable(m: MethodDescriptor)
  {
    !m.isConstructor && m.returnTypeName != "Void" && !HasOutParameter(m)
  }

  /** Every rule the method breaks, in the order validation checks them. */
  function Violations(m: MethodDescriptor): seq<Diagnostic>
  {
    (if m.isConstructor then [CannotCacheConstructors] else [])
    + (if m.returnTypeName == "Void" then [CannotCacheVoidMethods] else [])
    + (if HasOutParameter(m) then [CannotCacheOutParameters] else [])
  }

  /**
   * Validation checks the rules in a fixed order and stops at the first that
   * fails. The void rule compares the return type's simple name only.
   */
  function CompileTimeValidate(m: MethodDescriptor): (r: Verdict)
    ensures r.Accepted? <==> IsCacheable(m)
    ensures r == Rejected(CannotCacheConstructors) <==> m.isConstructor
    ensures r == Rejected(CannotCacheVoidMethods) <==> !m.isConstructor && m.returnTypeName == "Void"
    ensures r == Rejected(CannotCacheOutParameters)
        <==> !m.isConstructor && m.returnTypeName != "Void" && HasOutParameter(m)
  {
    if m.isConstructor then Rejected(CannotCacheConstructors)
    else if m.returnTypeName == "Void" then Rejected(CannotCacheVoidMethods)
    else if !HasOutParameter(m) then Accepted
    else Rejected(CannotCacheOutParameters)
  }

  /** Validation reports the first rule broken, and accepts exactly when none is. */
  lemma ValidateReportsFirstViolation(m: MethodDescriptor)
    ensures Violations(m) == [] <==> CompileTimeValidate(m).Accepted?
    ensures Violations(m) != [] ==> CompileTimeValidate(m) == Rejected(Violations(m)[0])
  {
  }

  /** The three diagnostics have distinct codes, so a rejection names its rule. */
  lemma DiagnosticCodesDistinct(m: MethodDescriptor, n: MethodDescriptor)
    requires CompileTimeValidate(m).Rejected? && CompileTimeValidate(n).Rejected?
    ensures CompileTimeValidate(m).diagnostic.code == CompileTimeValidate(n).diagnostic.code
        <==> CompileTimeValidate(m) == CompileTimeValidate(n)
  {
  }

  /** The name the aspect keys by: the declaring type's full name, ".", and the method name. */
  function QualifiedName(m: MethodDescriptor): (r: string)
    ensures |r| >= |m.name| && r[|r| - |m.name|..] == m.name
    ensures m.declaringTypeFullName.None? ==> r == m.name
  {
    match m.declaringTypeFullName
    case Some(typeName) => typeName + "." + m.name
    case None => m.name
  }

  /** The qualified name ends in the method's own name, after "." and the type name when there is a type. */
  /**
   * The qualified name ignores parameter and return types, so overloads share
   * names and hence keys: static `C.Foo(int)` called with 1 and `C.Foo(string)`
   * called with "1" are both keyed "C.Foo(1, ".
   */
  lemma OverloadsShareKeys()
    ensures var fooInt := MethodDescriptor("Foo", Some("C"), false, "Int32", [false]);
      var fooString := MethodDescriptor("Foo", Some("C"), false, "String", [false]);
      fooInt != fooString &&
      CacheKey(QualifiedName(fooInt), None, [Some("1")]) == "C.Foo(1, " &&
      CacheKey(QualifiedName(fooString), None, [Some("1")]) == "C.Foo(1, "
  {
    var args := [Some("1")];
    assert args[..0] == [];
  }

  lemma QualifiedNameShape(m: MethodDescriptor)
    ensures var q := QualifiedName(m);
      |q| >= |m.name| && q[|q| - |m.name|..] == m.name &&
      (m.declaringTypeFullName.Some? ==>
        var t := m.declaringTypeFullName.value;
        |q| == |t| + 1 + |m.name| && q[..|t|] == t && q[|t|] == '.') &&
      (m.declaringTypeFullName.None? ==> q == m.name)
  {
    if m.declaringTypeFullName.Some? {
      var t := m.declaringTypeFullName.value;
      assert QualifiedName(m) == (t + ".") + m.name;
    }
  }

  // ---------------------------------------------------------------------------
  // Run time

  /** How the woven code continues once a hook has run. */
  datatype FlowBehavior = Default | Continue | RethrowException | Return | ThrowException | Yield

  /** The state of one invocation record, as a value. */
  datatype Invocation<V> = Invocation(
    instance: Option<string>,
    arguments: seq<Option<string>>,
    returnValue: Option<V>,
    flowBehavior: FlowBehavior,
    methodExecutionTag: Option<string>)

  /** The record a call starts with: nothing returned, default flow, no tag. */
  function FreshInvocation<V>(instance: Option<string>, arguments: seq<Option<string>>): Invocation<V>
  {
    Invocation(instance, arguments, None, Default, None)
  }

  /** The key of an invocation of the method named `methodName`. */
  function KeyOf<V>(methodName: string, inv: Invocation<V>): string
  {
    CacheKey(methodName, inv.instance, inv.arguments)
  }

  /**
   * What the entry hook does to an invocation record. On a hit (the store
   * yields a non-null value) the record returns that value at once and keeps
   * its tag; on a miss (nothing stored, or a stored null) the record is tagged
   * with the key and otherwise left alone.
   */
  function OnEntrySpec<V>(methodName: string, entries: map<string, StoreEntry<V>>, inv: Invocation<V>)
    : (r: Invocation<V>)
    ensures r.instance == inv.instance && r.arguments == inv.arguments
    ensures Lookup(entries, KeyOf(methodName, inv)).Some? ==>
      r.returnValue == Lookup(entries, KeyOf(methodName, inv)) &&
      r.flowBehavior == Return &&
      r.methodExecutionTag == inv.methodExecutionTag
    ensures Lookup(entries, KeyOf(methodName, inv)).None? ==>
      r.methodExecutionTag == Some(KeyOf(methodName, inv)) &&
      r.returnValue == inv.returnValue &&
      r.flowBehavior == inv.flowBehavior
  {
    var key := CacheKey(methodName, inv.instance, inv.arguments);
    match Lookup(entries, key)
    case Some(value) => inv.(returnValue := Some(value), flowBehavior := Return)
    case None => inv.(methodExecutionTag := Some(key))
  }

  /**
   * What the success hook does to the store: nothing without a policy;
   * otherwise it stores the return value under the tagged key and leaves every
   * other key as it was.
   */
  function OnSuccessSpec<V>(policy: Option<CacheEvictionPolicy>, entries: map<string, StoreEntry<V>>, inv: Invocation<V>)
    : (r: map<string, StoreEntry<V>>)
    requires policy.Some? ==> inv.methodExecutionTag.Some?
    ensures policy.None? ==> r == entries
    ensures policy.Some? ==>
      var key := inv.methodExecutionTag.value;
      key in r && r[key] == StoreEntry(inv.returnValue, policy.value) &&
      r.Keys == entries.Keys + {key} &&
      forall k :: k in entries && k != key ==> r[k] == entries[k]
  {
    match policy
    case None => entries
    case Some(p) => entries[inv.methodExecutionTag.value := StoreEntry(inv.returnValue, p)]
  }

  /**
   * How a wrapped method's body ends: it returns a (possibly null) value, or it
   * throws. Either way `store` is the store as the body left it: a body may
   * itself call cached methods and so insert entries.
   */
  datatype BodyOutcome<V> =
    | Returned(value: Option<V>, store: map<string, StoreEntry<V>>)
    | Threw(store: map<string, StoreEntry<V>>)

  /** What the caller of a wrapped method sees: a value, or the body's exception. */
  datatype CallResult<V> = Value(value: Option<V>) | Exception

  /** What the caller sees when the body does run: its value, or its exception. */
  function ResultOf<V>(body: BodyOutcome<V>): CallResult<V>
  {
    match body
    case Returned(value, _) => Value(value)
    case Threw(_) => Exception
  }

  /**
   * One intercepted call, in the order the weaver runs the hooks: the entry
   * hook; the body only when the hook did not short-circuit; the success hook
   * only when the body returned, on the store the body left. Gives what the
   * caller sees and the store after the call. The hooks change the store the
   * call starts from (on a hit) or the body leaves (on a miss) at most at the
   * call's own key.
   */
  function Intercept<V>(
    methodName: string, policy: Option<CacheEvictionPolicy>, entries: map<string, StoreEntry<V>>,
    instance: Option<string>, arguments: seq<Option<string>>, body: BodyOutcome<V>)
    : (r: (CallResult<V>, map<string, StoreEntry<V>>))
    ensures var key := CacheKey(methodName, instance, arguments);
      var before := if Lookup(entries, key).Some? then entries else body.store;
      r.1.Keys <= before.Keys + {key} &&
      forall k :: k in before && k != key ==> k in r.1 && r.1[k] == before[k]
    ensures r.0.Exception? ==> body.Threw?
  {
    var entered := OnEntrySpec(methodName, entries, FreshInvocation(instance, arguments));
    if entered.flowBehavior == Return then
      (Value(entered.returnValue), entries)
    else
      match body
      case Threw(after) => (Exception, after)
      case Returned(value, after) =>
        var done := entered.(returnValue := value);
        (Value(value), OnSuccessSpec(policy, after, done))
  }

  /** A hit returns the stored value, leaves the store alone, and does not depend on the body at all. */
  lemma InterceptHit<V>(
    methodName: string, policy: Option<CacheEvictionPolicy>, entries: map<string, StoreEntry<V>>,
    instance: Option<string>, arguments: seq<Option<string>>, body: BodyOutcome<V>, other: BodyOutcome<V>)
    requires Lookup(entries, CacheKey(methodName, instance, arguments)).Some?
    ensures Intercept(methodName, policy, entries, instance, arguments, body)
         == (Value(Lookup(entries, CacheKey(methodName, instance, arguments))), entries)
    ensures Intercept(methodName, policy, entries, instance, arguments, body)
         == Intercept(methodName, policy, entries, instance, arguments, other)
  {
  }

  /**
   * A body that throws is never cached: on a miss the exception reaches the
   * caller and the store is exactly what the body left, the hooks adding
   * nothing; on a hit the body never runs and the store is unchanged.
   */
  lemma FailureNotCached<V>(
    methodName: string, policy: Option<CacheEvictionPolicy>, entries: map<string, StoreEntry<V>>,
    instance: Option<string>, arguments: seq<Option<string>>, bodyStore: map<string, StoreEntry<V>>)
    ensures Lookup(entries, CacheKey(methodName, instance, arguments)).None? ==>
      Intercept(methodName, policy, entries, instance, arguments, Threw(bodyStore)) == (Exception, bodyStore)
    ensures Lookup(entries, CacheKey(methodName, instance, arguments)).Some? ==>
      Intercept(methodName, policy, entries, instance, arguments, Threw(bodyStore)).1 == entries
  {
  }

  /**
   * A miss runs the body and returns its result; given a policy, the hooks add
   * exactly that result under the call's key to the store the body left.
   */
  lemma MissComputesThenStores<V>(
    methodName: string, policy: CacheEvictionPolicy, entries: map<string, StoreEntry<V>>,
    instance: Option<string>, arguments: seq<Option<string>>, result: Option<V>, bodyStore: map<string, StoreEntry<V>>)
    requires Lookup(entries, CacheKey(methodName, instance, arguments)).None?
    ensures Intercept(methodName, Some(policy), entries, instance, arguments, Returned(result, bodyStore))
         == (Value(result), bodyStore[CacheKey(methodName, instance, arguments) := StoreEntry(result, policy)])
  {
  }

  /**
   * The round trip: a miss whose body returns a non-null `result` (whatever the
   * body did to the store), then a call with the same name, receiver and
   * arguments on the resulting store, is a hit returning `result`, whatever the
   * second body would have done.
   */
  lemma {:induction false} MissThenHit<V>(
    methodName: string, policy: CacheEvictionPolicy, entries: map<string, StoreEntry<V>>,
    instance: Option<string>, arguments: seq<Option<string>>, result: V, bodyStore: map<string, StoreEntry<V>>,
    second: BodyOutcome<V>)
    requires Lookup(entries, CacheKey(methodName, instance, arguments)).None?
    ensures var (_, after) := Intercept(methodName, Some(policy), entries, instance, arguments, Returned(Some(result), bodyStore));
      Intercept(methodName, Some(policy), after, instance, arguments, second) == (Value(Some(result)), after)
  {
    var key := CacheKey(methodName, instance, arguments);
    MissComputesThenStores(methodName, policy, entries, instance, arguments, Some(result), bodyStore);
    var after := bodyStore[key := StoreEntry(Some(result), policy)];
    assert Lookup(after, key) == Some(result);
    InterceptHit(methodName, Some(policy), after, instance, arguments, second, second);
  }

  /** A method that returned null is stored, but the stored null reads as a miss, so the next call runs the body again. */
  lemma {:induction false} NullResultRecomputed<V>(
    methodName: string, policy: CacheEvictionPolicy, entries: map<string, StoreEntry<V>>,
    instance: Option<string>, arguments: seq<Option<string>>, bodyStore: map<string, StoreEntry<V>>,
    second: BodyOutcome<V>)
    requires Lookup(entries, CacheKey(methodName, instance, arguments)).None?
    ensures var (_, after) := Intercept(methodName, Some(policy), entries, instance, arguments, Returned(None, bodyStore));
      Intercept(methodName, Some(policy), after, instance, arguments, second).0 == ResultOf(second)
  {
    var key := CacheKey(methodName, instance, arguments);
    MissComputesThenStores(methodName, policy, entries, instance, arguments, None, bodyStore);
    var after := bodyStore[key := StoreEntry(None, policy)];
    assert Lookup(after, key) == None;
  }

  /**
   * Without a policy the hooks never store anything: the store after the call
   * is the one it started from (on a hit) or the one the body left (on a miss).
   */
  lemma NoPolicyNeverStores<V>(
    methodName: string, entries: map<string, StoreEntry<V>>,
    instance: Option<string>, arguments: seq<Option<string>>, body: BodyOutcome<V>)
    ensures Intercept(methodName, None, entries, instance, arguments, body).1
         == if Lookup(entries, CacheKey(methodName, instance, arguments)).Some? then entries else body.store
  {
  }

  /** The invocation record a call works on, updated in place by the hooks. */
  class MethodExecutionArgs<V> {
    const instance: Option<string>
    const arguments: seq<Option<string>>
    var returnValue: Option<V>
    var flowBehavior: FlowBehavior
    var methodExecutionTag: Option<string>

    constructor (instance: Option<string>, arguments: seq<Option<string>>)
      ensures Snapshot() == FreshInvocation(instance, arguments)
    {
      this.instance := instance;
      this.arguments := arguments;
      returnValue := None;
      flowBehavior := Default;
      methodExecutionTag := None;
    }

    function Snapshot(): Invocation<V>
      reads this
    {
      Invocation(instance, arguments, returnValue, flowBehavior, methodExecutionTag)
    }
  }

  /**
   * A caching aspect bound to one method. `evictionPolicy` is what the concrete
   * aspect's policy property yields (`None` for null); `cache` is the store the
   * aspect was given.
   */
  class CacheAspect<V> {
    var methodName: string
    const evictionPolicy: Option<CacheEvictionPolicy>
    const cache: ObjectInstanceCache<V>

    constructor (evictionPolicy: Option<CacheEvictionPolicy>, cache: ObjectInstanceCache<V>)
      ensures methodName == "" && this.evictionPolicy == evictionPolicy && this.cache == cache
    {
      methodName := "";
      this.evictionPolicy := evictionPolicy;
      this.cache := cache;
    }

    /** Records the qualified name of the method the aspect is applied to. */
    method CompileTimeInitialize(m: MethodDescriptor)
      modifies this`methodName
      ensures methodName == QualifiedName(m)
      // The same, unfolded for callers: type full name + "." + name, or the bare name.
      ensures m.declaringTypeFullName.Some? ==> methodName == m.declaringTypeFullName.value + "." + m.name
      ensures m.declaringTypeFullName.None? ==> methodName == m.name
    {
      if m.declaringTypeFullName.Some? {
        methodName := m.declaringTypeFullName.value + "." + m.name;
      } else {
        methodName := m.name;
      }
    }

    /** Before the body: look the call up, and either short-circuit with the stored value or tag the call with its key. */
    method OnEntry(args: MethodExecutionArgs<V>)
      modifies args
      ensures args.Snapshot() == OnEntrySpec(methodName, cache.entries, old(args.Snapshot()))
      // The same, unfolded for callers field by field, for a hit and for a miss.
      ensures var key := CacheKey(methodName, args.instance, args.arguments);
        if Lookup(cache.entries, key).Some? then
          args.returnValue == Lookup(cache.entries, key) && args.flowBehavior == Return &&
          args.methodExecutionTag == old(args.methodExecutionTag)
        else
          args.methodExecutionTag == Some(key) &&
          args.returnValue == old(args.returnValue) && args.flowBehavior == old(args.flowBehavior)
    {
      var cacheKey := GetCacheKey(methodName, args.instance, args.arguments);
      var value := cache.Get(cacheKey);
      if value.Some? {
        args.returnValue := value;
        args.flowBehavior := Return;
      } else {
        args.methodExecutionTag := Some(cacheKey);
      }
    }

    /** After a body that returned: store the result under the tagged key, unless there is no policy. */
    method OnSuccess(args: MethodExecutionArgs<V>)
      requires evictionPolicy.Some? ==> args.methodExecutionTag.Some?
      modifies cache
      ensures cache.entries == OnSuccessSpec(evictionPolicy, old(cache.entries), args.Snapshot())
      ensures evictionPolicy.None? ==> cache.entries == old(cache.entries)
      ensures evictionPolicy.Some? ==>
        cache.entries == old(cache.entries)[args.methodExecutionTag.value :=
          StoreEntry(args.returnValue, evictionPolicy.value)]
    {
      if evictionPolicy.None? {
        return;
      }
      var cacheKey := args.methodExecutionTag.value;
      cache.Insert(cacheKey, args.returnValue, evictionPolicy.value);
    }

    /**
     * One woven call: a fresh invocation record, the entry hook, then the body
     * and the success hook unless the entry hook short-circuited. The body is
     * given by its outcome; running it leaves the store as `body.store`.
     */
    method Invoke(instance: Option<string>, arguments: seq<Option<string>>, body: BodyOutcome<V>)
      returns (result: CallResult<V>)
      modifies cache
      ensures (result, cache.entries)
           == Intercept(methodName, evictionPolicy, old(cache.entries), instance, arguments, body)
    {
      var args := new MethodExecutionArgs(instance, arguments);
      OnEntry(args);
      if args.flowBehavior == Return {
        return Value(args.returnValue);
      }
      cache.entries := body.store;
      match body
      case Threw(_) =>
        result := Exception;
      case Returned(value, _) =>
        args.returnValue := value;
        OnSuccess(args);
        result := Value(value);
    }
  }
}
