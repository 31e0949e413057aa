# Method-result caching aspect, modelled in Dafny

EPi.Libraries.Aspects supplies attributes that cache a method's result in EPiServer's object cache. When a method carrying the attribute is called, the aspect builds a key from the method's qualified name, the receiver and the arguments, then asks the store for that key. On a hit it returns the stored value and the body never runs. On a miss the body runs, and if it returns normally its result is inserted under an eviction policy. The base aspect also checks at build time that it was applied to a method it can cache. The one concrete aspect uses a policy that depends on EPiServer's global content version key.

The project has five modules:

- `Wrappers`: `Option`, where `None` stands for a C# `null`.
- `CacheKeys`: the key builder. `CacheKey` defines the key as a value. `GetCacheKey` builds it with the source's append loop and is proved to return `CacheKey`. The lemmas state the key's shape.
- `CacheStore`: the external store, reduced to the contract the aspect uses. Entries live in a `map` field, `Get` reads it and `Insert` updates it.
- `CacheAspects`: the base aspect. It has:
  - attach-time validation and naming;
  - the invocation record as a class, `MethodExecutionArgs`;
  - the aspect as a class, `CacheAspect`, whose `OnEntry`/`OnSuccess` hooks update the record and the store in place;
  - value-level specifications of both hooks (`OnEntrySpec`, `OnSuccessSpec`);
  - the order the weaver runs them in (`Intercept`), with lemmas about whole calls.
- `VersionKeyCache`: the variant's policy, and a factory that builds the base aspect with it.

Design choices:

- Receivers and arguments are modelled as their `ToString` texts (`Option<string>`), because only those texts reach the key.
- The generic type arguments of a call are not an input to `CacheKey`. Calls that differ only in them therefore share a key, as the source documents. The qualified name also ignores parameter and return types, so overloads of one method share keys whenever their arguments' texts agree.
- The key's opening parenthesis is never closed, as in the source. Every argument is followed by ", ", and a receiver by "; ".
- The abstract `CacheEvictionPolicy` property becomes the constant field `CacheAspect.evictionPolicy`, which the concrete aspect supplies. `None` is a null policy.
- The `ArgumentNullException` guards on `method` and `args` are covered by Dafny's non-null types: a caller cannot pass null.

## Model

| member | source | states |
|---|---|---|
| CacheKeys.CacheKey | Caching/EpiServerCacheBaseAttribute.cs:218-233 | every key starts with the method name, and outside the fast path the name is followed by "(" |
| CacheKeys.GetCacheKey | Caching/EpiServerCacheBaseAttribute.cs:208-234 | the buffer built by the fast-path check and the append loop equals `CacheKey` for every name, receiver and argument list |
| CacheKeys.KeyIsNameIffFastPath | Caching/EpiServerCacheBaseAttribute.cs:210-214 | the key is exactly the method name if and only if there is no receiver and no argument |
| CacheKeys.KeyNeverClosed | Caching/EpiServerCacheBaseAttribute.cs:218-233 | outside the fast path the key starts with the name and "(", ends in ", " (with arguments) or "; " (receiver only), and never ends in ")" |
| CacheKeys.ArgumentAt | Caching/EpiServerCacheBaseAttribute.cs:227-231 | argument k's text (or "null") and ", " follow the first k arguments' text and precede the rest: positional order |
| CacheKeys.ArgumentsTextAppend | Caching/EpiServerCacheBaseAttribute.cs:227-231 | the argument text of a concatenated list is the concatenation of the two lists' texts |
| CacheKeys.ArgumentsTextLength | Caching/EpiServerCacheBaseAttribute.cs:229-230 | each argument adds at least two characters, and a non-empty argument list ends in ", " |
| CacheKeys.KeyExtends | Caching/EpiServerCacheBaseAttribute.cs:218-233 | outside the fast path, appending arguments appends their text, so the earlier key is a prefix |
| CacheKeys.NullArgumentRendering | Caching/EpiServerCacheBaseAttribute.cs:229 | a single null argument with no receiver gives name + "(null, " |
| CacheKeys.CatalogExample | Caching/EpiServerCacheBaseAttribute.cs:218-233 | the static call `Catalog.GetPrice("SKU1")` is keyed "Catalog.GetPrice(SKU1, " |
| CacheKeys.TextsCanCollide | Caching/EpiServerCacheBaseAttribute.cs:229-230 | one argument whose text contains ", " collides with two arguments, since keys are built from texts alone |
| CacheStore.Lookup | Caching/EpiServerCacheBaseAttribute.cs:156 | a present key yields exactly its stored value (null for a stored null), and an absent key yields null |
| CacheStore.ObjectInstanceCache.Get | Caching/EpiServerCacheBaseAttribute.cs:156 | `Get` returns the store's lookup of the key and changes nothing |
| CacheStore.ObjectInstanceCache.Insert | Caching/EpiServerCacheBaseAttribute.cs:196 | `Insert` sets the key to the value and policy given and leaves every other key as it was |
| CacheAspects.CompileTimeValidate | Caching/EpiServerCacheBaseAttribute.cs:100-133 | constructor gives CX0001; otherwise a return type named "Void" gives CX0002; otherwise an out parameter gives CX0003; acceptance exactly when none applies (each an if-and-only-if) |
| CacheAspects.ValidateReportsFirstViolation | Caching/EpiServerCacheBaseAttribute.cs:107-132 | validation accepts exactly when the list of broken rules is empty, and otherwise reports the first rule in checking order |
| CacheAspects.DiagnosticCodesDistinct | Caching/EpiServerCacheBaseAttribute.cs:110-131 | two rejections carry the same code if and only if they are the same diagnostic |
| CacheAspects.QualifiedName | Caching/EpiServerCacheBaseAttribute.cs:84-91 | the stored name always ends in the method's own name, and is exactly that name when there is no declaring type |
| CacheAspects.OverloadsShareKeys | Caching/EpiServerCacheBaseAttribute.cs:84-91 | two overloads `C.Foo(int)` and `C.Foo(string)` called with texts "1" both get the key "C.Foo(1, ": the name carries no parameter types |
| CacheAspects.QualifiedNameShape | Caching/EpiServerCacheBaseAttribute.cs:84-91 | the stored name is type full name + "." + name when there is a declaring type, and the bare name otherwise |
| CacheAspects.CacheAspect.CompileTimeInitialize | Caching/EpiServerCacheBaseAttribute.cs:77-92 | sets the aspect's method name to the qualified name of the method and nothing else |
| CacheAspects.OnEntrySpec | Caching/EpiServerCacheBaseAttribute.cs:152-169 | hit: return value is the stored value, flow is Return, tag untouched; miss (including a stored null): tag is the key, return value and flow untouched; receiver and arguments never change |
| CacheAspects.OnSuccessSpec | Caching/EpiServerCacheBaseAttribute.cs:189-196 | null policy: store unchanged; otherwise the tagged key holds the return value with the policy, the key set gains only that key, and every other entry is unchanged |
| CacheAspects.CacheAspect.OnEntry | Caching/EpiServerCacheBaseAttribute.cs:145-170 | the record after the hook is `OnEntrySpec` of the record before; the store is not modified |
| CacheAspects.CacheAspect.OnSuccess | Caching/EpiServerCacheBaseAttribute.cs:182-197 | the store after the hook is `OnSuccessSpec` of the store before: at most one insert, under the tagged key |
| CacheAspects.CacheAspect.Invoke | Caching/EpiServerCacheBaseAttribute.cs:135-197 | the hooks run in woven order on a fresh record, the success hook on the store the body left, and give exactly the caller outcome and store of `Intercept` |
| CacheAspects.Intercept | Caching/EpiServerCacheBaseAttribute.cs:145-197 | the hooks change the store the call starts from (hit) or the body leaves (miss) at most at the call's own key, and the caller sees an exception only from a body that threw, for a store that does not fail |
| CacheAspects.InterceptHit | Caching/EpiServerCacheBaseAttribute.cs:158-163 | on a hit the caller gets the stored value, the store is unchanged, and the outcome does not depend on the body |
| CacheAspects.FailureNotCached | Caching/EpiServerCacheBaseAttribute.cs:172-182 | on a miss a body that throws gives the caller its exception and leaves the store exactly as the body left it (the hooks add nothing); on a hit the store is unchanged |
| CacheAspects.MissComputesThenStores | Caching/EpiServerCacheBaseAttribute.cs:164-169 | on a miss with a policy, the caller gets the body's result and the final store is the store the body left with exactly that result added under the call's key |
| CacheAspects.MissThenHit | Caching/EpiServerCacheBaseAttribute.cs:153-196 | a miss whose body returns a non-null R, whatever the body did to the store, then the same call on the resulting store, is a hit returning R with the store unchanged |
| CacheAspects.NullResultRecomputed | Caching/EpiServerCacheBaseAttribute.cs:158-168 | a null result is inserted but reads back as a miss, so the next same call runs its body again and the caller sees that body's result |
| CacheAspects.NoPolicyNeverStores | Caching/EpiServerCacheBaseAttribute.cs:189-192 | with a null policy the hooks never store anything: the store after a call is the one it started from on a hit, or the one the body left on a miss |
| VersionKeyCache.VersionKeyEvictionPolicy | Caching/VersionKeyCacheAttribute.cs:44-50 | the policy is never null and lists exactly one dependency key, the data factory version key |
| VersionKeyCache.NewVersionKeyCacheAttribute | Caching/VersionKeyCacheAttribute.cs:40-53 | a version-key aspect is the base aspect with this variant's policy and the given store |
| VersionKeyCache.VersionKeyAlwaysInserts | Caching/VersionKeyCacheAttribute.cs:48 | under this variant a miss whose body returns always adds the result under the call's key, depending only on the version key, to the store the body left, with that store's other entries unchanged |
| VersionKeyCache.VariantDiffersOnlyInPolicy | Caching/VersionKeyCacheAttribute.cs:40-53 | with any other non-null policy a call gives the same caller outcome and the same store keys and values: only the policy is the variant's |

## Left out

- PostSharp weaving is left out. `Intercept` and `CacheAspect.Invoke` state only the hook order the framework documents: entry first, the body only without a short-circuit, success only after a normal return. The body is given by its outcome and by the store it leaves, which covers bodies that call other cached methods. Attribute multicasting, `AttributeUsage` and build-time serialization of the method name are framework glue.
- Service location of the store (`Injected<ISynchronizedObjectInstanceCache>`) is left out. The store is passed to the aspect instead.
- The store's internals are left out, including how a change of the version key evicts entries. That happens inside EPiServer. The store is a map whose entries stay until overwritten.
- Reflection objects are replaced by the `MethodDescriptor` datatype. `ToString` on arbitrary objects is replaced by given texts. A receiver or argument whose `ToString` returns null is the text `Some("")`: `StringBuilder.Append` appends nothing for it, and the separator follows as usual.
- `Message.Write` diagnostic output is left out. The diagnostic becomes the data of `Rejected`.
- The `ArgumentNullException` guards are left out as explicit error paths. Dafny's non-null types rule out null `method` and `args`.
- Concurrent invocations sharing the store are left out. There is no locking, so racing misses are last-insert-wins, which is not a sequential property.
- CacheAspects.Intercept: models the store's `Get` and `Insert` as never failing. The source has no handler around either call, so an exception from the store reaches the caller unchanged. If `Insert` throws after the body returned, the caller sees that exception, and the body's own changes to the store stay. The model has no such outcome.
- CacheAspects.CacheAspect.OnSuccess: requires a tag whenever there is a policy. The string cast of a missing tag, and the store's handling of a null key, are not modelled. The framework runs this hook only after a miss, and a miss always sets the tag.
- CacheStore.CacheEvictionPolicy: keeps only the dependency keys. Expiration times and other policy settings are never set by this code.
- VersionKeyCache.VersionKeyEvictionPolicy: the policy is a value, so the fresh object built on every read of the property is not distinguished from the others. Each read has the same contents. `DataFactoryVersionKey` stands for `DataFactoryCache.VersionKey`, whose text EPiServer defines.
- CacheAspects.CacheAspect.constructor: starts with an empty method name. In the source the field is null until build-time initialization.
