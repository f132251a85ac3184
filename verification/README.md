# ObjectBox property conditions and the compiled query facade, in Dafny

This project models two pieces of the ObjectBox Java query layer.

- **Property query conditions** (`PropertyQueryConditionImpl`, module `Conditions` in
  `conditions.dfy`). A condition is one of ten value shapes: null check, `int[]`, `long`,
  `long` pair, `long[]`, `double`, `double` pair, `String`, `String[]` and `byte[]`.
  Each shape has its own closed operation enum. The `Condition` datatype holds what the
  final fields refer to: the property, the operation, the operand values and the string
  order. Array operands are taken as the values they hold (see "## Left out"). The convenience constructors that
  coerce `boolean` and `Date`, or that default the string order to case insensitive, are
  functions. The condition object with its mutable alias is the class
  `PropertyQueryCondition`. The query builder is reduced to a recorder of the calls it
  receives (`QueryBuilder.events`). `ApplyCondition` is the per-shape `applyCondition`
  dispatch, and `PropertyQueryCondition.Apply` is `apply`: the condition's builder call, then
  `parameterAlias` when the alias is non-null and non-empty. `DecodeEvent` and `ParseTrace`
  read builder calls back as conditions. They are the reference against which the dispatch
  and the alias protocol are proved.
- **The compiled query** (`Query`, module `Queries` in `query.dfy`). The class `Query` holds
  the native `handle`, the `hasOrder` flag and `calls`, the log of every native call it has
  made. Each logged call records the cursor kind it ran under, the query handle it passed
  and its other arguments. The store (`Box`) supplies the native answers as arbitrary
  functions of the call history. `Valid()` is the object invariant. It says that every
  logged call ran under the cursor its entry point needs (`CursorFor`), that the handle is
  the original one or zero, and that exactly one destroy, of the original handle, was made
  once a non-zero handle has been zeroed. A query created with handle 0 never logs a destroy.

Java's `long`, `int` and `byte` are subset types of `int` with their Java ranges.
`double` is carried as raw IEEE 754 bits and is never computed with. `Date` is its
`getTime()` value. A Java null is `None` and a thrown exception is a `Failure`
(`java_types.dfy`, module `JavaTypes`).

Two behaviours of the code worth stating:
- The code has no guard against use after `close()`. Operations on a closed query pass
  handle 0 to the native call (Query.java:84-89), and the model does the same.
- A null `Date` in `setParameter` throws `NullPointerException`, as its Javadoc says
  (Query.java:279).

## Model

| member | source | states |
|---|---|---|
| Conditions.ApplyCondition | objectbox-java/src/main/java/io/objectbox/query/PropertyQueryConditionImpl.java:38-378 | Every operation of every shape reaches exactly one builder call, so no `UnsupportedOperationException` branch is reachable. The call is on the condition's own property, and the condition (operation, operands, string order) can be read back from it. The long-pair and double-pair shapes only call `between`; the string-array shape only calls `in`. String calls forward the stored order unchanged. |
| Conditions.ApplyConditionInjective | objectbox-java/src/main/java/io/objectbox/query/PropertyQueryConditionImpl.java:38-378 | Two conditions that make the same builder call are the same condition, so each operation selects its own entry point. |
| Conditions.LongOfBool | objectbox-java/src/main/java/io/objectbox/query/PropertyQueryConditionImpl.java:115-117 | The boolean `LongCondition` constructor stores 1 for true and 0 for false, with the given property and operation. |
| Conditions.LongOfDate | objectbox-java/src/main/java/io/objectbox/query/PropertyQueryConditionImpl.java:119-121 | The `Date` `LongCondition` constructor stores `getTime()`; a null date throws `NullPointerException`. |
| Conditions.LongLongOfDates | objectbox-java/src/main/java/io/objectbox/query/PropertyQueryConditionImpl.java:160-162 | The `Date` `LongLongCondition` constructor stores both `getTime()` values with left and right kept in place; a null bound throws. |
| Conditions.StringOfDefaultOrder | objectbox-java/src/main/java/io/objectbox/query/PropertyQueryConditionImpl.java:282-284 | `StringCondition` built without an order carries `CASE_INSENSITIVE`, with the given property, operation and value. |
| Conditions.StringArrayOfDefaultOrder | objectbox-java/src/main/java/io/objectbox/query/PropertyQueryConditionImpl.java:332-334 | `StringArrayCondition` built without an order carries `CASE_INSENSITIVE`, with the given values. |
| Conditions.ApplyEvents | objectbox-java/src/main/java/io/objectbox/query/PropertyQueryConditionImpl.java:31-36 | `apply` adds the condition's own call first. It adds a second event, `parameterAlias(alias)`, exactly when the alias is non-null and non-empty. Otherwise it adds one event. |
| Conditions.EffectiveAlias | objectbox-java/src/main/java/io/objectbox/query/PropertyQueryConditionImpl.java:33-35 | The alias passed on is present exactly when it is non-null and non-empty, and then it is the alias itself. |
| Conditions.ParseTraceOfApplied | objectbox-java/src/main/java/io/objectbox/query/PropertyQueryConditionImpl.java:31-36 | The builder trace of conditions applied one after the other reads back as exactly those conditions, in order. Each is paired with its alias when the alias was non-null and non-empty, so every alias tag belongs to the condition call just before it. |
| Conditions.PropertyQueryCondition.constructor | objectbox-java/src/main/java/io/objectbox/query/PropertyQueryConditionImpl.java:20-22 | A new condition holds the given final fields and no alias. |
| Conditions.PropertyQueryCondition.Alias | objectbox-java/src/main/java/io/objectbox/query/PropertyQueryConditionImpl.java:25-28 | `alias(name)` overwrites any alias set before, returns the same object and changes no other field. |
| Conditions.PropertyQueryCondition.Apply | objectbox-java/src/main/java/io/objectbox/query/PropertyQueryConditionImpl.java:31-36 | `apply` appends `ApplyEvents` of the condition and its current alias to the builder and leaves the condition unchanged. |
| Queries.Query.constructor | objectbox-java/src/main/java/io/objectbox/query/Query.java:68-73 | A new query holds the given handle and order flag and has made no native call. |
| Queries.Query.Close | objectbox-java/src/main/java/io/objectbox/query/Query.java:84-89 | `close()` destroys a non-zero handle once, with that handle, and then zeroes it; on a zero handle it does nothing. The invariant keeps at most one destroy of the original handle. |
| Queries.CloseIdempotent | objectbox-java/src/main/java/io/objectbox/query/Query.java:84-89 | Calling `close()` any number of times is the same as calling it once. The handle ends at 0 and at most one destroy is added, carrying the handle the query had. |
| Queries.OnlyRemoveWrites | objectbox-java/src/main/java/io/objectbox/query/Query.java:313-320 | Remove is the only native call made under a writer cursor. Destroy and the parameter calls run under no cursor. |
| Queries.Query.FindFirst | objectbox-java/src/main/java/io/objectbox/query/Query.java:94-101 | One `nativeFindFirst` under a reader cursor with the current handle; returns the engine's answer. |
| Queries.Query.FindUnique | objectbox-java/src/main/java/io/objectbox/query/Query.java:108-115 | One `nativeFindUnique` under a reader cursor with the current handle; returns the engine's answer. |
| Queries.Query.Find | objectbox-java/src/main/java/io/objectbox/query/Query.java:120-127 | `find()` logs the same native call as `find(0, 0)`: `nativeFind` with offset 0 and limit 0 under a reader cursor. |
| Queries.Query.FindRange | objectbox-java/src/main/java/io/objectbox/query/Query.java:132-139 | `find(offset, limit)` logs one `nativeFind` with that offset and limit under a reader cursor. |
| Queries.Query.FindIds | objectbox-java/src/main/java/io/objectbox/query/Query.java:145-155 | On an ordered query, `findIds()` fails with `UnsupportedOperationException` and logs no native call and no cursor. Otherwise it logs one `nativeFindKeysUnordered` under a reader cursor and returns the engine's ids. |
| Queries.Query.FindLazy | objectbox-java/src/main/java/io/objectbox/query/Query.java:160-162 | `findLazy()` makes the same native calls as `findIds()` and fails the same way on ordered queries. Otherwise it returns a non-caching lazy list over the ids. |
| Queries.Query.FindLazyCached | objectbox-java/src/main/java/io/objectbox/query/Query.java:167-169 | The same as `findLazy()`, except that the lazy list is caching. |
| Queries.Query.Count | objectbox-java/src/main/java/io/objectbox/query/Query.java:172-179 | One `nativeCount` under a reader cursor with the current handle. |
| Queries.Query.Sum | objectbox-java/src/main/java/io/objectbox/query/Query.java:182-189 | One `nativeSum` under a reader cursor with the current handle and `property.getId()`. |
| Queries.Query.SumDouble | objectbox-java/src/main/java/io/objectbox/query/Query.java:192-199 | One `nativeSumDouble`, an entry point distinct from `nativeSum`, with the current handle and `property.getId()`. |
| Queries.Query.Max | objectbox-java/src/main/java/io/objectbox/query/Query.java:202-209 | One `nativeMax` under a reader cursor with the current handle and `property.getId()`. |
| Queries.Query.MaxDouble | objectbox-java/src/main/java/io/objectbox/query/Query.java:212-219 | One `nativeMaxDouble` under a reader cursor with the current handle and `property.getId()`. |
| Queries.Query.Min | objectbox-java/src/main/java/io/objectbox/query/Query.java:222-229 | One `nativeMin` under a reader cursor with the current handle and `property.getId()`. |
| Queries.Query.MinDouble | objectbox-java/src/main/java/io/objectbox/query/Query.java:232-239 | One `nativeMinDouble` under a reader cursor with the current handle and `property.getId()`. |
| Queries.Query.Avg | objectbox-java/src/main/java/io/objectbox/query/Query.java:242-249 | One `nativeAvg` under a reader cursor with the current handle and `property.getId()`. |
| Queries.Query.SetParameterString | objectbox-java/src/main/java/io/objectbox/query/Query.java:255-258 | One `nativeSetParameter` with the handle, `property.getId()`, a null alias and the string. No cursor is used, the handle and order flag are unchanged, and the same query is returned. |
| Queries.Query.SetParameterLong | objectbox-java/src/main/java/io/objectbox/query/Query.java:263-266 | The same as `SetParameterString`, for a `long` value. |
| Queries.Query.SetParameterDouble | objectbox-java/src/main/java/io/objectbox/query/Query.java:271-274 | The same as `SetParameterString`, for a `double` value. |
| Queries.Query.SetParameterDate | objectbox-java/src/main/java/io/objectbox/query/Query.java:281-283 | Has the same effect as the `long` overload with `getTime()`. A null date throws before any native call. |
| Queries.Query.SetParameterBool | objectbox-java/src/main/java/io/objectbox/query/Query.java:288-290 | Has the same effect as the `long` overload with 1 for true and 0 for false. |
| Queries.Query.SetParametersLong | objectbox-java/src/main/java/io/objectbox/query/Query.java:295-298 | One `nativeSetParameters` with the handle, `property.getId()`, a null alias and both values in order. The same query is returned. |
| Queries.Query.SetParametersDouble | objectbox-java/src/main/java/io/objectbox/query/Query.java:303-306 | The same as `SetParametersLong`, for two `double` values. |
| Queries.Query.Remove | objectbox-java/src/main/java/io/objectbox/query/Query.java:313-320 | One `nativeRemove` under a writer cursor with the current handle; returns the engine's count. |

## Left out

- Native engine semantics: what `nativeFind`, `nativeCount`, the aggregates and `nativeRemove` compute is not modelled. Their answers are arbitrary functions of the native call history, supplied by `Box`. Failures raised inside native code are not modelled either.
- Queries.Query.FindUnique: does not model the non-unique `DbException`, because it is raised inside the native engine.
- Cursor acquisition inside `Box` (`internalCallWithReaderHandle` and `internalCallWithWriterHandle`) is reduced to the cursor kind logged with each call. Cursor handle values are not modelled.
- The internals of `LazyList` are not modelled. It is a value holding the store, the ids and the cached flag.
- `finalize()` and the `synchronized` modifier on `close()` concern garbage collection and concurrency. Only the sequential idempotence of `close()` is modelled.
- `subscribe()`, `publish()` and the `QueryPublisher` the constructor creates are left out. They are asynchronous dispatch through classes that are not part of this model.
- `double` values are opaque bit patterns. No floating-point behaviour is modelled.
- What `QueryBuilder` does with each call, and how the engine resolves aliases when parameters are rebound, are not modelled. The builder only records calls.
- Nulls are modelled only where the code dereferences them: the alias (null check) and `Date.getTime()`. A null property would throw a `NullPointerException` in `getId()`; that is not modelled. Null string and array operands are passed through unchanged, and the model has no null for them.
- The model has no null operation. In the source, a null `op` throws `NullPointerException` in the `switch` of the null, `int[]`, `long`, `long[]`, `double`, `String` and `byte[]` shapes. The long-pair, double-pair and `String[]` shapes test `op == Operation.X` instead, so a null `op` takes their else branch and throws `UnsupportedOperationException` (PropertyQueryConditionImpl.java:166-170, 252-256, 338-342). With a non-null operation, no throw branch is reachable, and that is what `ApplyCondition` proves.
- Array operands (`int[]`, `long[]`, `String[]`, `byte[]`) are Java references. The condition stores the caller's array without copying it and passes the same reference to the builder. The model treats them as immutable sequences, so it does not capture a caller changing the array after construction, which the builder would then see.
- The entity type parameter of the conditions and the `and`/`or` combinators of the parent condition class are not part of this model.
