# DirectShardCallbackTemplate, modelled in Dafny

Spring JDBC's `DirectShardCallbackTemplate` runs a `DirectShardCallback` so that all
data access inside it goes to one database shard. Before the callback runs, `execute`
writes the sharding key, and the super sharding key if there is one, into the current
thread's shard context. `ShardingKeyDataSourceAdapter` reads that context when it hands
out connections. `execute` then runs the callback once and returns its value. An
unchecked throwable (`RuntimeException`, `Error`) is rethrown unchanged. Any other
throwable is wrapped in one `UndeclaredThrowableException` with a fixed message. A
`finally` block clears both keys on every way out.

The model has three modules:

- `ShardingContext` (`sharding_context.dfy`): the thread's two key slots as a class
  `ShardContext` whose setter and clear methods update its fields in place. The
  `Context` datatype is the value the slots hold at one instant.
- `CallbackOutcome` (`callback_outcome.dfy`): how a callback ends (`Outcome`), how
  `execute` ends (`Result`, including `Undeclared(cause, message)`), Java's
  checked/unchecked split (`Unchecked`), and the catch clauses as `Classify`. Its
  partner `Recover` reads back from a result what the callback did.
- `DirectShardCallbackTemplate` (`direct_shard_callback_template.dfy`): the two
  `execute` overloads as methods on the context and on a `Callback` object. The
  callback keeps a ghost log of the context it ran under, once per invocation.
  `ExecuteSpec` is the function the methods are proved against. `Session` and its
  lemmas cover consecutive `execute` calls on one thread.

Java `null` is `None`. A throwable is identified by an `id`, so "the same instance"
means equal values. A callback is an object with state of its own. Each invocation is a
step from that state and the context it reads, because its data access is routed by
that context. The step gives the callback's next state and its outcome, so two
`execute` calls with the same callback and keys may end differently.

`execute` does not check for a null sharding key: `Assert` is imported but never
used, and line 56 passes the key on as it is. The model takes the sharding key as an
`Option` and stores it as given, even when it is `None`; the super key is stored only
when present.

One consequence of the `finally` block is that `execute` does not restore the context
it found. If a callback calls `execute` again on the same thread, the outer callback
finds both slots empty once the inner call returns. `ExecuteSpec` states this as
`after == Empty()` whatever `prior` was.

## Model

| member | source | states |
|---|---|---|
| `ShardingContext.ShardContext.SetShardingKey` | spring-jdbc/src/main/java/org/springframework/jdbc/core/DirectShardCallbackTemplate.java:56 | the sharding key slot holds the argument as given (also `None`); the super key slot is unchanged |
| `ShardingContext.ShardContext.SetSuperShardingKey` | spring-jdbc/src/main/java/org/springframework/jdbc/core/DirectShardCallbackTemplate.java:58 | the super key slot holds the given key; the sharding key slot is unchanged |
| `ShardingContext.ShardContext.Clear` | spring-jdbc/src/main/java/org/springframework/jdbc/core/DirectShardCallbackTemplate.java:69 | both slots are empty afterwards, whichever of them had been set |
| `CallbackOutcome.Classify` | spring-jdbc/src/main/java/org/springframework/jdbc/core/DirectShardCallbackTemplate.java:60-67 | a value comes out exactly when the callback returned one; a wrapper is made exactly when it threw a checked throwable; rethrown throwables are unchecked, so `execute` never throws a checked one; a wrapper's cause is the original throwable (never another wrapper) and its message is the fixed string; `Recover` gives back exactly the callback's outcome, so the value or instance is passed on unchanged |
| `DirectShardCallbackTemplate.ExecuteSpec` | spring-jdbc/src/main/java/org/springframework/jdbc/core/DirectShardCallbackTemplate.java:53-71 | (the helper `During` builds the context of lines 56-59) while the callback runs, the sharding key is the argument, and the super key is the argument when one is given and otherwise whatever the slot held before the call; the result is its outcome sorted by `Classify`, so by `Classify`'s contract it reports exactly that outcome; the context is empty afterwards whatever the outcome and whatever it held before |
| `DirectShardCallbackTemplate.Callback.DoInShard` | spring-jdbc/src/main/java/org/springframework/jdbc/core/DirectShardCallbackTemplate.java:60 | the callback's outcome and next state are its step from its current state under the thread's current context, and that context is added to its invocation log |
| `DirectShardCallbackTemplate.ExecuteWithSuperKey` | spring-jdbc/src/main/java/org/springframework/jdbc/core/DirectShardCallbackTemplate.java:53-71 | the callback is invoked exactly once, under the context `ExecuteSpec` gives; the result is `ExecuteSpec`'s result for the callback's behaviour in its state before the call, and the callback's state advances by that one step; both slots are empty afterwards on every path |
| `DirectShardCallbackTemplate.Execute` | spring-jdbc/src/main/java/org/springframework/jdbc/core/DirectShardCallbackTemplate.java:48-51 | the same contract as `ExecuteWithSuperKey` with a null super key |
| `DirectShardCallbackTemplate.Session` | spring-jdbc/src/main/java/org/springframework/jdbc/core/DirectShardCallbackTemplate.java:53-71 | the definition of a run of consecutive `execute` calls on one thread, each starting from the context the previous one left; its contract states one effect per call and an empty context after every call |
| `DirectShardCallbackTemplate.SessionFromEmpty` | spring-jdbc/src/main/java/org/springframework/jdbc/core/DirectShardCallbackTemplate.java:55-70 | starting from an empty context, every callback of a run of calls sees exactly its own sharding key and super key |
| `DirectShardCallbackTemplate.SessionEachCall` | spring-jdbc/src/main/java/org/springframework/jdbc/core/DirectShardCallbackTemplate.java:55-70 | `ExecuteSpec`'s result clause at every index of a run: each call's result is its own callback's outcome, under the context it ran with, sorted by `Classify` |
| `DirectShardCallbackTemplate.SessionNoStaleContext` | spring-jdbc/src/main/java/org/springframework/jdbc/core/DirectShardCallbackTemplate.java:55-70 | whatever the thread held before, only the first callback of a run can see a stale super key; every later callback sees exactly its own keys |

## Left out

- The real thread-local storage and isolation between threads. The model has one
  context object, owned by the caller, that stands for the current thread's slots.
- `ShardingKeyDataSourceAdapter` is not part of this model. Its setters and its clear
  method are modelled from their names and their use at lines 56-59 and 69. This
  includes storing a null sharding key as an empty slot.
- Setters that throw. In Java, a failure in a setter (line 56 or 58) would still reach
  the `finally` block. The modelled setters cannot fail.
- A clear call that throws. In Java, a failure at line 69 would replace whatever the
  `try` block produced. The modelled `Clear` cannot fail.
- A null callback. The `action` parameter is not `@Nullable`, so the modelled
  `Callback` is never null. In Java a null `action` would throw a
  `NullPointerException` at line 60 after the keys are set; lines 62-63 would rethrow it
  and line 69 would clear the keys.
- Callbacks that change the context themselves, such as a nested `execute`. The
  modelled callback only reads the context. The effect of nesting on the outer call is
  described above.
- `java.sql.ShardingKey` internals. Keys are an opaque type compared by equality only.
- The no-argument constructor and bean wiring (lines 44-45), and the unused
  `InitializingBean` and `Assert` imports.
- Exception stack traces and messages other than the wrapper's fixed message.
- Connection acquisition, shard binding and cross-shard rejection in
  `DataSourceUtils` and `ShardingKeyDataSourceAdapter`. Their source is not part of
  this model, and the tests that exercise them rely on mocks.
