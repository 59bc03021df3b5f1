/** What a DirectShardCallback can do when it runs, and how the template's
    catch clauses turn that into what `execute` returns or throws. */
module CallbackOutcome {

  /** A throwable raised by the callback. `id` identifies the instance, so
      "the same instance" is equality of values.
      - Runtime: any RuntimeException, UndeclaredThrowableException included;
      - Err:     any java.lang.Error;
      - Checked: every other Throwable (a checked Exception, or a direct
                 Throwable subclass that is neither Exception nor Error). */
  datatype Failure = Runtime(id: nat) | Err(id: nat) | Checked(id: nat)

  /** Java's unchecked throwables: the ones `catch (RuntimeException | Error ex)`
      catches, and the only ones a method may throw without declaring them. */
  predicate Unchecked(f: Failure) {
    f.Runtime? || f.Err?
  }

  /** How `doInShard` ends: it returns a value or throws. */
  datatype Outcome<T> = Value(value: T) | Raised(failure: Failure)

  /** How `execute` ends.
      - Returned:   the callback's value, returned to the caller;
      - Rethrown:   a throwable propagated as it is;
      - Undeclared: a new UndeclaredThrowableException carrying `cause` and
                    `message`. */
  datatype Result<T> =
    | Returned(value: T)
    | Rethrown(thrown: Failure)
    | Undeclared(cause: Failure, message: string)

  /** The detail message every wrapper carries. */
  const UndeclaredMessage: string := "ShardingKeyAwareCallback threw undeclared checked exception"

  /** The callback outcome a result reports: the returned value, or the
      throwable the callback raised (a wrapper's cause). This is the partner of
      Classify: reading a result back gives exactly what the callback did. */
  function Recover<T>(r: Result<T>): Outcome<T> {
    match r
    case Returned(v) => Value(v)
    case Rethrown(f) => Raised(f)
    case Undeclared(c, _) => Raised(c)
  }

  /** The try/catch of `execute`: a value is returned as it is, an unchecked
      throwable is rethrown as it is, anything else is wrapped once. */
  function Classify<T>(o: Outcome<T>): (r: Result<T>)
    // nothing is lost: the value, or the very throwable instance, is in the result
    ensures Recover(r) == o
    // a value comes out only when the callback returned one
    ensures r.Returned? <==> o.Value?
    // a wrapper is made exactly when the callback threw a checked throwable
    ensures r.Undeclared? <==> (o.Raised? && !Unchecked(o.failure))
    // what escapes unwrapped is unchecked, so `execute` never throws a checked throwable
    ensures r.Rethrown? ==> Unchecked(r.thrown)
    // a wrapper wraps a checked throwable (never another wrapper) with the fixed message
    ensures r.Undeclared? ==> !Unchecked(r.cause) && r.message == UndeclaredMessage
  {
    match o
    case Value(v) => Returned(v)
    case Raised(f) => if Unchecked(f) then Rethrown(f) else Undeclared(f, UndeclaredMessage)
  }
}
