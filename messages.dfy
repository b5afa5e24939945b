/**
 * The values that travel through the server dispatch chain: handler values,
 * errors, the property bag, request and return messages, and the terminal
 * state of an asynchronous result.
 */
module Messages {

  import opened Wrappers

  /** An application object produced or consumed by a handler; opaque to the dispatch core. */
  type Value(==)

  /** A Python value as a message field holds it: `None` is a value of its own. */
  datatype PyValue = PyNone | Obj(obj: Value)

  /** The exceptions the dispatch core raises or carries. */
  datatype Error =
    | Exception(message: string)     // a plain Exception built with a message
    | AttributeError(name: string)   // getattr found no attribute of that name
    | KeyError(key: PropertyKey)     // a property missing from a message's bag
    | Raised(cause: Value)           // whatever a handler method raised

  /** The keys of a message's property bag that this core reads or writes. */
  datatype PropertyKey = SequenceId | Method

  datatype PropertyValue = Number(n: int) | Text(s: string)

  type Properties = map<PropertyKey, PropertyValue>

  /** A deserialized call: the method name, its arguments and its property bag. */
  datatype RequestMessage = RequestMessage(
    methodName: string,
    args: seq<PyValue>,
    kwargs: map<string, PyValue>,
    properties: Properties)

  /**
   * A MethodReturnMessage. Its constructor defaults both fields to `None`;
   * `error` is `None` exactly when no exception is carried.
   */
  datatype ReturnMessage = ReturnMessage(
    returnValue: PyValue,
    error: Option<Error>,
    properties: Properties)

  /** How a handler invocation ended: the value it returned or the exception it raised. */
  datatype Outcome = Succeeded(value: PyValue) | Failed(failure: Error)

  /** An AsyncResult: pending until it is completed once with an outcome. */
  datatype AsyncResult = Pending | Completed(outcome: Outcome)

  /** AsyncResult.Complete(): an already completed result with no value. */
  function CompleteResult(): AsyncResult
  {
    Completed(Succeeded(PyNone))
  }

  /**
   * How a caller reads a return message back: an error that is present wins,
   * otherwise the return value is the result. This is the inverse the reply
   * construction is checked against.
   */
  function ReadReply(m: ReturnMessage): Outcome
  {
    if m.error.Some? then Failed(m.error.value) else Succeeded(m.returnValue)
  }

  /** A return message never carries both a return value and an error. */
  predicate NeverBoth(m: ReturnMessage)
  {
    m.error.Some? ==> m.returnValue == PyNone
  }
}
