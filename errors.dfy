/** Failure values of the service: the Python exceptions that the core raises or lets
    propagate, and the Option/Result wrappers that carry them in the model. */
module Errors {

  datatype Option<+T> = None | Some(value: T)

  /** The exception kinds that can reach the dispatcher. Messages are opaque text. */
  datatype Error =
    | ValidationError(message: string)                // pydantic: a field constraint failed
    | ConfigError(message: string)                    // RuntimeError: no provider credential
    | ProviderError(typeName: string, message: string) // whatever the provider client raises
    | ParseError(message: string)                     // json.loads on the provider reply
    | PayloadTypeError(message: string)               // item assignment on a non-dict payload

  /** The name Python's `type(e).__name__` gives for each kind. */
  function TypeName(e: Error): string
  {
    match e
    case ValidationError(_) => "ValidationError"
    case ConfigError(_) => "RuntimeError"
    case ProviderError(t, _) => t
    case ParseError(_) => "JSONDecodeError"
    case PayloadTypeError(_) => "TypeError"
  }

  function Message(e: Error): string
  {
    match e
    case ValidationError(m) => m
    case ConfigError(m) => m
    case ProviderError(_, m) => m
    case ParseError(m) => m
    case PayloadTypeError(m) => m
  }

  /** The short error text the dispatcher logs: `f"{type(e).__name__}: {e}"`. */
  function Describe(e: Error): (s: string)
    ensures |s| == |TypeName(e)| + 2 + |Message(e)|
    ensures s[..|TypeName(e)|] == TypeName(e)
    ensures s[|TypeName(e)|..] == ": " + Message(e)
  {
    TypeName(e) + ": " + Message(e)
  }

  /** The logged text tells the service's own failures apart: a missing credential, a reply
      that is not JSON, a non-object reply and a failed validation never log the same text,
      and within one kind the text determines the message. (A provider exception carries a
      type name chosen by the client library, so it is not covered.) */
  lemma {:induction false} DescribeDeterminesError(e1: Error, e2: Error)
    requires !e1.ProviderError? && !e2.ProviderError?
    ensures Describe(e1) == Describe(e2) <==> e1 == e2
  {
    if Describe(e1) == Describe(e2) {
      assert Describe(e1)[0] == TypeName(e1)[0];
      assert Describe(e2)[0] == TypeName(e2)[0];
      assert TypeName(e1) == TypeName(e2);
      var n := |TypeName(e1)|;
      assert ": " + Message(e1) == Describe(e1)[n..] == ": " + Message(e2);
      assert Message(e1) == (": " + Message(e1))[2..];
      assert Message(e2) == (": " + Message(e2))[2..];
    }
  }

  datatype Result<+T> = Ok(value: T) | Err(error: Error) {
    predicate IsFailure() { Err? }

    function PropagateFailure<U>(): Result<U>
      requires Err?
    {
      Err(error)
    }

    function Extract(): T
      requires Ok?
    {
      value
    }
  }
}
