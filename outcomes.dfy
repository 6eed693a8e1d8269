/** Optional values and the exceptions the backend raises, catches and
    turns into messages. A Python call that may raise becomes a function
    returning an Outcome; the exception's class is the constructor of
    Exception and str(e) is ExceptionText. */
module Outcomes {
  import opened Text

  datatype Option<+T> = None | Some(value: T)

  /** The exception classes the core distinguishes. */
  datatype Exception =
    | HttpException(status: nat, detail: string)   // fastapi.HTTPException
    | ValidationError(message: string)             // pydantic.ValidationError
    | UnboundLocalError(variable: string)          // reading a never-bound local
    | RuntimeError(message: string)                // anything else (database, agents)

  /** The text around the variable's name in an unbound-local message. */
  const UnboundOpening := "cannot access local variable '"
  const UnboundClosing := "' where it is not associated with a value"

  /** str(e). Starlette renders an HTTPException as "<status>: <detail>"
      with the status in decimal; the unbound-local text is the one of
      Python 3.11 and later. */
  function ExceptionText(e: Exception): (r: string)
    ensures e.HttpException? ==>
      |r| >= |e.detail| + 3 && r[|r| - |e.detail| - 2..] == ": " + e.detail
    ensures e.HttpException? ==>
      var digits := r[..|r| - |e.detail| - 2];
      && (forall k :: 0 <= k < |digits| ==> '0' <= digits[k] <= '9')
      && DigitsValue(digits) == e.status && (digits[0] == '0' ==> e.status == 0)
    ensures e.UnboundLocalError? ==> OccursAt(r, e.variable, |UnboundOpening|)
    ensures e.ValidationError? || e.RuntimeError? ==> r == e.message
  {
    match e
    case HttpException(status, detail) =>
      var digits := DecimalText(status);
      var r := digits + ": " + detail;
      assert r[..|r| - |detail| - 2] == digits;
      r
    case ValidationError(message) => message
    case UnboundLocalError(variable) => UnboundOpening + variable + UnboundClosing
    case RuntimeError(message) => message
  }

  /** The result of a call that either returns a value or raises. */
  datatype Outcome<+T> = Ok(value: T) | Err(error: Exception) {
    predicate IsFailure() {
      Err?
    }

    function PropagateFailure<U>(): Outcome<U>
      requires Err?
    {
      Err(error)
    }

    function Extract(): T
      requires Ok?
    {
      value
    }
  }
}
