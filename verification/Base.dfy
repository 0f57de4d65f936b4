/** Shared failure-compatible datatypes and the identifiers every module uses. */
module Base {

  datatype Option<+T> = None | Some(value: T) {
    predicate IsFailure() {
      None?
    }

    function PropagateFailure<U>(): Option<U>
      requires None?
    {
      None
    }

    function Extract(): T
      requires Some?
    {
      value
    }
  }

  datatype Result<+T, +E> = Ok(value: T) | Err(error: E) {
    predicate IsFailure() {
      Err?
    }

    function PropagateFailure<U>(): Result<U, E>
      requires Err?
    {
      Err(error)
    }

    function Extract(): T
      requires Ok?
    {
      value
    }
  }

  /** A queue with one element removed. */
  function Without(queue: seq<nat>, x: nat): (r: seq<nat>)
    ensures forall y :: y in r <==> y in queue && y != x
  {
    if queue == [] then []
    else (if queue[0] == x then [] else [queue[0]]) + Without(queue[1..], x)
  }

  /** UUIDs, digests and opaque tokens are only ever compared for equality. */
  datatype Uuid = Uuid(token: nat)

  /** The result of a long check; opaque where it is only carried along. */
  datatype Audit = Passed | Flawed
}
