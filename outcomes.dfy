/** The two result shapes the model uses in place of Go's nil pointers and
    (value, error) pairs. */
module Outcomes {

  datatype Option<+T> = None | Some(value: T)

  /** What a Go call ends in: a value; an error, as the list of contexts that
      errors.Wrap put around it, outermost first; a run-time panic; or, for the
      unbounded progress poll, a finite script of server replies that ran out
      before the batch reported completion (the program would still be polling). */
  datatype Outcome<+T> =
    | Ok(value: T)
    | Err(trail: seq<string>)
    | Panic(reason: string)
    | Unterminated

  /** errors.Wrap on a non-nil error: add a context in front; a panic or an
      unfinished poll passes through unchanged. */
  function Wrap<T, U>(context: string, o: Outcome<T>): (r: Outcome<U>)
    requires !o.Ok?
    ensures o.Err? ==> r == Err([context] + o.trail)
    ensures o.Panic? ==> r == Panic(o.reason)
    ensures o.Unterminated? ==> r.Unterminated?
  {
    match o
    case Err(trail) => Err([context] + trail)
    case Panic(reason) => Panic(reason)
    case Unterminated => Unterminated
  }

  /** A failure handed on unchanged (Go's `return nil, err`). */
  function Propagate<T, U>(o: Outcome<T>): (r: Outcome<U>)
    requires !o.Ok?
    ensures !r.Ok?
    ensures o.Err? <==> r.Err?
  {
    match o
    case Err(trail) => Err(trail)
    case Panic(reason) => Panic(reason)
    case Unterminated => Unterminated
  }
}
