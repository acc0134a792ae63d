/**
 How a Python call ends, and which foreign call the environment makes raise.
 */
module Outcomes {

  datatype Option<+T> = None | Some(value: T)

  /** A call either returns a value or raises an exception whose `str()` is `text`. */
  datatype Outcome<+T> = Returned(value: T) | Raised(text: string)

  /** The environment's choice that the foreign call `at` raises with `text`. */
  datatype Fault<C> = Fault(at: C, text: string)

  /** True iff `fault` makes the call `c` raise. */
  predicate Hits<C(==)>(fault: Option<Fault<C>>, c: C)
  {
    fault.Some? && fault.value.at == c
  }
}
