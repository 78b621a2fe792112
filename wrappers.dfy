/** The optional value the navigator uses for its three single-occupancy slots
    (Swift's `T?`). */
module Wrappers {

  datatype Option<+T> = None | Some(value: T)

  /** 1 when the slot holds a value, 0 when it is empty. */
  function Occupancy<T>(o: Option<T>): (n: nat)
    ensures n <= 1
    ensures n == 1 <==> o.Some?
  {
    if o.Some? then 1 else 0
  }
}
