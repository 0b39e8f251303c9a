/** The result shapes that the other modules share, and one fact of sequences. */
module Wrappers {
  datatype Option<+T> = None | Some(value: T)

  /** How one step against the outside world ends. `Failed` is an exception the
      caller may catch; `Crashed` is the process dying, which nothing catches. */
  datatype Outcome = Done | Failed | Crashed

  lemma {:induction false} Associate<T>(a: seq<T>, b: seq<T>, c: seq<T>)
    ensures (a + b) + c == a + (b + c)
  {
  }
}
