/** Types and operations that several components use. */
module Wrappers {
  datatype Option<+T> = None | Some(value: T)

  /** How a call to another system ends: it may fail without effect, or take effect and lose its answer. */
  datatype Call = Answers | Fails | LosesAnswer

  /** Some element of a set. */
  method Any<T>(s: set<T>) returns (x: T)
    requires s != {}
    ensures x in s
  {
    x :| x in s;
  }
}
