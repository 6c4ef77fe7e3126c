/** The optional-value datatype and the sequence facts used throughout the model. */
module Wrappers {
  datatype Option<+T> = None | Some(value: T)

  /** Concatenation regroups freely. */
  lemma Associative<T>(a: seq<T>, b: seq<T>, c: seq<T>)
    ensures a + b + c == a + (b + c)
  {
  }

  /** Appending nothing leaves a sequence as it is. */
  lemma AppendNil<T>(a: seq<T>)
    ensures a + [] == a
  {
  }
}
