/** Result and option types shared by the models. */
module Wrappers {
  datatype Option<+T> = None | Some(value: T)

  /** A value, or the fact that the operation raised. */
  datatype Result<+T> = Ok(value: T) | Err

  lemma ConcatAssociates<T>(a: seq<T>, b: seq<T>, c: seq<T>)
    ensures (a + b) + c == a + (b + c)
  {
  }
}
