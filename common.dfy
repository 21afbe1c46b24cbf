/** Small wrappers shared by the modules of the model. */
module Common {

  datatype Option<T> = None | Some(value: T)

  datatype Result<T, E> = Ok(value: T) | Err(error: E)

  /** The outcome of a call into a collaborator whose code is not part of this model:
      its value, or the text of the error it returned. */
  datatype Outcome<T> = Got(value: T) | Failed(cause: string)

  /** Concatenation regroups freely; stated once so that proofs about growing reply
      lists need not rediscover it element by element. */
  lemma AppendAssoc<T>(a: seq<T>, b: seq<T>, c: seq<T>)
    ensures a + b + c == a + (b + c)
  {
  }
}
