/** Small value types shared by the three scripts' models. */
module Common {

  datatype Option<+T> = None | Some(value: T)

  datatype Result<+T, +E> = Ok(value: T) | Err(error: E)

  /** What one remote call did: returned normally, or raised an exception
      of class E. */
  datatype Outcome<+E> = Succeeded | Raised(error: E)

  /** The first n remote calls all returned normally. */
  predicate AllSucceeded<E>(respond: nat -> Outcome<E>, n: nat) {
    forall j: nat :: j < n ==> respond(j).Succeeded?
  }

  /** Calls lo .. hi-1 all returned normally. */
  predicate SucceededFrom<E>(respond: nat -> Outcome<E>, lo: nat, hi: nat) {
    forall j: nat :: lo <= j < hi ==> respond(j).Succeeded?
  }

  lemma SucceededJoin<E>(respond: nat -> Outcome<E>, a: nat, b: nat)
    requires a <= b && AllSucceeded(respond, a) && SucceededFrom(respond, a, b)
    ensures AllSucceeded(respond, b)
  {
  }

  /** What one `create_todo` call did: the request it handed to the remote
      service, if it got that far, and the exception it let escape, if any. */
  datatype Call<+R, +E> = Call(sent: Option<R>, raised: Option<E>)
}
