/** Nested `for` loops that issue one call per (item, due date) pair send
    the concatenation of one batch per item. */
module Batches {
  import opened Common

  function Concat<T>(xss: seq<seq<T>>): seq<T> {
    if xss == [] then [] else Concat(xss[..|xss| - 1]) + xss[|xss| - 1]
  }

  lemma {:induction false} ConcatAppend<T>(a: seq<seq<T>>, b: seq<seq<T>>)
    ensures Concat(a + b) == Concat(a) + Concat(b)
    decreases |b|
  {
    if b == [] {
      assert a + b == a;
    } else {
      var front, last := b[..|b| - 1], b[|b| - 1];
      assert (a + b)[..|a + b| - 1] == a + front;
      ConcatAppend(a, front);
      calc {
        Concat(a + b);
        Concat(a + front) + last;
        Concat(a) + Concat(front) + last;
        Concat(a) + Concat(b);
      }
    }
  }

  lemma MulLe(a: nat, b: nat, n: nat)
    requires a <= b
    ensures a * n <= b * n
  {
  }

  /** When every batch has n calls, all of them make |xss| * n calls. */
  lemma {:induction false} ConcatLength<T>(xss: seq<seq<T>>, n: nat)
    requires forall i :: 0 <= i < |xss| ==> |xss[i]| == n
    ensures |Concat(xss)| == |xss| * n
    decreases |xss|
  {
    if xss != [] {
      ConcatLength(xss[..|xss| - 1], n);
    }
  }

  /** When every batch has n calls, call j * n + k is call k of batch j. */
  lemma {:induction false} ConcatAt<T>(xss: seq<seq<T>>, n: nat, j: nat, k: nat)
    requires forall i :: 0 <= i < |xss| ==> |xss[i]| == n
    requires j < |xss| && k < n
    ensures |Concat(xss)| == |xss| * n
    ensures j * n + k < |Concat(xss)| && Concat(xss)[j * n + k] == xss[j][k]
    decreases |xss|
  {
    var init := xss[..|xss| - 1];
    if j < |init| {
      ConcatAt(init, n, j, k);
      MulLe(j + 1, |init|, n);
    } else {
      if |init| > 0 {
        ConcatAt(init, n, 0, k);
      }
      assert |Concat(init)| == |init| * n;
    }
  }

  /** The calls a loop makes when the first call that raises aborts it:
      the planned calls up to and including the first failing one. */
  function UntilFailure<T, E>(planned: seq<T>, respond: nat -> Outcome<E>): (r: seq<T>)
    ensures |r| <= |planned| && r == planned[..|r|]
    ensures AllSucceeded(respond, |planned|) ==> r == planned
    ensures !AllSucceeded(respond, |planned|) ==>
      |r| >= 1 && AllSucceeded(respond, |r| - 1) && respond(|r| - 1).Raised?
  {
    var f := FirstFailure(respond, |planned|);
    if f < |planned| then planned[..f + 1] else planned
  }

  /** The position of the first call that raises among the first n, or n. */
  function FirstFailure<E>(respond: nat -> Outcome<E>, n: nat): (f: nat)
    ensures f <= n && AllSucceeded(respond, f)
    ensures f < n ==> respond(f).Raised?
  {
    if n == 0 then 0
    else
      var g := FirstFailure(respond, n - 1);
      if g < n - 1 || respond(n - 1).Raised? then g else n
  }

  /** A loop that has issued `sent`, a prefix of the plan whose last call
      raised and whose other calls returned, has issued what UntilFailure says. */
  lemma FailureStops<T, E>(planned: seq<T>, respond: nat -> Outcome<E>, sent: seq<T>)
    requires 1 <= |sent| <= |planned| && sent == planned[..|sent|]
    requires AllSucceeded(respond, |sent| - 1) && respond(|sent| - 1).Raised?
    ensures !AllSucceeded(respond, |planned|) && UntilFailure(planned, respond) == sent
  {
    assert respond(|sent| - 1).Raised?;
  }

  /** A call that raises at position j bounds the calls made to j + 1. */
  lemma FailureBound<T, E>(planned: seq<T>, respond: nat -> Outcome<E>, j: nat)
    requires j < |planned| && respond(j).Raised?
    ensures !AllSucceeded(respond, |planned|) && |UntilFailure(planned, respond)| <= j + 1
  {
  }

  lemma SentPrefix<T>(done: seq<T>, batch: seq<T>, issued: seq<T>)
    requires |issued| <= |batch| && issued == batch[..|issued|]
    ensures done + issued == (done + batch)[..|done| + |issued|]
  {
  }

  lemma TakeOneMore<T>(s: seq<T>, k: nat)
    requires k < |s|
    ensures s[..k + 1] == s[..k] + [s[k]]
  {
  }
}
