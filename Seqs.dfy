/** Sequence helpers shared by the normaliser. */
module Seqs {
  import opened Wrappers

  /** JavaScript's `xs.map((x, i) => f(x, from + i))` where `f` may throw:
      the elements are mapped left to right and the first thrown error
      escapes. */
  function Traverse<A, B, E>(xs: seq<A>, from: nat, f: (A, nat) -> Result<B, E>): (r: Result<seq<B>, E>)
    ensures r.Success? <==> forall i :: 0 <= i < |xs| ==> f(xs[i], from + i).Success?
    ensures r.Success? ==> |r.value| == |xs|
    ensures r.Success? ==> forall i :: 0 <= i < |xs| ==> r.value[i] == f(xs[i], from + i).value
    ensures r.Failure? ==> FirstFailure(xs, from, f, r.error)
    decreases |xs|
  {
    if xs == [] then Success([])
    else
      match f(xs[0], from)
      case Failure(e) =>
        assert FirstFailureAt(xs, from, f, e, 0);
        Failure(e)
      case Success(y) =>
        var rest := Traverse(xs[1..], from + 1, f);
        assert forall i :: 1 <= i < |xs| ==> xs[i] == xs[1..][i - 1] && from + i == from + 1 + (i - 1);
        match rest
        case Failure(e) =>
          assert FirstFailure(xs, from, f, e) by {
            var k :| FirstFailureAt(xs[1..], from + 1, f, e, k);
            assert FirstFailureAt(xs, from, f, e, k + 1);
          }
          Failure(e)
        case Success(ys) => Success([y] + ys)
  }

  /** Element `k` is the first whose mapping throws, and it throws `e`. */
  ghost predicate FirstFailureAt<A, B, E>(xs: seq<A>, from: nat, f: (A, nat) -> Result<B, E>, e: E, k: int)
  {
    && 0 <= k < |xs|
    && f(xs[k], from + k).Failure?
    && f(xs[k], from + k).error == e
    && forall j :: 0 <= j < k ==> f(xs[j], from + j).Success?
  }

  ghost predicate FirstFailure<A, B, E>(xs: seq<A>, from: nat, f: (A, nat) -> Result<B, E>, e: E)
  {
    exists k :: FirstFailureAt(xs, from, f, e, k)
  }
}
