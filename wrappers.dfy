/** Optional values, results with errors, and mapping a fallible step over a sequence. */
module Wrappers {

  datatype Option<+T> = None | Some(value: T) {
    function GetOr(default: T): T {
      match this
      case Some(v) => v
      case None => default
    }
  }

  datatype Result<+R, +E> = Success(value: R) | Failure(error: E)

  /** The first failure of two results, or the concatenation of their values. */
  function Chain<B, E>(a: Result<seq<B>, E>, b: Result<seq<B>, E>): Result<seq<B>, E> {
    if a.Failure? then a
    else if b.Failure? then Failure(b.error)
    else Success(a.value + b.value)
  }

  lemma ChainAssociative<B, E>(a: Result<seq<B>, E>, b: Result<seq<B>, E>, c: Result<seq<B>, E>)
    ensures Chain(Chain(a, b), c) == Chain(a, Chain(b, c))
  {
    if a.Success? && b.Success? && c.Success? {
      assert a.value + b.value + c.value == a.value + (b.value + c.value);
    }
  }

  /**
   * Applies a step that can raise to every element in order; the first
   * raised error aborts the whole run, as a Python loop without `try` does.
   */
  function TryMap<A, B, E>(xs: seq<A>, f: A -> Result<B, E>): Result<seq<B>, E> {
    if xs == [] then Success([])
    else match f(xs[0])
      case Failure(e) => Failure(e)
      case Success(y) =>
        match TryMap(xs[1..], f)
        case Failure(e) => Failure(e)
        case Success(ys) => Success([y] + ys)
  }

  /** TryMap succeeds exactly when every step succeeds, and then lists the step results in order. */
  lemma {:induction false} TryMapSuccess<A, B, E>(xs: seq<A>, f: A -> Result<B, E>)
    ensures TryMap(xs, f).Success? <==> forall i :: 0 <= i < |xs| ==> f(xs[i]).Success?
    ensures TryMap(xs, f).Success? ==>
              |TryMap(xs, f).value| == |xs| &&
              forall i :: 0 <= i < |xs| ==> f(xs[i]) == Success(TryMap(xs, f).value[i])
  {
    if xs != [] {
      TryMapSuccess(xs[1..], f);
      if f(xs[0]).Success? && TryMap(xs[1..], f).Success? {
        forall i | 0 <= i < |xs| ensures f(xs[i]) == Success(TryMap(xs, f).value[i]) {
          if i > 0 { assert xs[i] == xs[1..][i - 1]; }
        }
      }
      if !TryMap(xs, f).Success? && f(xs[0]).Success? {
        var i :| 0 <= i < |xs[1..]| && !f(xs[1..][i]).Success?;
        assert xs[1..][i] == xs[i + 1];
      }
    }
  }

  /** A failing TryMap reports the error of its first failing step. */
  lemma {:induction false} TryMapFirstFailure<A, B, E>(xs: seq<A>, f: A -> Result<B, E>, k: nat)
    requires k < |xs| && f(xs[k]).Failure?
    requires forall i :: 0 <= i < k ==> f(xs[i]).Success?
    ensures TryMap(xs, f) == Failure(f(xs[k]).error)
  {
    if k > 0 {
      forall i | 0 <= i < k - 1 ensures f(xs[1..][i]).Success? {
        assert xs[1..][i] == xs[i + 1];
      }
      TryMapFirstFailure(xs[1..], f, k - 1);
    }
  }

  /** Running over a concatenation is running over each part and chaining the results. */
  lemma {:induction false} TryMapConcat<A, B, E>(a: seq<A>, b: seq<A>, f: A -> Result<B, E>)
    ensures TryMap(a + b, f) == Chain(TryMap(a, f), TryMap(b, f))
  {
    if a == [] {
      assert a + b == b;
      if TryMap(b, f).Success? { assert [] + TryMap(b, f).value == TryMap(b, f).value; }
    } else {
      assert (a + b)[0] == a[0];
      assert (a + b)[1..] == a[1..] + b;
      TryMapConcat(a[1..], b, f);
      if f(a[0]).Success? && TryMap(a[1..], f).Success? && TryMap(b, f).Success? {
        assert [f(a[0]).value] + (TryMap(a[1..], f).value + TryMap(b, f).value)
            == ([f(a[0]).value] + TryMap(a[1..], f).value) + TryMap(b, f).value;
      }
    }
  }

  /** `[f(x) for x in xs]`. */
  function MapSeq<A, B>(xs: seq<A>, f: A -> B): (r: seq<B>)
    ensures |r| == |xs|
    ensures forall i :: 0 <= i < |xs| ==> r[i] == f(xs[i])
  {
    if xs == [] then []
    else
      var n := |xs| - 1;
      assert forall i :: 0 <= i < n ==> xs[..n][i] == xs[i];
      MapSeq(xs[..n], f) + [f(xs[n])]
  }

  lemma MapSeqSnoc<A, B>(xs: seq<A>, k: nat, f: A -> B)
    requires k < |xs|
    ensures MapSeq(xs[..k + 1], f) == MapSeq(xs[..k], f) + [f(xs[k])]
  {
    assert xs[..k + 1][..k] == xs[..k];
  }

  /** The step form used by loops: one more element on the right. */
  lemma TryMapSnoc<A, B, E>(xs: seq<A>, x: A, f: A -> Result<B, E>)
    ensures TryMap(xs + [x], f) ==
              if TryMap(xs, f).Failure? then TryMap(xs, f)
              else if f(x).Failure? then Failure(f(x).error)
              else Success(TryMap(xs, f).value + [f(x).value])
  {
    TryMapConcat(xs, [x], f);
    assert [x][1..] == [];
    assert [x][0] == x;
    if f(x).Success? {
      assert [f(x).value] + [] == [f(x).value];
      assert TryMap([x], f) == Success([f(x).value]);
    } else {
      assert TryMap([x], f) == Failure(f(x).error);
    }
  }

  /**
   * One turn of a loop that maps `xs` left to right and stops at the first
   * failure: a failing element fails the whole map, a passing one extends it.
   */
  lemma TryMapStep<A, B, E>(xs: seq<A>, k: nat, f: A -> Result<B, E>, done: seq<B>)
    requires k < |xs| && TryMap(xs[..k], f) == Success(done)
    ensures f(xs[k]).Failure? ==> TryMap(xs, f) == Failure(f(xs[k]).error)
    ensures f(xs[k]).Success? ==> TryMap(xs[..k + 1], f) == Success(done + [f(xs[k]).value])
  {
    TryMapSnoc(xs[..k], xs[k], f);
    assert xs[..k + 1] == xs[..k] + [xs[k]];
    if f(xs[k]).Failure? {
      TryMapConcat(xs[..k + 1], xs[k + 1..], f);
      assert xs[..k + 1] + xs[k + 1..] == xs;
    }
  }
}
