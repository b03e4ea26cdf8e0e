/**
 * The shape of every accumulating loop in app.py: visit the elements in
 * order, append what each contributes, and stop at the first one that raises.
 */
module Gather {
  import opened Wrappers

  /** Two stages run one after the other with their outputs appended; the first failure wins. */
  function Then<U, E>(a: Result<seq<U>, E>, b: Result<seq<U>, E>): Result<seq<U>, E>
  {
    match a
    case Failure(e) => Failure(e)
    case Success(x) =>
      match b
      case Failure(e) => Failure(e)
      case Success(y) => Success(x + y)
  }

  /** What f contributes for each element of xs, in order, appended; the first failure stops it. */
  function FlatMap<T, U, E>(xs: seq<T>, f: T -> Result<seq<U>, E>): (r: Result<seq<U>, E>)
    ensures |xs| == 1 ==> r == f(xs[0])
  {
    if xs == [] then Success([])
    else
      var first := f(xs[0]);
      assert |xs| == 1 ==> xs[1..] == [];
      assert first.Success? ==> first.value + [] == first.value;
      Then(first, FlatMap(xs[1..], f))
  }

  lemma ThenAssociative<U, E>(a: Result<seq<U>, E>, b: Result<seq<U>, E>, c: Result<seq<U>, E>)
    ensures Then(Then(a, b), c) == Then(a, Then(b, c))
  {
    if a.Success? && b.Success? && c.Success? {
      assert a.value + b.value + c.value == a.value + (b.value + c.value);
    }
  }

  lemma {:induction false} FlatMapAppend<T, U, E>(xs: seq<T>, ys: seq<T>, f: T -> Result<seq<U>, E>)
    ensures FlatMap(xs + ys, f) == Then(FlatMap(xs, f), FlatMap(ys, f))
  {
    if xs == [] {
      assert xs + ys == ys;
      var r := FlatMap(ys, f);
      if r.Success? {
        assert [] + r.value == r.value;
      }
    } else {
      assert (xs + ys)[0] == xs[0];
      assert (xs + ys)[1..] == xs[1..] + ys;
      FlatMapAppend(xs[1..], ys, f);
      ThenAssociative(f(xs[0]), FlatMap(xs[1..], f), FlatMap(ys, f));
    }
  }

  /** One more element: the loop body's step. */
  lemma FlatMapSnoc<T, U, E>(xs: seq<T>, x: T, f: T -> Result<seq<U>, E>)
    ensures FlatMap(xs + [x], f) == Then(FlatMap(xs, f), f(x))
  {
    FlatMapAppend(xs, [x], f);
    assert [x][1..] == [];
    var r := f(x);
    if r.Success? {
      assert r.value + [] == r.value;
    }
  }

  /** One more element either extends what the loop gathered by its contribution or decides the whole loop. */
  lemma FlatMapStep<T, U, E>(xs: seq<T>, i: nat, f: T -> Result<seq<U>, E>, acc: seq<U>)
    requires i < |xs|
    requires FlatMap(xs[..i], f) == Success(acc)
    ensures f(xs[i]).Success? ==> FlatMap(xs[..i + 1], f) == Success(acc + f(xs[i]).value)
    ensures f(xs[i]).Failure? ==> FlatMap(xs, f) == f(xs[i])
  {
    assert xs[..i + 1] == xs[..i] + [xs[i]];
    FlatMapSnoc(xs[..i], xs[i], f);
    if f(xs[i]).Failure? {
      FlatMapStopsEarly(xs, i, f);
    }
  }

  /** A failure among the first k + 1 elements is the failure of the whole. */
  lemma FlatMapStopsEarly<T, U, E>(xs: seq<T>, k: nat, f: T -> Result<seq<U>, E>)
    requires k < |xs|
    requires FlatMap(xs[..k + 1], f).Failure?
    ensures FlatMap(xs, f) == FlatMap(xs[..k + 1], f)
  {
    assert xs == xs[..k + 1] + xs[k + 1..];
    FlatMapAppend(xs[..k + 1], xs[k + 1..], f);
  }

  /** The whole fails exactly when some element fails, and then with the first such element's failure. */
  lemma {:induction false} FlatMapFailure<T, U, E>(xs: seq<T>, f: T -> Result<seq<U>, E>)
    ensures FlatMap(xs, f).Failure? <==> exists i :: 0 <= i < |xs| && f(xs[i]).Failure?
    ensures FlatMap(xs, f).Failure? ==>
      exists i :: 0 <= i < |xs| && f(xs[i]) == FlatMap(xs, f) && forall j :: 0 <= j < i ==> f(xs[j]).Success?
  {
    if xs != [] {
      FlatMapFailure(xs[1..], f);
      if f(xs[0]).Failure? {
        assert f(xs[0]) == FlatMap(xs, f);
      } else {
        if exists i :: 0 <= i < |xs[1..]| && f(xs[1..][i]).Failure? {
          var i :| 0 <= i < |xs[1..]| && f(xs[1..][i]) == FlatMap(xs[1..], f)
                   && forall j :: 0 <= j < i ==> f(xs[1..][j]).Success?;
          assert f(xs[i + 1]) == FlatMap(xs, f);
          forall j | 0 <= j < i + 1
            ensures f(xs[j]).Success?
          {
            if j > 0 { assert xs[j] == xs[1..][j - 1]; }
          }
        } else {
          forall i | 0 <= i < |xs|
            ensures f(xs[i]).Success?
          {
            if i > 0 { assert xs[i] == xs[1..][i - 1]; }
          }
        }
      }
    }
  }

  /** Every element of a successful whole comes from what some element contributed. */
  lemma {:induction false} FlatMapMembers<T, U, E>(xs: seq<T>, f: T -> Result<seq<U>, E>, ys: seq<U>)
    requires FlatMap(xs, f) == Success(ys)
    ensures forall k :: 0 <= k < |ys| ==>
      exists i :: 0 <= i < |xs| && f(xs[i]).Success? && ys[k] in f(xs[i]).value
  {
    if xs != [] {
      var head := f(xs[0]).value;
      var tail := FlatMap(xs[1..], f).value;
      assert ys == head + tail;
      FlatMapMembers(xs[1..], f, tail);
      forall k | 0 <= k < |ys|
        ensures exists i :: 0 <= i < |xs| && f(xs[i]).Success? && ys[k] in f(xs[i]).value
      {
        if k < |head| {
          assert ys[k] == head[k];
          assert f(xs[0]).Success? && ys[k] in f(xs[0]).value;
        } else {
          assert ys[k] == tail[k - |head|];
          var i :| 0 <= i < |xs[1..]| && f(xs[1..][i]).Success? && tail[k - |head|] in f(xs[1..][i]).value;
          assert xs[1..][i] == xs[i + 1];
        }
      }
    }
  }

  /** Conversely, everything every element contributed is in a successful whole. */
  lemma {:induction false} FlatMapIncludes<T, U, E>(xs: seq<T>, f: T -> Result<seq<U>, E>, ys: seq<U>)
    requires FlatMap(xs, f) == Success(ys)
    ensures forall i :: 0 <= i < |xs| ==>
      f(xs[i]).Success? && forall u :: u in f(xs[i]).value ==> u in ys
  {
    if xs != [] {
      var head := f(xs[0]).value;
      var tail := FlatMap(xs[1..], f).value;
      assert ys == head + tail;
      FlatMapIncludes(xs[1..], f, tail);
      forall i | 0 <= i < |xs|
        ensures f(xs[i]).Success? && forall u :: u in f(xs[i]).value ==> u in ys
      {
        if i > 0 {
          assert xs[i] == xs[1..][i - 1];
        }
      }
    }
  }

  /** When every element before position i succeeds and the one at i fails, the whole is that failure. */
  lemma FlatMapFailsAt<T, U, E>(xs: seq<T>, f: T -> Result<seq<U>, E>, i: nat)
    requires i < |xs|
    requires forall j :: 0 <= j < i ==> f(xs[j]).Success?
    requires f(xs[i]).Failure?
    ensures FlatMap(xs, f) == f(xs[i])
  {
    var before := xs[..i];
    FlatMapFailure(before, f);
    assert FlatMap(before, f).Success? by {
      forall j | 0 <= j < |before|
        ensures f(before[j]).Success?
      {
        assert before[j] == xs[j];
      }
    }
    assert xs[..i + 1] == before + [xs[i]];
    FlatMapSnoc(before, xs[i], f);
    FlatMapStopsEarly(xs, i, f);
  }
}
