/** Option and Result, used for the source's `null` returns and thrown exceptions. */
module Wrappers {

  datatype Option<+T> = None | Some(value: T) {
    function GetOr(default: T): T
    {
      match this
      case Some(v) => v
      case None => default
    }
  }

  datatype Result<+R, +E> = Success(value: R) | Failure(error: E)

  /**
   * A run of calls made in order, the first that throws ending the run:
   * every value when no call failed, otherwise the first error.
   */
  function AllOf<R, E>(rs: seq<Result<R, E>>): (r: Result<seq<R>, E>)
    ensures r.Success? <==> forall k :: 0 <= k < |rs| ==> rs[k].Success?
    ensures r.Success? ==> |r.value| == |rs| && forall k :: 0 <= k < |rs| ==> r.value[k] == rs[k].value
  {
    if rs == [] then Success([])
    else match rs[0]
      case Failure(e) => Failure(e)
      case Success(v) =>
        match AllOf(rs[1..])
        case Failure(e) => Failure(e)
        case Success(vs) => Success([v] + vs)
  }

  /** A failed run reports the error of its first failed call; the calls before it succeeded. */
  lemma {:induction false} AllOfFirstFailure<R, E>(rs: seq<Result<R, E>>)
    requires AllOf(rs).Failure?
    ensures exists k ::
      && 0 <= k < |rs| && rs[k] == Failure(AllOf(rs).error)
      && forall j :: 0 <= j < k ==> rs[j].Success?
  {
    if rs[0].Failure? {
      assert rs[0] == Failure(AllOf(rs).error);
    } else {
      AllOfFirstFailure(rs[1..]);
      var k :|
        && 0 <= k < |rs[1..]| && rs[1..][k] == Failure(AllOf(rs[1..]).error)
        && forall j :: 0 <= j < k ==> rs[1..][j].Success?;
      assert rs[k + 1] == rs[1..][k];
      assert forall j :: 1 <= j < k + 1 ==> rs[j] == rs[1..][j - 1];
    }
  }

  /**
   * The elements satisfying `p`, in their order and as often as they occur:
   * LINQ's `Where`, and `OfType<T>()` with `p` a kind test.
   */
  function Filter<T(==,!new)>(xs: seq<T>, p: T -> bool): (r: seq<T>)
    ensures |r| <= |xs|
    ensures forall k :: 0 <= k < |r| ==> p(r[k])
    ensures forall x :: x in r <==> x in xs && p(x)
    ensures forall x :: multiset(r)[x] == if p(x) then multiset(xs)[x] else 0
  {
    if xs == [] then []
    else
      assert xs == [xs[0]] + xs[1..];
      if p(xs[0]) then [xs[0]] + Filter(xs[1..], p) else Filter(xs[1..], p)
  }

  /** Filtering keeps the order of the input: filtering a concatenation concatenates the filtered parts. */
  lemma {:induction false} FilterAppend<T(!new)>(a: seq<T>, b: seq<T>, p: T -> bool)
    ensures Filter(a + b, p) == Filter(a, p) + Filter(b, p)
    decreases |a|
  {
    if a == [] {
      assert a + b == b;
    } else {
      assert (a + b)[0] == a[0] && (a + b)[1..] == a[1..] + b;
      FilterAppend(a[1..], b, p);
    }
  }

  /** A single element is kept exactly when it satisfies the predicate. */
  lemma FilterSingle<T(!new)>(x: T, p: T -> bool)
    ensures Filter([x], p) == if p(x) then [x] else []
  {
    assert [x][1..] == [];
  }

  /** Appending one element after a concatenation. */
  lemma AppendOneAssoc<T>(x: seq<T>, y: seq<T>, e: T)
    ensures (x + y) + [e] == x + (y + [e])
  {
  }

  /** A non-empty sequence is its front followed by its last element. */
  lemma SplitLast<T>(xs: seq<T>)
    requires xs != []
    ensures xs == xs[..|xs| - 1] + [xs[|xs| - 1]]
  {
  }

  /** The empty sequence is a unit of concatenation. */
  lemma AppendEmpty<T>(xs: seq<T>)
    ensures xs + [] == xs && [] + xs == xs
  {
  }

  /** A prefix of a prefix is a prefix. */
  lemma PrefixOfPrefix<T>(xs: seq<T>, k: nat, n: nat)
    requires k <= n <= |xs|
    ensures xs[..n][..k] == xs[..k]
  {
  }

  /** Taking every element gives the sequence back. */
  lemma TakeAll<T>(xs: seq<T>)
    ensures xs[..|xs|] == xs
  {
  }

  /** Replacing element `i` and taking `i + 1` elements is the old front with the new element. */
  lemma UpdateTake<T>(xs: seq<T>, i: nat, x: T)
    requires i < |xs|
    ensures xs[i := x][..i + 1] == xs[..i] + [x]
  {
  }

  /** Replacing element `i` leaves everything after it as it was. */
  lemma UpdateDrop<T>(xs: seq<T>, ys: seq<T>, i: nat, x: T)
    requires i < |xs| == |ys| && xs[i..] == ys[i..]
    ensures xs[i := x][i + 1..] == ys[i + 1..] && xs[i] == ys[i]
  {
    assert xs[i..][0] == ys[i..][0];
    assert xs[i..][1..] == ys[i..][1..];
  }
}
