/** The two ways the scraper walks a list of nodes: collecting what each node
    yields, in order (the `.each` loops that `push`), and keeping the value
    of the last node that yields one (the `.each` loop that reassigns). */
module Lists {
  import opened Wrappers

  /** The values `f` yields on the elements of `xs`, in the order of `xs`;
      an element on which `f` yields nothing is skipped. */
  function FilterMap<A, B>(f: A -> Option<B>, xs: seq<A>): (r: seq<B>)
    ensures |r| <= |xs|
  {
    if xs == [] then []
    else
      FilterMap(f, xs[..|xs| - 1]) + match f(xs[|xs| - 1]) { case Some(y) => [y] case None => [] }
  }

  /** Collecting over a concatenation is concatenating the collections:
      order is kept and nothing is merged. */
  lemma {:induction false} FilterMapAppend<A, B>(f: A -> Option<B>, xs: seq<A>, ys: seq<A>)
    ensures FilterMap(f, xs + ys) == FilterMap(f, xs) + FilterMap(f, ys)
    decreases |ys|
  {
    if ys == [] {
      assert xs + ys == xs;
    } else {
      var n := |ys|;
      assert (xs + ys)[..|xs + ys| - 1] == xs + ys[..n - 1];
      assert (xs + ys)[|xs + ys| - 1] == ys[n - 1];
      FilterMapAppend(f, xs, ys[..n - 1]);
    }
  }

  /** Every collected value is yielded by some element. */
  lemma {:induction false} FilterMapSound<A, B>(f: A -> Option<B>, xs: seq<A>, y: B)
    requires y in FilterMap(f, xs)
    ensures exists i :: 0 <= i < |xs| && f(xs[i]) == Some(y)
  {
    var n := |xs|;
    var init := xs[..n - 1];
    var tail := match f(xs[n - 1]) { case Some(z) => [z] case None => [] };
    assert FilterMap(f, xs) == FilterMap(f, init) + tail;
    if y in FilterMap(f, init) {
      FilterMapSound(f, init, y);
      var i :| 0 <= i < n - 1 && f(init[i]) == Some(y);
      assert init[i] == xs[i];
    } else {
      assert f(xs[n - 1]) == Some(y);
    }
  }

  /** Every value an element yields is collected. */
  lemma {:induction false} FilterMapComplete<A, B>(f: A -> Option<B>, xs: seq<A>, i: int)
    requires 0 <= i < |xs| && f(xs[i]).Some?
    ensures f(xs[i]).value in FilterMap(f, xs)
  {
    var n := |xs|;
    var init := xs[..n - 1];
    var tail := match f(xs[n - 1]) { case Some(z) => [z] case None => [] };
    assert FilterMap(f, xs) == FilterMap(f, init) + tail;
    if i < n - 1 {
      assert init[i] == xs[i];
      FilterMapComplete(f, init, i);
    }
  }

  /** A value is collected exactly when some element yields it. */
  lemma FilterMapMembers<A, B>(f: A -> Option<B>, xs: seq<A>, y: B)
    ensures y in FilterMap(f, xs) <==> exists i :: 0 <= i < |xs| && f(xs[i]) == Some(y)
  {
    if y in FilterMap(f, xs) {
      FilterMapSound(f, xs, y);
    }
    if exists i :: 0 <= i < |xs| && f(xs[i]) == Some(y) {
      var i :| 0 <= i < |xs| && f(xs[i]) == Some(y);
      FilterMapComplete(f, xs, i);
    }
  }

  /** Every collected value satisfies what every yielded value satisfies. */
  lemma FilterMapAll<A, B>(f: A -> Option<B>, xs: seq<A>, p: B -> bool)
    requires forall x :: f(x).Some? ==> p(f(x).value)
    ensures forall k :: 0 <= k < |FilterMap(f, xs)| ==> p(FilterMap(f, xs)[k])
  {
    forall k | 0 <= k < |FilterMap(f, xs)|
      ensures p(FilterMap(f, xs)[k])
    {
      FilterMapMembers(f, xs, FilterMap(f, xs)[k]);
    }
  }

  /** The sequences `f` yields on the elements of `xs`, joined in the order
      of `xs`. */
  function ConcatMap<A, B>(f: A -> seq<B>, xs: seq<A>): seq<B> {
    if xs == [] then [] else ConcatMap(f, xs[..|xs| - 1]) + f(xs[|xs| - 1])
  }

  lemma {:induction false} ConcatMapAppend<A, B>(f: A -> seq<B>, xs: seq<A>, ys: seq<A>)
    ensures ConcatMap(f, xs + ys) == ConcatMap(f, xs) + ConcatMap(f, ys)
    decreases |ys|
  {
    if ys == [] {
      assert xs + ys == xs;
    } else {
      var n := |ys|;
      assert (xs + ys)[..|xs + ys| - 1] == xs + ys[..n - 1];
      assert (xs + ys)[|xs + ys| - 1] == ys[n - 1];
      ConcatMapAppend(f, xs, ys[..n - 1]);
    }
  }

  /** Every value in the joined sequence comes from some element. */
  lemma {:induction false} ConcatMapSound<A, B>(f: A -> seq<B>, xs: seq<A>, y: B)
    requires y in ConcatMap(f, xs)
    ensures exists i :: 0 <= i < |xs| && y in f(xs[i])
  {
    var n := |xs|;
    var init := xs[..n - 1];
    if y in ConcatMap(f, init) {
      ConcatMapSound(f, init, y);
      var i :| 0 <= i < n - 1 && y in f(init[i]);
      assert init[i] == xs[i];
    } else {
      assert y in f(xs[n - 1]);
    }
  }

  /** Every value an element yields is in the joined sequence. */
  lemma {:induction false} ConcatMapComplete<A, B>(f: A -> seq<B>, xs: seq<A>, i: int, y: B)
    requires 0 <= i < |xs| && y in f(xs[i])
    ensures y in ConcatMap(f, xs)
  {
    var n := |xs|;
    var init := xs[..n - 1];
    if i < n - 1 {
      assert init[i] == xs[i];
      ConcatMapComplete(f, init, i, y);
    }
  }

  /** A value is in the joined sequence exactly when an element yields it. */
  lemma ConcatMapMembers<A, B>(f: A -> seq<B>, xs: seq<A>, y: B)
    ensures y in ConcatMap(f, xs) <==> exists i :: 0 <= i < |xs| && y in f(xs[i])
  {
    if y in ConcatMap(f, xs) {
      ConcatMapSound(f, xs, y);
    }
    if exists i :: 0 <= i < |xs| && y in f(xs[i]) {
      var i :| 0 <= i < |xs| && y in f(xs[i]);
      ConcatMapComplete(f, xs, i, y);
    }
  }

  /** The value yielded by the last element of `xs` that yields one, or
      `default` when none does. */
  function LastSome<A, B>(f: A -> Option<B>, xs: seq<A>, default: B): B {
    if xs == [] then default
    else
      match f(xs[|xs| - 1])
      case Some(y) => y
      case None => LastSome(f, xs[..|xs| - 1], default)
  }

  /** `LastSome` is the default when no element yields a value, and the
      value of the element at `i` when it is the last one that does. */
  lemma {:induction false} LastSomeIsLast<A, B>(f: A -> Option<B>, xs: seq<A>, default: B)
    ensures (forall j :: 0 <= j < |xs| ==> f(xs[j]).None?) ==> LastSome(f, xs, default) == default
    ensures forall i :: 0 <= i < |xs| && f(xs[i]).Some? && (forall j :: i < j < |xs| ==> f(xs[j]).None?) ==>
      LastSome(f, xs, default) == f(xs[i]).value
  {
    if xs != [] {
      var n := |xs|;
      var init := xs[..n - 1];
      LastSomeIsLast(f, init, default);
      forall i | 0 <= i < n && f(xs[i]).Some? && (forall j :: i < j < n ==> f(xs[j]).None?)
        ensures LastSome(f, xs, default) == f(xs[i]).value
      {
        if i < n - 1 {
          assert f(xs[n - 1]).None?;
          assert init[i] == xs[i];
          assert forall j :: i < j < n - 1 ==> init[j] == xs[j];
        }
      }
      if forall j :: 0 <= j < n ==> f(xs[j]).None? {
        assert forall j :: 0 <= j < n - 1 ==> init[j] == xs[j];
      }
    }
  }
}
