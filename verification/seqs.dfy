/** Order-preserving filtering of sequences: the model of a Python list comprehension with an `if`. */
module Seqs {
  import opened Results

  /** `r` can be obtained from `s` by deleting elements, keeping the order of the rest. */
  ghost predicate IsSubsequence<T>(r: seq<T>, s: seq<T>)
    decreases |s|
  {
    if r == [] then true
    else if s == [] then false
    else if r[0] == s[0] then IsSubsequence(r[1..], s[1..])
    else IsSubsequence(r, s[1..])
  }

  /** `[x for x in s if p(x)]` */
  function Filter<T>(p: T -> bool, s: seq<T>): (r: seq<T>)
    ensures |r| <= |s|
    ensures forall i :: 0 <= i < |r| ==> r[i] in s && p(r[i])
    ensures forall i :: 0 <= i < |s| && p(s[i]) ==> s[i] in r
  {
    if s == [] then []
    else if p(s[0]) then [s[0]] + Filter(p, s[1..])
    else Filter(p, s[1..])
  }

  /** Filtering keeps the surviving elements in their original relative order. */
  lemma {:induction false} FilterIsSubsequence<T>(p: T -> bool, s: seq<T>)
    ensures IsSubsequence(Filter(p, s), s)
  {
    if s != [] {
      FilterIsSubsequence(p, s[1..]);
      if p(s[0]) {
        assert Filter(p, s) == [s[0]] + Filter(p, s[1..]);
        assert Filter(p, s)[1..] == Filter(p, s[1..]);
      } else {
        SubsequenceDropHead(Filter(p, s[1..]), s);
      }
    }
  }

  /** A subsequence of the tail of `s` is a subsequence of `s`. */
  lemma {:induction false} SubsequenceDropHead<T>(r: seq<T>, s: seq<T>)
    requires s != []
    requires IsSubsequence(r, s[1..])
    ensures IsSubsequence(r, s)
    decreases |s|, 0
  {
    if r != [] && r[0] == s[0] {
      // r[1..] is a subsequence of s[1..] because r is.
      SubsequenceTail(r, s[1..]);
    }
  }

  /** Dropping the first element of a subsequence keeps it a subsequence. */
  lemma {:induction false} SubsequenceTail<T>(r: seq<T>, s: seq<T>)
    requires r != []
    requires IsSubsequence(r, s)
    ensures IsSubsequence(r[1..], s)
    decreases |s|, 1
  {
    if s != [] {
      if r[0] == s[0] {
        SubsequenceDropHead(r[1..], s);
      } else {
        SubsequenceTail(r, s[1..]);
        SubsequenceDropHead(r[1..], s);
      }
    }
  }

  /** Filtering with an always-true predicate is the identity. */
  lemma {:induction false} FilterAll<T>(p: T -> bool, s: seq<T>)
    requires forall i :: 0 <= i < |s| ==> p(s[i])
    ensures Filter(p, s) == s
  {
    if s != [] {
      FilterAll(p, s[1..]);
    }
  }

  /** Filtering twice is filtering once with the conjunction. */
  lemma {:induction false} FilterFilter<T>(p: T -> bool, q: T -> bool, both: T -> bool, s: seq<T>)
    requires forall x :: both(x) == (p(x) && q(x))
    ensures Filter(q, Filter(p, s)) == Filter(both, s)
  {
    if s != [] {
      FilterFilter(p, q, both, s[1..]);
      if p(s[0]) {
        assert Filter(p, s) == [s[0]] + Filter(p, s[1..]);
        assert Filter(p, s)[1..] == Filter(p, s[1..]);
      }
    }
  }

  // ---------------------------------------------------------------------
  // Validate-all-then-act: a loop that checks each element in order and
  // raises the first failure.

  /** The first failing outcome of `check` over `xs`, in order; Pass when none fails. */
  function FirstFailure<T, E>(check: T -> Outcome<E>, xs: seq<T>): Outcome<E> {
    if xs == [] then Pass
    else if check(xs[0]).Fail? then check(xs[0])
    else FirstFailure(check, xs[1..])
  }

  /** The checks pass as a whole exactly when every element passes. */
  lemma {:induction false} FirstFailurePass<T, E>(check: T -> Outcome<E>, xs: seq<T>)
    ensures FirstFailure(check, xs).Pass? <==> forall i :: 0 <= i < |xs| ==> check(xs[i]).Pass?
  {
    if xs != [] {
      FirstFailurePass(check, xs[1..]);
      assert forall i :: 1 <= i < |xs| ==> xs[1..][i - 1] == xs[i];
    }
  }

  /** The failure reported is that of the first failing element. */
  lemma {:induction false} FirstFailureAt<T, E>(check: T -> Outcome<E>, xs: seq<T>, i: nat)
    requires i < |xs| && check(xs[i]).Fail?
    requires forall j :: 0 <= j < i ==> check(xs[j]).Pass?
    ensures FirstFailure(check, xs) == check(xs[i])
  {
    if i > 0 {
      assert forall j :: 0 <= j < i - 1 ==> xs[1..][j] == xs[j + 1];
      FirstFailureAt(check, xs[1..], i - 1);
    }
  }

  /** Checking one more element after a passing prefix reports that element's outcome. */
  lemma {:induction false} FirstFailureSnoc<T, E>(check: T -> Outcome<E>, xs: seq<T>, x: T)
    requires FirstFailure(check, xs).Pass?
    ensures FirstFailure(check, xs + [x]) == check(x)
  {
    if xs == [] {
      assert [x][1..] == [];
    } else {
      assert (xs + [x])[1..] == xs[1..] + [x];
      FirstFailureSnoc(check, xs[1..], x);
    }
  }

  /** Once a prefix fails, the whole sequence reports that same failure. */
  lemma {:induction false} FirstFailurePrefix<T, E>(check: T -> Outcome<E>, xs: seq<T>, k: nat)
    requires k <= |xs| && FirstFailure(check, xs[..k]).Fail?
    ensures FirstFailure(check, xs) == FirstFailure(check, xs[..k])
  {
    assert k > 0;
    if check(xs[0]).Pass? {
      assert xs[..k][1..] == xs[1..][..k - 1];
      FirstFailurePrefix(check, xs[1..], k - 1);
    }
  }

  /**
   * Runs `check` over `xs` in order and stops at the first failure: the
   * validate-everything-first loop that precedes an all-or-nothing update.
   */
  method Validate<T, E>(check: T -> Outcome<E>, xs: seq<T>) returns (r: Outcome<E>)
    ensures r == FirstFailure(check, xs)
  {
    var i := 0;
    while i < |xs|
      invariant 0 <= i <= |xs|
      invariant FirstFailure(check, xs[..i]) == Pass
    {
      var c := check(xs[i]);
      FirstFailureSnoc(check, xs[..i], xs[i]);
      assert xs[..i + 1] == xs[..i] + [xs[i]];
      if c.Fail? {
        FirstFailurePrefix(check, xs, i + 1);
        return c;
      }
      i := i + 1;
    }
    assert xs[..|xs|] == xs;
    return Pass;
  }

  /** Appends the elements of `ys` to `xs` one at a time, in order. */
  method Extend<T>(xs: seq<T>, ys: seq<T>) returns (r: seq<T>)
    ensures r == xs + ys
  {
    r := xs;
    var i := 0;
    while i < |ys|
      invariant 0 <= i <= |ys|
      invariant r == xs + ys[..i]
    {
      r := r + [ys[i]];
      i := i + 1;
    }
    assert ys[..|ys|] == ys;
  }
}
