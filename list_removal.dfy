/**
 * The semantics of `java.util.List.remove(Object)` that the user service relies
 * on when it takes hobbies out of clients' saved and matched lists: the first
 * element equal to the argument is removed, and nothing else moves.
 */
module ListRemoval {

  /** `list.remove(x)`: the list without the first occurrence of `x`, or unchanged when `x` is absent. */
  function RemoveFirst<T(==)>(s: seq<T>, x: T): (r: seq<T>)
    ensures |r| == if x in s then |s| - 1 else |s|
  {
    if s == [] then []
    else if s[0] == x then s[1..]
    else
      assert x in s <==> x in s[1..];
      [s[0]] + RemoveFirst(s[1..], x)
  }

  /**
   * `remove(x)` once for each element of `xs`, in the order of `xs`, as the
   * loop over a business owner's offered hobbies does.
   */
  function RemoveEach<T(==)>(s: seq<T>, xs: seq<T>): (r: seq<T>)
    ensures |s| - |xs| <= |r| <= |s|
    decreases |xs|
  {
    if xs == [] then s
    else RemoveFirst(RemoveEach(s, xs[..|xs| - 1]), xs[|xs| - 1])
  }

  /** Removing `x` takes exactly one copy of `x` out of the list's multiset, if it has one. */
  lemma {:induction false} RemoveFirstMultiset<T>(s: seq<T>, x: T)
    ensures multiset(RemoveFirst(s, x)) == multiset(s) - multiset{x}
  {
    if s != [] {
      assert s == [s[0]] + s[1..];
      if s[0] != x {
        RemoveFirstMultiset(s[1..], x);
      }
    }
  }

  /**
   * The series of removals takes out one copy per element of `xs`, as far as
   * the list has copies: the multiset difference.
   */
  lemma {:induction false} RemoveEachMultiset<T>(s: seq<T>, xs: seq<T>)
    ensures multiset(RemoveEach(s, xs)) == multiset(s) - multiset(xs)
    decreases |xs|
  {
    if xs != [] {
      var init, last := xs[..|xs| - 1], xs[|xs| - 1];
      assert xs == init + [last];
      RemoveEachMultiset(s, init);
      RemoveFirstMultiset(RemoveEach(s, init), last);
    }
  }

  /** Removing an absent element leaves the list as it was. */
  lemma {:induction false} RemoveFirstAbsent<T>(s: seq<T>, x: T)
    requires x !in s
    ensures RemoveFirst(s, x) == s
  {
    if s != [] {
      assert s[0] != x;
      assert x !in s[1..];
      RemoveFirstAbsent(s[1..], x);
    }
  }

  /**
   * When `x` first occurs at index `i`, removing it splices out exactly that
   * element: everything before and after it keeps its order.
   */
  lemma {:induction false} RemoveFirstSplicesFirstOccurrence<T>(s: seq<T>, x: T, i: nat)
    requires i < |s| && s[i] == x && x !in s[..i]
    ensures RemoveFirst(s, x) == s[..i] + s[i + 1..]
  {
    if i > 0 {
      assert s[0] == s[..i][0];
      assert s[1..][..i - 1] == s[1..i];
      assert x !in s[1..][..i - 1];
      RemoveFirstSplicesFirstOccurrence(s[1..], x, i - 1);
      assert s[1..][i..] == s[i + 1..];
      assert s[..i] == [s[0]] + s[1..i];
    }
  }

  /** One more removal after a series of removals extends the series. */
  lemma RemoveEachStep<T>(s: seq<T>, xs: seq<T>, x: T)
    ensures RemoveEach(s, xs + [x]) == RemoveFirst(RemoveEach(s, xs), x)
  {
    assert (xs + [x])[..|xs|] == xs;
  }

  /** A series of one removal is that removal. */
  lemma RemoveEachSingle<T>(s: seq<T>, x: T)
    ensures RemoveEach(s, [x]) == RemoveFirst(s, x)
  {
    RemoveEachStep(s, [], x);
  }

  /** Removing elements none of which is in the list leaves it as it was. */
  lemma {:induction false} RemoveEachDisjoint<T>(s: seq<T>, xs: seq<T>)
    requires forall j :: 0 <= j < |xs| ==> xs[j] !in s
    ensures RemoveEach(s, xs) == s
    decreases |xs|
  {
    if xs != [] {
      var init := xs[..|xs| - 1];
      RemoveEachDisjoint(s, init);
      RemoveFirstAbsent(s, xs[|xs| - 1]);
    }
  }
}
