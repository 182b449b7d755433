/**
 * The array filtering the server uses to drop player ids from the lobby and
 * from party member lists: `list.filter(id => id !== x)`.
 */
module Filter {

  /** The list with every occurrence of `x` removed, the rest in order. */
  function Without<T(==,!new)>(s: seq<T>, x: T): (r: seq<T>)
    ensures |r| <= |s|
    ensures forall y :: y in r <==> y in s && y != x
  {
    if s == [] then []
    else (if s[0] == x then [] else [s[0]]) + Without(s[1..], x)
  }

  /** The list with every element of `xs` removed, the rest in order: the
      result of filtering out each id of `xs` in turn. */
  function WithoutAll<T(==,!new)>(s: seq<T>, xs: set<T>): (r: seq<T>)
    ensures |r| <= |s|
    ensures forall y :: y in r <==> y in s && y !in xs
  {
    if s == [] then []
    else (if s[0] in xs then [] else [s[0]]) + WithoutAll(s[1..], xs)
  }

  /** `r` is `s` with some elements dropped and the others kept in order. */
  ghost predicate SubsequenceOf<T>(r: seq<T>, s: seq<T>)
    decreases |s|
  {
    if r == [] then true
    else if s == [] then false
    else (r[0] == s[0] && SubsequenceOf(r[1..], s[1..])) || SubsequenceOf(r, s[1..])
  }

  /** Filtering keeps the surviving elements in their original order. */
  lemma {:induction false} WithoutAllIsSubsequence<T(!new)>(s: seq<T>, xs: set<T>)
    ensures SubsequenceOf(WithoutAll(s, xs), s)
    decreases |s|
  {
    if s != [] {
      WithoutAllIsSubsequence(s[1..], xs);
      var r, rest := WithoutAll(s, xs), WithoutAll(s[1..], xs);
      if s[0] !in xs {
        assert r == [s[0]] + rest;
        assert r[0] == s[0] && r[1..] == rest;
      } else {
        assert r == rest;
      }
    }
  }

  /** Filtering keeps every surviving element exactly as often as it occurs. */
  lemma {:induction false} WithoutAllCount<T(!new)>(s: seq<T>, xs: set<T>, y: T)
    ensures multiset(WithoutAll(s, xs))[y] == if y in xs then 0 else multiset(s)[y]
    decreases |s|
  {
    if s != [] {
      WithoutAllCount(s[1..], xs, y);
      assert s == [s[0]] + s[1..];
      assert multiset(s) == multiset([s[0]]) + multiset(s[1..]);
    }
  }

  /** Filtering distributes over concatenation. */
  lemma {:induction false} WithoutAllAppend<T(!new)>(a: seq<T>, b: seq<T>, xs: set<T>)
    ensures WithoutAll(a + b, xs) == WithoutAll(a, xs) + WithoutAll(b, xs)
    decreases |a|
  {
    if a != [] {
      WithoutAllAppend(a[1..], b, xs);
      assert (a + b)[0] == a[0] && (a + b)[1..] == a[1..] + b;
      var head := if a[0] in xs then [] else [a[0]];
      calc {
        WithoutAll(a + b, xs);
        head + WithoutAll(a[1..] + b, xs);
        head + (WithoutAll(a[1..], xs) + WithoutAll(b, xs));
        (head + WithoutAll(a[1..], xs)) + WithoutAll(b, xs);
      }
    } else {
      assert a + b == b;
    }
  }

  /** Filtering a list that holds none of the removed elements changes nothing. */
  lemma {:induction false} WithoutAllNoop<T(!new)>(s: seq<T>, xs: set<T>)
    requires forall y :: y in s ==> y !in xs
    ensures WithoutAll(s, xs) == s
    decreases |s|
  {
    if s != [] {
      WithoutAllNoop(s[1..], xs);
      assert s == [s[0]] + s[1..];
    }
  }

  /** Filtering out one more element after a set of them is filtering out the
      larger set: the step of a loop that filters id after id. */
  lemma {:induction false} WithoutAllStep<T(!new)>(s: seq<T>, xs: set<T>, x: T)
    ensures Without(WithoutAll(s, xs), x) == WithoutAll(s, xs + {x})
    decreases |s|
  {
    if s != [] {
      WithoutAllStep(s[1..], xs, x);
      var rest := WithoutAll(s[1..], xs);
      if s[0] !in xs {
        assert WithoutAll(s, xs) == [s[0]] + rest;
        assert ([s[0]] + rest)[0] == s[0] && ([s[0]] + rest)[1..] == rest;
      } else {
        assert WithoutAll(s, xs) == rest;
        assert s[0] in xs + {x};
      }
    }
  }

  /** A single filter is the set filter with one element. */
  lemma WithoutIsWithoutAll<T(!new)>(s: seq<T>, x: T)
    ensures Without(s, x) == WithoutAll(s, {x})
  {
  }
}
