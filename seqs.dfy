/**
 * Sequence helpers standing for the JavaScript array idioms the sources use:
 * `filter(x => !xs.includes(x))`, `[...new Set(s)]` and `includes`.
 */
module Seqs {

  /** No element occurs twice. */
  ghost predicate NoDups<T>(s: seq<T>) {
    forall i, j :: 0 <= i < j < |s| ==> s[i] != s[j]
  }

  /** Number of occurrences of `x` in `s`. */
  function Count<T(==)>(s: seq<T>, x: T): nat {
    if s == [] then 0 else (if s[0] == x then 1 else 0) + Count(s[1..], x)
  }

  /** The elements of `s` that are not in `xs`, in their order in `s`
      (`s.filter(x => !xs.includes(x))`). */
  function Without<T(==,!new)>(s: seq<T>, xs: seq<T>): (r: seq<T>)
    ensures forall x :: x in r <==> x in s && x !in xs
    ensures |r| <= |s|
  {
    if s == [] then [] else (if s[0] in xs then [] else [s[0]]) + Without(s[1..], xs)
  }

  /** Filtering distributes over concatenation, so the kept elements stay in order. */
  lemma {:induction false} WithoutAppend<T(!new)>(a: seq<T>, b: seq<T>, xs: seq<T>)
    ensures Without(a + b, xs) == Without(a, xs) + Without(b, xs)
  {
    if a == [] {
      assert a + b == b;
    } else {
      assert (a + b)[1..] == a[1..] + b;
      WithoutAppend(a[1..], b, xs);
    }
  }

  /** Filtering leaves a sequence that has nothing to remove as it is. */
  lemma {:induction false} WithoutNothingToRemove<T(!new)>(s: seq<T>, xs: seq<T>)
    requires forall x :: x in s ==> x !in xs
    ensures Without(s, xs) == s
  {
    if s != [] {
      WithoutNothingToRemove(s[1..], xs);
    }
  }

  /** Filtering keeps every occurrence of an element it does not remove and drops all of one it does. */
  lemma {:induction false} WithoutCount<T(!new)>(s: seq<T>, xs: seq<T>, x: T)
    ensures Count(Without(s, xs), x) == if x in xs then 0 else Count(s, x)
  {
    if s != [] {
      WithoutCount(s[1..], xs, x);
      CountAppend(if s[0] in xs then [] else [s[0]], Without(s[1..], xs), x);
    }
  }

  lemma {:induction false} CountAppend<T>(a: seq<T>, b: seq<T>, x: T)
    ensures Count(a + b, x) == Count(a, x) + Count(b, x)
  {
    if a == [] {
      assert a + b == b;
    } else {
      assert (a + b)[1..] == a[1..] + b;
      CountAppend(a[1..], b, x);
    }
  }

  /** `[...new Set(s)]`: the first occurrence of each element, in order of first occurrence. */
  function Dedup<T(==,!new)>(s: seq<T>): (r: seq<T>)
    ensures NoDups(r)
    ensures forall x :: x in r <==> x in s
    decreases |s|
  {
    if s == [] then []
    else
      var rest := Dedup(Without(s[1..], [s[0]]));
      assert forall x :: x in s <==> x == s[0] || x in s[1..];
      assert forall x :: x in rest ==> x != s[0];
      var r := [s[0]] + rest;
      assert forall j :: 0 < j < |r| ==> r[j] == rest[j - 1] && r[j] != r[0];
      r
  }

  /** A sequence without duplicates is its own set-conversion. */
  lemma {:induction false} DedupOfNoDups<T(!new)>(s: seq<T>)
    requires NoDups(s)
    ensures Dedup(s) == s
    decreases |s|
  {
    if s != [] {
      assert forall x :: x in s[1..] ==> x !in [s[0]] by {
        forall x | x in s[1..] ensures x != s[0] {
          var k :| 0 <= k < |s[1..]| && s[1..][k] == x;
          assert s[k + 1] == x;
        }
      }
      WithoutNothingToRemove(s[1..], [s[0]]);
      DedupOfNoDups(s[1..]);
    }
  }

  /** Removing duplicates keeps a distinct prefix where it is. */
  lemma {:induction false} DedupKeepsDistinctPrefix<T(!new)>(a: seq<T>, b: seq<T>)
    requires NoDups(a)
    ensures |Dedup(a + b)| >= |a| && Dedup(a + b)[..|a|] == a
    decreases |a|
  {
    if a != [] {
      var tail := a[1..];
      var b' := Without(b, [a[0]]);
      assert (a + b)[0] == a[0] && (a + b)[1..] == tail + b;
      WithoutAppend(tail, b, [a[0]]);
      assert forall x :: x in tail ==> x !in [a[0]] by {
        forall x | x in tail ensures x != a[0] {
          var k :| 0 <= k < |tail| && tail[k] == x;
          assert a[k + 1] == x;
        }
      }
      WithoutNothingToRemove(tail, [a[0]]);
      assert Without((a + b)[1..], [a[0]]) == tail + b';
      DedupKeepsDistinctPrefix(tail, b');
      assert Dedup(a + b) == [a[0]] + Dedup(tail + b');
    }
  }

  /** `f` applied to each element of `s` and the results concatenated, in order;
      built from the back, as a loop over `s` appending `f(x)` builds it. */
  function FlatMap<A, B>(s: seq<A>, f: A -> seq<B>): seq<B> {
    if s == [] then [] else FlatMap(s[..|s| - 1], f) + f(s[|s| - 1])
  }

  /** An element of the concatenation comes from the image of some element. */
  lemma {:induction false} FlatMapMembers<A, B>(s: seq<A>, f: A -> seq<B>, b: B)
    ensures b in FlatMap(s, f) <==> exists i :: 0 <= i < |s| && b in f(s[i])
  {
    if s != [] {
      var init := s[..|s| - 1];
      FlatMapMembers(init, f, b);
      assert forall i :: 0 <= i < |init| ==> init[i] == s[i];
      if b in f(s[|s| - 1]) {
        assert exists i :: 0 <= i < |s| && b in f(s[i]);
      }
      if exists i :: 0 <= i < |s| && b in f(s[i]) {
        var i :| 0 <= i < |s| && b in f(s[i]);
        if i < |init| {
          assert b in f(init[i]);
        }
      }
    }
  }

  /** A sequence without repeats has as many elements as its set. */
  lemma {:induction false} DistinctCardinality<T>(s: seq<T>)
    requires NoDups(s)
    ensures |set x | x in s| == |s|
  {
    if s != [] {
      DistinctCardinality(s[1..]);
      assert (set x | x in s) == (set x | x in s[1..]) + {s[0]};
      assert s[0] !in s[1..];
    }
  }

  /** Filtering never introduces a repeat. */
  lemma {:induction false} WithoutNoDups<T(!new)>(s: seq<T>, xs: seq<T>)
    requires NoDups(s)
    ensures NoDups(Without(s, xs))
  {
    if s != [] {
      WithoutNoDups(s[1..], xs);
      var rest := Without(s[1..], xs);
      assert s[0] !in s[1..];
      assert s[0] !in rest;
      var r := (if s[0] in xs then [] else [s[0]]) + rest;
      assert forall j :: 0 <= j < |r| ==> r[j] in s[..1] || r[j] in rest;
    }
  }
}
