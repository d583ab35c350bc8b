/** Generic facts about lists and their counts, used by the card models. */
module Sequences {

  /** `xs.map(f)`. */
  function Map<A, B>(f: A -> B, xs: seq<A>): (ys: seq<B>)
    ensures |ys| == |xs|
    ensures forall i {:trigger ys[i]} :: 0 <= i < |xs| ==> ys[i] == f(xs[i])
  {
    if xs == [] then [] else [f(xs[0])] + Map(f, xs[1..])
  }

  /** Mapping distributes over concatenation. */
  lemma MapAppend<A, B>(f: A -> B, xs: seq<A>, ys: seq<A>)
    ensures Map(f, xs + ys) == Map(f, xs) + Map(f, ys)
  {
    assert Map(f, xs + ys) == Map(f, xs) + Map(f, ys);
  }

  /** A list is its prefix, its element at position j, and its suffix. */
  lemma SplitAt<A>(ys: seq<A>, j: int)
    requires 0 <= j < |ys|
    ensures ys == ys[..j] + [ys[j]] + ys[j + 1..]
  {
  }

  /** Taking out the element at position j of ys and mapping the rest
      loses exactly the image of that element. */
  lemma MapRemoveAt<A, B>(f: A -> B, ys: seq<A>, j: int)
    requires 0 <= j < |ys|
    ensures multiset(ys[..j] + ys[j + 1..]) == multiset(ys) - multiset{ys[j]}
    ensures multiset(Map(f, ys)) == multiset(Map(f, ys[..j] + ys[j + 1..])) + multiset{f(ys[j])}
  {
    var pre, y, post := ys[..j], ys[j], ys[j + 1..];
    SplitAt(ys, j);
    assert multiset(ys) == multiset(pre) + multiset{y} + multiset(post);
    MapAppend(f, pre + [y], post);
    MapAppend(f, pre, [y]);
    MapAppend(f, pre, post);
    assert Map(f, [y]) == [f(y)];
    assert Map(f, ys) == Map(f, pre) + [f(y)] + Map(f, post);
    assert multiset(Map(f, ys)) == multiset(Map(f, pre)) + multiset{f(y)} + multiset(Map(f, post));
  }

  /** Mapping over two orderings of the same cards gives two orderings of
      the same results: whatever is computed from the counts of the mapped
      values cannot see the order of the cards. */
  lemma {:induction false} MapRespectsMultiset<A, B>(f: A -> B, xs: seq<A>, ys: seq<A>)
    requires multiset(xs) == multiset(ys)
    ensures multiset(Map(f, xs)) == multiset(Map(f, ys))
    decreases |xs|
  {
    if xs == [] {
      assert |ys| == |multiset(ys)| == 0;
    } else {
      var x := xs[0];
      assert x in multiset(ys);
      var j :| 0 <= j < |ys| && ys[j] == x;
      MapRemoveAt(f, ys, j);
      assert xs == [x] + xs[1..];
      assert multiset(xs[1..]) == multiset(xs) - multiset{x};
      MapRespectsMultiset(f, xs[1..], ys[..j] + ys[j + 1..]);
    }
  }

  /** Some value occurs at least `n` times:
      `Object.values(counts).some(count => count >= n)`. */
  predicate SomeCountAtLeast<T>(m: multiset<T>, n: nat)
  {
    exists x | x in m :: m[x] >= n
  }

  /** Some value occurs exactly `n` times: `Object.values(counts).includes(n)`. */
  predicate SomeCountExactly<T>(m: multiset<T>, n: nat)
  {
    exists x | x in m :: m[x] == n
  }

  /** A list has a repeated value exactly when two of its positions hold equal values. */
  lemma {:induction false} RepeatIffEqualPositions<T>(xs: seq<T>)
    ensures SomeCountAtLeast(multiset(xs), 2) <==> exists i, j :: 0 <= i < j < |xs| && xs[i] == xs[j]
  {
    if xs != [] {
      var tail := xs[1..];
      assert xs == [xs[0]] + tail;
      RepeatIffEqualPositions(tail);
      if SomeCountAtLeast(multiset(xs), 2) {
        var x :| x in multiset(xs) && multiset(xs)[x] >= 2;
        if x == xs[0] {
          assert x in multiset(tail);
          var j :| 0 <= j < |tail| && tail[j] == x;
          assert xs[0] == xs[j + 1];
        } else {
          assert multiset(tail)[x] >= 2;
          var i, j :| 0 <= i < j < |tail| && tail[i] == tail[j];
          assert xs[i + 1] == xs[j + 1];
        }
      }
      if exists i, j :: 0 <= i < j < |xs| && xs[i] == xs[j] {
        var i, j :| 0 <= i < j < |xs| && xs[i] == xs[j];
        if i == 0 {
          assert tail[j - 1] == xs[0];
          assert multiset(xs)[xs[0]] == multiset(tail)[xs[0]] + 1;
          assert multiset(xs)[xs[0]] >= 2;
        } else {
          assert tail[i - 1] == tail[j - 1];
          var x :| x in multiset(tail) && multiset(tail)[x] >= 2;
          assert multiset(xs)[x] >= multiset(tail)[x];
        }
      }
    }
  }

  /** A set has two or more members exactly when it holds two different values. */
  lemma AtLeastTwo<T>(s: set<T>)
    ensures |s| >= 2 <==> exists x, y :: x in s && y in s && x != y
  {
    if |s| >= 2 {
      var x :| x in s;
      assert |s - {x}| == |s| - 1;
      var y :| y in s - {x};
    }
    if exists x, y :: x in s && y in s && x != y {
      var x, y :| x in s && y in s && x != y;
      assert y in s - {x};
      assert |s - {x}| == |s| - 1;
    }
  }

  /** A set has exactly one member when it is a singleton. */
  lemma ExactlyOne<T>(s: set<T>)
    ensures |s| == 1 <==> exists x :: s == {x}
  {
    if |s| == 1 {
      var x :| x in s;
      assert |s - {x}| == 0;
      assert s == {x};
    }
  }

  /** Appending an empty list on either side changes nothing. */
  lemma AppendEmpty<T>(xs: seq<T>)
    ensures xs + [] == xs && [] + xs == xs
  {
  }
}
