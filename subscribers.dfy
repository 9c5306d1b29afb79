/**
 * The subscriber collection of one signal. The source keeps it in a
 * JavaScript `Set`, which iterates in insertion order and holds each
 * callback at most once; here it is a duplicate-free sequence.
 */
module Subscribers {

  /**
   * A callback registered with a signal: either a callback handed in by a
   * user (identified by a number standing for its closure identity) or the
   * `runComputed` routine of the computed signal `node`.
   */
  datatype Subscriber = External(id: nat) | Compute(node: nat)

  ghost predicate NoDups<T>(xs: seq<T>)
  {
    forall i, j :: 0 <= i < j < |xs| ==> xs[i] != xs[j]
  }

  /** Every computed subscriber in `xs` names one of the first `n` computed signals. */
  ghost predicate NodesBelow(xs: seq<Subscriber>, n: nat)
  {
    forall x :: x in xs && x.Compute? ==> x.node < n
  }

  /** `Set.prototype.add`: append when absent, otherwise leave the set as it is. */
  function Insert(xs: seq<Subscriber>, x: Subscriber): (r: seq<Subscriber>)
    ensures x in r
    ensures forall y :: y in r <==> y in xs || y == x
    ensures xs <= r && |r| <= |xs| + 1
    ensures NoDups(xs) ==> NoDups(r)
  {
    if x in xs then xs else xs + [x]
  }

  /** `Set.prototype.delete` on the first (with no duplicates: the only) entry equal to `x`. */
  function Delete(xs: seq<Subscriber>, x: Subscriber): (r: seq<Subscriber>)
    ensures |r| == if x in xs then |xs| - 1 else |xs|
  {
    if xs == [] then []
    else if xs[0] == x then xs[1..]
    else [xs[0]] + Delete(xs[1..], x)
  }

  /** Reference definition of removal: keep every entry that differs from `x`, in order. */
  function Without(xs: seq<Subscriber>, x: Subscriber): seq<Subscriber>
  {
    if xs == [] then []
    else (if xs[0] == x then [] else [xs[0]]) + Without(xs[1..], x)
  }

  /** Number of user callbacks in `xs`. */
  function ExtCount(xs: seq<Subscriber>): nat
  {
    if xs == [] then 0
    else ExtCount(xs[..|xs| - 1]) + (if xs[|xs| - 1].External? then 1 else 0)
  }

  lemma {:induction false} WithoutMembers(xs: seq<Subscriber>, x: Subscriber, y: Subscriber)
    ensures y in Without(xs, x) <==> y in xs && y != x
  {
    if xs != [] {
      WithoutMembers(xs[1..], x, y);
      assert xs == [xs[0]] + xs[1..];
    }
  }

  /** On a duplicate-free sequence, deleting the first match removes every match and keeps the order. */
  lemma {:induction false} DeleteIsWithout(xs: seq<Subscriber>, x: Subscriber)
    requires NoDups(xs)
    ensures Delete(xs, x) == Without(xs, x)
  {
    if xs != [] {
      assert NoDups(xs[1..]) by {
        forall i, j | 0 <= i < j < |xs[1..]| ensures xs[1..][i] != xs[1..][j] {
          assert xs[1..][i] == xs[i + 1] && xs[1..][j] == xs[j + 1];
        }
      }
      DeleteIsWithout(xs[1..], x);
      if xs[0] == x {
        assert x !in xs[1..] by {
          forall k | 0 <= k < |xs[1..]| ensures xs[1..][k] != x {
            assert xs[1..][k] == xs[k + 1];
          }
        }
        WithoutAbsent(xs[1..], x);
      }
    }
  }

  /** Removing an absent entry changes nothing. */
  lemma {:induction false} WithoutAbsent(xs: seq<Subscriber>, x: Subscriber)
    requires x !in xs
    ensures Without(xs, x) == xs
  {
    if xs != [] {
      assert x !in xs[1..];
      WithoutAbsent(xs[1..], x);
      assert xs == [xs[0]] + xs[1..];
    }
  }

  lemma {:induction false} DeleteAbsent(xs: seq<Subscriber>, x: Subscriber)
    requires x !in xs
    ensures Delete(xs, x) == xs
  {
    if xs != [] {
      assert x !in xs[1..];
      DeleteAbsent(xs[1..], x);
      assert xs == [xs[0]] + xs[1..];
    }
  }

  /** Deleting after a prefix that does not hold `x`, at an index that does. */
  lemma {:induction false} DeleteAt(xs: seq<Subscriber>, x: Subscriber, i: nat)
    requires i < |xs| && xs[i] == x && x !in xs[..i]
    ensures Delete(xs, x) == xs[..i] + xs[i + 1..]
  {
    if i > 0 {
      assert xs[1..][..i - 1] == xs[1..i];
      assert x !in xs[1..][..i - 1];
      DeleteAt(xs[1..], x, i - 1);
      assert xs[..i] == [xs[0]] + xs[1..][..i - 1];
      assert xs[i + 1..] == xs[1..][i..];
    }
  }

  /** Subscribing a new callback and then unsubscribing it restores the set. */
  lemma InsertThenDelete(xs: seq<Subscriber>, x: Subscriber)
    requires x !in xs
    ensures Delete(Insert(xs, x), x) == xs
  {
    DeleteAt(xs + [x], x, |xs|);
    assert (xs + [x])[..|xs|] == xs;
  }

  lemma InsertIdempotent(xs: seq<Subscriber>, x: Subscriber)
    ensures Insert(Insert(xs, x), x) == Insert(xs, x)
  {
  }

  lemma DeleteKeepsNoDups(xs: seq<Subscriber>, x: Subscriber)
    requires NoDups(xs)
    ensures NoDups(Delete(xs, x)) && forall y :: y in Delete(xs, x) <==> y in xs && y != x
  {
    DeleteIsWithout(xs, x);
    forall y ensures y in Without(xs, x) <==> y in xs && y != x {
      WithoutMembers(xs, x, y);
    }
    WithoutNoDups(xs, x);
  }

  lemma {:induction false} WithoutNoDups(xs: seq<Subscriber>, x: Subscriber)
    requires NoDups(xs)
    ensures NoDups(Without(xs, x))
  {
    if xs != [] {
      assert NoDups(xs[1..]) by {
        forall i, j | 0 <= i < j < |xs[1..]| ensures xs[1..][i] != xs[1..][j] {
          assert xs[1..][i] == xs[i + 1] && xs[1..][j] == xs[j + 1];
        }
      }
      WithoutNoDups(xs[1..], x);
      assert xs[0] !in xs[1..] by {
        forall k | 0 <= k < |xs[1..]| ensures xs[1..][k] != xs[0] {
          assert xs[1..][k] == xs[k + 1];
        }
      }
      WithoutMembers(xs[1..], x, xs[0]);
    }
  }

  /** Adding a computed subscriber leaves the number of user callbacks alone. */
  lemma InsertComputeKeepsExtCount(xs: seq<Subscriber>, n: nat)
    ensures ExtCount(Insert(xs, Compute(n))) == ExtCount(xs)
  {
    if Compute(n) !in xs {
      assert (xs + [Compute(n)])[..|xs|] == xs;
    }
  }

  /** The computed nodes of `xs`, as a set. */
  function NodesOf(xs: seq<Subscriber>): set<nat>
  {
    set x | x in xs && x.Compute? :: x.node
  }

  lemma {:induction false} NodesOfCard(xs: seq<Subscriber>)
    requires NoDups(xs)
    ensures |NodesOf(xs)| == |xs| - ExtCount(xs)
    decreases |xs|
  {
    if xs != [] {
      var init, last := xs[..|xs| - 1], xs[|xs| - 1];
      assert xs == init + [last];
      assert NoDups(init) by {
        forall i, j | 0 <= i < j < |init| ensures init[i] != init[j] {
          assert init[i] == xs[i] && init[j] == xs[j];
        }
      }
      NodesOfCard(init);
      if last.Compute? {
        assert last !in init by {
          forall k | 0 <= k < |init| ensures init[k] != last {
            assert init[k] == xs[k];
          }
        }
        assert last.node !in NodesOf(init);
        assert NodesOf(xs) == NodesOf(init) + {last.node};
      } else {
        assert NodesOf(xs) == NodesOf(init);
      }
    }
  }

  /** The node numbers below `n`. */
  function Below(n: nat): (r: set<nat>)
    ensures |r| == n
    ensures forall k: int :: k in r <==> 0 <= k < n
  {
    if n == 0 then {} else Below(n - 1) + {n - 1}
  }

  /**
   * A duplicate-free subscriber sequence whose computed entries name one of
   * `n` computed signals has at most `n` entries besides its user callbacks.
   */
  lemma ComputeEntriesBounded(xs: seq<Subscriber>, n: nat)
    requires NoDups(xs) && NodesBelow(xs, n)
    ensures |xs| <= ExtCount(xs) + n
  {
    NodesOfCard(xs);
    var a, b := NodesOf(xs), Below(n);
    assert a <= b;
    assert b == a + (b - a);
  }
}
