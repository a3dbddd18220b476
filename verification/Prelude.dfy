// Small shared vocabulary: optional values, results and sorted listings of finite sets.

module Prelude {

  datatype Option<+T> = None | Some(value: T)

  datatype Result<+T, +E> = Ok(value: T) | Err(error: E)

  function Max(a: int, b: int): int { if a < b then b else a }

  function Min(a: int, b: int): int { if a < b then a else b }

  // Clamp a requested page size the way every reader does.
  function Clamp(low: int, value: int, high: int): (r: int)
    requires low <= high
    ensures low <= r <= high
  {
    Max(low, Min(value, high))
  }

  ghost predicate Distinct<T>(s: seq<T>) {
    forall i, j :: 0 <= i < j < |s| ==> s[i] != s[j]
  }

  lemma ConcatAssociative<T>(a: seq<T>, b: seq<T>, c: seq<T>)
    ensures (a + b) + c == a + (b + c)
  {
  }

  lemma SplitAt<T>(s: seq<T>, n: nat)
    requires n <= |s|
    ensures s == s[..n] + s[n..]
  {
  }

  predicate Increasing(s: seq<nat>) {
    forall i, j :: 0 <= i < j < |s| ==> s[i] < s[j]
  }

  predicate IsLeast(m: nat, s: set<nat>) {
    m in s && forall x :: x in s ==> m <= x
  }

  lemma {:induction false} LeastExists(s: set<nat>)
    requires s != {}
    ensures exists m :: IsLeast(m, s)
    decreases |s|
  {
    var y :| y in s;
    var rest := s - {y};
    assert s == rest + {y};
    if rest == {} {
      assert IsLeast(y, s);
    } else {
      LeastExists(rest);
      var m: nat :| IsLeast(m, rest);
      var least: nat := if y < m then y else m;
      assert IsLeast(least, s);
    }
  }

  function Least(s: set<nat>): (m: nat)
    requires s != {}
    ensures IsLeast(m, s)
  {
    LeastExists(s);
    var m: nat :| m in s && IsLeast(m, s);
    m
  }

  // The elements of a set in ascending order: what ORDER BY returns on a unique column.
  function Ascending(s: set<nat>): (r: seq<nat>)
    ensures |r| == |s|
    ensures forall x :: x in r <==> x in s
    decreases |s|
  {
    if s == {} then [] else [Least(s)] + Ascending(s - {Least(s)})
  }

  lemma {:induction false} AscendingIncreases(s: set<nat>)
    ensures Increasing(Ascending(s))
    decreases |s|
  {
    if s != {} {
      var rest := Ascending(s - {Least(s)});
      AscendingIncreases(s - {Least(s)});
      forall i | 0 <= i < |rest| ensures Least(s) < rest[i] {
        assert rest[i] in rest;
      }
    }
  }

  // The first element is the least one, and the others are an ascending listing too.
  lemma TailOfIncreasing(s: seq<nat>, x: nat)
    requires Increasing(s) && s != []
    ensures Increasing(s[1..])
    ensures x in s ==> s[0] <= x
    ensures x in s[1..] <==> x in s && x != s[0]
  {
  }

  // An ascending listing is determined by its elements.
  lemma {:induction false} AscendingUnique(a: seq<nat>, b: seq<nat>)
    requires Increasing(a) && Increasing(b)
    requires forall x :: x in a <==> x in b
    ensures a == b
  {
    hide Increasing;
    assert forall i :: 0 <= i < |a| ==> a[i] in b;
    assert forall i :: 0 <= i < |b| ==> b[i] in a;
    if a != [] && b != [] {
      TailOfIncreasing(a, b[0]);
      TailOfIncreasing(b, a[0]);
      forall x ensures x in a[1..] <==> x in b[1..] {
        TailOfIncreasing(a, x);
        TailOfIncreasing(b, x);
      }
      AscendingUnique(a[1..], b[1..]);
      assert a == [a[0]] + a[1..] && b == [b[0]] + b[1..];
    }
  }

  lemma IncreasingConcat(a: seq<nat>, b: seq<nat>)
    requires Increasing(a) && Increasing(b)
    requires forall x, y :: x in a && y in b ==> x < y
    ensures Increasing(a + b)
  {
    forall i, j | 0 <= i < j < |a + b| ensures (a + b)[i] < (a + b)[j] {
      if i < |a| <= j {
        assert a[i] in a && b[j - |a|] in b;
      }
    }
  }

  // A listing splits at any threshold: what a keyset cursor relies on.
  lemma AscendingSplit(s: set<nat>, low: set<nat>, high: set<nat>)
    requires s == low + high
    requires forall x, y :: x in low && y in high ==> x < y
    ensures Ascending(s) == Ascending(low) + Ascending(high)
  {
    AscendingIncreases(s);
    AscendingIncreases(low);
    AscendingIncreases(high);
    IncreasingConcat(Ascending(low), Ascending(high));
    AscendingUnique(Ascending(s), Ascending(low) + Ascending(high));
  }

  function Range(low: nat, count: nat): (r: seq<nat>)
    ensures |r| == count
    ensures forall i :: 0 <= i < count ==> r[i] == low + i
  {
    seq(count, i requires 0 <= i < count => low + i)
  }

  lemma AscendingRange(s: set<nat>, low: nat, count: nat)
    requires forall x :: x in s <==> low <= x < low + count
    ensures Ascending(s) == Range(low, count)
  {
    var run := Range(low, count);
    forall x ensures x in run <==> x in s {
      if x in s { assert run[x - low] == x; }
    }
    AscendingIncreases(s);
    AscendingUnique(Ascending(s), run);
  }

  // ORDER BY with LIMIT starts with low, low+1, ... exactly when all of those are present.
  lemma AscendingStartsWithRange(s: set<nat>, low: nat, count: nat)
    requires forall x :: x in s ==> low <= x
    requires forall x :: low <= x < low + count ==> x in s
    ensures |Ascending(s)| >= count && Ascending(s)[..count] == Range(low, count)
  {
    var run := set x | x in s && x < low + count;
    var rest := s - run;
    AscendingSplit(s, run, rest);
    AscendingRange(run, low, count);
    assert |Ascending(run)| == count;
  }

  // The elements after the n-th one are the rest of the listing: a keyset cursor.
  lemma {:induction false} IncreasingTail(keys: seq<nat>, n: nat, rest: set<nat>)
    requires Increasing(keys) && 0 < n <= |keys|
    requires forall k :: k in rest <==> k in keys && k > keys[n - 1]
    ensures Ascending(rest) == keys[n..]
  {
    hide Ascending;
    forall k ensures k in keys[n..] <==> k in rest {
      AfterInIncreasing(keys, n, k);
    }
    assert Increasing(keys[n..]);
    AscendingIncreases(rest);
    AscendingUnique(Ascending(rest), keys[n..]);
  }

  lemma AfterInIncreasing(keys: seq<nat>, n: nat, k: nat)
    requires Increasing(keys) && 0 < n <= |keys|
    ensures k in keys[n..] <==> k in keys && k > keys[n - 1]
  {
    if k in keys {
      var i :| 0 <= i < |keys| && keys[i] == k;
      if i >= n { assert keys[n..][i - n] == k; }
    }
  }

  lemma {:induction false} SubsetSize<T>(a: set<T>, b: set<T>)
    requires a <= b
    ensures |a| <= |b|
    decreases |a|
  {
    if a != {} {
      var x :| x in a;
      SubsetSize(a - {x}, b - {x});
    }
  }
}
