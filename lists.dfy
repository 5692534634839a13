/** The java.util.List operations the core relies on, over sequences of references. */
module Lists {

  /** The position of the first occurrence of x (|s| when there is none). */
  function IndexOf<T(==)>(s: seq<T>, x: T): (i: nat)
    ensures i <= |s|
    ensures i < |s| <==> x in s
    ensures i < |s| ==> s[i] == x
    ensures x !in s[..i]
  {
    if s == [] then 0
    else if s[0] == x then 0
    else
      var j := IndexOf(s[1..], x);
      assert s[..j + 1] == [s[0]] + s[1..][..j];
      j + 1
  }

  /** The first occurrence is the only index that holds x with no x before it. */
  lemma IndexOfIs<T>(s: seq<T>, x: T, i: nat)
    requires i < |s| && s[i] == x && x !in s[..i]
    ensures IndexOf(s, x) == i
  {
  }

  /** List.remove(Object) with identity equality: the first occurrence goes, the rest stays in order. */
  function RemoveFirst<T(==)>(s: seq<T>, x: T): (r: seq<T>)
    ensures x !in s ==> r == s
    ensures x in s ==> |r| == |s| - 1
  {
    if s == [] then []
    else if s[0] == x then s[1..]
    else [s[0]] + RemoveFirst(s[1..], x)
  }

  /** The element removed is the first occurrence: what precedes it stays, what follows moves up. */
  lemma {:induction false} RemoveFirstAt<T>(s: seq<T>, x: T)
    requires x in s
    ensures RemoveFirst(s, x) == s[..IndexOf(s, x)] + s[IndexOf(s, x) + 1..]
  {
    if s[0] != x {
      assert x in s[1..] by { assert s == [s[0]] + s[1..]; }
      RemoveFirstAt(s[1..], x);
      var j := IndexOf(s[1..], x);
      assert s[..j + 1] == [s[0]] + s[1..][..j];
      assert s[j + 2..] == s[1..][j + 1..];
    }
  }

  /** remove takes away exactly one occurrence of x, if there is one, and nothing else. */
  lemma {:induction false} RemoveFirstMultiset<T>(s: seq<T>, x: T)
    ensures multiset(RemoveFirst(s, x)) == multiset(s) - multiset{x}
  {
    if s != [] {
      assert s == [s[0]] + s[1..];
      if s[0] != x {
        RemoveFirstMultiset(s[1..], x);
      }
    }
  }

  /** Every occurrence of x removed, the rest in order. */
  function RemoveAll<T(==)>(s: seq<T>, x: T): (r: seq<T>)
    ensures x !in r
  {
    if s == [] then []
    else if s[0] == x then RemoveAll(s[1..], x) else [s[0]] + RemoveAll(s[1..], x)
  }

  /** Every occurrence of x goes and every other element stays, as many times as it was there. */
  lemma {:induction false} RemoveAllMultiset<T>(s: seq<T>, x: T)
    ensures multiset(RemoveAll(s, x)) == multiset(s)[x := 0]
  {
    if s != [] {
      assert s == [s[0]] + s[1..];
      RemoveAllMultiset(s[1..], x);
    }
  }

  /** The first occurrence in a + b lies in b when a holds none. */
  lemma {:induction false} IndexOfAfterClean<T>(a: seq<T>, b: seq<T>, x: T)
    requires x !in a
    ensures IndexOf(a + b, x) == |a| + IndexOf(b, x)
  {
    if a != [] {
      assert (a + b)[1..] == a[1..] + b;
      assert a[0] != x;
      IndexOfAfterClean(a[1..], b, x);
    } else {
      assert a + b == b;
    }
  }

  /** Removing the first x after a stretch free of x removes it from what follows. */
  lemma {:induction false} RemoveFirstAfterClean<T>(a: seq<T>, b: seq<T>, x: T)
    requires x !in a
    ensures RemoveFirst(a + b, x) == a + RemoveFirst(b, x)
  {
    if a == [] {
      assert a + b == b;
    } else {
      assert (a + b)[1..] == a[1..] + b;
      assert a[0] != x;
      RemoveFirstAfterClean(a[1..], b, x);
    }
  }

  lemma {:induction false} RemoveAllSplit<T>(a: seq<T>, b: seq<T>, x: T)
    ensures RemoveAll(a + b, x) == RemoveAll(a, x) + RemoveAll(b, x)
  {
    if a == [] {
      assert a + b == b;
    } else {
      assert (a + b)[1..] == a[1..] + b;
      RemoveAllSplit(a[1..], b, x);
    }
  }

  /** remove(x) called n times in a row: n fewer occurrences of x, or none left. */
  function RemoveFirstN<T(==)>(s: seq<T>, x: T, n: nat): (r: seq<T>)
    ensures |r| <= |s|
  {
    if n == 0 then s else RemoveFirst(RemoveFirstN(s, x, n - 1), x)
  }

  /** n removals of x leave n fewer occurrences of it, or none, and every other element as it was. */
  lemma {:induction false} RemoveFirstNMultiset<T>(s: seq<T>, x: T, n: nat)
    ensures multiset(RemoveFirstN(s, x, n)) == multiset(s)[x := if multiset(s)[x] >= n then multiset(s)[x] - n else 0]
  {
    if n > 0 {
      RemoveFirstNMultiset(s, x, n - 1);
      RemoveFirstMultiset(RemoveFirstN(s, x, n - 1), x);
    }
  }

  /** The occurrences of x in a growing prefix of s. */
  lemma CountStep<T>(s: seq<T>, i: nat, x: T)
    requires i < |s|
    ensures multiset(s[..i + 1])[x] == multiset(s[..i])[x] + (if s[i] == x then 1 else 0)
  {
    assert s[..i + 1] == s[..i] + [s[i]];
  }

  /**
   * One round of deleteEntity's loop over a snapshot s: with the occurrences
   * already met removed from the front, removing the first occurrence when
   * s[i] is one keeps the pattern.
   */
  lemma DropStep<T>(s: seq<T>, i: nat, x: T)
    requires i < |s|
    ensures s[i] == x ==> RemoveFirst(RemoveAll(s[..i], x) + s[i..], x) == RemoveAll(s[..i + 1], x) + s[i + 1..]
    ensures s[i] != x ==> RemoveAll(s[..i], x) + s[i..] == RemoveAll(s[..i + 1], x) + s[i + 1..]
  {
    var done := RemoveAll(s[..i], x);
    assert s[..i + 1] == s[..i] + [s[i]];
    RemoveAllSplit(s[..i], [s[i]], x);
    assert RemoveAll(s[..i + 1], x) == done + RemoveAll([s[i]], x);
    assert s[i..] == [s[i]] + s[i + 1..];
    if s[i] == x {
      assert RemoveAll([s[i]], x) == [];
      RemoveFirstAfterClean(done, s[i..], x);
      assert RemoveFirst(s[i..], x) == s[i + 1..];
    } else {
      assert RemoveAll([s[i]], x) == [s[i]];
      assert done + s[i..] == done + [s[i]] + s[i + 1..];
    }
  }

  /** The elements at the given positions, in the order the positions are listed; a position past the end contributes nothing. */
  function Pick<T>(s: seq<T>, idx: seq<nat>): (r: seq<T>)
    ensures |r| <= |idx|
  {
    if idx == [] then []
    else
      var last := idx[|idx| - 1];
      Pick(s, idx[..|idx| - 1]) + (if last < |s| then [s[last]] else [])
  }

  /** remove called once for each element of xs, in order. */
  function RemoveEach<T(==)>(s: seq<T>, xs: seq<T>): (r: seq<T>)
    ensures |r| <= |s|
  {
    if xs == [] then s else RemoveFirst(RemoveEach(s, xs[..|xs| - 1]), xs[|xs| - 1])
  }

  /** When xs asks for no more copies of anything than s has, exactly those copies go. */
  lemma {:induction false} RemoveEachMultiset<T>(s: seq<T>, xs: seq<T>)
    requires multiset(xs) <= multiset(s)
    ensures multiset(RemoveEach(s, xs)) + multiset(xs) == multiset(s)
    decreases |xs|
  {
    if xs != [] {
      var ys, x := xs[..|xs| - 1], xs[|xs| - 1];
      assert xs == ys + [x];
      RemoveEachMultiset(s, ys);
      RemoveFirstMultiset(RemoveEach(s, ys), x);
    }
  }

  /** Elements picked at strictly increasing positions below m are a sub-multiset of the first m elements. */
  lemma {:induction false} PickSubMultiset<T>(s: seq<T>, idx: seq<nat>, m: nat)
    requires m <= |s|
    requires forall k :: 0 <= k < |idx| ==> idx[k] < m
    requires forall k, l :: 0 <= k < l < |idx| ==> idx[k] < idx[l]
    ensures multiset(Pick(s, idx)) <= multiset(s[..m])
    decreases |idx|
  {
    if idx != [] {
      var n := |idx| - 1;
      var j := idx[n];
      var rest := idx[..n];
      PickSubMultiset(s, rest, j);
      assert Pick(s, idx) == Pick(s, rest) + [s[j]];
      assert s[..j + 1] == s[..j] + [s[j]];
      assert s[..m] == s[..j + 1] + s[j + 1..m];
    }
  }
}
