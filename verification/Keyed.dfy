/** Lists of records that carry a string key: their index, and the list sorted by key that the index determines. */
module Keyed {
  import opened Strings

  /** Strictly ascending by key, so no key repeats. */
  ghost predicate Sorted<T>(s: seq<T>, key: T -> string) {
    forall i, j :: 0 <= i < j < |s| ==> Less(key(s[i]), key(s[j]))
  }

  ghost predicate DistinctKeys<T>(s: seq<T>, key: T -> string) {
    forall i, j :: 0 <= i < j < |s| ==> key(s[i]) != key(s[j])
  }

  /** The map a loop that stores every element under its key ends with: the last element of a key wins. */
  function Index<T>(s: seq<T>, key: T -> string): map<string, T> {
    if s == [] then map[] else Index(s[..|s| - 1], key)[key(s[|s| - 1]) := s[|s| - 1]]
  }

  function Keys<T>(s: seq<T>, key: T -> string): set<string> {
    set i | 0 <= i < |s| :: key(s[i])
  }

  /** Adds x to a sorted list, replacing an element with the same key. */
  function Put<T>(s: seq<T>, x: T, key: T -> string): seq<T> {
    if s == [] || Less(key(x), key(s[0])) then [x] + s
    else if key(x) == key(s[0]) then [x] + s[1..]
    else [s[0]] + Put(s[1..], x, key)
  }

  /** The elements of s in key order; of elements with one key, the last. */
  function Canonical<T>(s: seq<T>, key: T -> string): seq<T> {
    if s == [] then [] else Put(Canonical(s[..|s| - 1], key), s[|s| - 1], key)
  }

  lemma {:induction false} IndexDomain<T>(s: seq<T>, key: T -> string)
    ensures Index(s, key).Keys == Keys(s, key)
    ensures forall k :: k in Index(s, key) ==> Index(s, key)[k] in s && key(Index(s, key)[k]) == k
  {
    if s != [] {
      var front, last := s[..|s| - 1], s[|s| - 1];
      IndexDomain(front, key);
      assert Keys(s, key) == Keys(front, key) + {key(last)};
    }
  }

  lemma {:induction false} IndexAt<T>(s: seq<T>, key: T -> string, i: nat)
    requires DistinctKeys(s, key) && i < |s|
    ensures key(s[i]) in Index(s, key) && Index(s, key)[key(s[i])] == s[i]
  {
    if i < |s| - 1 {
      IndexAt(s[..|s| - 1], key, i);
    }
  }

  lemma SortedIsDistinct<T>(s: seq<T>, key: T -> string)
    requires Sorted(s, key)
    ensures DistinctKeys(s, key)
  {
    forall i, j | 0 <= i < j < |s| ensures key(s[i]) != key(s[j]) {
      LessAsymmetric(key(s[i]), key(s[j]));
    }
  }

  lemma IndexEmpty<T>(s: seq<T>, key: T -> string)
    ensures Index(s, key) == map[] <==> s == []
  {
    if s != [] {
      assert key(s[|s| - 1]) in Index(s, key);
    }
  }

  lemma SameLast<T>(a: seq<T>, b: seq<T>, key: T -> string)
    requires Sorted(a, key) && Sorted(b, key) && a != [] && b != []
    requires Index(a, key) == Index(b, key)
    ensures a[|a| - 1] == b[|b| - 1]
  {
    IndexDomain(a, key);
    IndexDomain(b, key);
    LastIsLargest(a, b, key);
    LastIsLargest(b, a, key);
    LessTotal(key(a[|a| - 1]), key(b[|b| - 1]));
    SortedIsDistinct(a, key);
    SortedIsDistinct(b, key);
    IndexAt(a, key, |a| - 1);
    IndexAt(b, key, |b| - 1);
  }

  /** A sorted list is determined by its index. */
  lemma {:induction false} SortedUnique<T>(a: seq<T>, b: seq<T>, key: T -> string)
    requires Sorted(a, key) && Sorted(b, key)
    requires Index(a, key) == Index(b, key)
    ensures a == b
  {
    IndexEmpty(a, key);
    IndexEmpty(b, key);
    if a != [] && b != [] {
      SameLast(a, b, key);
      SortedIsDistinct(a, key);
      SortedIsDistinct(b, key);
      IndexFront(a, key);
      IndexFront(b, key);
      SortedUnique(a[..|a| - 1], b[..|b| - 1], key);
      assert a == a[..|a| - 1] + [a[|a| - 1]] && b == b[..|b| - 1] + [b[|b| - 1]];
    }
  }

  lemma LastIsLargest<T>(a: seq<T>, b: seq<T>, key: T -> string)
    requires Sorted(a, key) && a != [] && b != []
    requires Keys(a, key) == Keys(b, key)
    ensures !Less(key(a[|a| - 1]), key(b[|b| - 1]))
  {
    assert key(b[|b| - 1]) in Keys(b, key);
    var i :| 0 <= i < |a| && key(a[i]) == key(b[|b| - 1]);
    if i < |a| - 1 {
      LessAsymmetric(key(a[i]), key(a[|a| - 1]));
    } else {
      LessIrreflexive(key(a[i]));
    }
  }

  lemma IndexFront<T>(s: seq<T>, key: T -> string)
    requires DistinctKeys(s, key) && s != []
    ensures Index(s[..|s| - 1], key) == Index(s, key) - {key(s[|s| - 1])}
  {
    var front, last := s[..|s| - 1], s[|s| - 1];
    IndexDomain(front, key);
    assert key(last) !in Keys(front, key);
    AddThenDrop(Index(front, key), key(last), last);
  }

  lemma AddThenDrop<T>(m: map<string, T>, k: string, v: T)
    requires k !in m
    ensures m[k := v] - {k} == m
  {
  }

  lemma {:induction false} PutSorted<T>(s: seq<T>, x: T, key: T -> string)
    requires Sorted(s, key)
    ensures Sorted(Put(s, x, key), key)
    ensures forall y :: y in Put(s, x, key) ==> y == x || y in s
    ensures forall y :: y in Put(s, x, key) <==> y == x || (y in s && key(y) != key(x))
  {
    SortedIsDistinct(s, key);
    if s == [] {
    } else if Less(key(x), key(s[0])) {
      forall j | 0 < j < |s| ensures Less(key(x), key(s[j])) {
        LessTransitive(key(x), key(s[0]), key(s[j]));
      }
      forall j | 0 <= j < |s| ensures key(s[j]) != key(x) {
        LessAsymmetric(key(x), key(s[j]));
      }
    } else if key(x) == key(s[0]) {
      assert s == [s[0]] + s[1..];
    } else {
      LessTotal(key(x), key(s[0]));
      PutSorted(s[1..], x, key);
      assert s == [s[0]] + s[1..];
      var rest := Put(s[1..], x, key);
      forall j | 0 <= j < |rest| ensures Less(key(s[0]), key(rest[j])) {
        assert rest[j] in rest;
      }
    }
  }

  lemma IndexOfSorted<T>(s: seq<T>, key: T -> string, m: map<string, T>)
    requires DistinctKeys(s, key)
    requires forall y :: y in s ==> key(y) in m && m[key(y)] == y
    requires forall k :: k in m ==> m[k] in s && key(m[k]) == k
    ensures Index(s, key) == m
  {
    IndexDomain(s, key);
    forall k | k in m ensures k in Index(s, key) {
      var i :| 0 <= i < |s| && s[i] == m[k];
      assert key(s[i]) in Keys(s, key);
    }
  }

  lemma {:induction false} CanonicalIndex<T>(s: seq<T>, key: T -> string)
    ensures Sorted(Canonical(s, key), key)
    ensures Index(Canonical(s, key), key) == Index(s, key)
    ensures forall y :: y in Canonical(s, key) ==> y in s
  {
    if s != [] {
      var front, last := s[..|s| - 1], s[|s| - 1];
      var before := Canonical(front, key);
      CanonicalIndex(front, key);
      PutSorted(before, last, key);
      var after := Put(before, last, key);
      SortedIsDistinct(before, key);
      SortedIsDistinct(after, key);
      IndexDomain(before, key);
      forall y | y in after ensures key(y) in Index(s, key) && Index(s, key)[key(y)] == y {
        if y != last {
          var i :| 0 <= i < |before| && before[i] == y;
          IndexAt(before, key, i);
        }
      }
      IndexOfSorted(after, key, Index(s, key));
    }
  }

  /** Equal indexes are all the canonical list depends on, and a sorted list is its own canonical list. */
  lemma CanonicalDetermined<T>(s: seq<T>, t: seq<T>, key: T -> string)
    ensures Index(s, key) == Index(t, key) <==> Canonical(s, key) == Canonical(t, key)
    ensures Sorted(t, key) && Index(s, key) == Index(t, key) ==> Canonical(s, key) == t
  {
    CanonicalIndex(s, key);
    CanonicalIndex(t, key);
    if Index(s, key) == Index(t, key) {
      SortedUnique(Canonical(s, key), Canonical(t, key), key);
      if Sorted(t, key) {
        SortedUnique(Canonical(s, key), t, key);
      }
    }
  }

  /** With distinct keys the canonical list is a rearrangement of s: nothing is lost. */
  lemma {:induction false} CanonicalPermutes<T>(s: seq<T>, key: T -> string)
    requires DistinctKeys(s, key)
    ensures multiset(Canonical(s, key)) == multiset(s)
  {
    if s != [] {
      var front, last := s[..|s| - 1], s[|s| - 1];
      CanonicalPermutes(front, key);
      CanonicalIndex(front, key);
      forall y | y in Canonical(front, key) ensures key(y) != key(last) {
        var i :| 0 <= i < |front| && front[i] == y;
      }
      PutAdds(Canonical(front, key), last, key);
      assert s == front + [last];
    }
  }

  lemma {:induction false} PutAdds<T>(s: seq<T>, x: T, key: T -> string)
    requires forall y :: y in s ==> key(y) != key(x)
    ensures multiset(Put(s, x, key)) == multiset(s) + multiset{x}
  {
    if s != [] && !Less(key(x), key(s[0])) {
      PutAdds(s[1..], x, key);
      assert s == [s[0]] + s[1..];
    }
  }
}
