/**
 * Kotlin's `sortedBy` and `reversed` on lists. `sortedBy` is a stable sort
 * by a selected key; the core sorts by `Long` keys (dates, times) and by
 * `String` keys (titles, compared with `String.compareTo`).
 */
module Sorting {
  import opened Common

  /** A sort key: a number, or a string's UTF-16 code units, compared unit by unit. */
  datatype Key = IntKey(n: int) | StrKey(s: seq<CodeUnit>)

  /** `a.compareTo(b) <= 0` on strings: lexicographic on code units, a proper prefix first. */
  predicate StrLeq(a: seq<CodeUnit>, b: seq<CodeUnit>)
  {
    |a| == 0 || (|b| > 0 && (a[0] < b[0] || (a[0] == b[0] && StrLeq(a[1..], b[1..]))))
  }

  /** The order on keys. Keys of the two kinds are never mixed in one sort. */
  predicate KeyLeq(a: Key, b: Key)
  {
    match (a, b)
    case (IntKey(x), IntKey(y)) => x <= y
    case (StrKey(x), StrKey(y)) => StrLeq(x, y)
    case (IntKey(_), StrKey(_)) => true
    case (StrKey(_), IntKey(_)) => false
  }

  lemma {:induction false} StrLeqReflexive(a: seq<CodeUnit>)
    ensures StrLeq(a, a)
  {
    if |a| > 0 { StrLeqReflexive(a[1..]); }
  }

  lemma {:induction false} StrLeqTotal(a: seq<CodeUnit>, b: seq<CodeUnit>)
    ensures StrLeq(a, b) || StrLeq(b, a)
  {
    if |a| > 0 && |b| > 0 && a[0] == b[0] { StrLeqTotal(a[1..], b[1..]); }
  }

  lemma {:induction false} StrLeqTransitive(a: seq<CodeUnit>, b: seq<CodeUnit>, c: seq<CodeUnit>)
    requires StrLeq(a, b) && StrLeq(b, c)
    ensures StrLeq(a, c)
  {
    if |a| > 0 && a[0] == b[0] && b[0] == c[0] { StrLeqTransitive(a[1..], b[1..], c[1..]); }
  }

  lemma {:induction false} StrLeqAntisymmetric(a: seq<CodeUnit>, b: seq<CodeUnit>)
    requires StrLeq(a, b) && StrLeq(b, a)
    ensures a == b
  {
    if |a| > 0 {
      StrLeqAntisymmetric(a[1..], b[1..]);
      assert a == [a[0]] + a[1..] && b == [b[0]] + b[1..];
    }
  }

  /** KeyLeq is a total order. */
  lemma KeyLeqTotalOrder(a: Key, b: Key, c: Key)
    ensures KeyLeq(a, a)
    ensures KeyLeq(a, b) || KeyLeq(b, a)
    ensures KeyLeq(a, b) && KeyLeq(b, c) ==> KeyLeq(a, c)
    ensures KeyLeq(a, b) && KeyLeq(b, a) ==> a == b
  {
    if a.StrKey? {
      StrLeqReflexive(a.s);
      if b.StrKey? {
        StrLeqTotal(a.s, b.s);
        if KeyLeq(a, b) && KeyLeq(b, a) { StrLeqAntisymmetric(a.s, b.s); }
        if c.StrKey? && KeyLeq(a, b) && KeyLeq(b, c) { StrLeqTransitive(a.s, b.s, c.s); }
      }
    }
  }

  /** Nondecreasing by key. */
  ghost predicate SortedBy<T>(s: seq<T>, key: T -> Key)
  {
    forall i, j :: 0 <= i < j < |s| ==> KeyLeq(key(s[i]), key(s[j]))
  }

  /** Nonincreasing by key. */
  ghost predicate SortedDescBy<T>(s: seq<T>, key: T -> Key)
  {
    forall i, j :: 0 <= i < j < |s| ==> KeyLeq(key(s[j]), key(s[i]))
  }

  /** The elements of `s` whose key is `k`, in their order in `s`. */
  function WithKey<T>(s: seq<T>, key: T -> Key, k: Key): seq<T>
  {
    if s == [] then [] else (if key(s[0]) == k then [s[0]] else []) + WithKey(s[1..], key, k)
  }

  /** Put `x` before the first element whose key is not smaller than its own. */
  function Insert<T>(x: T, s: seq<T>, key: T -> Key): seq<T>
  {
    if s == [] || KeyLeq(key(x), key(s[0])) then [x] + s else [s[0]] + Insert(x, s[1..], key)
  }

  /** `sortedBy(key)`: insertion sort, stable. */
  function SortBy<T>(s: seq<T>, key: T -> Key): seq<T>
  {
    if s == [] then [] else Insert(s[0], SortBy(s[1..], key), key)
  }

  /** `reversed()`. */
  function Reverse<T>(s: seq<T>): seq<T>
  {
    if s == [] then [] else Reverse(s[1..]) + [s[0]]
  }

  // ---------------------------------------------------------------------
  // Insert
  // ---------------------------------------------------------------------

  lemma {:induction false} InsertPermutation<T>(x: T, s: seq<T>, key: T -> Key)
    ensures multiset(Insert(x, s, key)) == multiset{x} + multiset(s)
    ensures |Insert(x, s, key)| == |s| + 1
  {
    if s != [] && !KeyLeq(key(x), key(s[0])) {
      InsertPermutation(x, s[1..], key);
      assert s == [s[0]] + s[1..];
    }
  }

  lemma {:induction false} InsertSorted<T>(x: T, s: seq<T>, key: T -> Key)
    requires SortedBy(s, key)
    ensures SortedBy(Insert(x, s, key), key)
  {
    var r := Insert(x, s, key);
    if s == [] {
    } else if KeyLeq(key(x), key(s[0])) {
      forall i, j | 0 <= i < j < |r| ensures KeyLeq(key(r[i]), key(r[j])) {
        if i == 0 { KeyLeqTotalOrder(key(x), key(s[0]), key(s[j - 1])); }
      }
    } else {
      var t := Insert(x, s[1..], key);
      InsertSorted(x, s[1..], key);
      InsertPermutation(x, s[1..], key);
      KeyLeqTotalOrder(key(x), key(s[0]), key(x));
      forall j | 0 <= j < |t| ensures KeyLeq(key(s[0]), key(t[j])) {
        assert t[j] in multiset(t);
        if t[j] == x {
        } else {
          assert t[j] in multiset(s[1..]);
          var m :| 0 <= m < |s[1..]| && s[1..][m] == t[j];
          assert s[m + 1] == t[j];
        }
      }
    }
  }

  /** Inserting `x` adds it to the elements with its key, ahead of them. */
  lemma {:induction false} InsertWithKey<T>(x: T, s: seq<T>, key: T -> Key, k: Key)
    ensures WithKey(Insert(x, s, key), key, k) ==
            (if key(x) == k then [x] else []) + WithKey(s, key, k)
  {
    if s == [] {
    } else if KeyLeq(key(x), key(s[0])) {
      assert ([x] + s)[1..] == s;
    } else {
      KeyLeqTotalOrder(key(x), key(x), key(x));
      assert key(s[0]) != key(x);
      InsertWithKey(x, s[1..], key, k);
      assert ([s[0]] + Insert(x, s[1..], key))[1..] == Insert(x, s[1..], key);
    }
  }

  // ---------------------------------------------------------------------
  // SortBy: sorted, a permutation, stable
  // ---------------------------------------------------------------------

  /** `sortedBy` returns a permutation of its input. */
  lemma {:induction false} SortByPermutation<T>(s: seq<T>, key: T -> Key)
    ensures multiset(SortBy(s, key)) == multiset(s)
    ensures |SortBy(s, key)| == |s|
  {
    if s != [] {
      SortByPermutation(s[1..], key);
      InsertPermutation(s[0], SortBy(s[1..], key), key);
      assert s == [s[0]] + s[1..];
    }
  }

  /** `sortedBy` returns a list nondecreasing by key. */
  lemma {:induction false} SortBySorted<T>(s: seq<T>, key: T -> Key)
    ensures SortedBy(SortBy(s, key), key)
  {
    if s != [] {
      SortBySorted(s[1..], key);
      InsertSorted(s[0], SortBy(s[1..], key), key);
    }
  }

  /** `sortedBy` is stable: elements with equal keys keep their input order. */
  lemma {:induction false} SortByStable<T>(s: seq<T>, key: T -> Key, k: Key)
    ensures WithKey(SortBy(s, key), key, k) == WithKey(s, key, k)
  {
    if s != [] {
      SortByStable(s[1..], key, k);
      InsertWithKey(s[0], SortBy(s[1..], key), key, k);
    }
  }

  /** Membership is the same before and after sorting. */
  lemma SortByMembership<T>(s: seq<T>, key: T -> Key)
    ensures forall i :: 0 <= i < |s| ==> s[i] in SortBy(s, key)
    ensures forall i :: 0 <= i < |SortBy(s, key)| ==> SortBy(s, key)[i] in s
  {
    SortByPermutation(s, key);
    var r := SortBy(s, key);
    assert forall i :: 0 <= i < |s| ==> s[i] in multiset(s);
    assert forall i :: 0 <= i < |r| ==> r[i] in multiset(r);
  }

  // ---------------------------------------------------------------------
  // Reverse
  // ---------------------------------------------------------------------

  lemma {:induction false} ReverseAt<T>(s: seq<T>, i: int)
    requires 0 <= i < |s|
    ensures |Reverse(s)| == |s| && Reverse(s)[i] == s[|s| - 1 - i]
  {
    if i < |s| - 1 { ReverseAt(s[1..], i); } else { ReverseLength(s[1..]); }
  }

  lemma {:induction false} ReverseLength<T>(s: seq<T>)
    ensures |Reverse(s)| == |s|
  {
    if s != [] { ReverseLength(s[1..]); }
  }

  lemma {:induction false} ReversePermutation<T>(s: seq<T>)
    ensures multiset(Reverse(s)) == multiset(s)
  {
    if s != [] {
      ReversePermutation(s[1..]);
      assert s == [s[0]] + s[1..];
    }
  }

  /** Reversing a nondecreasing list gives a nonincreasing one. */
  lemma ReverseSorted<T>(s: seq<T>, key: T -> Key)
    requires SortedBy(s, key)
    ensures SortedDescBy(Reverse(s), key)
  {
    ReverseLength(s);
    forall i, j | 0 <= i < j < |s| ensures KeyLeq(key(Reverse(s)[j]), key(Reverse(s)[i])) {
      ReverseAt(s, i);
      ReverseAt(s, j);
    }
  }

  lemma {:induction false} WithKeyAppend<T>(a: seq<T>, b: seq<T>, key: T -> Key, k: Key)
    ensures WithKey(a + b, key, k) == WithKey(a, key, k) + WithKey(b, key, k)
  {
    if a == [] {
      assert a + b == b;
    } else {
      assert (a + b)[1..] == a[1..] + b;
      WithKeyAppend(a[1..], b, key, k);
    }
  }

  /** A prefix's elements of one key are a prefix of the whole list's. */
  lemma WithKeyPrefix<T>(s: seq<T>, n: nat, key: T -> Key, k: Key)
    requires n <= |s|
    ensures WithKey(s[..n], key, k) <= WithKey(s, key, k)
  {
    assert s == s[..n] + s[n..];
    WithKeyAppend(s[..n], s[n..], key, k);
  }

  /** A list's head comes first among the elements that share its key. */
  lemma WithKeyHead<T>(s: seq<T>, key: T -> Key)
    requires s != []
    ensures WithKey(s, key, key(s[0])) != [] && WithKey(s, key, key(s[0]))[0] == s[0]
  {
  }

  /** The first element of one key is at an index no earlier element of that key precedes. */
  lemma {:induction false} FirstWithKey<T>(s: seq<T>, key: T -> Key, k: Key)
    requires WithKey(s, key, k) != []
    ensures exists i :: 0 <= i < |s| && s[i] == WithKey(s, key, k)[0] && key(s[i]) == k &&
                        (forall j :: 0 <= j < i ==> key(s[j]) != k)
  {
    if key(s[0]) != k {
      FirstWithKey(s[1..], key, k);
      var i :| 0 <= i < |s[1..]| && s[1..][i] == WithKey(s[1..], key, k)[0] && key(s[1..][i]) == k &&
               (forall j :: 0 <= j < i ==> key(s[1..][j]) != k);
      assert s[i + 1] == WithKey(s, key, k)[0];
      forall j | 0 <= j < i + 1 ensures key(s[j]) != k {
        if j > 0 { assert s[j] == s[1..][j - 1]; }
      }
    } else {
      assert s[0] == WithKey(s, key, k)[0];
    }
  }

  /** Filtering by a condition every element of key `k` meets keeps all of them, in order. */
  lemma {:induction false} WithKeyFilter<T>(s: seq<T>, p: T -> bool, key: T -> Key, k: Key)
    requires forall x :: key(x) == k ==> p(x)
    ensures WithKey(Filter(s, p), key, k) == WithKey(s, key, k)
  {
    if s != [] {
      WithKeyFilter(s[1..], p, key, k);
      var head := if p(s[0]) then [s[0]] else [];
      WithKeyAppend(head, Filter(s[1..], p), key, k);
    }
  }

  /** Reversing reverses the order among equal keys. */
  lemma {:induction false} ReverseWithKey<T>(s: seq<T>, key: T -> Key, k: Key)
    ensures WithKey(Reverse(s), key, k) == Reverse(WithKey(s, key, k))
  {
    if s != [] {
      ReverseWithKey(s[1..], key, k);
      WithKeyAppend(Reverse(s[1..]), [s[0]], key, k);
      var head := if key(s[0]) == k then [s[0]] else [];
      ReverseAppend(head, WithKey(s[1..], key, k));
      assert WithKey([s[0]], key, k) == head;
      assert Reverse(head) == head;
    }
  }

  lemma {:induction false} ReverseAppend<T>(a: seq<T>, b: seq<T>)
    ensures Reverse(a + b) == Reverse(b) + Reverse(a)
  {
    if a == [] {
      assert a + b == b;
    } else {
      assert (a + b)[1..] == a[1..] + b;
      ReverseAppend(a[1..], b);
    }
  }
}
