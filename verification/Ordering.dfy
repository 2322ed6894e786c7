/** Python's `sorted` on string keys: the lexicographic order, a stable insertion sort, and the
    fact that makes a sorted list canonical: with distinct keys it does not depend on the order in
    which the elements came. */
module Ordering {

  /** Lexicographic order on strings, by code point. */
  predicate StrLe(a: string, b: string) {
    if a == [] then true
    else if b == [] then false
    else a[0] < b[0] || (a[0] == b[0] && StrLe(a[1..], b[1..]))
  }

  lemma StrLeTotal(a: string, b: string)
    ensures StrLe(a, b) || StrLe(b, a)
  {
    if a != [] && b != [] && a[0] == b[0] {
      StrLeTotal(a[1..], b[1..]);
    }
  }

  lemma {:induction false} StrLeAntisymmetric(a: string, b: string)
    requires StrLe(a, b) && StrLe(b, a)
    ensures a == b
  {
    if a != [] && b != [] {
      StrLeAntisymmetric(a[1..], b[1..]);
      assert a == [a[0]] + a[1..] && b == [b[0]] + b[1..];
    }
  }

  lemma {:induction false} StrLeTransitive(a: string, b: string, c: string)
    requires StrLe(a, b) && StrLe(b, c)
    ensures StrLe(a, c)
  {
    if a != [] && b != [] && c != [] && a[0] == b[0] == c[0] {
      StrLeTransitive(a[1..], b[1..], c[1..]);
    }
  }

  function Insert<T>(key: T -> string, x: T, s: seq<T>): seq<T> {
    if s == [] then [x]
    else if StrLe(key(x), key(s[0])) then [x] + s
    else [s[0]] + Insert(key, x, s[1..])
  }

  /** `sorted(s, key=key)`. */
  function SortBy<T>(key: T -> string, s: seq<T>): seq<T> {
    if s == [] then [] else Insert(key, s[0], SortBy(key, s[1..]))
  }

  lemma {:induction false} InsertMultiset<T>(key: T -> string, x: T, s: seq<T>)
    ensures multiset(Insert(key, x, s)) == multiset{x} + multiset(s)
  {
    if s != [] {
      assert s == [s[0]] + s[1..];
      if !StrLe(key(x), key(s[0])) {
        InsertMultiset(key, x, s[1..]);
      }
    }
  }

  lemma {:induction false} SortByMultiset<T>(key: T -> string, s: seq<T>)
    ensures multiset(SortBy(key, s)) == multiset(s)
  {
    if s != [] {
      SortByMultiset(key, s[1..]);
      InsertMultiset(key, s[0], SortBy(key, s[1..]));
      assert s == [s[0]] + s[1..];
    }
  }

  ghost predicate SortedBy<T>(key: T -> string, s: seq<T>) {
    forall i, j :: 0 <= i < j < |s| ==> StrLe(key(s[i]), key(s[j]))
  }

  lemma {:induction false} InsertSorted<T>(key: T -> string, x: T, s: seq<T>)
    requires SortedBy(key, s)
    ensures SortedBy(key, Insert(key, x, s))
  {
    if s != [] {
      StrLeTotal(key(x), key(s[0]));
      if StrLe(key(x), key(s[0])) {
        forall j | 0 <= j < |s| ensures StrLe(key(x), key(s[j])) {
          if j > 0 {
            StrLeTransitive(key(x), key(s[0]), key(s[j]));
          }
        }
      } else {
        var rest := Insert(key, x, s[1..]);
        InsertSorted(key, x, s[1..]);
        InsertMultiset(key, x, s[1..]);
        forall j | 0 <= j < |rest| ensures StrLe(key(s[0]), key(rest[j])) {
          assert rest[j] in multiset(rest);
          assert rest[j] == x || rest[j] in s[1..];
        }
      }
    }
  }

  lemma {:induction false} SortBySorted<T>(key: T -> string, s: seq<T>)
    ensures SortedBy(key, SortBy(key, s))
  {
    if s != [] {
      SortBySorted(key, s[1..]);
      InsertSorted(key, s[0], SortBy(key, s[1..]));
    }
  }

  /** Within `s`, elements with equal keys are equal. */
  ghost predicate KeysIdentify<T(!new)>(key: T -> string, s: multiset<T>) {
    forall x, y :: x in s && y in s && key(x) == key(y) ==> x == y
  }

  /** The head of a sorted list is at most every element of it. */
  lemma HeadLeast<T>(key: T -> string, a: seq<T>, x: T)
    requires SortedBy(key, a) && x in multiset(a)
    ensures a != [] && StrLe(key(a[0]), key(x))
  {
    var i :| 0 <= i < |a| && a[i] == x;
    StrLeTotal(key(x), key(x));
    assert i > 0 ==> StrLe(key(a[0]), key(a[i]));
  }

  lemma SameHead<T(!new)>(key: T -> string, a: seq<T>, b: seq<T>)
    requires SortedBy(key, a) && SortedBy(key, b) && multiset(a) == multiset(b)
    requires a != [] && b != [] && KeysIdentify(key, multiset(a))
    ensures a[0] == b[0]
  {
    assert a[0] in multiset(a) && b[0] in multiset(b);
    HeadLeast(key, a, b[0]);
    HeadLeast(key, b, a[0]);
    StrLeAntisymmetric(key(a[0]), key(b[0]));
  }

  lemma TailSorted<T(!new)>(key: T -> string, a: seq<T>)
    requires SortedBy(key, a) && KeysIdentify(key, multiset(a)) && a != []
    ensures SortedBy(key, a[1..]) && KeysIdentify(key, multiset(a[1..]))
    ensures multiset(a[1..]) == multiset(a) - multiset{a[0]}
  {
    assert a == [a[0]] + a[1..];
  }

  lemma SameLength<T>(a: seq<T>, b: seq<T>)
    requires multiset(a) == multiset(b)
    ensures |a| == |b|
  {
    assert |multiset(a)| == |a| && |multiset(b)| == |b|;
  }

  lemma HeadAndTail<T>(a: seq<T>, b: seq<T>)
    requires a != [] && b != [] && a[0] == b[0] && a[1..] == b[1..]
    ensures a == b
  {
    assert a == [a[0]] + a[1..] && b == [b[0]] + b[1..];
  }

  /** Two sorted lists with the same elements are equal when equal keys mean equal elements. */
  lemma {:induction false} SortedUnique<T(!new)>(key: T -> string, a: seq<T>, b: seq<T>)
    requires SortedBy(key, a) && SortedBy(key, b) && multiset(a) == multiset(b)
    requires KeysIdentify(key, multiset(a))
    ensures a == b
  {
    SameLength(a, b);
    if a != [] {
      assert a[0] == b[0] by {
        SameHead(key, a, b);
      }
      assert a[1..] == b[1..] by {
        TailSorted(key, a);
        TailSorted(key, b);
        SortedUnique(key, a[1..], b[1..]);
      }
      HeadAndTail(a, b);
    }
  }

  /** A permutation with distinct keys sorts to the same list. */
  lemma SortByPermutation<T(!new)>(key: T -> string, a: seq<T>, b: seq<T>)
    requires multiset(a) == multiset(b)
    requires KeysIdentify(key, multiset(a))
    ensures SortBy(key, a) == SortBy(key, b)
  {
    SortBySorted(key, a);
    SortBySorted(key, b);
    SortByMultiset(key, a);
    SortByMultiset(key, b);
    SortedUnique(key, SortBy(key, a), SortBy(key, b));
  }

  function OwnKey(s: string): string { s }

  /** `sorted(list_of_strings)`. */
  function Sorted(s: seq<string>): seq<string> {
    SortBy(OwnKey, s)
  }

  /** The sorted list stands for the multiset: it forgets the order and nothing else. */
  lemma SortedCanonical(a: seq<string>, b: seq<string>)
    ensures Sorted(a) == Sorted(b) <==> multiset(a) == multiset(b)
  {
    SortByMultiset(OwnKey, a);
    SortByMultiset(OwnKey, b);
    if multiset(a) == multiset(b) {
      SortByPermutation(OwnKey, a, b);
    }
  }
}
