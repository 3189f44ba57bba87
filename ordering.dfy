/**
 * `Array.prototype.sort` with a numeric comparator `(a, b) => key(a) - key(b)`. The sort is
 * stable (elements with equal keys keep their relative order), as ECMAScript 2019 requires;
 * here it is an insertion sort on integer keys. A descending sort is the ascending sort on the
 * negated key.
 */
module Ordering {
  import opened Common

  predicate SortedBy<T>(s: seq<T>, key: T -> int) {
    forall i, j :: 0 <= i < j < |s| ==> key(s[i]) <= key(s[j])
  }

  /** The number of leading elements of s whose key is below key(x): where x goes. */
  function Slot<T>(x: T, s: seq<T>, key: T -> int): (j: nat)
    ensures j <= |s|
    ensures forall i :: 0 <= i < j ==> key(s[i]) < key(x)
    ensures j < |s| ==> key(x) <= key(s[j])
  {
    if s == [] || key(x) <= key(s[0]) then 0 else 1 + Slot(x, s[1..], key)
  }

  /** Inserts x in front of the first element whose key is not below its own. */
  function Insert<T>(x: T, s: seq<T>, key: T -> int): seq<T> {
    var j := Slot(x, s, key);
    s[..j] + [x] + s[j..]
  }

  lemma InsertSorted<T>(x: T, s: seq<T>, key: T -> int)
    requires SortedBy(s, key)
    ensures SortedBy(Insert(x, s, key), key)
  {
    var j := Slot(x, s, key);
    var r := Insert(x, s, key);
    forall a, b | 0 <= a < b < |r| ensures key(r[a]) <= key(r[b]) {
      if b < j || a > j {
      } else if a < j {
        assert key(r[a]) < key(x);
        if b > j {
          assert r[b] == s[b - 1] && key(x) <= key(s[j]);
        }
      } else {
        assert r[b] == s[b - 1] && key(x) <= key(s[j]);
      }
    }
  }

  lemma InsertPermutes<T>(x: T, s: seq<T>, key: T -> int)
    ensures multiset(Insert(x, s, key)) == multiset(s) + multiset{x}
  {
    var j := Slot(x, s, key);
    assert s == s[..j] + s[j..];
  }

  /** The stable ascending sort of s by key. */
  function SortBy<T>(s: seq<T>, key: T -> int): (r: seq<T>)
    ensures |r| == |s|
    ensures multiset(r) == multiset(s)
    ensures SortedBy(r, key)
  {
    if s == [] then []
    else
      var rest := SortBy(s[1..], key);
      InsertSorted(s[0], rest, key);
      InsertPermutes(s[0], rest, key);
      assert s == [s[0]] + s[1..];
      Insert(s[0], rest, key)
  }

  /** The selector of the elements whose key is k. */
  function KeyIs<T>(key: T -> int, k: int): T -> bool {
    x => key(x) == k
  }

  /** Filtering the insertion filters the part before the slot, x, and the part after it. */
  lemma FilterInsertParts<T>(x: T, s: seq<T>, key: T -> int, p: T -> bool)
    ensures var j := Slot(x, s, key);
      Filter(Insert(x, s, key), p) == Filter(s[..j], p) + Filter([x], p) + Filter(s[j..], p)
      && Filter(s, p) == Filter(s[..j], p) + Filter(s[j..], p)
  {
    var j := Slot(x, s, key);
    assert s == s[..j] + s[j..];
    FilterConcat(s[..j], s[j..], p);
    FilterConcat(s[..j] + [x], s[j..], p);
    FilterConcat(s[..j], [x], p);
  }

  /** No element before the slot of x has the key of x. */
  lemma {:induction false} NoneBeforeSlot<T>(x: T, s: seq<T>, key: T -> int)
    ensures Filter(s[..Slot(x, s, key)], KeyIs(key, key(x))) == []
  {
    var j := Slot(x, s, key);
    var lo := s[..j];
    forall i | 0 <= i < |lo| ensures !KeyIs(key, key(x))(lo[i]) {
      assert lo[i] == s[i];
    }
    FilterNone(lo, KeyIs(key, key(x)));
  }

  /** A one-element list keeps its element exactly when the selector holds. */
  lemma FilterSingle<T>(x: T, p: T -> bool)
    ensures Filter([x], p) == if p(x) then [x] else []
  {
    assert [x][1..] == [];
  }

  /** Inserting x adds nothing to the elements of another key. */
  lemma FilterInsertOtherKey<T>(x: T, s: seq<T>, key: T -> int, k: int)
    requires key(x) != k
    ensures Filter(Insert(x, s, key), KeyIs(key, k)) == Filter(s, KeyIs(key, k))
  {
    FilterInsertParts(x, s, key, KeyIs(key, k));
    FilterSingle(x, KeyIs(key, k));
  }

  /** Inserting x puts it in front of the elements of its own key. */
  lemma FilterInsertOwnKey<T>(x: T, s: seq<T>, key: T -> int)
    ensures Filter(Insert(x, s, key), KeyIs(key, key(x))) == [x] + Filter(s, KeyIs(key, key(x)))
  {
    FilterInsertParts(x, s, key, KeyIs(key, key(x)));
    FilterSingle(x, KeyIs(key, key(x)));
    NoneBeforeSlot(x, s, key);
  }

  /** Stability: among the elements with any one key, the sort keeps the original order. */
  lemma {:induction false} SortStable<T>(s: seq<T>, key: T -> int, k: int)
    ensures Filter(SortBy(s, key), KeyIs(key, k)) == Filter(s, KeyIs(key, k))
  {
    if s != [] {
      var rest := SortBy(s[1..], key);
      assert SortBy(s, key) == Insert(s[0], rest, key);
      SortStable(s[1..], key, k);
      if key(s[0]) == k {
        FilterInsertOwnKey(s[0], rest, key);
      } else {
        FilterInsertOtherKey(s[0], rest, key, k);
      }
    }
  }

  /** The first element of a sorted list has the least key, and the last the greatest. */
  lemma SortedEnds<T>(s: seq<T>, key: T -> int, x: T)
    requires SortedBy(s, key) && x in s
    ensures key(s[0]) <= key(x) <= key(s[|s| - 1])
  {
    var i :| 0 <= i < |s| && s[i] == x;
    if 0 < i { assert key(s[0]) <= key(s[i]); }
    if i < |s| - 1 { assert key(s[i]) <= key(s[|s| - 1]); }
  }
}
