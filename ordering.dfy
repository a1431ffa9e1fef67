/**
 * The `orderBy` of a query: the rows come back sorted by a key and are a
 * permutation of the rows that matched. The order of rows with equal keys is
 * not fixed by the query; the model keeps them in input order.
 */
module Ordering {
  import opened Folds

  ghost predicate Total<T(!new)>(le: (T, T) -> bool) {
    forall a, b :: le(a, b) || le(b, a)
  }

  ghost predicate Transitive<T(!new)>(le: (T, T) -> bool) {
    forall a, b, c :: le(a, b) && le(b, c) ==> le(a, c)
  }

  /** Every row comes no later than the rows after it. */
  predicate SortedBy<T>(s: seq<T>, le: (T, T) -> bool) {
    forall i, j :: 0 <= i < j < |s| ==> le(s[i], s[j])
  }

  /** Insert `x` before the first row it may precede. */
  function Insert<T>(x: T, s: seq<T>, le: (T, T) -> bool): (r: seq<T>)
    ensures multiset(r) == multiset(s) + multiset{x}
  {
    if s == [] || le(x, s[0]) then [x] + s
    else
      assert s == [s[0]] + s[1..];
      [s[0]] + Insert(x, s[1..], le)
  }

  /** Insertion sort. */
  function SortBy<T>(s: seq<T>, le: (T, T) -> bool): (r: seq<T>)
    ensures multiset(r) == multiset(s)
  {
    if s == [] then []
    else
      assert s == [s[0]] + s[1..];
      Insert(s[0], SortBy(s[1..], le), le)
  }

  lemma {:induction false} InsertSorted<T(!new)>(x: T, s: seq<T>, le: (T, T) -> bool)
    requires Total(le) && Transitive(le)
    requires SortedBy(s, le)
    ensures SortedBy(Insert(x, s, le), le)
  {
    if s == [] || le(x, s[0]) {
      var r := [x] + s;
      forall i, j | 0 <= i < j < |r| ensures le(r[i], r[j]) {
        if i == 0 && j > 1 {
          assert le(x, s[0]) && le(s[0], s[j - 1]);
        }
      }
    } else {
      assert le(s[0], x);
      InsertSorted(x, s[1..], le);
      var tail := Insert(x, s[1..], le);
      var r := [s[0]] + tail;
      forall j | 0 <= j < |tail| ensures le(s[0], tail[j]) {
        assert tail[j] in multiset(tail);
        assert tail[j] in multiset(s[1..]) + multiset{x};
        if tail[j] != x || tail[j] in multiset(s[1..]) {
          if tail[j] in multiset(s[1..]) {
            var k :| 0 <= k < |s[1..]| && s[1..][k] == tail[j];
            assert s[k + 1] == tail[j];
          }
        }
      }
      forall i, j | 0 <= i < j < |r| ensures le(r[i], r[j]) {
        if i == 0 {
          assert r[j] == tail[j - 1];
        } else {
          assert r[i] == tail[i - 1] && r[j] == tail[j - 1];
        }
      }
    }
  }

  /** Under a total, transitive order, the sort's result is sorted. */
  lemma {:induction false} SortBySorted<T(!new)>(s: seq<T>, le: (T, T) -> bool)
    requires Total(le) && Transitive(le)
    ensures SortedBy(SortBy(s, le), le)
  {
    if s != [] {
      SortBySorted(s[1..], le);
      InsertSorted(s[0], SortBy(s[1..], le), le);
    }
  }

  /** `orderBy: { <key>: "desc" }` on a timestamp column. */
  function NewestFirst<T>(key: T -> int): (T, T) -> bool {
    (a: T, b: T) => key(a) >= key(b)
  }

  lemma NewestFirstIsOrder<T(!new)>(key: T -> int)
    ensures Total(NewestFirst(key)) && Transitive(NewestFirst(key))
  {
  }

  /** Lexicographic order of strings by code unit, the order of `orderBy: { name: "asc" }` in the model. */
  predicate LexLe(a: string, b: string) {
    a == [] || (b != [] && (a[0] < b[0] || (a[0] == b[0] && LexLe(a[1..], b[1..]))))
  }

  lemma {:induction false} LexLeTotal(a: string, b: string)
    ensures LexLe(a, b) || LexLe(b, a)
  {
    if a != [] && b != [] && a[0] == b[0] {
      LexLeTotal(a[1..], b[1..]);
    }
  }

  lemma {:induction false} LexLeTransitive(a: string, b: string, c: string)
    requires LexLe(a, b) && LexLe(b, c)
    ensures LexLe(a, c)
  {
    if a != [] && b != [] && c != [] && a[0] == b[0] && b[0] == c[0] {
      LexLeTransitive(a[1..], b[1..], c[1..]);
    }
  }

  /** `orderBy: { <key>: "asc" }` on a text column. */
  function AlphabeticalBy<T>(key: T -> string): (T, T) -> bool {
    (a: T, b: T) => LexLe(key(a), key(b))
  }

  lemma AlphabeticalIsOrder<T(!new)>(key: T -> string)
    ensures Total(AlphabeticalBy(key)) && Transitive(AlphabeticalBy(key))
  {
    forall a: T, b: T ensures AlphabeticalBy(key)(a, b) || AlphabeticalBy(key)(b, a) {
      LexLeTotal(key(a), key(b));
    }
    forall a: T, b: T, c: T | AlphabeticalBy(key)(a, b) && AlphabeticalBy(key)(b, c) ensures AlphabeticalBy(key)(a, c) {
      LexLeTransitive(key(a), key(b), key(c));
    }
  }

  /**
   * A query with a where-clause and an orderBy: the rows that match, each
   * once, sorted. (`findMany({ where, orderBy })`.)
   */
  function Query<T>(rows: seq<T>, matches: T -> bool, le: (T, T) -> bool): seq<T> {
    SortBy(Filter(rows, matches), le)
  }

  /** The query returns exactly the matching rows, as often as they occur, in order. */
  lemma QueryContents<T(!new)>(rows: seq<T>, matches: T -> bool, le: (T, T) -> bool)
    requires Total(le) && Transitive(le)
    ensures SortedBy(Query(rows, matches, le), le)
    ensures multiset(Query(rows, matches, le)) == multiset(Filter(rows, matches))
    ensures |Query(rows, matches, le)| == |Filter(rows, matches)|
    ensures forall x :: x in Query(rows, matches, le) <==> x in rows && matches(x)
  {
    var r := Query(rows, matches, le);
    SortBySorted(Filter(rows, matches), le);
    FilterMembers(rows, matches);
    assert |multiset(r)| == |r|;
    assert |multiset(Filter(rows, matches))| == |Filter(rows, matches)|;
    forall x ensures x in r <==> x in rows && matches(x) {
      assert x in r <==> x in multiset(r);
      assert x in Filter(rows, matches) <==> x in multiset(Filter(rows, matches));
    }
  }
}
