/**
 The order in which rows are returned by `ORDER BY <time> DESC`.

 SQL leaves the order of rows with equal times open; here such ties are broken by
 the row's identifier, so every table has exactly one sorted listing.
 */
module Ordering {

  /** Byte-wise order of strings, as Go's `<` on strings. */
  predicate LexLess(a: string, b: string) {
    b != [] && (a == [] || a[0] < b[0] || (a[0] == b[0] && LexLess(a[1..], b[1..])))
  }

  lemma {:induction false} LexTrichotomy(a: string, b: string)
    ensures LexLess(a, b) || a == b || LexLess(b, a)
    ensures !(LexLess(a, b) && LexLess(b, a))
    ensures !LexLess(a, a)
  {
    if a != [] {
      LexTrichotomy(a[1..], if b != [] then b[1..] else []);
      if b != [] && a[0] == b[0] && a[1..] == b[1..] {
        assert a == [a[0]] + a[1..] && b == [b[0]] + b[1..];
      }
    }
  }

  lemma {:induction false} LexTransitive(a: string, b: string, c: string)
    requires LexLess(a, b) && LexLess(b, c)
    ensures LexLess(a, c)
  {
    if a != [] && a[0] == b[0] && b[0] == c[0] {
      LexTransitive(a[1..], b[1..], c[1..]);
    }
  }

  /** The sort key of a row: its time, and the identifier that breaks ties. */
  datatype Stamp = Stamp(time: int, id: string)

  predicate Newer(x: Stamp, y: Stamp) {
    x.time > y.time || (x.time == y.time && LexLess(x.id, y.id))
  }

  lemma NewerIsStrictTotalOrder(x: Stamp, y: Stamp, z: Stamp)
    ensures x == y || Newer(x, y) || Newer(y, x)
    ensures !(Newer(x, y) && Newer(y, x))
    ensures !Newer(x, x)
    ensures Newer(x, y) && Newer(y, z) ==> Newer(x, z)
  {
    LexTrichotomy(x.id, y.id);
    if LexLess(x.id, y.id) && LexLess(y.id, z.id) {
      LexTransitive(x.id, y.id, z.id);
    }
  }

  /** Every row is strictly newer than every row after it. */
  ghost predicate Sorted<T>(s: seq<T>, stamp: T -> Stamp) {
    forall i, j :: 0 <= i < j < |s| ==> Newer(stamp(s[i]), stamp(s[j]))
  }

  ghost predicate DistinctStamps<T>(s: seq<T>, stamp: T -> Stamp) {
    forall i, j :: 0 <= i < j < |s| ==> stamp(s[i]) != stamp(s[j])
  }

  function Insert<T>(x: T, s: seq<T>, stamp: T -> Stamp): seq<T> {
    if s == [] || Newer(stamp(x), stamp(s[0])) then [x] + s
    else [s[0]] + Insert(x, s[1..], stamp)
  }

  /** The listing of the rows `s`, newest first. */
  function Sort<T>(s: seq<T>, stamp: T -> Stamp): seq<T> {
    if s == [] then [] else Insert(s[0], Sort(s[1..], stamp), stamp)
  }

  lemma {:induction false} InsertSorted<T>(x: T, s: seq<T>, stamp: T -> Stamp)
    requires Sorted(s, stamp)
    requires forall y :: y in s ==> stamp(y) != stamp(x)
    ensures Sorted(Insert(x, s, stamp), stamp)
    ensures multiset(Insert(x, s, stamp)) == multiset(s) + multiset{x}
  {
    if s == [] {
    } else if Newer(stamp(x), stamp(s[0])) {
      forall j | 0 < j < |s| ensures Newer(stamp(x), stamp(s[j])) {
        NewerIsStrictTotalOrder(stamp(x), stamp(s[0]), stamp(s[j]));
      }
    } else {
      var rest := Insert(x, s[1..], stamp);
      InsertSorted(x, s[1..], stamp);
      NewerIsStrictTotalOrder(stamp(x), stamp(s[0]), stamp(x));
      assert s == [s[0]] + s[1..];
      forall j | 0 <= j < |rest| ensures Newer(stamp(s[0]), stamp(rest[j])) {
        assert rest[j] in multiset(rest);
        assert rest[j] == x || rest[j] in s[1..];
      }
    }
  }

  /** Sorting keeps every row exactly as often as it occurs, and puts newer rows first. */
  lemma {:induction false} SortSorts<T>(s: seq<T>, stamp: T -> Stamp)
    requires DistinctStamps(s, stamp)
    ensures Sorted(Sort(s, stamp), stamp)
    ensures multiset(Sort(s, stamp)) == multiset(s)
    ensures |Sort(s, stamp)| == |s|
    ensures forall x :: x in Sort(s, stamp) <==> x in s
  {
    if s != [] {
      var rest := Sort(s[1..], stamp);
      SortSorts(s[1..], stamp);
      forall y | y in rest ensures stamp(y) != stamp(s[0]) {
        assert y in multiset(rest) && y in multiset(s[1..]);
        var j :| 0 <= j < |s[1..]| && s[1..][j] == y;
        assert s[j + 1] == y;
      }
      InsertSorted(s[0], rest, stamp);
      assert s == [s[0]] + s[1..];
    }
    SameElements(Sort(s, stamp), s);
  }

  lemma {:induction false} InsertElements<T>(x: T, s: seq<T>, stamp: T -> Stamp)
    ensures forall y :: y in Insert(x, s, stamp) <==> y == x || y in s
  {
    if s != [] && !Newer(stamp(x), stamp(s[0])) {
      InsertElements(x, s[1..], stamp);
    }
  }

  /** Later rows never carry later times. */
  ghost predicate TimesDescend<T>(s: seq<T>, stamp: T -> Stamp) {
    forall i, j :: 0 <= i < j < |s| ==> stamp(s[i]).time >= stamp(s[j]).time
  }

  /** Every row is at most as late as `bound`. */
  ghost predicate AtMost<T>(s: seq<T>, stamp: T -> Stamp, bound: int) {
    forall y :: y in s ==> stamp(y).time <= bound
  }

  lemma {:induction false} InsertDescends<T>(x: T, s: seq<T>, stamp: T -> Stamp)
    requires TimesDescend(s, stamp)
    ensures TimesDescend(Insert(x, s, stamp), stamp)
  {
    if s != [] && !Newer(stamp(x), stamp(s[0])) {
      var rest := Insert(x, s[1..], stamp);
      InsertDescends(x, s[1..], stamp);
      InsertElements(x, s[1..], stamp);
      assert AtMost(s[1..], stamp, stamp(s[0]).time) && stamp(x).time <= stamp(s[0]).time;
      assert AtMost(rest, stamp, stamp(s[0]).time);
    }
  }

  /** Sorting puts later times first, whatever the rows, and loses and adds none. */
  lemma {:induction false} SortDescends<T>(s: seq<T>, stamp: T -> Stamp)
    ensures TimesDescend(Sort(s, stamp), stamp)
    ensures forall y :: y in Sort(s, stamp) <==> y in s
  {
    if s != [] {
      SortDescends(s[1..], stamp);
      InsertDescends(s[0], Sort(s[1..], stamp), stamp);
      InsertElements(s[0], Sort(s[1..], stamp), stamp);
    }
  }

  lemma SameElements<T>(a: seq<T>, b: seq<T>)
    requires multiset(a) == multiset(b)
    ensures |a| == |b|
    ensures forall x :: x in a <==> x in b
  {
    assert |multiset(a)| == |a| && |multiset(b)| == |b|;
    assert forall x :: x in a <==> x in multiset(a);
    assert forall x :: x in b <==> x in multiset(b);
  }

  lemma HeadOccursOnce<T>(s: seq<T>, stamp: T -> Stamp)
    requires s != [] && Sorted(s, stamp)
    ensures s[0] !in s[1..]
  {
    forall j | 0 <= j < |s[1..]| ensures s[1..][j] != s[0] {
      assert Newer(stamp(s[0]), stamp(s[j + 1]));
      NewerIsStrictTotalOrder(stamp(s[0]), stamp(s[0]), stamp(s[0]));
    }
  }

  /** A set of rows has only one sorted listing. */
  lemma {:induction false} SortedUnique<T>(a: seq<T>, b: seq<T>, stamp: T -> Stamp)
    requires Sorted(a, stamp) && Sorted(b, stamp)
    requires forall x :: x in a <==> x in b
    ensures a == b
  {
    assert a != [] ==> a[0] in b;
    assert b != [] ==> b[0] in a;
    if a == [] {
    } else {
      if a[0] != b[0] {
        NewerIsStrictTotalOrder(stamp(a[0]), stamp(b[0]), stamp(a[0]));
      }
      HeadOccursOnce(a, stamp);
      HeadOccursOnce(b, stamp);
      assert forall x :: x in a <==> x == a[0] || x in a[1..];
      assert forall x :: x in b <==> x == b[0] || x in b[1..];
      SortedUnique(a[1..], b[1..], stamp);
      assert a == [a[0]] + a[1..] && b == [b[0]] + b[1..];
    }
  }

  /** `LIMIT limit OFFSET offset` on a listing. */
  function Window<T>(s: seq<T>, limit: nat, offset: nat): seq<T> {
    s[Min(offset, |s|)..Min(offset + limit, |s|)]
  }

  /** A window starts at its offset and is as long as there are rows for it. */
  lemma WindowRows<T>(s: seq<T>, limit: nat, offset: nat)
    ensures |Window(s, limit, offset)| ==
      if |s| <= offset then 0 else if |s| <= offset + limit then |s| - offset else limit
    ensures forall i :: 0 <= i < |Window(s, limit, offset)| ==> Window(s, limit, offset)[i] == s[offset + i]
  {
  }

  function Min(a: int, b: int): int {
    if a < b then a else b
  }
}
