/**
  * Chart series and the one ordering the dashboard applies to them:
  * `series.sort((a, b) => b.value - a.value)`. `Array.prototype.sort` is stable
  * (ECMA-262, section 23.1.3.30), so points of equal value keep their relative order.
  */
module Sorting {

  /** A chart point `{ name, value }`. */
  datatype Point = Point(name: string, value: int)

  /** Non-increasing by value. */
  predicate SortedDesc(s: seq<Point>)
  {
    forall i, j :: 0 <= i < j < |s| ==> s[i].value >= s[j].value
  }

  /** The points of `s` whose value is v, in their order in `s`. */
  function WithValue(s: seq<Point>, v: int): seq<Point>
  {
    if s == [] then [] else (if s[0].value == v then [s[0]] else []) + WithValue(s[1..], v)
  }

  lemma {:induction false} WithValueConcat(a: seq<Point>, b: seq<Point>, v: int)
    ensures WithValue(a + b, v) == WithValue(a, v) + WithValue(b, v)
  {
    if a == [] {
      assert a + b == b;
    } else {
      var head := if a[0].value == v then [a[0]] else [];
      assert (a + b)[0] == a[0];
      assert (a + b)[1..] == a[1..] + b;
      assert WithValue(a + b, v) == head + WithValue(a[1..] + b, v);
      assert WithValue(a, v) == head + WithValue(a[1..], v);
      WithValueConcat(a[1..], b, v);
    }
  }

  lemma {:induction false} WithValueAbsent(s: seq<Point>, v: int)
    requires forall i :: 0 <= i < |s| ==> s[i].value != v
    ensures WithValue(s, v) == []
  {
    if s != [] {
      WithValueAbsent(s[1..], v);
    }
  }

  lemma {:induction false} WithValuePresent(s: seq<Point>, i: nat)
    requires i < |s|
    ensures WithValue(s, s[i].value) != []
  {
    if i > 0 && s[0].value != s[i].value {
      WithValuePresent(s[1..], i - 1);
    }
  }

  /** Places p after every point whose value is at least p's. */
  function Insert(s: seq<Point>, p: Point): seq<Point>
  {
    if s == [] then [p]
    else if s[0].value >= p.value then [s[0]] + Insert(s[1..], p)
    else [p] + s
  }

  /** Stable descending sort: each point is inserted after the equal ones that came before it. */
  function SortByValueDesc(s: seq<Point>): seq<Point>
  {
    if s == [] then [] else Insert(SortByValueDesc(s[..|s| - 1]), s[|s| - 1])
  }

  lemma {:induction false} InsertSorted(s: seq<Point>, p: Point)
    requires SortedDesc(s)
    ensures SortedDesc(Insert(s, p))
    ensures forall x :: x in Insert(s, p) ==> x == p || x in s
  {
    if s != [] && s[0].value >= p.value {
      InsertSorted(s[1..], p);
      var r := Insert(s[1..], p);
      forall j | 0 <= j < |r|
        ensures s[0].value >= r[j].value
      {
        assert r[j] in r;
      }
    }
  }

  lemma {:induction false} InsertMultiset(s: seq<Point>, p: Point)
    ensures multiset(Insert(s, p)) == multiset(s) + multiset{p}
  {
    if s != [] && s[0].value >= p.value {
      InsertMultiset(s[1..], p);
      assert s == [s[0]] + s[1..];
    }
  }

  lemma {:induction false} InsertWithValue(s: seq<Point>, p: Point, v: int)
    requires SortedDesc(s)
    ensures WithValue(Insert(s, p), v) == WithValue(s, v) + (if p.value == v then [p] else [])
  {
    if s == [] {
    } else if s[0].value >= p.value {
      InsertWithValue(s[1..], p, v);
      assert ([s[0]] + Insert(s[1..], p))[1..] == Insert(s[1..], p);
    } else {
      assert ([p] + s)[1..] == s;
      if p.value == v {
        WithValueAbsent(s, v);
      }
    }
  }

  /**
    * The series sort yields a non-increasing ordering of the same points, and points of
    * equal value appear in their original relative order.
    */
  lemma {:induction false} SortByValueDescSpec(s: seq<Point>)
    ensures SortedDesc(SortByValueDesc(s))
    ensures multiset(SortByValueDesc(s)) == multiset(s)
    ensures forall v :: WithValue(SortByValueDesc(s), v) == WithValue(s, v)
  {
    if s != [] {
      var init, last := s[..|s| - 1], s[|s| - 1];
      assert s == init + [last];
      SortByValueDescSpec(init);
      InsertSorted(SortByValueDesc(init), last);
      InsertMultiset(SortByValueDesc(init), last);
      forall v
        ensures WithValue(SortByValueDesc(s), v) == WithValue(s, v)
      {
        InsertWithValue(SortByValueDesc(init), last, v);
        WithValueConcat(init, [last], v);
      }
    }
  }

  /**
    * There is only one stable descending ordering: two sorted sequences that list the same
    * points of each value in the same order are equal. So the model's sort is the result
    * of any stable sort with this comparator.
    */
  lemma {:induction false} StableSortUnique(a: seq<Point>, b: seq<Point>)
    requires SortedDesc(a) && SortedDesc(b)
    requires forall v :: WithValue(a, v) == WithValue(b, v)
    ensures a == b
  {
    if b != [] {
      WithValuePresent(b, 0);
      assert WithValue(a, b[0].value) != [];
    }
    if a != [] {
      WithValuePresent(a, 0);
      assert WithValue(b, a[0].value) != [];
    }
    if a != [] && b != [] {
      var m := a[0].value;
      if b[0].value > m {
        WithValueAbsent(a, b[0].value);
        assert false;
      }
      if b[0].value < m {
        WithValueAbsent(b, m);
        assert false;
      }
      var wa, wb := WithValue(a[1..], m), WithValue(b[1..], m);
      assert WithValue(a, m) == [a[0]] + wa;
      assert WithValue(b, m) == [b[0]] + wb;
      assert a[0] == ([a[0]] + wa)[0] == ([b[0]] + wb)[0] == b[0];
      assert wa == ([a[0]] + wa)[1..] == ([b[0]] + wb)[1..] == wb;
      forall v
        ensures WithValue(a[1..], v) == WithValue(b[1..], v)
      {
        if v != m {
          assert WithValue(a, v) == WithValue(a[1..], v);
          assert WithValue(b, v) == WithValue(b[1..], v);
        }
      }
      StableSortUnique(a[1..], b[1..]);
      assert a == [a[0]] + a[1..];
      assert b == [b[0]] + b[1..];
    }
  }
}
