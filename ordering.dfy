/** The order of the collection: `.sort((a, b) => new Date(a.startDate) -
    new Date(b.startDate))`.  The host's sort is stable, so the result is
    determined by two facts: it is ascending by start date, and for every
    start date the records having it appear in their original order.
    `SortByStart` is an insertion sort with both properties, and
    `StableSortUnique` shows any sort with both gives the same sequence. */
module Ordering {

  import opened Days
  import opened Records

  function Key(c: Cycle): Day {
    c.data.startDate
  }

  predicate SortedByStart(s: seq<Cycle>) {
    forall i, j :: 0 <= i < j < |s| ==> Key(s[i]) <= Key(s[j])
  }

  /** The records starting on day `k`, in the order they appear. */
  function WithStart(s: seq<Cycle>, k: Day): seq<Cycle> {
    if s == [] then []
    else (if Key(s[0]) == k then [s[0]] else []) + WithStart(s[1..], k)
  }

  /** `x` placed before the first record that does not start earlier. */
  function Insert(x: Cycle, s: seq<Cycle>): (r: seq<Cycle>)
    ensures |r| == |s| + 1
    ensures r[0] == x || (s != [] && r[0] == s[0])
    ensures multiset(r) == multiset(s) + multiset{x}
  {
    if s == [] || Key(x) <= Key(s[0]) then [x] + s
    else
      assert s == [s[0]] + s[1..];
      [s[0]] + Insert(x, s[1..])
  }

  lemma {:induction false} InsertSorted(x: Cycle, s: seq<Cycle>)
    requires SortedByStart(s)
    ensures SortedByStart(Insert(x, s))
    decreases |s|
  {
    if s != [] && Key(x) > Key(s[0]) {
      var rest := Insert(x, s[1..]);
      InsertSorted(x, s[1..]);
      var r := [s[0]] + rest;
      assert Insert(x, s) == r;
      assert Key(s[0]) <= Key(rest[0]);
      forall i, j | 0 <= i < j < |r| ensures Key(r[i]) <= Key(r[j]) {
        if i == 0 { assert Key(rest[0]) <= Key(rest[j - 1]); }
      }
    }
  }

  /** The stable sort by start date. */
  function SortByStart(s: seq<Cycle>): (r: seq<Cycle>)
    ensures SortedByStart(r)
    ensures multiset(r) == multiset(s)
  {
    if s == [] then []
    else
      assert s == [s[0]] + s[1..];
      var sorted := SortByStart(s[1..]);
      InsertSorted(s[0], sorted);
      Insert(s[0], sorted)
  }

  lemma {:induction false} WithStartAppend(s: seq<Cycle>, t: seq<Cycle>, k: Day)
    ensures WithStart(s + t, k) == WithStart(s, k) + WithStart(t, k)
    decreases |s|
  {
    if s == [] {
      assert s + t == t;
    } else {
      var h := if Key(s[0]) == k then [s[0]] else [];
      var u := s + t;
      assert u[0] == s[0];
      assert u[1..] == s[1..] + t;
      calc {
        WithStart(u, k);
        h + WithStart(u[1..], k);
        { WithStartAppend(s[1..], t, k); }
        h + (WithStart(s[1..], k) + WithStart(t, k));
        (h + WithStart(s[1..], k)) + WithStart(t, k);
      }
    }
  }

  lemma {:induction false} WithStartNonEmpty(s: seq<Cycle>, k: Day)
    ensures WithStart(s, k) != [] <==> exists j :: 0 <= j < |s| && Key(s[j]) == k
    decreases |s|
  {
    if s != [] {
      WithStartNonEmpty(s[1..], k);
      if exists j :: 0 <= j < |s| && Key(s[j]) == k {
        var j :| 0 <= j < |s| && Key(s[j]) == k;
        if j > 0 { assert Key(s[1..][j - 1]) == k; }
      }
      if exists j :: 0 <= j < |s[1..]| && Key(s[1..][j]) == k {
        var j :| 0 <= j < |s[1..]| && Key(s[1..][j]) == k;
        assert Key(s[j + 1]) == k;
      }
    }
  }

  /** Inserting `x` puts it ahead of every record with the same start date. */
  lemma {:induction false} InsertStable(x: Cycle, s: seq<Cycle>, k: Day)
    ensures WithStart(Insert(x, s), k) == (if Key(x) == k then [x] else []) + WithStart(s, k)
    decreases |s|
  {
    var hx := if Key(x) == k then [x] else [];
    if s == [] || Key(x) <= Key(s[0]) {
      var r := [x] + s;
      assert r[0] == x && r[1..] == s;
      assert WithStart(r, k) == hx + WithStart(s, k);
    } else {
      var rest := Insert(x, s[1..]);
      var r := [s[0]] + rest;
      assert Insert(x, s) == r;
      assert r[0] == s[0] && r[1..] == rest;
      var hs := if Key(s[0]) == k then [s[0]] else [];
      assert WithStart(r, k) == hs + WithStart(rest, k);
      InsertStable(x, s[1..], k);
      assert WithStart(s, k) == hs + WithStart(s[1..], k);
      assert hs == [] || hx == [];
    }
  }

  /** Records sharing a start date keep their relative order. */
  lemma {:induction false} SortStable(s: seq<Cycle>, k: Day)
    ensures WithStart(SortByStart(s), k) == WithStart(s, k)
    decreases |s|
  {
    if s != [] {
      InsertStable(s[0], SortByStart(s[1..]), k);
      SortStable(s[1..], k);
    }
  }

  /** Sorting after appending one record: the old records with a given start
      date come first, in their old order, followed by the new one. */
  lemma AppendThenSort(s: seq<Cycle>, x: Cycle, k: Day)
    ensures WithStart(SortByStart(s + [x]), k) == WithStart(s, k) + (if Key(x) == k then [x] else [])
  {
    var t := s + [x];
    SortStable(t, k);
    WithStartAppend(s, [x], k);
    assert WithStart([x], k) == (if Key(x) == k then [x] else []) + WithStart([], k);
  }

  /** Two non-empty sequences sorted by start date that agree date by date
      begin with the same record. */
  lemma SameFirst(a: seq<Cycle>, b: seq<Cycle>)
    requires a != [] && b != []
    requires SortedByStart(a) && SortedByStart(b)
    requires forall k :: WithStart(a, k) == WithStart(b, k)
    ensures a[0] == b[0]
  {
    var m, n := Key(a[0]), Key(b[0]);
    // b holds a record starting on m, so its first record starts no later.
    assert WithStart(a, m) == WithStart(b, m);
    WithStartNonEmpty(b, m);
    // a holds a record starting on n, so its first record starts no later.
    assert WithStart(a, n) == WithStart(b, n);
    WithStartNonEmpty(a, n);
    assert m == n;
    assert a[0] == WithStart(a, m)[0] == WithStart(b, m)[0] == b[0];
  }

  /** Dropping the same first record from both keeps them agreeing date by date. */
  lemma SameRest(a: seq<Cycle>, b: seq<Cycle>, k: Day)
    requires a != [] && b != [] && a[0] == b[0]
    requires WithStart(a, k) == WithStart(b, k)
    ensures WithStart(a[1..], k) == WithStart(b[1..], k)
  {
    var p := if Key(a[0]) == k then [a[0]] else [];
    assert WithStart(a, k) == p + WithStart(a[1..], k);
    assert WithStart(b, k) == p + WithStart(b[1..], k);
    assert WithStart(a[1..], k) == (p + WithStart(a[1..], k))[|p|..];
    assert WithStart(b[1..], k) == (p + WithStart(b[1..], k))[|p|..];
  }

  /** Two sequences sorted by start date that agree, date by date, on the
      records starting that day and their order are the same sequence: a
      stable sort has exactly one possible result. */
  lemma {:induction false} StableSortUnique(a: seq<Cycle>, b: seq<Cycle>)
    requires SortedByStart(a) && SortedByStart(b)
    requires forall k :: WithStart(a, k) == WithStart(b, k)
    ensures a == b
    decreases |a|
  {
    if a == [] || b == [] {
      if a != [] {
        WithStartNonEmpty(a, Key(a[0]));
        WithStartNonEmpty(b, Key(a[0]));
      }
      if b != [] {
        WithStartNonEmpty(b, Key(b[0]));
        WithStartNonEmpty(a, Key(b[0]));
      }
    } else {
      SameFirst(a, b);
      forall k
        ensures WithStart(a[1..], k) == WithStart(b[1..], k)
      {
        SameRest(a, b, k);
      }
      StableSortUnique(a[1..], b[1..]);
      assert a == [a[0]] + a[1..] && b == [b[0]] + b[1..];
    }
  }
}
