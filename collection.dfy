/** The list operations `updateCycle` and `deleteCycle` apply to the
    collection before it is re-sorted and saved. */
module Collection {

  import opened Records
  import opened Ordering

  /** `cycles.map(c => c.id === id ? edited : c)`. */
  function ReplaceById(s: seq<Cycle>, id: Id, edited: Cycle): (r: seq<Cycle>)
    ensures |r| == |s|
    ensures forall i :: 0 <= i < |s| ==> r[i] == if s[i].id == id then edited else s[i]
  {
    if s == [] then []
    else [if s[0].id == id then edited else s[0]] + ReplaceById(s[1..], id, edited)
  }

  /** `cycles.filter(c => c.id !== id)`. */
  function RemoveById(s: seq<Cycle>, id: Id): (r: seq<Cycle>)
    ensures |r| <= |s|
    ensures forall i :: 0 <= i < |r| ==> r[i].id != id
  {
    if s == [] then []
    else (if s[0].id == id then [] else [s[0]]) + RemoveById(s[1..], id)
  }

  /** Deleting removes every record with the id and keeps every other record
      as many times as it occurred. */
  lemma {:induction false} RemoveByIdCounts(s: seq<Cycle>, id: Id)
    ensures forall c :: multiset(RemoveById(s, id))[c] == if c.id == id then 0 else multiset(s)[c]
    decreases |s|
  {
    if s != [] {
      RemoveByIdCounts(s[1..], id);
      assert s == [s[0]] + s[1..];
    }
  }

  /** Deleting keeps the surviving records in their order: removing from a
      concatenation is removing from each part. */
  lemma {:induction false} RemoveByIdAppend(s: seq<Cycle>, t: seq<Cycle>, id: Id)
    ensures RemoveById(s + t, id) == RemoveById(s, id) + RemoveById(t, id)
    decreases |s|
  {
    if s == [] {
      assert s + t == t;
    } else {
      var h := if s[0].id == id then [] else [s[0]];
      var u := s + t;
      assert u[0] == s[0];
      assert u[1..] == s[1..] + t;
      calc {
        RemoveById(u, id);
        h + RemoveById(u[1..], id);
        { RemoveByIdAppend(s[1..], t, id); }
        h + (RemoveById(s[1..], id) + RemoveById(t, id));
        (h + RemoveById(s[1..], id)) + RemoveById(t, id);
      }
    }
  }

  /** The survivors of a deletion from a sorted collection are still sorted. */
  lemma {:induction false} RemoveByIdSorted(s: seq<Cycle>, id: Id)
    requires SortedByStart(s)
    ensures SortedByStart(RemoveById(s, id))
    decreases |s|
  {
    if s != [] {
      var rest := RemoveById(s[1..], id);
      RemoveByIdSorted(s[1..], id);
      forall j | 0 <= j < |rest| ensures Key(s[0]) <= Key(rest[j]) {
        var c := rest[j];
        RemoveByIdCounts(s[1..], id);
        assert multiset(rest)[c] > 0;
        assert multiset(s[1..])[c] > 0;
        var k :| 0 <= k < |s[1..]| && s[1..][k] == c;
        assert s[k + 1] == c;
      }
      var h := if s[0].id == id then [] else [s[0]];
      assert RemoveById(s, id) == h + rest;
    }
  }

  /** When no record has the given id, nothing is deleted. */
  lemma {:induction false} RemoveAbsentId(s: seq<Cycle>, id: Id)
    requires forall i :: 0 <= i < |s| ==> s[i].id != id
    ensures RemoveById(s, id) == s
    decreases |s|
  {
    if s != [] {
      RemoveAbsentId(s[1..], id);
      assert s == [s[0]] + s[1..];
    }
  }

  /** Replacing leaves every record with another id as many times as it
      occurred. */
  lemma {:induction false} ReplaceByIdCounts(s: seq<Cycle>, id: Id, edited: Cycle)
    requires edited.id == id
    ensures forall c: Cycle :: c.id != id ==> multiset(ReplaceById(s, id, edited))[c] == multiset(s)[c]
    decreases |s|
  {
    if s != [] {
      ReplaceByIdCounts(s[1..], id, edited);
      var r := ReplaceById(s, id, edited);
      var rest := ReplaceById(s[1..], id, edited);
      assert s == [s[0]] + s[1..];
      assert r == [r[0]] + rest;
      assert multiset(r) == multiset{r[0]} + multiset(rest);
    }
  }

  /** After replacing, every record carrying the id is the edited one. */
  lemma ReplaceByIdOnlyEdited(s: seq<Cycle>, id: Id, edited: Cycle)
    ensures forall c: Cycle :: c in ReplaceById(s, id, edited) && c.id == id ==> c == edited
  {
    var r := ReplaceById(s, id, edited);
    forall c: Cycle | c in r && c.id == id ensures c == edited {
      var i :| 0 <= i < |r| && r[i] == c;
    }
  }

  /** Replacing by id keeps the count of records and the identifiers present. */
  lemma ReplaceKeepsIds(s: seq<Cycle>, id: Id, edited: Cycle)
    requires edited.id == id
    ensures forall i :: 0 <= i < |s| ==> ReplaceById(s, id, edited)[i].id == s[i].id
  {
  }
}
