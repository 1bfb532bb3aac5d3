/** The coordinator of the `CycleTracker` component: it owns the record
    collection, decides per operation whether to go through the remote
    store, and saves the collection to the local cache after each change.

    The outcome of each remote call is a parameter: `None` or `false` when
    the call throws (transport or status failure), the returned rows
    otherwise.  The local cache is the snapshot under the key
    `'menstrualCycles'`, `None` when the key is absent. */
module Tracker {

  import opened Wrappers
  import opened Days
  import opened Records
  import opened Remote
  import opened Ordering
  import opened Collection

  /** The error banner set by an operation. */
  datatype Notice =
    | MissingDates      // add without both dates
    | MissingFields     // update without a record being edited or without both dates
    | DateOrder         // end date before start date
    | LoadFailed        // fetch threw; local data loaded instead
    | AddFailed
    | UpdateFailed
    | DeleteFailed
    | LocalOnly         // added locally because no remote store is configured
    | Offline           // added locally because the device is offline

  /** The record built on the local path of `addCycle`:
      `{ id: Date.now(), ...entry, _isPending: !configured || !online }`. */
  function LocalRecord(now: nat, e: Entry, configured: bool, online: bool): (r: Cycle)
    ensures r.id == Num(now) && r.data == e
    ensures r.pending <==> !(configured && online)
  {
    Cycle(Num(now), e, !configured || !online)
  }

  /** A successful add: the old records plus the new one, sorted by start
      date, ties in their prior order with the new record last among them. */
  lemma AddedCollection(s: seq<Cycle>, x: Cycle)
    ensures var t := SortByStart(s + [x]);
      && SortedByStart(t)
      && |t| == |s| + 1
      && multiset(t) == multiset(s) + multiset{x}
      && forall k :: WithStart(t, k) == WithStart(s, k) + (if Key(x) == k then [x] else [])
  {
    var t := SortByStart(s + [x]);
    assert |t| == |multiset(t)| == |multiset(s + [x])| == |s + [x]|;
    forall k
      ensures WithStart(t, k) == WithStart(s, k) + (if Key(x) == k then [x] else [])
    {
      AppendThenSort(s, x, k);
    }
  }

  /** A successful update: same number of records, sorted by start date,
      every record with the edited id replaced by the edited record and
      every other record kept. */
  lemma UpdatedCollection(s: seq<Cycle>, id: Id, e: Entry)
    ensures var edited := Cycle(id, e, false);
      var t := SortByStart(ReplaceById(s, id, edited));
      && SortedByStart(t)
      && |t| == |s|
      && (forall c: Cycle :: c.id != id ==> multiset(t)[c] == multiset(s)[c])
      && (forall c: Cycle :: c in t && c.id == id ==> c == edited)
  {
    var edited := Cycle(id, e, false);
    var r := ReplaceById(s, id, edited);
    var t := SortByStart(r);
    ReplaceByIdCounts(s, id, edited);
    ReplaceByIdOnlyEdited(s, id, edited);
    assert |t| == |multiset(t)| == |multiset(r)| == |r|;
    forall c | c in t && c.id == id ensures c == edited {
      assert multiset(t)[c] > 0;
      assert c in r;
    }
  }

  /** A successful delete: exactly the records with the id are gone, the
      others keep their order, and a sorted collection stays sorted. */
  lemma DeletedCollection(s: seq<Cycle>, id: Id)
    ensures var t := RemoveById(s, id);
      && (forall c: Cycle :: multiset(t)[c] == if c.id == id then 0 else multiset(s)[c])
      && (forall k :: 0 <= k <= |s| ==> t == RemoveById(s[..k], id) + RemoveById(s[k..], id))
      && (SortedByStart(s) ==> SortedByStart(t))
  {
    RemoveByIdCounts(s, id);
    forall k | 0 <= k <= |s|
      ensures RemoveById(s, id) == RemoveById(s[..k], id) + RemoveById(s[k..], id)
    {
      assert s == s[..k] + s[k..];
      RemoveByIdAppend(s[..k], s[k..], id);
    }
    if SortedByStart(s) {
      RemoveByIdSorted(s, id);
    }
  }

  /** A record added while the remote store is unusable is flagged pending,
      and its numeric id never passes the `temp_` test, so a later update or
      delete while online is sent to the remote store. */
  lemma LocalRecordPendingNotTemp(now: nat, e: Entry, configured: bool, online: bool)
    requires !(configured && online)
    ensures LocalRecord(now, e, configured, online).pending
    ensures !IsTempId(LocalRecord(now, e, configured, online).id)
  {
    NumericIdNeverTemp(now);
  }

  /** When the store's insert response echoes what was sent, the record added
      on the remote path is the form's entry under the store's key. */
  lemma RemoteAddEchoes(form: Form, key: Id)
    requires HasDates(form)
    ensures FromCreatedRow(StoredRow(key, ToPayload(EntryOf(form)))) == Cycle(key, EntryOf(form), false)
  {
    CreateRoundTrip(key, EntryOf(form));
  }

  class CycleTracker {
    var cycles: seq<Cycle>
    var cache: Option<seq<Cycle>>
    var configured: bool
    var online: bool
    var error: Option<Notice>

    /** Mounting the component: the state starts with an empty collection
        and `supabaseConfigured == false`; the configuration effect then sets
        the flag from the environment (`hasConfig`), and the load effect calls
        `loadCycles`.  That call belongs to the first render, so it sees the
        flag still `false`: the snapshot in the cache is loaded and the
        remote rows (`fetched`) are never used.  Running the load before the
        flag is set gives the same result. */
    constructor Mount(hasConfig: bool, online: bool, stored: Option<seq<Cycle>>, fetched: Option<seq<Row>>)
      ensures configured == hasConfig && this.online == online
      ensures cycles == stored.GetOr([]) && cache == stored && error == None
      ensures Mirrored()
    {
      configured := false;
      this.online := online;
      cycles := [];
      cache := stored;
      error := None;
      new;
      LoadCycles(fetched);
      configured := hasConfig;
    }

    /** The mount as evidently intended: the load sees the configuration,
        so a configured, online component starts from the remote rows. */
    constructor MountIntended(hasConfig: bool, online: bool, stored: Option<seq<Cycle>>, fetched: Option<seq<Row>>)
      ensures configured == hasConfig && this.online == online
      ensures hasConfig && online && fetched.Some? ==>
        cycles == FromFetchedRows(fetched.value) && cache == Some(cycles) && error == None
      ensures hasConfig && online && fetched.None? ==>
        cycles == stored.GetOr([]) && cache == stored && error == Some(LoadFailed)
      ensures !(hasConfig && online) ==>
        cycles == stored.GetOr([]) && cache == stored && error == None
      ensures Mirrored()
    {
      configured := hasConfig;
      this.online := online;
      cycles := [];
      cache := stored;
      error := None;
      new;
      LoadCycles(fetched);
    }

    /** `supabaseConfigured && isOnline`. */
    predicate RemoteUsable()
      reads this
    {
      configured && online
    }

    /** The cache holds exactly the collection (or is absent while the
        collection is empty). */
    predicate Mirrored()
      reads this
    {
      cache == Some(cycles) || (cache == None && cycles == [])
    }

    /** The `online` / `offline` window events. */
    method SetOnline(up: bool)
      modifies this`online
      ensures online == up
    {
      online := up;
    }

    /** `loadCycles`. */
    method LoadCycles(fetched: Option<seq<Row>>)
      modifies this`cycles, this`cache, this`error
      ensures RemoteUsable() && fetched.Some? ==>
        cycles == FromFetchedRows(fetched.value) && cache == Some(cycles) && error == None
      ensures RemoteUsable() && fetched.None? ==>
        cycles == old(cache).GetOr(old(cycles)) && cache == old(cache) && error == Some(LoadFailed)
      ensures !RemoteUsable() ==>
        cycles == old(cache).GetOr(old(cycles)) && cache == old(cache) && error == None
      ensures old(Mirrored()) || old(cycles) == [] ==> Mirrored()
    {
      error := None;
      if configured && online {
        if fetched.Some? {
          var rows := FromFetchedRows(fetched.value);
          cycles := rows;
          cache := Some(rows);
        } else {
          error := Some(LoadFailed);
          if cache.Some? {
            cycles := cache.value;
          }
        }
      } else {
        if cache.Some? {
          cycles := cache.value;
        }
      }
    }

    /** `addCycle`, with the form's content, `Date.now()` and the outcome of
        the remote insert as parameters. */
    method AddCycle(form: Form, now: nat, created: Option<Row>)
      modifies this`cycles, this`cache, this`error
      ensures !HasDates(form) ==>
        cycles == old(cycles) && cache == old(cache) && error == Some(MissingDates)
      ensures HasDates(form) && form.endDate.value < form.startDate.value ==>
        cycles == old(cycles) && cache == old(cache) && error == Some(DateOrder)
      ensures HasDates(form) && form.startDate.value <= form.endDate.value ==>
        if RemoteUsable() then
          if created.None? then
            cycles == old(cycles) && cache == old(cache) && error == Some(AddFailed)
          else
            && cycles == SortByStart(old(cycles) + [FromCreatedRow(created.value)])
            && cache == Some(cycles) && error == None
        else
          && cycles == SortByStart(old(cycles) + [LocalRecord(now, EntryOf(form), configured, online)])
          && LocalRecord(now, EntryOf(form), configured, online).pending
          && cache == Some(cycles)
          && error == Some(if !configured then LocalOnly else Offline)
      ensures old(Mirrored()) ==> Mirrored()
    {
      if form.startDate.None? || form.endDate.None? {
        error := Some(MissingDates);
        return;
      }
      var start, end := form.startDate.value, form.endDate.value;
      if end < start {
        error := Some(DateOrder);
        return;
      }
      error := None;
      var entry := EntryOf(form);
      var record: Cycle;
      if configured && online {
        if created.None? {
          error := Some(AddFailed);
          return;
        }
        record := FromCreatedRow(created.value);
      } else {
        record := LocalRecord(now, entry, configured, online);
        if !configured {
          error := Some(LocalOnly);
        } else if !online {
          error := Some(Offline);
        }
      }
      var updated := SortByStart(cycles + [record]);
      cycles := updated;
      cache := Some(updated);
    }

    /** `updateCycle`, with the record being edited (`editingCycle`), the
        form's content and the outcome of the remote update as parameters. */
    method UpdateCycle(editing: Option<Cycle>, form: Form, remoteOk: bool)
      modifies this`cycles, this`cache, this`error
      ensures editing.None? || !HasDates(form) ==>
        cycles == old(cycles) && cache == old(cache) && error == Some(MissingFields)
      ensures editing.Some? && HasDates(form) && form.endDate.value < form.startDate.value ==>
        cycles == old(cycles) && cache == old(cache) && error == Some(DateOrder)
      ensures editing.Some? && HasDates(form) && form.startDate.value <= form.endDate.value ==>
        var id := editing.value.id;
        if RemoteUsable() && !IsTempId(id) && !remoteOk then
          cycles == old(cycles) && cache == old(cache) && error == Some(UpdateFailed)
        else
          && cycles == SortByStart(ReplaceById(old(cycles), id, Cycle(id, EntryOf(form), false)))
          && cache == Some(cycles) && error == None
      ensures old(Mirrored()) ==> Mirrored()
    {
      if editing.None? || form.startDate.None? || form.endDate.None? {
        error := Some(MissingFields);
        return;
      }
      var start, end := form.startDate.value, form.endDate.value;
      if end < start {
        error := Some(DateOrder);
        return;
      }
      error := None;
      var id := editing.value.id;
      var entry := EntryOf(form);
      if configured && online && !IsTempId(id) {
        if !remoteOk {
          error := Some(UpdateFailed);
          return;
        }
      }
      var replaced := ReplaceById(cycles, id, Cycle(id, entry, false));
      var updated := SortByStart(replaced);
      cycles := updated;
      cache := Some(updated);
    }

    /** `deleteCycle`, with the user's answer to the confirmation prompt and
        the outcome of the remote delete as parameters.  A successful delete
        leaves the error banner as it was. */
    method DeleteCycle(id: Id, confirmed: bool, remoteOk: bool)
      modifies this`cycles, this`cache, this`error
      ensures !confirmed ==>
        cycles == old(cycles) && cache == old(cache) && error == old(error)
      ensures confirmed && RemoteUsable() && !IsTempId(id) && !remoteOk ==>
        cycles == old(cycles) && cache == old(cache) && error == Some(DeleteFailed)
      ensures confirmed && !(RemoteUsable() && !IsTempId(id) && !remoteOk) ==>
        cycles == RemoveById(old(cycles), id) && cache == Some(cycles) && error == old(error)
      ensures old(Mirrored()) ==> Mirrored()
      ensures SortedByStart(old(cycles)) ==> SortedByStart(cycles)
    {
      if !confirmed {
        return;
      }
      if configured && online && !IsTempId(id) {
        if !remoteOk {
          error := Some(DeleteFailed);
          return;
        }
      }
      var updated := RemoveById(cycles, id);
      if SortedByStart(cycles) {
        RemoveByIdSorted(cycles, id);
      }
      cycles := updated;
      cache := Some(updated);
    }
  }

  /** A start-up that shows the discrepancy: configuration present, device
      online, no local snapshot, and the remote store holding one row.  As
      written the component starts empty; with the configuration applied
      first it starts with that row. */
  method StartUpExample() returns (asWritten: seq<Cycle>, intended: seq<Cycle>)
    ensures asWritten == []
    ensures |intended| == 1 && intended[0].id == Num(1)
  {
    var row := Row(Num(1), 0, 4, None, None, None, None, None);
    var t := new CycleTracker.Mount(true, true, None, Some([row]));
    var u := new CycleTracker.MountIntended(true, true, None, Some([row]));
    asWritten := t.cycles;
    intended := u.cycles;
  }
}
