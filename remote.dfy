/** The field mapping of the remote store adapter: the canonical record
    shape (camelCase) against the remote table's columns (snake_case).
    The HTTP exchange itself is not modelled; a row is what the store
    holds or returns. */
module Remote {

  import opened Wrappers
  import opened Days
  import opened Records

  /** The body sent on insert and on update. */
  datatype Payload = Payload(
    start_date: Day,
    end_date: Day,
    flow: string,
    symptoms: seq<string>,
    pre_symptoms: seq<string>,
    notes: string,
    length: int)

  /** A row as the store returns it.  Every column but the key and the dates
      may be `null`, which is `None` here. */
  datatype Row = Row(
    id: Id,
    start_date: Day,
    end_date: Day,
    flow: Option<string>,
    symptoms: Option<seq<string>>,
    pre_symptoms: Option<seq<string>>,
    notes: Option<string>,
    length: Option<int>)

  /** The payload of `createCycle` and `updateCycle`: each field renamed to
      its column. */
  function ToPayload(e: Entry): Payload {
    Payload(e.startDate, e.endDate, e.flow, e.symptoms, e.preSymptoms, e.notes, e.length)
  }

  /** The row the store holds after accepting a payload under key `id`. */
  function StoredRow(id: Id, p: Payload): Row {
    Row(id, p.start_date, p.end_date, Some(p.flow), Some(p.symptoms),
        Some(p.pre_symptoms), Some(p.notes), Some(p.length))
  }

  /** JavaScript `s || d` on a nullable string: `null` and `""` are falsy. */
  function StringOr(o: Option<string>, d: string): string {
    if o.None? || o.value == "" then d else o.value
  }

  /** `xs || d` on a nullable array: only `null` is falsy, `[]` is kept. */
  function ListOr(o: Option<seq<string>>, d: seq<string>): seq<string> {
    if o.None? then d else o.value
  }

  /** `n || d` on a nullable number: `null` and `0` are falsy. */
  function NumberOr(o: Option<int>, d: int): int {
    if o.None? || o.value == 0 then d else o.value
  }

  /** One element of the `getAllCycles` mapping: columns renamed, `flow`
      defaulting to `"normal"`, the lists to `[]`, `notes` to `""`, and
      `length` recomputed from the dates when it is missing or zero.  A
      fetched record carries no pending flag. */
  function FromFetchedRow(r: Row): (c: Cycle)
    ensures c.id == r.id && !c.pending
    ensures c.data.flow != ""
    ensures c.data.length == 0 ==> r.end_date - r.start_date + 1 == 0
  {
    Cycle(r.id,
          Entry(r.start_date, r.end_date,
                StringOr(r.flow, "normal"),
                ListOr(r.symptoms, []),
                ListOr(r.pre_symptoms, []),
                StringOr(r.notes, ""),
                NumberOr(r.length, CycleLength(r.start_date, r.end_date))),
          false)
  }

  /** `getAllCycles`: every fetched row mapped, in the order received. */
  function FromFetchedRows(rows: seq<Row>): (cs: seq<Cycle>)
    ensures |cs| == |rows|
    ensures forall i :: 0 <= i < |rows| ==> cs[i] == FromFetchedRow(rows[i])
  {
    if rows == [] then [] else [FromFetchedRow(rows[0])] + FromFetchedRows(rows[1..])
  }

  /** The mapping of the row returned by `createCycle`: `flow` and `length`
      are copied without a default (a `null` there becomes `""` and `0`),
      the lists default to `[]` and `notes` to `""`. */
  function FromCreatedRow(r: Row): (c: Cycle)
    ensures c.id == r.id && !c.pending
    ensures r.flow.Some? ==> c.data.flow == r.flow.value
    ensures r.length.Some? ==> c.data.length == r.length.value
    ensures c.data.startDate == r.start_date && c.data.endDate == r.end_date
    ensures r.symptoms.None? ==> c.data.symptoms == []
    ensures r.symptoms.Some? ==> c.data.symptoms == r.symptoms.value
    ensures r.pre_symptoms.None? ==> c.data.preSymptoms == []
    ensures r.pre_symptoms.Some? ==> c.data.preSymptoms == r.pre_symptoms.value
    ensures r.notes.None? ==> c.data.notes == ""
    ensures r.notes.Some? ==> c.data.notes == r.notes.value
  {
    Cycle(r.id,
          Entry(r.start_date, r.end_date,
                r.flow.GetOr(""),
                ListOr(r.symptoms, []),
                ListOr(r.pre_symptoms, []),
                StringOr(r.notes, ""),
                r.length.GetOr(0)),
          false)
  }

  /** The defaults a fetched row receives, and that present values are kept. */
  lemma FetchedDefaults(r: Row)
    ensures var c := FromFetchedRow(r);
      && c.id == r.id && c.data.startDate == r.start_date && c.data.endDate == r.end_date
      && (r.flow == None || r.flow == Some("") ==> c.data.flow == "normal")
      && (r.flow.Some? && r.flow.value != "" ==> c.data.flow == r.flow.value)
      && (r.symptoms == None ==> c.data.symptoms == [])
      && (r.symptoms.Some? ==> c.data.symptoms == r.symptoms.value)
      && (r.pre_symptoms == None ==> c.data.preSymptoms == [])
      && (r.pre_symptoms.Some? ==> c.data.preSymptoms == r.pre_symptoms.value)
      && (r.notes.Some? ==> c.data.notes == r.notes.value)
      && (r.notes == None ==> c.data.notes == "")
      && (r.length == None || r.length == Some(0) ==> c.data.length == r.end_date - r.start_date + 1)
      && (r.length.Some? && r.length.value != 0 ==> c.data.length == r.length.value)
      && !c.pending
  {
  }

  /** Writing an entry and reading it back through `getAllCycles` gives the
      same entry exactly when the read-side defaults leave it alone: its
      flow is not empty, and its length is not zero or zero is also what the
      dates give. */
  lemma FetchRoundTrip(id: Id, e: Entry)
    ensures FromFetchedRow(StoredRow(id, ToPayload(e))) == Cycle(id, e, false)
        <==> e.flow != "" && (e.length != 0 || e.endDate - e.startDate + 1 == 0)
  {
    var c := FromFetchedRow(StoredRow(id, ToPayload(e)));
    if e.flow == "" {
      assert c.data.flow == "normal";
    }
  }

  /** The insert response for a stored entry maps back to that entry. */
  lemma CreateRoundTrip(id: Id, e: Entry)
    ensures FromCreatedRow(StoredRow(id, ToPayload(e))) == Cycle(id, e, false)
  {
  }
}
