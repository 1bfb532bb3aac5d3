/** The tracker's records: identifiers, the data of one logged cycle, the
    record kept in the collection, and the add/edit form. */
module Records {

  import opened Wrappers
  import opened Days

  /** A record identifier as JavaScript holds it: a number (the `Date.now()`
      timestamp of a record created locally, or a numeric key assigned by the
      remote store) or a string. */
  datatype Id = Num(n: int) | Text(s: string)

  /** The decimal digits of a natural number, most significant first. */
  function NatToString(n: nat): (r: string)
    ensures |r| >= 1 && '0' <= r[0] <= '9'
    ensures forall i :: 0 <= i < |r| ==> '0' <= r[i] <= '9'
    decreases n
  {
    var last := (('0' as int) + n % 10) as char;
    if n < 10 then [last] else NatToString(n / 10) + [last]
  }

  /** `id.toString()`: an integer renders in decimal with a leading `-` when
      negative; a string renders as itself. */
  function IdString(id: Id): (r: string)
    ensures id.Num? ==> |r| >= 1 && (r[0] == '-' <==> id.n < 0)
    ensures id.Num? ==> forall i :: 1 <= i < |r| ==> '0' <= r[i] <= '9'
  {
    match id
    case Num(n) => if n < 0 then "-" + NatToString(-n) else NatToString(n)
    case Text(s) => s
  }

  predicate StartsWith(s: string, prefix: string) {
    |prefix| <= |s| && s[..|prefix|] == prefix
  }

  /** The prefix the eligibility test looks for before a remote update or delete. */
  const TempPrefix: string := "temp_"

  /** `id.toString().startsWith('temp_')`, exactly as written. */
  predicate IsTempId(id: Id) {
    StartsWith(IdString(id), TempPrefix)
  }

  /** No numeric identifier passes the `temp_` test: its rendering starts
      with a digit or a minus sign.  In particular the `Date.now()` id of a
      record created locally is never recognised as local. */
  lemma NumericIdNeverTemp(n: int)
    ensures !IsTempId(Num(n))
  {
    var s := IdString(Num(n));
    assert s[0] != TempPrefix[0];
    if |TempPrefix| <= |s| {
      assert s[..|TempPrefix|][0] == s[0];
    }
  }

  /** A string identifier passes the test exactly when it begins with `temp_`. */
  lemma TextIdTemp(s: string)
    ensures IsTempId(Text(s)) <==> |s| >= 5 && s[..5] == "temp_"
  {
  }

  /** The data of one logged cycle without its identifier: the form's fields
      plus the computed `length`. */
  datatype Entry = Entry(
    startDate: Day,
    endDate: Day,
    flow: string,
    symptoms: seq<string>,
    preSymptoms: seq<string>,
    notes: string,
    length: int)

  /** A record of the collection: `{ id, ...entry }`, with `pending` standing
      for the `_isPending` property (false when the property is absent). */
  datatype Cycle = Cycle(id: Id, data: Entry, pending: bool)

  /** The add/edit form.  An empty date input is `None`. */
  datatype Form = Form(
    startDate: Option<Day>,
    endDate: Option<Day>,
    flow: string,
    symptoms: seq<string>,
    preSymptoms: seq<string>,
    notes: string)

  predicate HasDates(f: Form) {
    f.startDate.Some? && f.endDate.Some?
  }

  /** `{ ...newCycle, length: calculateCycleLength(startDate, endDate) }`:
      the entry saved from a form whose dates are filled in.  The length is
      always recomputed from the dates. */
  function EntryOf(f: Form): (e: Entry)
    requires HasDates(f)
    ensures e.startDate == f.startDate.value && e.endDate == f.endDate.value
    ensures e.length == f.endDate.value - f.startDate.value + 1
    ensures e.flow == f.flow && e.notes == f.notes
    ensures e.symptoms == f.symptoms && e.preSymptoms == f.preSymptoms
  {
    var start, end := f.startDate.value, f.endDate.value;
    Entry(start, end, f.flow, f.symptoms, f.preSymptoms, f.notes, CycleLength(start, end))
  }

  /** `editCycle`: the form filled in from an existing record. */
  function FormOf(c: Cycle): (f: Form)
    ensures HasDates(f)
  {
    Form(Some(c.data.startDate), Some(c.data.endDate), c.data.flow,
         c.data.symptoms, c.data.preSymptoms, c.data.notes)
  }

  /** Opening a record in the form and saving it unchanged gives back its
      data, provided its stored length agrees with its dates. */
  lemma EditRoundTrip(c: Cycle)
    requires c.data.length == c.data.endDate - c.data.startDate + 1
    ensures EntryOf(FormOf(c)) == c.data
  {
  }
}
