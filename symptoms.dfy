/** The symptom check-box handlers of the form. */
module Symptoms {

  import opened Records

  /** `list.filter(s => s !== symptom)`. */
  function Without(list: seq<string>, symptom: string): (r: seq<string>)
    ensures symptom !in r
    ensures forall s :: s != symptom ==> multiset(r)[s] == multiset(list)[s]
  {
    if list == [] then []
    else
      assert list == [list[0]] + list[1..];
      (if list[0] == symptom then [] else [list[0]]) + Without(list[1..], symptom)
  }

  /** Checking appends the symptom (even when already listed); unchecking
      removes every occurrence of it. */
  function Toggle(list: seq<string>, symptom: string, checked: bool): (r: seq<string>)
    ensures checked ==> |r| == |list| + 1 && r[..|list|] == list && r[|list|] == symptom
    ensures !checked ==> symptom !in r
    ensures !checked ==> forall s :: s != symptom ==> multiset(r)[s] == multiset(list)[s]
  {
    if checked then list + [symptom] else Without(list, symptom)
  }

  /** Removing a symptom that is not listed changes nothing. */
  lemma {:induction false} WithoutAbsent(list: seq<string>, symptom: string)
    requires symptom !in list
    ensures Without(list, symptom) == list
    decreases |list|
  {
    if list != [] {
      WithoutAbsent(list[1..], symptom);
      assert list == [list[0]] + list[1..];
    }
  }

  /** Removing distributes over concatenation, so the order of the
      remaining symptoms is kept. */
  lemma {:induction false} WithoutAppend(a: seq<string>, b: seq<string>, symptom: string)
    ensures Without(a + b, symptom) == Without(a, symptom) + Without(b, symptom)
    decreases |a|
  {
    if a == [] {
      assert a + b == b;
    } else {
      var h := if a[0] == symptom then [] else [a[0]];
      var u := a + b;
      assert u[0] == a[0] && u[1..] == a[1..] + b;
      calc {
        Without(u, symptom);
        h + Without(u[1..], symptom);
        { WithoutAppend(a[1..], b, symptom); }
        h + (Without(a[1..], symptom) + Without(b, symptom));
        (h + Without(a[1..], symptom)) + Without(b, symptom);
      }
    }
  }

  /** Checking a symptom that was not listed and then unchecking it restores
      the list. */
  lemma CheckThenUncheck(list: seq<string>, symptom: string)
    requires symptom !in list
    ensures Toggle(Toggle(list, symptom, true), symptom, false) == list
  {
    WithoutAppend(list, [symptom], symptom);
    WithoutAbsent(list, symptom);
    assert Without([symptom], symptom) == [] + Without([], symptom);
  }

  /** `handleSymptomChange`: toggles a symptom of the form, nothing else. */
  function WithSymptomToggled(f: Form, symptom: string, checked: bool): (g: Form)
    ensures g.(symptoms := f.symptoms) == f
    ensures checked ==> g.symptoms == f.symptoms + [symptom]
    ensures !checked ==> symptom !in g.symptoms
    ensures !checked ==> forall s :: s != symptom ==> multiset(g.symptoms)[s] == multiset(f.symptoms)[s]
  {
    f.(symptoms := Toggle(f.symptoms, symptom, checked))
  }

  /** `handlePreSymptomChange`: toggles a premenstrual symptom, nothing else. */
  function WithPreSymptomToggled(f: Form, symptom: string, checked: bool): (g: Form)
    ensures g.(preSymptoms := f.preSymptoms) == f
    ensures checked ==> g.preSymptoms == f.preSymptoms + [symptom]
    ensures !checked ==> symptom !in g.preSymptoms
    ensures !checked ==> forall s :: s != symptom ==> multiset(g.preSymptoms)[s] == multiset(f.preSymptoms)[s]
  {
    f.(preSymptoms := Toggle(f.preSymptoms, symptom, checked))
  }
}
