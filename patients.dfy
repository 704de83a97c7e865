/**
 * The Patient Management page's record, and the property the patient list
 * keeps: entry `i` carries the identifier of the `(i + 1)`-th registration.
 */
module Patients {
  import opened Records
  import opened PatientIds

  /** What the registration form's widgets hold when it is submitted. */
  datatype PatientForm = PatientForm(
    name: string,
    email: string,
    phone: string,
    age: int,
    assignedMethod: string,
    enrollmentDate: string,
    medications: string,
    notes: string)

  /** The range the age input allows. */
  predicate AgeInRange(f: PatientForm) {
    1 <= f.age <= 120
  }

  const PatientKeys := [Id, Name, Email, Phone, Age, AssignedMethod, EnrollmentDate,
                        Medications, Notes, RegisteredAt]

  /**
   * The record stored for a registration: `id` is the generated identifier,
   * `enrollmentDate` the date widget's value as text and `registeredAt` the
   * caller's clock reading.
   */
  function PatientRecord(id: string, f: PatientForm, registeredAt: string): Record {
    Add(Add(Add(Add(Add(Add(Add(Add(Add(Add(Empty,
      Id, Text(id)),
      Name, Text(f.name)),
      Email, Text(f.email)),
      Phone, Text(f.phone)),
      Age, Number(f.age)),
      AssignedMethod, Text(f.assignedMethod)),
      EnrollmentDate, Text(f.enrollmentDate)),
      Medications, Text(f.medications)),
      Notes, Text(f.notes)),
      RegisteredAt, Text(registeredAt))
  }

  /** A patient record lists its ten keys in this order, and has values for exactly those. */
  lemma PatientRecordKeys(id: string, f: PatientForm, registeredAt: string)
    ensures PatientRecord(id, f, registeredAt).keys == PatientKeys
    ensures forall k :: k in PatientRecord(id, f, registeredAt).values <==> k in PatientKeys
  {
  }

  lemma PatientKeysDistinct()
    ensures Distinct(PatientKeys)
  {
    var ks := PatientKeys;
    forall i, j | 0 <= i < j < |ks| ensures ks[i] != ks[j] {
      if i == 0 {} else if i == 1 {} else if i == 2 {} else if i == 3 {} else if i == 4 {}
      else if i == 5 {} else if i == 6 {} else if i == 7 {} else if i == 8 {}
    }
  }

  /** A patient record is a well-formed dictionary: no key occurs twice. */
  lemma PatientRecordWellFormed(id: string, f: PatientForm, registeredAt: string)
    ensures WellFormed(PatientRecord(id, f, registeredAt))
  {
    PatientRecordKeys(id, f, registeredAt);
    PatientKeysDistinct();
  }

  /** The record is found under its identifier and holds the form's name and age. */
  lemma PatientRecordLookups(id: string, f: PatientForm, registeredAt: string)
    ensures Lookup(PatientRecord(id, f, registeredAt), Id) == Some(Text(id))
    ensures Lookup(PatientRecord(id, f, registeredAt), Name) == Some(Text(f.name))
    ensures Lookup(PatientRecord(id, f, registeredAt), Age) == Some(Number(f.age))
  {
  }

  /** The identifier stored in a patient record, if any. */
  function IdOf(r: Record): (id: Option<string>)
    ensures id.Some? ==> Lookup(r, Id) == Some(Text(id.value))
  {
    match Lookup(r, Id)
    case Some(Text(s)) => Some(s)
    case _ => None
  }

  /** The list as registrations build it: the `(i + 1)`-th record has identifier PatientId(i + 1). */
  predicate SequentialIds(ps: seq<Record>) {
    forall i :: 0 <= i < |ps| ==> IdOf(ps[i]) == Some(PatientId(i + 1))
  }

  /** The age stored in a record is within the age input's range. */
  predicate AgeStoredInRange(r: Record) {
    var v := Lookup(r, Age);
    v.Some? && v.value.Number? && 1 <= v.value.number <= 120
  }

  /** Every stored age is within the age input's range. */
  predicate AgesInRange(ps: seq<Record>) {
    forall i :: 0 <= i < |ps| ==> AgeStoredInRange(ps[i])
  }

  /** The record of the next registration carries the next identifier, and an in-range form an in-range age. */
  lemma NextRecordFits(ps: seq<Record>, f: PatientForm, registeredAt: string)
    ensures IdOf(PatientRecord(PatientId(|ps| + 1), f, registeredAt)) == Some(PatientId(|ps| + 1))
    ensures AgeInRange(f) ==> AgeStoredInRange(PatientRecord(PatientId(|ps| + 1), f, registeredAt))
  {
    PatientRecordLookups(PatientId(|ps| + 1), f, registeredAt);
  }

  /** Appending a record with the next identifier keeps identifiers sequential. */
  lemma AppendKeepsSequential(ps: seq<Record>, r: Record)
    requires SequentialIds(ps)
    requires IdOf(r) == Some(PatientId(|ps| + 1))
    ensures SequentialIds(ps + [r])
  {
    var qs := ps + [r];
    forall i | 0 <= i < |qs| ensures IdOf(qs[i]) == Some(PatientId(i + 1)) {
      if i < |ps| {
        assert qs[i] == ps[i];
      }
    }
  }

  /** Appending a record with an in-range age keeps every age in range. */
  lemma AppendKeepsAges(ps: seq<Record>, r: Record)
    requires AgesInRange(ps)
    requires AgeStoredInRange(r)
    ensures AgesInRange(ps + [r])
  {
    var qs := ps + [r];
    forall i | 0 <= i < |qs| ensures AgeStoredInRange(qs[i]) {
      if i < |ps| {
        assert qs[i] == ps[i];
      }
    }
  }

  /** Recording the next registration keeps the list's identifiers sequential and its ages in range. */
  lemma RegistrationKeepsInvariant(ps: seq<Record>, f: PatientForm, registeredAt: string)
    requires SequentialIds(ps) && AgesInRange(ps)
    requires AgeInRange(f)
    ensures SequentialIds(ps + [PatientRecord(PatientId(|ps| + 1), f, registeredAt)])
    ensures AgesInRange(ps + [PatientRecord(PatientId(|ps| + 1), f, registeredAt)])
  {
    var r := PatientRecord(PatientId(|ps| + 1), f, registeredAt);
    NextRecordFits(ps, f, registeredAt);
    AppendKeepsSequential(ps, r);
    AppendKeepsAges(ps, r);
  }

  /** Recording a registration keeps every patient record a well-formed dict. */
  lemma RegistrationKeepsWellFormed(ps: seq<Record>, f: PatientForm, registeredAt: string)
    requires AllWellFormed(ps)
    ensures AllWellFormed(ps + [PatientRecord(PatientId(|ps| + 1), f, registeredAt)])
  {
    PatientRecordWellFormed(PatientId(|ps| + 1), f, registeredAt);
    AppendKeepsWellFormed(ps, PatientRecord(PatientId(|ps| + 1), f, registeredAt));
  }

  /** In a list built by registrations no two patients share an identifier. */
  lemma SequentialIdsDistinct(ps: seq<Record>, i: nat, j: nat)
    requires SequentialIds(ps)
    requires i < j < |ps|
    ensures IdOf(ps[i]) != IdOf(ps[j])
  {
    assert IdOf(ps[i]) == Some(PatientId(i + 1));
    assert IdOf(ps[j]) == Some(PatientId(j + 1));
    if PatientId(i + 1) == PatientId(j + 1) {
      PatientIdInjective(i + 1, j + 1);
    }
  }
}
