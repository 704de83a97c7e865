/**
 * Flat key/value records, the shape every session entity takes in the
 * application: an insertion-ordered dictionary whose values are either text
 * or integers. Key order matters, because the records are serialised in
 * that order.
 */
module Records {

  datatype Option<T> = None | Some(value: T)

  datatype Result<T, E> = Ok(value: T) | Err(error: E)

  datatype Value = Text(text: string) | Number(number: int)

  /**
   * The keys the application's records use. They form a closed set, so
   * they are an enumeration here; KeyName gives each one's spelling in the
   * serialised record.
   */
  datatype Key =
    | Medication | Dosage | Frequency | Instructions | Generated | Chatbot | Url
    | Timestamp | PatientRef | AgeGroup | Education | MethodUsed | TechComfort | Understanding
    | Satisfaction | AdherenceConfidence | PreferMethod | WouldRecommend | Feedback
    | Id | Name | Email | Phone | Age | AssignedMethod | EnrollmentDate | Medications | Notes | RegisteredAt

  function KeyName(k: Key): string {
    match k
    case Medication => "medication"
    case Dosage => "dosage"
    case Frequency => "frequency"
    case Instructions => "instructions"
    case Generated => "generated"
    case Chatbot => "chatbot"
    case Url => "url"
    case Timestamp => "timestamp"
    case PatientRef => "patient_id"
    case AgeGroup => "age_group"
    case Education => "education"
    case MethodUsed => "method_used"
    case TechComfort => "tech_comfort"
    case Understanding => "understanding"
    case Satisfaction => "satisfaction"
    case AdherenceConfidence => "adherence_confidence"
    case PreferMethod => "prefer_method"
    case WouldRecommend => "would_recommend"
    case Feedback => "feedback"
    case Id => "id"
    case Name => "name"
    case Email => "email"
    case Phone => "phone"
    case Age => "age"
    case AssignedMethod => "method"
    case EnrollmentDate => "enrollment_date"
    case Medications => "medications"
    case Notes => "notes"
    case RegisteredAt => "registered_at"
  }

  /**
   * An insertion-ordered dictionary, as Python's dict is: its keys in the
   * order they were first inserted, and the value each key maps to.
   */
  datatype Record = Record(keys: seq<Key>, values: map<Key, Value>)

  /** No key occurs twice in `ks`. */
  predicate Distinct(ks: seq<Key>) {
    forall i, j :: 0 <= i < j < |ks| ==> ks[i] != ks[j]
  }

  /** Each key is listed once, and exactly the listed keys have values. */
  predicate WellFormed(r: Record) {
    Distinct(r.keys) && forall k :: k in r.values <==> k in r.keys
  }

  /** The empty dictionary `{}`. */
  const Empty := Record([], map[])

  /** `d.get(k)`: the value stored under `k`, if any. */
  function Lookup(r: Record, k: Key): Option<Value> {
    if k in r.values then Some(r.values[k]) else None
  }

  /**
   * `d[k] = v` for a key `d` does not have yet: the key goes after the
   * existing ones. A dict display `{k1: v1, ...}` with distinct keys is a
   * chain of these from left to right, starting from Empty.
   */
  function Add(r: Record, k: Key, v: Value): Record
    requires k !in r.values
  {
    Record(r.keys + [k], r.values[k := v])
  }

  /**
   * `d[k] = v` for any key: a new key goes after the existing ones, an
   * existing key keeps its place and takes the new value.
   */
  function Insert(r: Record, k: Key, v: Value): Record {
    if k in r.values then Record(r.keys, r.values[k := v]) else Add(r, k, v)
  }

  /**
   * Assignment to a well-formed record keeps it well-formed. Afterwards
   * `k` maps to `v` and every other key to what it mapped to before; the
   * key list grows by `k` at the end exactly when `k` was not listed.
   */
  lemma InsertLaws(r: Record, k: Key, v: Value)
    requires WellFormed(r)
    ensures WellFormed(Insert(r, k, v))
    ensures forall k' :: Lookup(Insert(r, k, v), k') == if k' == k then Some(v) else Lookup(r, k')
    ensures k in r.keys ==> Insert(r, k, v).keys == r.keys
    ensures k !in r.keys ==> Insert(r, k, v).keys == r.keys + [k]
  {
  }

  /** Every record of a collection is well-formed. */
  predicate AllWellFormed(rs: seq<Record>) {
    forall i :: 0 <= i < |rs| ==> WellFormed(rs[i])
  }

  /** Appending a well-formed record keeps a collection well-formed. */
  lemma AppendKeepsWellFormed(rs: seq<Record>, r: Record)
    requires AllWellFormed(rs) && WellFormed(r)
    ensures AllWellFormed(rs + [r])
  {
    var qs := rs + [r];
    forall i | 0 <= i < |qs| ensures WellFormed(qs[i]) {
      if i < |rs| {
        assert qs[i] == rs[i];
      }
    }
  }
}
