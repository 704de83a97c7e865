/**
 * The Patient Survey page's record, and the five demonstration records
 * the Data Analytics page offers while no response has been collected.
 */
module Survey {
  import opened Records

  const AnonymousId := "Anonymous"

  /** What the survey form's widgets hold when it is submitted. */
  datatype SurveyForm = SurveyForm(
    patientId: string,
    ageGroup: string,
    education: string,
    methodUsed: string,
    techComfort: int,
    understanding: int,
    satisfaction: int,
    adherenceConfidence: int,
    preferMethod: string,
    wouldRecommend: string,
    feedback: string)

  /** The ranges the form's sliders allow: 1..5 for comfort, 1..10 for the other three scales. */
  predicate SlidersInRange(f: SurveyForm) {
    1 <= f.techComfort <= 5 &&
    1 <= f.understanding <= 10 && 1 <= f.satisfaction <= 10 && 1 <= f.adherenceConfidence <= 10
  }

  const SurveyKeys := [Timestamp, PatientRef, AgeGroup, Education, MethodUsed, TechComfort,
                       Understanding, Satisfaction, AdherenceConfidence, PreferMethod,
                       WouldRecommend, Feedback]

  /** The response recorded for a submission; `timestamp` is the caller's clock reading. */
  function SurveyRecord(f: SurveyForm, timestamp: string): Record {
    Add(Add(Add(Add(Add(Add(Add(Add(Add(Add(Add(Add(Empty,
      Timestamp, Text(timestamp)),
      PatientRef, Text(if f.patientId != "" then f.patientId else AnonymousId)),
      AgeGroup, Text(f.ageGroup)),
      Education, Text(f.education)),
      MethodUsed, Text(f.methodUsed)),
      TechComfort, Number(f.techComfort)),
      Understanding, Number(f.understanding)),
      Satisfaction, Number(f.satisfaction)),
      AdherenceConfidence, Number(f.adherenceConfidence)),
      PreferMethod, Text(f.preferMethod)),
      WouldRecommend, Text(f.wouldRecommend)),
      Feedback, Text(f.feedback))
  }

  /** A survey record lists its twelve keys in this order, and has values for exactly those. */
  lemma SurveyRecordKeys(f: SurveyForm, timestamp: string)
    ensures SurveyRecord(f, timestamp).keys == SurveyKeys
    ensures forall k :: k in SurveyRecord(f, timestamp).values <==> k in SurveyKeys
  {
  }

  lemma SurveyKeysDistinct()
    ensures Distinct(SurveyKeys)
  {
    var ks := SurveyKeys;
    forall i, j | 0 <= i < j < |ks| ensures ks[i] != ks[j] {
      if i == 0 {} else if i == 1 {} else if i == 2 {} else if i == 3 {} else if i == 4 {} else if i == 5 {}
      else if i == 6 {} else if i == 7 {} else if i == 8 {} else if i == 9 {} else if i == 10 {}
    }
  }

  /** A survey record is a well-formed dictionary: no key occurs twice. */
  lemma SurveyRecordWellFormed(f: SurveyForm, timestamp: string)
    ensures WellFormed(SurveyRecord(f, timestamp))
  {
    SurveyRecordKeys(f, timestamp);
    SurveyKeysDistinct();
  }

  /** The stored patient id is the one entered, or "Anonymous" when the field was left empty. */
  lemma SurveyPatientId(f: SurveyForm, timestamp: string)
    ensures Lookup(SurveyRecord(f, timestamp), PatientRef) ==
            Some(Text(if f.patientId != "" then f.patientId else AnonymousId))
    ensures Lookup(SurveyRecord(f, timestamp), Timestamp) == Some(Text(timestamp))
  {
  }

  /** The value stored under `k` is an integer within `lo..hi`. */
  predicate NumberIn(r: Record, k: Key, lo: int, hi: int) {
    var v := Lookup(r, k);
    v.Some? && v.value.Number? && lo <= v.value.number <= hi
  }

  /** The four integer scales a response carries are within the sliders' ranges. */
  predicate ScalesInRange(r: Record) {
    NumberIn(r, TechComfort, 1, 5) &&
    NumberIn(r, Understanding, 1, 10) &&
    NumberIn(r, Satisfaction, 1, 10) &&
    NumberIn(r, AdherenceConfidence, 1, 10)
  }

  /** Every response in a collection has its scales within the sliders' ranges. */
  predicate AllScalesInRange(rs: seq<Record>) {
    forall i :: 0 <= i < |rs| ==> ScalesInRange(rs[i])
  }

  /** Appending an in-range response keeps a collection in range. */
  lemma AppendKeepsScales(rs: seq<Record>, r: Record)
    requires AllScalesInRange(rs)
    requires ScalesInRange(r)
    ensures AllScalesInRange(rs + [r])
  {
    var qs := rs + [r];
    forall i | 0 <= i < |qs| ensures ScalesInRange(qs[i]) {
      if i < |rs| {
        assert qs[i] == rs[i];
      }
    }
  }

  /** A submission made through the sliders stores its scales within their ranges. */
  lemma SurveyRecordScales(f: SurveyForm, timestamp: string)
    requires SlidersInRange(f)
    ensures ScalesInRange(SurveyRecord(f, timestamp))
  {
  }

  /** Recording a slider-made submission keeps a collection in range. */
  lemma SubmissionKeepsScales(rs: seq<Record>, f: SurveyForm, timestamp: string)
    requires AllScalesInRange(rs)
    requires SlidersInRange(f)
    ensures AllScalesInRange(rs + [SurveyRecord(f, timestamp)])
  {
    SurveyRecordScales(f, timestamp);
    AppendKeepsScales(rs, SurveyRecord(f, timestamp));
  }

  /** Recording a submission keeps every response a well-formed dict. */
  lemma SubmissionKeepsWellFormed(rs: seq<Record>, f: SurveyForm, timestamp: string)
    requires AllWellFormed(rs)
    ensures AllWellFormed(rs + [SurveyRecord(f, timestamp)])
  {
    SurveyRecordWellFormed(f, timestamp);
    AppendKeepsWellFormed(rs, SurveyRecord(f, timestamp));
  }

  /** One row of the demonstration data, in the order its record lists the keys. */
  datatype SampleRow = SampleRow(
    patientId: string,
    ageGroup: string,
    methodUsed: string,
    understanding: int,
    satisfaction: int,
    adherenceConfidence: int,
    techComfort: int,
    preferMethod: string,
    wouldRecommend: string)

  const SampleRows: seq<SampleRow> := [
    SampleRow("P001", "31-50", "QR Code + Chatbot", 9, 8, 9, 4, "AI Chatbot Support", "Yes"),
    SampleRow("P002", "65+", "Traditional Leaflet", 6, 5, 6, 2, "Traditional Paper Leaflet", "No"),
    SampleRow("P003", "18-30", "QR Code + Chatbot", 10, 10, 9, 5, "Combination of Digital Methods", "Yes"),
    SampleRow("P004", "51-65", "Both", 8, 9, 8, 3, "QR Code with Digital Info", "Yes"),
    SampleRow("P005", "31-50", "QR Code + Chatbot", 9, 9, 10, 4, "AI Chatbot Support", "Yes")
  ]

  const SampleKeys := [PatientRef, AgeGroup, MethodUsed, Understanding, Satisfaction,
                       AdherenceConfidence, TechComfort, PreferMethod, WouldRecommend]

  /** A demonstration record: nine keys, without timestamp, education or feedback. */
  function SampleRecord(row: SampleRow): Record {
    Add(Add(Add(Add(Add(Add(Add(Add(Add(Empty,
      PatientRef, Text(row.patientId)),
      AgeGroup, Text(row.ageGroup)),
      MethodUsed, Text(row.methodUsed)),
      Understanding, Number(row.understanding)),
      Satisfaction, Number(row.satisfaction)),
      AdherenceConfidence, Number(row.adherenceConfidence)),
      TechComfort, Number(row.techComfort)),
      PreferMethod, Text(row.preferMethod)),
      WouldRecommend, Text(row.wouldRecommend))
  }

  /** The five records the Load Sample Data button installs. */
  const SampleData: seq<Record> := seq(|SampleRows|, i requires 0 <= i < |SampleRows| => SampleRecord(SampleRows[i]))

  predicate RowInRange(row: SampleRow) {
    1 <= row.techComfort <= 5 &&
    1 <= row.understanding <= 10 && 1 <= row.satisfaction <= 10 && 1 <= row.adherenceConfidence <= 10
  }

  /** A demonstration record lists its nine keys in this order, and has values for exactly those. */
  lemma SampleRecordKeys(row: SampleRow)
    ensures SampleRecord(row).keys == SampleKeys
    ensures forall k :: k in SampleRecord(row).values <==> k in SampleKeys
  {
  }

  lemma SampleKeysDistinct()
    ensures Distinct(SampleKeys)
  {
    var ks := SampleKeys;
    forall i, j | 0 <= i < j < |ks| ensures ks[i] != ks[j] {
      if i == 0 {} else if i == 1 {} else if i == 2 {} else if i == 3 {}
      else if i == 4 {} else if i == 5 {} else if i == 6 {} else if i == 7 {}
    }
  }

  /** A demonstration record is a well-formed dictionary. */
  lemma SampleRecordWellFormed(row: SampleRow)
    ensures WellFormed(SampleRecord(row))
  {
    SampleRecordKeys(row);
    SampleKeysDistinct();
  }

  lemma SampleRecordScales(row: SampleRow)
    requires RowInRange(row)
    ensures ScalesInRange(SampleRecord(row))
  {
  }

  /** The demonstration data is five records, each with its scales within the sliders' ranges. */
  lemma SampleDataScales()
    ensures |SampleData| == 5
    ensures AllScalesInRange(SampleData)
  {
    assert forall i :: 0 <= i < |SampleRows| ==> RowInRange(SampleRows[i]);
    forall i | 0 <= i < |SampleData| ensures ScalesInRange(SampleData[i]) {
      SampleRecordScales(SampleRows[i]);
    }
  }

  /** Every demonstration record is a well-formed dict. */
  lemma SampleDataWellFormed()
    ensures AllWellFormed(SampleData)
  {
    forall i | 0 <= i < |SampleData| ensures WellFormed(SampleData[i]) {
      SampleRecordWellFormed(SampleRows[i]);
    }
  }
}
