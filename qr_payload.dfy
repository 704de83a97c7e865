/**
 * The QR Code Generator page: from the medication form it builds the
 * ordered record that is serialised and handed to the QR encoder, or it
 * refuses with a validation message when a required field is empty.
 */
module QrPayload {
  import opened Records

  /** The message shown when medication, dosage or frequency is missing. */
  const ValidationMessage := "Please fill in at least Medication Name, Dosage, and Frequency"

  /** The "Include AI Chatbot Link" checkbox starts checked. */
  const DefaultIncludeChatbot := true

  /** What the page's widgets hold when the Generate button is pressed. */
  datatype QrForm = QrForm(
    medication: string,
    dosage: string,
    frequency: string,
    instructions: string,
    includeChatbot: bool,
    customUrl: string)

  /** The form as it stands when the user fills in only the four text fields. */
  function DefaultForm(medication: string, dosage: string, frequency: string, instructions: string): QrForm {
    QrForm(medication, dosage, frequency, instructions, DefaultIncludeChatbot, "")
  }

  predicate HasRequiredFields(f: QrForm) {
    f.medication != "" && f.dosage != "" && f.frequency != ""
  }

  /** The keys a payload carries, in order: five fixed ones, then the optional two. */
  function PayloadKeys(chatbot: bool, url: bool): seq<Key> {
    [Medication, Dosage, Frequency, Instructions, Generated]
    + (if chatbot then [Chatbot] else [])
    + (if url then [Url] else [])
  }

  /** The dict display the payload starts from: the four form fields and the timestamp. */
  function FixedEntries(f: QrForm, generated: string): Record {
    Add(Add(Add(Add(Add(Empty,
      Medication, Text(f.medication)),
      Dosage, Text(f.dosage)),
      Frequency, Text(f.frequency)),
      Instructions, Text(f.instructions)),
      Generated, Text(generated))
  }

  /**
   * Builds the payload; `generated` is the caller's clock reading, already
   * formatted as "%Y-%m-%d %H:%M:%S". The two optional entries are assigned
   * after the display, chatbot first.
   */
  function BuildPayload(f: QrForm, generated: string): (r: Result<Record, string>)
    ensures r.Ok? <==> HasRequiredFields(f)
    ensures r.Err? ==> r.error == ValidationMessage
  {
    if HasRequiredFields(f) then
      var d := FixedEntries(f, generated);
      var d := if f.includeChatbot then Insert(d, Chatbot, Text("enabled")) else d;
      var d := if f.customUrl != "" then Insert(d, Url, Text(f.customUrl)) else d;
      Ok(d)
    else
      Err(ValidationMessage)
  }

  /** The display is well-formed and lists its five keys in order. */
  lemma FixedEntriesShape(f: QrForm, generated: string)
    ensures WellFormed(FixedEntries(f, generated))
    ensures FixedEntries(f, generated).keys == [Medication, Dosage, Frequency, Instructions, Generated]
  {
  }

  /** The display holds the form's text and the timestamp under their keys, and neither optional key. */
  lemma FixedEntriesLookups(f: QrForm, generated: string)
    ensures Lookup(FixedEntries(f, generated), Medication) == Some(Text(f.medication))
    ensures Lookup(FixedEntries(f, generated), Dosage) == Some(Text(f.dosage))
    ensures Lookup(FixedEntries(f, generated), Frequency) == Some(Text(f.frequency))
    ensures Lookup(FixedEntries(f, generated), Instructions) == Some(Text(f.instructions))
    ensures Lookup(FixedEntries(f, generated), Generated) == Some(Text(generated))
    ensures Lookup(FixedEntries(f, generated), Chatbot) == None
    ensures Lookup(FixedEntries(f, generated), Url) == None
  {
  }

  /** A built payload is a well-formed dictionary whose keys come in the fixed order. */
  lemma PayloadShape(f: QrForm, generated: string)
    requires HasRequiredFields(f)
    ensures WellFormed(BuildPayload(f, generated).value)
    ensures BuildPayload(f, generated).value.keys == PayloadKeys(f.includeChatbot, f.customUrl != "")
  {
    var d0 := FixedEntries(f, generated);
    FixedEntriesShape(f, generated);
    var d1 := if f.includeChatbot then Insert(d0, Chatbot, Text("enabled")) else d0;
    if f.includeChatbot {
      InsertLaws(d0, Chatbot, Text("enabled"));
    }
    assert d1.keys == d0.keys + (if f.includeChatbot then [Chatbot] else []);
    if f.customUrl != "" {
      InsertLaws(d1, Url, Text(f.customUrl));
    }
  }

  /** The four form fields and the timestamp are found verbatim under their keys; empty instructions are kept. */
  lemma PayloadFixedLookups(f: QrForm, generated: string)
    requires HasRequiredFields(f)
    ensures Lookup(BuildPayload(f, generated).value, Medication) == Some(Text(f.medication))
    ensures Lookup(BuildPayload(f, generated).value, Dosage) == Some(Text(f.dosage))
    ensures Lookup(BuildPayload(f, generated).value, Frequency) == Some(Text(f.frequency))
    ensures Lookup(BuildPayload(f, generated).value, Instructions) == Some(Text(f.instructions))
    ensures Lookup(BuildPayload(f, generated).value, Generated) == Some(Text(generated))
  {
    FixedEntriesLookups(f, generated);
  }

  /** "chatbot" = "enabled" is in the payload exactly when the checkbox is set. */
  lemma PayloadChatbotLookup(f: QrForm, generated: string)
    requires HasRequiredFields(f)
    ensures Lookup(BuildPayload(f, generated).value, Chatbot) ==
            (if f.includeChatbot then Some(Text("enabled")) else None)
  {
    FixedEntriesLookups(f, generated);
  }

  /** "url" is in the payload exactly when a custom URL was given, and then holds it. */
  lemma PayloadUrlLookup(f: QrForm, generated: string)
    requires HasRequiredFields(f)
    ensures Lookup(BuildPayload(f, generated).value, Url) ==
            (if f.customUrl != "" then Some(Text(f.customUrl)) else None)
  {
    FixedEntriesLookups(f, generated);
  }

  /** With the checkbox left at its default, a payload always carries the chatbot flag. */
  lemma DefaultPayloadHasChatbot(medication: string, dosage: string, frequency: string, instructions: string, generated: string)
    requires medication != "" && dosage != "" && frequency != ""
    ensures Lookup(BuildPayload(DefaultForm(medication, dosage, frequency, instructions), generated).value, Chatbot)
            == Some(Text("enabled"))
    ensures Lookup(BuildPayload(DefaultForm(medication, dosage, frequency, instructions), generated).value, Url)
            == None
  {
    PayloadChatbotLookup(DefaultForm(medication, dosage, frequency, instructions), generated);
    PayloadUrlLookup(DefaultForm(medication, dosage, frequency, instructions), generated);
  }
}
