# Smart Medication Education Platform: session-state model

The application is a single-page web demo for a pharmacy-education study.
Almost all of it renders widgets. The logic it does own is the record
keeping behind its page handlers. This project models that logic in Dafny
and proves what it promises:

- **QR payload builder** (`QrPayload`). The QR Code Generator page turns
  the medication form into an ordered record, or refuses with a
  validation message when medication, dosage or frequency is empty.
- **Patient identifiers** (`PatientIds`). A patient's identifier is `"P"`
  followed by a counter printed with Python's `%03d`. The model proves
  that the padded digits read back to the counter. So two counters never
  share an identifier.
- **Chat relay** (`Chat`). For a prompt, the relay builds one outbound
  request holding only that prompt. The assistant text is the first text
  block of the reply, or `"Error: " + message + ". Please check your API
  key and try again."` when the call raised. A turn appends one user entry
  and one assistant entry to the transcript.
- **Survey and registration records** (`Survey`, `Patients`). These build
  the flat records the two forms store, and the five demonstration rows
  of the analytics page.
- **Session store** (`SessionState.Session`). A class holds the
  transcript, the patient list, the survey responses and the API key.
  Each page handler is a method. `Valid()` is the invariant every handler
  keeps:
  - transcript entries alternate user and assistant;
  - every stored record is a well-formed dict;
  - patient `i` (from 0) has identifier `PatientId(i + 1)`;
  - every stored slider value and age is within its widget's range.

Each record is modelled as Python's dict is: the keys in insertion order,
plus a map from each key to its value (`Records.Record`). A dict display
`{k1: v1, ...}` is a chain of `Add`s from `Empty`. An assignment `d[k] = v`
is `Insert`: a new key goes at the end, and an existing key keeps its
place. The keys form a closed set, so they are an enumeration
(`Records.Key`). `Records.KeyName` gives each key's spelling in the
serialised text.

The clock, the completion service and the widgets are not modelled. They
become parameters instead:
- timestamps are strings already formatted by the caller;
- the service's behaviour is a `ServiceOutcome`, either a list of text
  blocks or the message of an exception;
- widget values arrive as form datatypes.

The "Include AI Chatbot Link" checkbox starts checked (`QRcode.py:302`).
So a payload built from only the four text fields carries
`chatbot = "enabled"`, and `DefaultPayloadHasChatbot` proves this.

## Model

| member | source | states |
|---|---|---|
| Records.AppendKeepsWellFormed | QRcode.py:441 | Appending a well-formed record to a collection of well-formed records keeps them all well-formed. |
| Records.InsertLaws | QRcode.py:316-320 | Assigning to a key of a well-formed dict keeps it well-formed. The key then maps to the new value and every other key keeps its value. The key list grows by that key at the end exactly when it was not listed before. |
| QrPayload.BuildPayload | QRcode.py:305-342 | A payload is built exactly when medication, dosage and frequency are all non-empty. Otherwise the result is the validation error with the page's message. |
| QrPayload.PayloadShape | QRcode.py:308-320 | A built payload is a well-formed dict. Its keys are, in order, medication, dosage, frequency, instructions, generated, then chatbot if the checkbox is set, then url if a custom URL was given. |
| QrPayload.PayloadFixedLookups | QRcode.py:308-314 | Looking up medication, dosage, frequency, instructions and generated gives the inputs verbatim. Empty instructions are accepted. |
| QrPayload.PayloadChatbotLookup | QRcode.py:316-317 | The chatbot key maps to "enabled" when the checkbox is set and is absent otherwise. |
| QrPayload.PayloadUrlLookup | QRcode.py:319-320 | The url key maps to the custom URL when that is non-empty and is absent otherwise. |
| QrPayload.DefaultPayloadHasChatbot | QRcode.py:302-320 | With the checkbox at its default and no custom URL, a payload carries chatbot = "enabled" and no url. |
| PatientIds.PatientId | QRcode.py:624 | An identifier is "P" followed by at least three characters. |
| PatientIds.Pad3RoundTrip | QRcode.py:624 | Reading the "%03d" digits back as a decimal number gives the counter. |
| PatientIds.PadWidth | QRcode.py:624 | "%03d" output is at least three digits. It is exactly three below 1000. From 100 on it is the plain decimal form with no padding. |
| PatientIds.PatientIdInjective | QRcode.py:624 | Equal identifiers come from equal counters. |
| PatientIds.PatientIdExamples | QRcode.py:624 | Counters 1, 2, 3, 42 and 1234 give P001, P002, P003, P042 and P1234. |
| Chat.BuildRequest | QRcode.py:131-148 | The request carries the key, the fixed model name, 1024 as the output limit and the one fixed system prompt (`Chat.SystemPrompt`). Its only message is the latest user prompt; no earlier turn is sent. |
| Chat.ErrorText | QRcode.py:152 | The error text is "Error: ", then the exception message, then ". Please check your API key and try again.", with the message at a known position. |
| Chat.AssistantText | QRcode.py:128-152 | A reply with content gives its first block. A raised exception gives the error text of its message. A reply with no content gives the error text of Python's "list index out of range", because the indexing is inside the try block. |
| Chat.ErrorTextInjective | QRcode.py:152 | Different exception messages give different assistant texts. |
| Chat.FailureTextStartsWithError | QRcode.py:151-152 | Every failure gives an assistant text that starts with "Error: ". |
| Chat.AppendTurnAlternating | QRcode.py:368-379 | Appending a user entry and then an assistant entry to an alternating transcript keeps it alternating. |
| Chat.Prompts | QRcode.py:363-379 | An alternating transcript holds exactly one user prompt per two entries. |
| Chat.PromptsAppendTurn | QRcode.py:370-379 | A turn adds its prompt at the end of the transcript's user prompts and leaves the earlier ones as they were. |
| Survey.SurveyRecordKeys | QRcode.py:426-439 | A survey record has the twelve keys timestamp, patient_id, age_group, education, method_used, tech_comfort, understanding, satisfaction, adherence_confidence, prefer_method, would_recommend and feedback, in that order, and values for exactly those. |
| Survey.SurveyRecordWellFormed | QRcode.py:426-439 | A survey record is a well-formed dict: no key occurs twice. |
| Survey.SurveyPatientId | QRcode.py:427-428 | The stored patient_id is the entered one if that is non-empty, else "Anonymous". The stored timestamp is the caller's. |
| Survey.SurveyRecordScales | QRcode.py:402-409 | The slider ranges are 1..5 for tech comfort and 1..10 for the other three scales. A submission made within them stores all four scales as integers within those ranges. |
| Survey.AppendKeepsScales | QRcode.py:441 | Appending an in-range response keeps the whole collection in range. |
| Survey.SubmissionKeepsScales | QRcode.py:425-441 | Recording a slider-made submission keeps the collection in range. |
| Survey.SubmissionKeepsWellFormed | QRcode.py:425-441 | Recording a submission keeps every stored response a well-formed dict. |
| Survey.SampleRecordKeys | QRcode.py:459-475 | A demonstration record has the nine keys its display lists, in that order, and values for exactly those. It has no timestamp, education or feedback. |
| Survey.SampleRecordWellFormed | QRcode.py:459-475 | A demonstration record is a well-formed dict. |
| Survey.SampleRecordScales | QRcode.py:459-475 | A demonstration row with in-range numbers gives a record whose scales are in range. |
| Survey.SampleDataScales | QRcode.py:459-476 | The demonstration data is five records, all with in-range scales. |
| Survey.SampleDataWellFormed | QRcode.py:458-476 | Every demonstration record is a well-formed dict. |
| Patients.PatientRecordKeys | QRcode.py:623-634 | A patient record has the keys id, name, email, phone, age, method, enrollment_date, medications, notes and registered_at, in that order, and values for exactly those. |
| Patients.PatientRecordWellFormed | QRcode.py:623-634 | A patient record is a well-formed dict: no key occurs twice. |
| Patients.PatientRecordLookups | QRcode.py:623-628 | A patient record holds its identifier under id, the entered name under name and the entered age under age. |
| Patients.IdOf | QRcode.py:624 | A present identifier is the text stored under the id key. |
| Patients.NextRecordFits | QRcode.py:610-634 | The next registration's record carries identifier PatientId(length + 1). If the form's age is in 1..120, the record's stored age is too. |
| Patients.AppendKeepsSequential | QRcode.py:636 | Appending a record with the next identifier keeps identifiers sequential. |
| Patients.AppendKeepsAges | QRcode.py:636 | Appending a record with an in-range age keeps all ages in range. |
| Patients.RegistrationKeepsInvariant | QRcode.py:622-636 | A registration keeps the patient list's identifiers sequential and its ages in range. |
| Patients.RegistrationKeepsWellFormed | QRcode.py:622-636 | A registration keeps every patient record a well-formed dict. |
| Patients.SequentialIdsDistinct | QRcode.py:624 | In a list built by registrations, no two patients share an identifier. |
| SessionState.Session.constructor | QRcode.py:54-62 | A session starts with an empty transcript, no patients, no responses and an empty key, and satisfies the invariant. |
| SessionState.Session.ConfigureApiKey | QRcode.py:72-79 | A non-empty entry replaces the stored key. An empty entry keeps the old one. The invariant is kept. |
| SessionState.Session.ChatTurn | QRcode.py:347-379 | A turn happens exactly when a key is stored and the prompt is non-empty. Then exactly one request, the one for that prompt, is sent. The transcript grows by the user entry and then the assistant entry and keeps alternating. Its user prompts gain exactly the new prompt at the end. Otherwise nothing changes. |
| SessionState.Session.ClearChat | QRcode.py:382-384 | When a key is stored, the button empties the transcript. Without a key the button is not offered and the transcript is unchanged. |
| SessionState.Session.SubmitSurvey | QRcode.py:425-441 | A submission appends exactly the one record built from the form and the timestamp. Earlier responses are unchanged. |
| SessionState.Session.LoadSampleData | QRcode.py:454-476 | The sample data loads exactly when no response exists. The collection is then exactly the five demonstration records. Otherwise it is unchanged. |
| SessionState.Session.RegisterPatient | QRcode.py:622-636 | An empty name leaves the patient list unchanged. A non-empty name appends exactly one record, with identifier PatientId(previous length + 1), and returns that identifier. Only the patient list changes. |
| SessionState.Session.PatientIdList | QRcode.py:622-636 | The list is read from the stored records: entry i is the identifier stored under id in the record of patient i. In a valid session that identifier is PatientId(i + 1), and all identifiers are pairwise distinct. |

## Left out

- Rendering, layout, CSS, navigation and the static pages: they are widget calls with no logic of their own.
- QR symbol encoding, PNG encoding and the base64 download link: these are done by external libraries.
- Serialisation with `json.dumps`, `to_csv` and `to_json`: these are library serialisers. The payload and the records are modelled as dicts: an ordered key list and a map. Key spellings come from `Records.KeyName`, and the model does not produce text.
- The completion service call: its outcome is an input. The outcome is either text blocks or the message of an exception. A first block that is not text, which would raise inside the try block, is treated like any other block.
- Clock readings: they are string parameters already in the source's format.
- The analytics page: means, value counts and charts are pandas/plotly and floating-point work.
- The chat history display loop: it only renders the transcript.
- Widget-enforced ranges: the sliders give 1..5 and 1..10, and the age input gives 1..120. The library guarantees these, not this code. So they are preconditions (`SlidersInRange`, `AgeInRange`) of the session methods, and the invariant records them.
- The choice lists of the select boxes and radio buttons: their values are plain strings in the model.
- `Records.KeyName`: no lemma states that key spellings are distinct. The enumeration makes keys distinct by construction.
- ChatTurn: a turn is atomic. The source appends the user entry (line 370) and the assistant entry (line 379) with rendering calls and the blocking service call between them. A run stopped in between would leave an unanswered user entry. The model does not represent that state, so the alternation invariant holds only for completed turns.
- Streamlit's rerun after clearing or loading: it restarts the script, which is not modelled.
