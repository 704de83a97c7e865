/**
 * The per-session store the page handlers share: the chat transcript, the
 * registered patients, the survey responses and the API key. Each handler
 * is a method; clock readings and the completion service's outcome are
 * passed in.
 */
module SessionState {
  import opened Records
  import opened QrPayload
  import opened PatientIds
  import opened Chat
  import opened Survey
  import opened Patients

  class Session {
    var chatHistory: seq<Message>
    var patientData: seq<Record>
    var surveyResponses: seq<Record>
    var apiKey: string

    /**
     * What every handler keeps: the transcript alternates user and
     * assistant turns, every stored record is a well-formed dict, patient
     * identifiers are sequential, and the stored scales and ages are within
     * their widgets' ranges.
     */
    ghost predicate Valid()
      reads this
    {
      Alternating(chatHistory) &&
      AllWellFormed(patientData) && SequentialIds(patientData) && AgesInRange(patientData) &&
      AllWellFormed(surveyResponses) && AllScalesInRange(surveyResponses)
    }

    /** A new session starts with empty collections and no key. */
    constructor ()
      ensures Valid()
      ensures chatHistory == [] && patientData == [] && surveyResponses == [] && apiKey == ""
    {
      chatHistory := [];
      patientData := [];
      surveyResponses := [];
      apiKey := "";
    }

    /** The sidebar's key field: a non-empty entry replaces the stored key, an empty one keeps it. */
    method ConfigureApiKey(entered: string)
      requires Valid()
      modifies this`apiKey
      ensures Valid()
      ensures apiKey == if entered != "" then entered else old(apiKey)
    {
      if entered != "" {
        apiKey := entered;
      }
    }

    /**
     * One chat turn. The chat page works only once a key is stored, and a
     * turn happens only for a non-empty prompt; then exactly the request
     * for that prompt is sent and the transcript grows by the user entry
     * and the assistant entry, whatever the service did.
     */
    method ChatTurn(prompt: string, outcome: ServiceOutcome)
      returns (sent: Option<ChatRequest>)
      requires Valid()
      modifies this`chatHistory
      ensures Valid()
      ensures sent.Some? <==> apiKey != "" && prompt != ""
      ensures sent.Some? ==> sent.value == BuildRequest(prompt, apiKey)
      ensures chatHistory == if sent.Some? then old(chatHistory) + Turn(prompt, outcome) else old(chatHistory)
      ensures sent.Some? ==> Prompts(chatHistory) == old(Prompts(chatHistory)) + [prompt]
    {
      if apiKey != "" && prompt != "" {
        sent := Some(BuildRequest(prompt, apiKey));
        PromptsAppendTurn(chatHistory, prompt, outcome);
        chatHistory := chatHistory + [Message(User, prompt)];
        chatHistory := chatHistory + [Message(Assistant, AssistantText(outcome))];
      } else {
        sent := None;
      }
    }

    /** The Clear Chat History button, shown on the chat page once a key is stored. */
    method ClearChat() returns (cleared: bool)
      requires Valid()
      modifies this`chatHistory
      ensures Valid()
      ensures cleared == (apiKey != "")
      ensures chatHistory == if cleared then [] else old(chatHistory)
    {
      cleared := apiKey != "";
      if cleared {
        chatHistory := [];
      }
    }

    /**
     * A survey submission: always appends exactly one response, whose
     * patient id is the entered one or "Anonymous". The sliders guarantee
     * the ranges of the scales.
     */
    method SubmitSurvey(form: SurveyForm, timestamp: string)
      requires Valid()
      requires SlidersInRange(form)
      modifies this`surveyResponses
      ensures Valid()
      ensures surveyResponses == old(surveyResponses) + [SurveyRecord(form, timestamp)]
    {
      SubmissionKeepsScales(surveyResponses, form, timestamp);
      SubmissionKeepsWellFormed(surveyResponses, form, timestamp);
      surveyResponses := surveyResponses + [SurveyRecord(form, timestamp)];
    }

    /**
     * The Load Sample Data button, offered only while no response exists:
     * then the collection becomes exactly the five demonstration records.
     */
    method LoadSampleData() returns (loaded: bool)
      requires Valid()
      modifies this`surveyResponses
      ensures Valid()
      ensures loaded == (old(surveyResponses) == [])
      ensures surveyResponses == if loaded then SampleData else old(surveyResponses)
    {
      loaded := |surveyResponses| == 0;
      if loaded {
        SampleDataScales();
        SampleDataWellFormed();
        surveyResponses := SampleData;
      }
    }

    /**
     * A registration: ignored when the name is empty; otherwise it appends
     * exactly one record, whose identifier is "P" followed by the new
     * length of the list printed with "%03d", and returns that identifier.
     * The age input guarantees the age's range.
     */
    method RegisterPatient(form: PatientForm, registeredAt: string) returns (id: Option<string>)
      requires Valid()
      requires AgeInRange(form)
      modifies this`patientData
      ensures Valid()
      ensures id.Some? <==> form.name != ""
      ensures id.Some? ==> id.value == PatientId(|old(patientData)| + 1)
      ensures patientData == if id.Some? then old(patientData) + [PatientRecord(id.value, form, registeredAt)]
                             else old(patientData)
    {
      if form.name != "" {
        var newId := PatientId(|patientData| + 1);
        RegistrationKeepsInvariant(patientData, form, registeredAt);
        RegistrationKeepsWellFormed(patientData, form, registeredAt);
        patientData := patientData + [PatientRecord(newId, form, registeredAt)];
        id := Some(newId);
      } else {
        id := None;
      }
    }

    /** The identifiers of the registered patients, read from their records in registration order. */
    function PatientIdList(): (ids: seq<string>)
      reads this
      requires Valid()
      ensures |ids| == |patientData|
      ensures forall i :: 0 <= i < |ids| ==> IdOf(patientData[i]) == Some(ids[i])
      ensures forall i :: 0 <= i < |ids| ==> ids[i] == PatientId(i + 1)
      ensures forall i, j :: 0 <= i < j < |ids| ==> ids[i] != ids[j]
    {
      var ps := patientData;
      var ids := seq(|ps|, i requires 0 <= i < |ps| && SequentialIds(ps) => IdOf(ps[i]).value);
      assert forall i, j :: 0 <= i < j < |ids| ==> ids[i] != ids[j] by {
        forall i, j | 0 <= i < j < |ids| ensures ids[i] != ids[j] {
          SequentialIdsDistinct(ps, i, j);
        }
      }
      ids
    }
  }
}
