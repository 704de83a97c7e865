/**
 * The chat relay: the outbound request sent for one user utterance, and
 * the text that becomes the assistant's turn, which is either the first
 * text block of the service's reply or a formatted error message. The
 * network call itself is outside the model: its outcome is an input.
 */
module Chat {

  datatype Role = User | Assistant

  datatype Message = Message(role: Role, content: string)

  /** The role names the transcript stores. */
  function RoleName(r: Role): string {
    match r
    case User => "user"
    case Assistant => "assistant"
  }

  const Model := "claude-sonnet-4-20250514"
  const MaxTokens: nat := 1024

  /** One request to the completion service. */
  datatype ChatRequest = ChatRequest(
    apiKey: string,
    model: string,
    maxTokens: nat,
    system: string,
    messages: seq<Message>)

  /**
   * The fixed instructions every request carries. The lines after the first
   * keep the eight spaces of indentation the triple-quoted literal has.
   */
  const SystemPrompt :=
    "You are a knowledgeable pharmacy assistant specializing in patient medication education. \n"
    + "        Provide clear, accurate, and patient-friendly information about medications, including:\n"
    + "        - How to take the medication\n"
    + "        - Common side effects\n"
    + "        - Important warnings\n"
    + "        - Drug interactions\n"
    + "        - Storage instructions\n"
    + "        \n"
    + "        Always remind patients to consult their healthcare provider for personalized advice."

  /**
   * The request for one utterance: only the latest user message is sent,
   * with the fixed system prompt; earlier turns of the transcript are not.
   */
  function BuildRequest(prompt: string, apiKey: string): (q: ChatRequest)
    ensures q.messages == [Message(User, prompt)]
    ensures q.apiKey == apiKey && q.system == SystemPrompt
    ensures q.model == Model && q.maxTokens == MaxTokens
  {
    ChatRequest(apiKey, Model, MaxTokens, SystemPrompt, [Message(User, prompt)])
  }

  /**
   * What the network call did: it returned a response whose content is a
   * list of text blocks, or it raised an exception whose string form is
   * `message`.
   */
  datatype ServiceOutcome = Response(blocks: seq<string>) | Raised(message: string)

  /** The message of the exception raised by indexing an empty Python list. */
  const EmptyContentMessage := "list index out of range"

  const ErrorPrefix := "Error: "
  const ErrorSuffix := ". Please check your API key and try again."

  /** The text an exception is turned into. */
  function ErrorText(message: string): (t: string)
    ensures |t| == |ErrorPrefix| + |message| + |ErrorSuffix|
    ensures t[..|ErrorPrefix|] == ErrorPrefix
    ensures t[|ErrorPrefix|..|ErrorPrefix| + |message|] == message
    ensures t[|ErrorPrefix| + |message|..] == ErrorSuffix
  {
    ErrorPrefix + message + ErrorSuffix
  }

  /**
   * The assistant text for one outcome. Indexing the first content block
   * happens inside the exception handler, so an empty response is reported
   * like any other failure.
   */
  function AssistantText(outcome: ServiceOutcome): (t: string)
    ensures outcome.Raised? ==> t == ErrorText(outcome.message)
    ensures outcome.Response? && outcome.blocks != [] ==> t == outcome.blocks[0]
    ensures outcome.Response? && outcome.blocks == [] ==> t == ErrorText(EmptyContentMessage)
  {
    match outcome
    case Response(blocks) => if blocks != [] then blocks[0] else ErrorText(EmptyContentMessage)
    case Raised(message) => ErrorText(message)
  }

  /** Different exception messages give different assistant texts, and each can be read back. */
  lemma ErrorTextInjective(m1: string, m2: string)
    requires ErrorText(m1) == ErrorText(m2)
    ensures m1 == m2
  {
    var t := ErrorText(m1);
    assert m1 == t[|ErrorPrefix|..|ErrorPrefix| + |m1|];
    assert m2 == t[|ErrorPrefix|..|ErrorPrefix| + |m2|];
  }

  /** Every failure outcome yields a text starting with "Error: ". */
  lemma FailureTextStartsWithError(outcome: ServiceOutcome)
    requires outcome.Raised? || outcome.blocks == []
    ensures |AssistantText(outcome)| >= |ErrorPrefix|
    ensures AssistantText(outcome)[..|ErrorPrefix|] == ErrorPrefix
  {
  }

  /**
   * A transcript as the chat page builds it: user and assistant turns
   * alternate, starting with the user, and it never ends on a user turn.
   */
  predicate Alternating(t: seq<Message>) {
    |t| % 2 == 0 &&
    forall i :: 0 <= i < |t| ==> t[i].role == (if i % 2 == 0 then User else Assistant)
  }

  /** The two entries one turn appends. */
  function Turn(prompt: string, outcome: ServiceOutcome): seq<Message> {
    [Message(User, prompt), Message(Assistant, AssistantText(outcome))]
  }

  /** Appending a turn keeps a transcript alternating. */
  lemma AppendTurnAlternating(t: seq<Message>, prompt: string, outcome: ServiceOutcome)
    requires Alternating(t)
    ensures Alternating(t + Turn(prompt, outcome))
  {
    var u := t + Turn(prompt, outcome);
    forall i | 0 <= i < |u| ensures u[i].role == (if i % 2 == 0 then User else Assistant) {
      if i >= |t| {
        assert i == |t| || i == |t| + 1;
      }
    }
  }

  /** The user turns of an alternating transcript are exactly one per appended turn, in order. */
  function Prompts(t: seq<Message>): (ps: seq<string>)
    requires Alternating(t)
    ensures |ps| == |t| / 2
  {
    if t == [] then []
    else
      assert Alternating(t[2..]) by {
        forall i | 0 <= i < |t| - 2 ensures t[2..][i].role == (if i % 2 == 0 then User else Assistant) {
          assert t[2..][i] == t[i + 2];
        }
      }
      [t[0].content] + Prompts(t[2..])
  }

  /** Appending a turn adds its prompt at the end of the prompts, and nothing else. */
  lemma {:induction false} PromptsAppendTurn(t: seq<Message>, prompt: string, outcome: ServiceOutcome)
    requires Alternating(t)
    ensures Alternating(t + Turn(prompt, outcome))
    ensures Prompts(t + Turn(prompt, outcome)) == Prompts(t) + [prompt]
    decreases |t|
  {
    AppendTurnAlternating(t, prompt, outcome);
    var u := t + Turn(prompt, outcome);
    if t != [] {
      assert u[2..] == t[2..] + Turn(prompt, outcome);
      assert Alternating(t[2..]) by {
        forall i | 0 <= i < |t| - 2 ensures t[2..][i].role == (if i % 2 == 0 then User else Assistant) {
          assert t[2..][i] == t[i + 2];
        }
      }
      PromptsAppendTurn(t[2..], prompt, outcome);
    }
  }
}
