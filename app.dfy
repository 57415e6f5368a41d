/**
  The `/chat` handler and the application state (src/main.rs, `answer` and
  `AppState`).

  The state holds the one conversation history shared by every request and
  the vectors loaded at start-up.  A request embeds the user's message (a
  failure there panics, before the history is touched), appends the user's
  message, hands the history to the language-model chain, and appends the
  model's answer only when the chain succeeds.  The embedding and the chain
  are outside calls: the embedding outcome is a parameter and the chain is an
  abstract function of what it is handed.
*/
module App {
  import opened Wrappers
  import opened AzureTable

  datatype Role = Human | AI

  datatype Message = Message(role: Role, text: string)

  datatype StatusCode = Ok | InternalServerError {
    /** The HTTP status number. */
    function Code(): nat {
      match this
      case Ok => 200
      case InternalServerError => 500
    }
  }

  datatype ChatResponse = ChatResponse(status: StatusCode, answer: string)

  /** The variables handed to the chain (`input_variables`): the user's
      message, its embedding, the history and the stored vectors. */
  datatype ModelInput<F> = ModelInput(
    input: string,
    userVector: seq<F>,
    history: seq<Message>,
    context: seq<Entity<F>>)

  const ErrorPrefix: string := "Error: "

  /** The reply for the chain's outcome. */
  function Respond(outcome: Result<string, string>): (r: ChatResponse)
    ensures r.status == Ok <==> outcome.Success?
    ensures r.status.Code() == if outcome.Success? then 200 else 500
    ensures outcome.Success? ==> r.answer == outcome.value
    ensures outcome.Failure? ==> r.answer == ErrorPrefix + outcome.error
  {
    match outcome
    case Success(response) => ChatResponse(Ok, response)
    case Failure(e) => ChatResponse(InternalServerError, ErrorPrefix + e)
  }

  /** Every AI message directly follows a Human message. */
  predicate Conversation(h: seq<Message>) {
    forall i :: 0 <= i < |h| && h[i].role == AI ==> i > 0 && h[i - 1].role == Human
  }

  function CountRole(h: seq<Message>, role: Role): nat {
    if h == [] then 0
    else CountRole(h[..|h| - 1], role) + (if h[|h| - 1].role == role then 1 else 0)
  }

  /** A history built by the handler never holds more AI answers than user
      messages. */
  lemma {:induction false} ConversationCounts(h: seq<Message>)
    requires Conversation(h)
    ensures CountRole(h, AI) <= CountRole(h, Human)
  {
    var n := |h|;
    if n > 0 {
      if h[n - 1].role == Human {
        assert Conversation(h[..n - 1]);
        ConversationCounts(h[..n - 1]);
      } else {
        var h' := h[..n - 2];
        assert h[..n - 1][..n - 2] == h';
        assert Conversation(h');
        ConversationCounts(h');
      }
    }
  }

  class AppState<F> {
    /** The shared history (`chat_history`). */
    var chatHistory: seq<Message>
    /** The vectors loaded at start-up; the handler only reads them. */
    const vectors: seq<Entity<F>>

    ghost predicate Valid()
      reads this
    {
      Conversation(chatHistory)
    }

    /** The state created at process start: an empty history. */
    constructor (vectors: seq<Entity<F>>)
      ensures Valid()
      ensures chatHistory == [] && this.vectors == vectors
    {
      chatHistory := [];
      this.vectors := vectors;
    }

    /** `answer`.  `None` stands for the panic on a failed embedding. */
    method Answer(message: string, embedding: Option<seq<F>>, invoke: ModelInput<F> -> Result<string, string>)
      returns (response: Option<ChatResponse>)
      requires Valid()
      modifies this
      ensures Valid()
      ensures embedding.None? ==> response == None && chatHistory == old(chatHistory)
      ensures embedding.Some? ==>
        var asked := old(chatHistory) + [Message(Human, message)];
        var outcome := invoke(ModelInput(message, embedding.value, asked, vectors));
        && response == Some(Respond(outcome))
        && chatHistory == if outcome.Success? then asked + [Message(AI, outcome.value)] else asked
      ensures old(chatHistory) <= chatHistory
      ensures response.Some? ==>
        |chatHistory| == |old(chatHistory)| + if response.value.status == Ok then 2 else 1
    {
      if embedding.None? {
        return None;
      }
      var userVector := embedding.value;
      chatHistory := chatHistory + [Message(Human, message)];
      var outcome := invoke(ModelInput(message, userVector, chatHistory, vectors));
      match outcome {
        case Success(result) =>
          chatHistory := chatHistory + [Message(AI, result)];
          response := Some(ChatResponse(Ok, result));
        case Failure(e) =>
          response := Some(ChatResponse(InternalServerError, ErrorPrefix + e));
      }
    }
  }
}
