/**
 * The chat service (src/gemini.js): a client handle and a model handle set by
 * `configure`, and a chat session set by `startChat` and used by `sendMessage`.
 * The network exchange is a parameter, `Reply`, standing for whatever the
 * provider answers.
 */
module Gemini {
  import opened Wrappers

  const ModelName: string := "gemini-3-flash-preview"

  const NotConfiguredError: string := "API Key not configured"
  const StartFailedError: string := "Failed to start chat. Please check your API Key."
  const NoSessionError: string := "Chat session not started"
  const SendFailedError: string := "Failed to send message."

  /** The provider client, bound to an API key. */
  datatype Client = Client(apiKey: string)

  /** A generative-model handle obtained from a client. */
  datatype GenerativeModel = GenerativeModel(apiKey: string, name: string)

  datatype Role = User | Assistant
  datatype Turn = Turn(role: Role, text: string)

  /** What one request to the provider yields: a response text, or a failure. */
  datatype Reply = Replied(text: string) | Failed

  /** JavaScript truthiness of the key passed to `configure`. */
  predicate IsKeyPresent(apiKey: Option<string>)
  {
    apiKey.Some? && apiKey.value != ""
  }

  /** What precedes the selected text in the first request of a chat. */
  const ExplainPrefix: string :=
    "Explain the following text in a detailed and comprehensive way, providing context, analysis, or definitions if necessary:\n\n\""

  /** The first request of a chat: the fixed instruction, a blank line, then the text in double quotes. */
  function ExplainRequest(contextText: string): (r: string)
    ensures |r| == |ExplainPrefix| + |contextText| + 1
    ensures r[..|ExplainPrefix|] == ExplainPrefix && r[|r| - 1] == '"'
    ensures r[|ExplainPrefix|..|r| - 1] == contextText
  {
    ExplainPrefix + contextText + "\""
  }

  /** Recovers the quoted text from a request shaped like `ExplainRequest`. */
  function ContextOf(request: string): Option<string>
  {
    if |request| > |ExplainPrefix| && request[..|ExplainPrefix|] == ExplainPrefix && request[|request| - 1] == '"'
    then Some(request[|ExplainPrefix|..|request| - 1])
    else None
  }

  /** The selected text is carried verbatim: it can be read back from the request. */
  lemma ExplainRequestRoundTrip(contextText: string)
    ensures ContextOf(ExplainRequest(contextText)) == Some(contextText)
  {
  }

  /** Every request from which a text can be read back is the request built for that text. */
  lemma ContextOfOnlyExplainRequests(request: string, contextText: string)
    requires ContextOf(request) == Some(contextText)
    ensures request == ExplainRequest(contextText)
  {
    assert request == request[..|ExplainPrefix|] + request[|ExplainPrefix|..|request| - 1] + [request[|request| - 1]];
  }

  /** The seed instruction's text before the selected text (template-literal lines 1 to 4, up to the opening quote). */
  const SeedOpening: string :=
    "You are a helpful AI assistant built into an eBook reader. \n"
    + "                    The user has selected the following text from a book:\n"
    + "                    \n"
    + "                    \""

  /** The seed instruction's text after the selected text, from the closing quote to the end. */
  const SeedClosing: string :=
    "\"\n"
    + "                    \n"
    + "                    Please provide a detailed and comprehensive explanation of this text, providing rich context, definitions, and analysis if necessary. \n"
    + "                    Be ready to answer follow-up questions about this specific text or the broader topic."

  /** The seed instruction of the history-seeded session: the selected text in double quotes inside a fixed frame. */
  function SeedPrompt(contextText: string): (r: string)
    ensures |r| == |SeedOpening| + |contextText| + |SeedClosing|
    ensures r[..|SeedOpening|] == SeedOpening && r[|r| - |SeedClosing|..] == SeedClosing
    ensures r[|SeedOpening|..|r| - |SeedClosing|] == contextText
  {
    SeedOpening + contextText + SeedClosing
  }

  /** A chat session created by a model: the history it was started with and the messages sent on it. */
  class ChatSession {
    const model: GenerativeModel
    const history: seq<Turn>
    var sent: seq<string>

    constructor (model: GenerativeModel, history: seq<Turn>)
      ensures this.model == model && this.history == history && sent == []
    {
      this.model := model;
      this.history := history;
      sent := [];
    }

    /** Sends one message; the request goes out whatever the provider answers. */
    method SendMessage(message: string, reply: Reply) returns (r: Result<string, ()>)
      modifies this`sent
      ensures sent == old(sent) + [message]
      ensures reply.Replied? ==> r == Ok(reply.text)
      ensures reply.Failed? ==> r == Err(())
    {
      sent := sent + [message];
      if reply.Replied? {
        r := Ok(reply.text);
      } else {
        r := Err(());
      }
    }
  }

  class GeminiService {
    var genAI: Option<Client>
    var model: Option<GenerativeModel>
    var chatSession: ChatSession?
    const modelName: string

    /** The client and the model handle are set and cleared together, for the same key. */
    ghost predicate Valid()
      reads this
    {
      && genAI.Some? == model.Some?
      && (model.Some? ==> model.value == GenerativeModel(genAI.value.apiKey, ModelName))
    }

    constructor ()
      ensures Valid()
      ensures genAI == None && model == None && chatSession == null && modelName == ModelName
    {
      genAI := None;
      model := None;
      chatSession := null;
      modelName := ModelName;
    }

    /**
     * An absent or empty key clears the client and the model but leaves the chat
     * session as it is; any other key binds a new client and model to it.
     */
    method Configure(apiKey: Option<string>)
      modifies this`genAI, this`model
      ensures Valid()
      ensures !IsKeyPresent(apiKey) ==> genAI == None && model == None
      ensures IsKeyPresent(apiKey) ==> genAI == Some(Client(apiKey.value)) && model == Some(GenerativeModel(apiKey.value, ModelName))
      ensures chatSession == old(chatSession)
    {
      if !IsKeyPresent(apiKey) {
        genAI := None;
        model := None;
        return;
      }
      genAI := Some(Client(apiKey.value));
      model := Some(GenerativeModel(genAI.value.apiKey, ModelName));
    }

    /**
     * Without a model, fails before touching anything. Otherwise replaces the
     * session with a fresh, unseeded one, sends the explain request on it and
     * returns the reply; the new session stays in place if the request fails.
     */
    method StartChat(contextText: string, reply: Reply) returns (r: Result<string, string>)
      requires Valid()
      modifies this`chatSession
      ensures Valid()
      ensures old(model).None? ==> r == Err(NotConfiguredError) && chatSession == old(chatSession)
      ensures old(model).Some? ==>
        && chatSession != null && fresh(chatSession)
        && chatSession.model == model.value && chatSession.history == []
        && genAI.Some? && chatSession.model == GenerativeModel(genAI.value.apiKey, ModelName)
        && chatSession.sent == [ExplainRequest(contextText)]
      ensures old(model).Some? && reply.Replied? ==> r == Ok(reply.text)
      ensures old(model).Some? && reply.Failed? ==> r == Err(StartFailedError)
    {
      if model.None? {
        return Err(NotConfiguredError);
      }
      chatSession := new ChatSession(model.value, [Turn(User, SeedPrompt(contextText))]);
      chatSession := new ChatSession(model.value, []);
      var answer := chatSession.SendMessage(ExplainRequest(contextText), reply);
      if answer.Ok? {
        r := Ok(answer.value);
      } else {
        r := Err(StartFailedError);
      }
    }

    /** Continues the current session; needs a session, not a model. */
    method SendMessage(message: string, reply: Reply) returns (r: Result<string, string>)
      requires Valid()
      modifies chatSession
      ensures Valid()
      ensures chatSession == old(chatSession)
      ensures chatSession == null ==> r == Err(NoSessionError)
      ensures chatSession != null ==> chatSession.sent == old(chatSession.sent) + [message]
      ensures chatSession != null && reply.Replied? ==> r == Ok(reply.text)
      ensures chatSession != null && reply.Failed? ==> r == Err(SendFailedError)
    {
      if chatSession == null {
        return Err(NoSessionError);
      }
      var answer := chatSession.SendMessage(message, reply);
      if answer.Ok? {
        r := Ok(answer.value);
      } else {
        r := Err(SendFailedError);
      }
    }
  }

  /** With no key configured, starting a chat fails with the configuration error and sends nothing. */
  method StartWithoutKey(apiKey: Option<string>, contextText: string, reply: Reply) returns (r: Result<string, string>)
    requires !IsKeyPresent(apiKey)
    ensures r == Err(NotConfiguredError)
  {
    var service := new GeminiService();
    service.Configure(apiKey);
    r := service.StartChat(contextText, reply);
  }

  /** Before any chat is started, a message is refused with the no-session error. */
  method SendBeforeStart(apiKey: Option<string>, message: string, reply: Reply) returns (r: Result<string, string>)
    ensures r == Err(NoSessionError)
  {
    var service := new GeminiService();
    service.Configure(apiKey);
    r := service.SendMessage(message, reply);
  }

  /**
   * Clearing the key does not end the chat: after `configure('')` the session
   * started before still accepts messages, and the provider's answer comes back.
   */
  method SessionOutlivesKeyReset(key: string, contextText: string, first: Reply, message: string, second: Reply)
    returns (r: Result<string, string>)
    requires key != ""
    ensures second.Replied? ==> r == Ok(second.text)
    ensures second.Failed? ==> r == Err(SendFailedError)
  {
    var service := new GeminiService();
    service.Configure(Some(key));
    var started := service.StartChat(contextText, first);
    service.Configure(Some(""));
    r := service.SendMessage(message, second);
  }

  /**
   * A failed start still leaves its session in place: the next message is sent
   * on it, after the explain request.
   */
  method FailedStartKeepsSession(key: string, contextText: string, message: string, reply: Reply)
    returns (started: Result<string, string>, r: Result<string, string>, sent: seq<string>)
    requires key != ""
    ensures started == Err(StartFailedError)
    ensures r != Err(NoSessionError)
    ensures sent == [ExplainRequest(contextText), message]
  {
    var service := new GeminiService();
    service.Configure(Some(key));
    started := service.StartChat(contextText, Failed);
    r := service.SendMessage(message, reply);
    sent := service.chatSession.sent;
  }
}
