/** The chat service: it owns the conversation log, builds the prompt for
    the language model, turns the model's reply (or failure) into a result
    record, and runs the keyword classifier on every successful reply.
    The chat-completion call is not modelled: each call's outcome is an
    argument of the operation that makes it. */
module Service {
  import opened Wrappers
  import opened Text
  import opened Conversation
  import opened Intent

  const DefaultModel: string := "llama3-8b-8192"

  /** The models the service lets a caller switch to. */
  const AvailableModels: seq<string> := ["llama3-8b-8192", "llama3-70b-4096", "mixtral-8x7b-32768", "gemma-7b-it"]

  /** The instructions sent as the first prompt entry on every call. */
  const SystemPrompt: string :=
    "You are a helpful healthcare chatbot assistant. Your primary function is to help users find and filter patient information.\n" +
    "\n" +
    "AVAILABLE TOOLS:\n" +
    "- getpatientlist: Get a list of patients filtered by patient name and limit\n" +
    "\n" +
    "PATIENT DATA STRUCTURE:\n" +
    "Each patient record contains:\n" +
    "- PatientId: Unique identifier\n" +
    "- Name: Patient's full name\n" +
    "- Age: Patient's age\n" +
    "- Diagnosis: Medical conditions and diagnoses\n" +
    "- Medications: List of current medications with dosages\n" +
    "- Allergies: List of known allergies\n" +
    "- LastUpdated: When the record was last modified\n" +
    "\n" +
    "CAPABILITIES:\n" +
    "1. Help users search for patients by name\n" +
    "2. Filter patient lists with specific criteria\n" +
    "3. Provide information about patient medical details\n" +
    "4. Answer questions about medications, allergies, and diagnoses\n" +
    "5. Provide information about available commands\n" +
    "\n" +
    "IMPORTANT GUIDELINES:\n" +
    "- Always be professional and respectful when discussing patient information\n" +
    "- If a user asks for patient information, guide them to use the patient search functionality\n" +
    "- Keep responses concise but informative and friendly\n" +
    "- If you're unsure about a request, ask for clarification\n" +
    "- Always maintain patient privacy and confidentiality\n" +
    "- Only provide information through the available tools\n" +
    "- Be conversational and helpful, not robotic\n" +
    "\n" +
    "RESPONSE FORMAT:\n" +
    "- For patient searches: Clearly indicate when you're searching and what parameters you're using\n" +
    "- For help requests: Provide clear, actionable guidance\n" +
    "- For general questions: Be helpful but redirect to available functionality when appropriate\n" +
    "- Use a friendly, professional tone suitable for healthcare settings\n" +
    "\n" +
    "Remember: You can only access patient data through the getpatientlist tool. Do not make up or hallucinate patient information."

  /** What one chat-completion call produced: the text of the first
      choice, or the text of the exception it raised. */
  datatype LlmOutcome = Completed(content: string) | Raised(error: string)

  /** The optional context of a generation. An empty tool result or an
      empty tool list stands for a missing or false-valued key, which the
      service treats alike. */
  datatype Context = Context(toolResult: string, availableTools: seq<string>)

  const NoContext: Context := Context("", [])

  /** The result record of a generation. `modelUsed` and `error` are
      `None` where the record has no such key; the raw SDK response is not
      modelled. */
  datatype Generation = Generation(
    response: string,
    intent: IntentKind,
    confidence: nat,
    requiresTool: bool,
    toolParams: ToolParams,
    setupRequired: bool,
    error: Option<string>,
    modelUsed: Option<string>)

  const NotConfiguredReply: string := "\U{274C} Sorry, I'm not properly configured. Please set up the Groq API key."
  const AuthFailedReply: string := "\U{274C} API authentication failed. Please check your Groq API key configuration."
  const TechnicalDifficultiesReply: string :=
    "\U{274C} I'm experiencing technical difficulties. Please try again or contact support if the problem persists."

  const ToolResultInstruction: string :=
    "\n\nPlease provide a helpful, friendly response based on this information. Format the patient data nicely if applicable."

  /** A key given to the constructor or found in the environment counts
      only when it is a non-empty string. */
  predicate KeyPresent(key: Option<string>) {
    key.Some? && key.value != ""
  }

  /** The message actually sent to the model: a tool result takes
      precedence over the list of available tools. */
  function Enrich(userMessage: string, context: Context): string {
    if context.toolResult != "" then
      "User query: " + userMessage + "\n\nTool result: " + context.toolResult + ToolResultInstruction
    else if context.availableTools != [] then
      userMessage + "\n\nAvailable tools: " + Join(context.availableTools, ", ")
    else
      userMessage
  }

  /** An exception is reported as an authentication problem when its
      lower-cased text mentions "api_key" or "unauthorized". */
  predicate IsAuthError(error: string) {
    Contains(Lower(error), "api_key") || Contains(Lower(error), "unauthorized")
  }

  /** The record returned when the service has no client. */
  const NotConfigured: Generation :=
    Generation(NotConfiguredReply, Error, 0, false, NoToolParams, true, None, None)

  /** The record returned when the model call raised `error`. */
  function FailureGeneration(error: string): (g: Generation)
    ensures g.intent == Error && g.confidence == 0 && !g.requiresTool
    ensures g.setupRequired <==> IsAuthError(error)
    ensures g.error == Some(error) && g.toolParams == NoToolParams && g.modelUsed == None
    ensures g.response == if IsAuthError(error) then AuthFailedReply else TechnicalDifficultiesReply
  {
    if IsAuthError(error) then
      Generation(AuthFailedReply, Error, 0, false, NoToolParams, true, Some(error), None)
    else
      Generation(TechnicalDifficultiesReply, Error, 0, false, NoToolParams, false, Some(error), None)
  }

  /** One generation as a value: the record returned, the log afterwards,
      and the prompt sent to the model (`None` when the model is not called). */
  datatype Pass = Pass(reply: Generation, history: seq<Message>, request: Option<seq<Message>>)

  /** What a generation does, given the service state it starts from and
      the outcome of the model call. */
  function GenerateSpec(hasClient: bool, systemPrompt: string, modelName: string, history: seq<Message>,
                        userMessage: string, context: Context, llm: LlmOutcome): Pass
  {
    if !hasClient then
      Pass(NotConfigured, history, None)
    else
      var request := Prompt(systemPrompt, history, Enrich(userMessage, context));
      match llm
      case Raised(e) => Pass(FailureGeneration(e), history, Some(request))
      case Completed(text) =>
        var a := Classify(userMessage);
        Pass(Generation(text, a.intent, a.confidence, a.requiresTool, a.toolParams, false, None, Some(modelName)),
             Added(Added(history, Message(UserRole, userMessage)), Message(AssistantRole, text)),
             Some(request))
  }

  /** A non-empty tool result is sent together with the user's message
      and takes precedence over the tool list. */
  lemma EnrichWithToolResult(userMessage: string, context: Context)
    requires context.toolResult != ""
    ensures var e := Enrich(userMessage, context);
      Contains(e, userMessage) && Contains(e, context.toolResult) && IsPrefix("User query: ", e)
  {
    var e := Enrich(userMessage, context);
    var tail := "\n\nTool result: " + context.toolResult + ToolResultInstruction;
    assert e == ("User query: " + userMessage) + tail;
    ContainsSelf(userMessage);
    ContainsInConcat("User query: ", userMessage, userMessage);
    ContainsInConcat("User query: " + userMessage, tail, userMessage);
    ContainsSelf(context.toolResult);
    ContainsInConcat("\n\nTool result: ", context.toolResult, context.toolResult);
    ContainsInConcat("\n\nTool result: " + context.toolResult, ToolResultInstruction, context.toolResult);
    ContainsInConcat("User query: " + userMessage, tail, context.toolResult);
  }

  /** Without a tool result, the message starts with the user's message and
      names every available tool. */
  lemma EnrichWithTools(userMessage: string, context: Context, i: nat)
    requires context.toolResult == "" && i < |context.availableTools|
    ensures var e := Enrich(userMessage, context);
      IsPrefix(userMessage, e) && Contains(e, context.availableTools[i])
  {
    var tools := Join(context.availableTools, ", ");
    JoinHasPart(context.availableTools, ", ", i);
    ContainsInConcat(userMessage + "\n\nAvailable tools: ", tools, context.availableTools[i]);
  }

  /** Failures: without a client, or when the model call raises, the
      record has intent error, confidence 0 and no tool, and the log is
      unchanged; setup is flagged exactly when there is no client or the
      error reads as an authentication problem. The model is called
      exactly when a client exists. */
  lemma GenerateFailures(hasClient: bool, systemPrompt: string, modelName: string, history: seq<Message>,
                         userMessage: string, context: Context, llm: LlmOutcome)
    ensures var p := GenerateSpec(hasClient, systemPrompt, modelName, history, userMessage, context, llm);
      && (p.reply.intent == Error <==> !hasClient || llm.Raised?)
      && (p.reply.intent == Error ==> !p.reply.requiresTool && p.reply.confidence == 0 && p.history == history)
      && (p.reply.setupRequired <==> !hasClient || (llm.Raised? && IsAuthError(llm.error)))
      && (p.request.Some? <==> hasClient)
  {
  }

  /** Success: the log gains the original (not the enriched) message and
      then the reply, keeping the newest `MaxHistory` entries; the record
      carries the reply and the classifier's verdict on the original
      message; the model sees the prompt built from the log as it was. */
  lemma GenerateSuccess(hasClient: bool, systemPrompt: string, modelName: string, history: seq<Message>,
                        userMessage: string, context: Context, llm: LlmOutcome)
    requires hasClient && llm.Completed? && |history| <= MaxHistory
    ensures var p := GenerateSpec(hasClient, systemPrompt, modelName, history, userMessage, context, llm);
      var a := Classify(userMessage);
      && p.history == LastN(history + [Message(UserRole, userMessage), Message(AssistantRole, llm.content)], MaxHistory)
      && p.reply == Generation(llm.content, a.intent, a.confidence, a.requiresTool, a.toolParams, false, None, Some(modelName))
      && p.request == Some(Prompt(systemPrompt, history, Enrich(userMessage, context)))
  {
    AddedTwice(history, Message(UserRole, userMessage), Message(AssistantRole, llm.content));
  }

  class GroqService {
    var modelName: string
    /** The instructions of every prompt, fixed at construction. */
    const systemPrompt: string
    const apiKey: Option<string>
    /** Whether a client object was created. */
    const hasClient: bool
    var history: seq<Message>

    ghost predicate Valid()
      reads this
    {
      |history| <= MaxHistory && (hasClient <==> KeyPresent(apiKey))
    }

    /** `envKey` is the value of the GROQ_API_KEY environment variable. */
    constructor(modelName: string, apiKeyArg: Option<string>, envKey: Option<string>)
      ensures Valid()
      ensures this.modelName == modelName
      ensures apiKey == (if KeyPresent(apiKeyArg) then apiKeyArg else envKey)
      ensures hasClient == KeyPresent(apiKey)
      ensures history == []
      ensures systemPrompt == SystemPrompt
    {
      this.modelName := modelName;
      systemPrompt := SystemPrompt;
      var key := if KeyPresent(apiKeyArg) then apiKeyArg else envKey;
      apiKey := key;
      hasClient := KeyPresent(key);
      history := [];
    }

    /** Appends one entry and drops the oldest ones beyond `MaxHistory`. */
    method AddToConversation(role: string, content: string)
      requires Valid()
      modifies this`history
      ensures Valid()
      ensures history == Added(old(history), Message(role, content))
    {
      history := history + [Message(role, content)];
      if |history| > MaxHistory {
        history := history[|history| - MaxHistory..];
      }
    }

    method ClearConversation()
      requires Valid()
      modifies this`history
      ensures Valid() && history == []
    {
      history := [];
    }

    /** Switches model only to one of `AvailableModels`; any other name
        leaves the model unchanged. */
    method SetModel(name: string)
      modifies this`modelName
      ensures modelName == if name in AvailableModels then name else old(modelName)
    {
      if name in AvailableModels {
        modelName := name;
      }
    }

    /** Configured means a client exists and a key is set. */
    function IsConfigured(): (r: bool)
      reads this
      ensures Valid() ==> (r <==> KeyPresent(apiKey))
    {
      hasClient && apiKey.Some?
    }

    /** The prompt for `userMessage`, built entry by entry. */
    method PrepareMessages(userMessage: string) returns (messages: seq<Message>)
      ensures messages == Prompt(systemPrompt, history, userMessage)
    {
      var system := Message(SystemRole, systemPrompt);
      messages := [system];
      var recent := LastN(history, PromptWindow);
      var i := 0;
      while i < |recent|
        invariant 0 <= i <= |recent|
        invariant messages == [system] + ChatEntries(recent[..i])
      {
        assert recent[..i + 1] == recent[..i] + [recent[i]];
        ChatEntriesAppend(recent[..i], recent[i]);
        if IsChatRole(recent[i].role) {
          messages := messages + [Message(recent[i].role, recent[i].content)];
        }
        i := i + 1;
      }
      assert recent[..i] == recent;
      messages := messages + [Message(UserRole, userMessage)];
    }

    /** The summary text, accumulated line by line. */
    method ConversationSummary() returns (summary: string)
      ensures summary == Summary(history)
    {
      if history == [] {
        return NoHistorySummary;
      }
      var header := SummaryHeader(|history|);
      var recent := LastN(history, SummaryWindow);
      var lines := "";
      var i := 0;
      while i < |recent|
        invariant 0 <= i <= |recent|
        invariant lines == SummaryLines(recent[..i])
      {
        assert recent[..i + 1] == recent[..i] + [recent[i]];
        SummaryLinesAppend(recent[..i], recent[i]);
        lines := lines + SummaryLine(recent[i]);
        i := i + 1;
      }
      assert recent[..i] == recent;
      summary := header + lines;
    }

    /** One generation. `llm` is the outcome of the chat-completion call,
        used only when the call is made; `request` is the prompt it is made
        with. */
    method GenerateResponse(userMessage: string, context: Context, llm: LlmOutcome)
      returns (g: Generation, request: Option<seq<Message>>)
      requires Valid()
      modifies this`history
      ensures Valid()
      ensures var p := GenerateSpec(hasClient, systemPrompt, modelName, old(history), userMessage, context, llm);
        g == p.reply && history == p.history && request == p.request
    {
      if !hasClient {
        return NotConfigured, None;
      }
      var enhanced := Enrich(userMessage, context);
      var messages := PrepareMessages(enhanced);
      request := Some(messages);
      match llm
      case Raised(e) =>
        g := FailureGeneration(e);
      case Completed(text) =>
        AddToConversation(UserRole, userMessage);
        AddToConversation(AssistantRole, text);
        var analysis := AnalyzeIntent(userMessage, text);
        g := Generation(text, analysis.intent, analysis.confidence, analysis.requiresTool,
                        analysis.toolParams, false, None, Some(modelName));
    }
  }
}
