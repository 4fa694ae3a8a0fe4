/** The web front end's integration layer: one chat turn runs a first
    model pass that may ask for the patient-list tool, calls the tool at
    most once, and then runs a second pass over the tool's result. The
    chat service's log is the only state a turn changes. The tool and the
    model are not modelled: each call's outcome is an argument of the turn. */
module App {
  import opened Wrappers
  import opened Text
  import opened Conversation
  import opened Intent
  import opened Service

  /** The one tool the integration offers to the model. */
  const PatientListTool: string := "getpatientlist"
  const AvailableTools: seq<string> := [PatientListTool]

  /** The limit passed to the tool when the classifier found none. */
  const DefaultToolLimit: int := 10

  /** The fixed texts of the integration. The marks before the first words
      of the first and third are the characters stored in the source file,
      an emoji that was mis-decoded once, kept as they are. */
  const McpUnavailableReply: string := "\U{201A}\U{F9}\U{E5} MCP server is not available. Please check the setup."
  const PatientListErrorPrefix: string := "Error getting patient list: "
  const SetupSuffix: string :=
    "\n\n\U{F8FF}\U{FC}\U{ED}\U{B0} To set up Groq API:\n1. Get free API key from https://console.groq.com/\n"
    + "2. Set environment variable: GROQ_API_KEY=your_key_here\n3. Restart the chatbot"
  const EmptyMessageError: string := "Message cannot be empty"

  /** What one call of the registry's patient-list tool produced. */
  datatype ToolOutcome = Returned(text: string) | Failed(error: string)

  /** The arguments of one patient-list call. */
  datatype ToolCall = ToolCall(patientName: Option<string>, limit: int)

  /** The text the integration gets back from a patient-list call: it
      never fails, whatever the tool does. */
  function PatientListResult(mcpAvailable: bool, tool: ToolOutcome): (r: string)
    ensures !mcpAvailable ==> r == McpUnavailableReply
    ensures mcpAvailable && tool.Returned? ==> r == tool.text
    ensures mcpAvailable && tool.Failed? ==> IsPrefix(PatientListErrorPrefix, r) && r[|PatientListErrorPrefix|..] == tool.error
  {
    if !mcpAvailable then McpUnavailableReply
    else match tool
      case Returned(text) => text
      case Failed(e) => PatientListErrorPrefix + e
  }

  function Sent(request: Option<seq<Message>>): seq<seq<Message>> {
    if request.Some? then [request.value] else []
  }

  /** One turn as a value: the reply, the tool calls made, the log
      afterwards and the prompts sent to the model, in order. */
  datatype Turn = Turn(reply: string, toolCalls: seq<ToolCall>, history: seq<Message>, requests: seq<seq<Message>>)

  const FirstPassContext: Context := Context("", AvailableTools)

  /** The tool call the first pass asks for, if it asks for one. */
  function RequestedCall(g: Generation): Option<ToolCall> {
    if !g.setupRequired && g.requiresTool && g.intent == PatientSearch then
      Some(ToolCall(g.toolParams.patientName, if g.toolParams.limit.Some? then g.toolParams.limit.value else DefaultToolLimit))
    else None
  }

  /** What a turn does, given the chat service's state, whether the tool
      server is reachable, and the outcomes of the first model call, the
      tool call and the second model call (each used only when made). */
  function TurnSpec(hasClient: bool, systemPrompt: string, modelName: string, history: seq<Message>, mcpAvailable: bool,
                    message: string, first: LlmOutcome, tool: ToolOutcome, second: LlmOutcome): Turn
  {
    var p1 := GenerateSpec(hasClient, systemPrompt, modelName, history, message, FirstPassContext, first);
    if p1.reply.setupRequired then
      Turn(p1.reply.response + SetupSuffix, [], p1.history, Sent(p1.request))
    else
      match RequestedCall(p1.reply)
      case None => Turn(p1.reply.response, [], p1.history, Sent(p1.request))
      case Some(call) =>
        var toolResult := PatientListResult(mcpAvailable, tool);
        var p2 := GenerateSpec(hasClient, systemPrompt, modelName, p1.history, message, Context(toolResult, []), second);
        Turn(p2.reply.response, [call], p2.history, Sent(p1.request) + Sent(p2.request))
  }

  /** The web endpoints' check: the message with surrounding whitespace
      removed, or the error for a message that is blank. */
  function ValidateMessage(raw: string): Result<string, string> {
    var stripped := Strip(raw, Whitespace);
    if stripped == [] then Failure(EmptyMessageError) else Success(stripped)
  }

  /** A message is refused exactly when it is blank; an accepted message is
      the raw one with its leading and trailing whitespace cut off, and
      neither starts nor ends with whitespace. */
  lemma ValidateMessageSpec(raw: string)
    ensures ValidateMessage(raw).Failure? <==> forall i :: 0 <= i < |raw| ==> IsSpace(raw[i])
    ensures ValidateMessage(raw).Failure? ==> ValidateMessage(raw).error == EmptyMessageError
    ensures ValidateMessage(raw).Success? ==>
      var m := ValidateMessage(raw).value;
      m != [] && !IsSpace(m[0]) && !IsSpace(m[|m| - 1]) && exists k: nat :: BlankAround(raw, m, k)
  {
    var stripped := Strip(raw, Whitespace);
    StripBlankIff(raw);
    if stripped != [] {
      StrippedEnds(stripped);
      var k: nat :| StrippedAt(raw, Whitespace, stripped, k);
      StrippedAtBlank(raw, stripped, k);
    }
  }

  /** `m` occurs in `raw` at `k` with only whitespace before and after it. */
  predicate BlankAround(raw: string, m: string, k: nat) {
    OccursAt(raw, m, k)
    && (forall i :: 0 <= i < k ==> IsSpace(raw[i]))
    && (forall i :: k + |m| <= i < |raw| ==> IsSpace(raw[i]))
  }

  /** Characters cut off by `strip()` are whitespace. */
  lemma StrippedAtBlank(raw: string, m: string, k: nat)
    requires StrippedAt(raw, Whitespace, m, k)
    ensures BlankAround(raw, m, k)
  {
    forall i | 0 <= i < |raw| && raw[i] in Whitespace
      ensures IsSpace(raw[i])
    {
      WhitespaceIsSpace(raw[i]);
    }
  }

  /** The ends of a non-empty stripped message are not whitespace. */
  lemma StrippedEnds(m: string)
    requires m != [] && m[0] !in Whitespace && m[|m| - 1] !in Whitespace
    ensures !IsSpace(m[0]) && !IsSpace(m[|m| - 1])
  {
    WhitespaceIsSpace(m[0]);
    WhitespaceIsSpace(m[|m| - 1]);
  }

  class ChatbotMCPIntegration {
    const groq: GroqService
    /** Whether the tool server's modules could be loaded. */
    const mcpAvailable: bool

    ghost predicate Valid()
      reads this, groq
    {
      groq.Valid()
    }

    /** `envKey` is the value of the GROQ_API_KEY environment variable. */
    constructor(envKey: Option<string>, mcpAvailable: bool)
      ensures Valid() && fresh(groq)
      ensures groq.modelName == DefaultModel && groq.history == [] && groq.systemPrompt == SystemPrompt
      ensures groq.hasClient == KeyPresent(envKey)
      ensures this.mcpAvailable == mcpAvailable
    {
      groq := new GroqService(DefaultModel, None, envKey);
      this.mcpAvailable := mcpAvailable;
    }

    /** The patient-list tool as the integration calls it. */
    method GetPatientList(patientName: Option<string>, limit: int, tool: ToolOutcome) returns (result: string)
      ensures result == PatientListResult(mcpAvailable, tool)
    {
      if !mcpAvailable {
        return McpUnavailableReply;
      }
      match tool
      case Returned(text) =>
        result := text;
      case Failed(e) =>
        result := PatientListErrorPrefix + e;
    }

    /** One chat turn. */
    method ProcessMessage(message: string, first: LlmOutcome, tool: ToolOutcome, second: LlmOutcome)
      returns (reply: string, toolCalls: seq<ToolCall>, requests: seq<seq<Message>>)
      requires Valid()
      modifies groq`history
      ensures Valid()
      ensures var t := TurnSpec(groq.hasClient, groq.systemPrompt, groq.modelName, old(groq.history), mcpAvailable, message, first, tool, second);
        reply == t.reply && toolCalls == t.toolCalls && groq.history == t.history && requests == t.requests
    {
      ghost var t := TurnSpec(groq.hasClient, groq.systemPrompt, groq.modelName, groq.history, mcpAvailable, message, first, tool, second);
      var r1, q1 := groq.GenerateResponse(message, FirstPassContext, first);
      requests := Sent(q1);
      toolCalls := [];
      if r1.setupRequired {
        return r1.response + SetupSuffix, toolCalls, requests;
      }
      if r1.requiresTool && r1.intent == PatientSearch {
        var call, q2;
        reply, call, q2 := ToolPass(message, r1, tool, second);
        assert t == Turn(reply, [call], groq.history, requests + Sent(q2));
        return reply, [call], requests + Sent(q2);
      }
      reply := r1.response;
    }

    /** The tool call a first-pass record asks for, and the second pass
        over the tool's text. */
    method ToolPass(message: string, r1: Generation, tool: ToolOutcome, second: LlmOutcome)
      returns (reply: string, call: ToolCall, request: Option<seq<Message>>)
      requires Valid() && RequestedCall(r1).Some?
      modifies groq`history
      ensures Valid()
      ensures call == RequestedCall(r1).value
      ensures var p2 := GenerateSpec(groq.hasClient, groq.systemPrompt, groq.modelName, old(groq.history), message,
                                     Context(PatientListResult(mcpAvailable, tool), []), second);
        reply == p2.reply.response && request == p2.request && groq.history == p2.history
    {
      var params := r1.toolParams;
      var limit: int := if params.limit.Some? then params.limit.value else DefaultToolLimit;
      call := ToolCall(params.patientName, limit);
      var toolResult := GetPatientList(params.patientName, limit, tool);
      var r2;
      r2, request := groq.GenerateResponse(message, Context(toolResult, []), second);
      reply := r2.response;
    }

    /** A message from either web endpoint: a blank message is refused
        before the turn starts, otherwise the stripped message is processed. */
    method HandleChat(raw: string, first: LlmOutcome, tool: ToolOutcome, second: LlmOutcome)
      returns (outcome: Result<string, string>, toolCalls: seq<ToolCall>, requests: seq<seq<Message>>)
      requires Valid()
      modifies groq`history
      ensures Valid()
      ensures ValidateMessage(raw).Failure? ==>
        outcome == Failure(EmptyMessageError) && toolCalls == [] && requests == [] && groq.history == old(groq.history)
      ensures ValidateMessage(raw).Success? ==>
        var t := TurnSpec(groq.hasClient, groq.systemPrompt, groq.modelName, old(groq.history), mcpAvailable, ValidateMessage(raw).value, first, tool, second);
        outcome == Success(t.reply) && toolCalls == t.toolCalls && groq.history == t.history && requests == t.requests
    {
      var checked := ValidateMessage(raw);
      if checked.Failure? {
        return Failure(checked.error), [], [];
      }
      var reply;
      reply, toolCalls, requests := ProcessMessage(checked.value, first, tool, second);
      outcome := Success(reply);
    }

    method ClearConversation()
      requires Valid()
      modifies groq`history
      ensures Valid() && groq.history == []
    {
      groq.ClearConversation();
    }

    method GetConversationSummary() returns (summary: string)
      ensures summary == Summary(groq.history)
    {
      summary := groq.ConversationSummary();
    }

    function IsLlmConfigured(): (r: bool)
      reads this, groq
      ensures Valid() ==> (r <==> KeyPresent(groq.apiKey))
    {
      groq.IsConfigured()
    }
  }
  // ---------------------------------------------------------------------
  // Properties of a turn

  /** The pass-1 record of a turn. */
  function FirstPass(hasClient: bool, systemPrompt: string, modelName: string, history: seq<Message>, message: string, first: LlmOutcome): Pass {
    GenerateSpec(hasClient, systemPrompt, modelName, history, message, FirstPassContext, first)
  }

  /** The tool is called at most once, and exactly when the service has a
      client, the first model call succeeds and the message classifies as
      a patient search; the call carries the classifier's name and its
      limit, or 10 when it found none. */
  lemma ToolCalledOnlyForSearches(hasClient: bool, systemPrompt: string, modelName: string, history: seq<Message>, mcpAvailable: bool,
                                  message: string, first: LlmOutcome, tool: ToolOutcome, second: LlmOutcome)
    ensures var t := TurnSpec(hasClient, systemPrompt, modelName, history, mcpAvailable, message, first, tool, second);
      var a := Classify(message);
      && |t.toolCalls| <= 1
      && (|t.toolCalls| == 1 <==> hasClient && first.Completed? && a.intent == PatientSearch)
      && (|t.toolCalls| == 1 ==> t.toolCalls[0] == ToolCall(a.toolParams.patientName, a.toolParams.limit.GetOr(10)))
  {
    FirstPassVerdict(hasClient, systemPrompt, modelName, history, message, first);
    var p1 := FirstPass(hasClient, systemPrompt, modelName, history, message, first);
    var call := RequestedCall(p1.reply);
    assert TurnSpec(hasClient, systemPrompt, modelName, history, mcpAvailable, message, first, tool, second).toolCalls ==
      if p1.reply.setupRequired || call.None? then [] else [call.value];
  }

  /** The first pass's record: the classifier's verdict when the model
      call succeeds, otherwise an error record that asks for no tool. */
  lemma FirstPassVerdict(hasClient: bool, systemPrompt: string, modelName: string, history: seq<Message>,
                         message: string, first: LlmOutcome)
    ensures var g, a := FirstPass(hasClient, systemPrompt, modelName, history, message, first).reply, Classify(message);
      && (hasClient && first.Completed? ==>
            !g.setupRequired && g.intent == a.intent && g.requiresTool == a.requiresTool && g.toolParams == a.toolParams)
      && (!(hasClient && first.Completed?) ==> g.intent == Error && !g.requiresTool)
  {
    GenerateFailures(hasClient, systemPrompt, modelName, history, message, FirstPassContext, first);
  }

  /** The first model call gets the original message with the tool list
      appended, and the prompt built from the log as it was. */
  lemma FirstPassRequest(hasClient: bool, systemPrompt: string, modelName: string, history: seq<Message>, mcpAvailable: bool,
                         message: string, first: LlmOutcome, tool: ToolOutcome, second: LlmOutcome)
    ensures var t := TurnSpec(hasClient, systemPrompt, modelName, history, mcpAvailable, message, first, tool, second);
      && (hasClient <==> t.requests != [])
      && (hasClient ==> t.requests[0] == Prompt(systemPrompt, history, message + "\n\nAvailable tools: getpatientlist"))
  {
    var p1 := FirstPass(hasClient, systemPrompt, modelName, history, message, first);
    FirstPassMessage(message);
    if hasClient {
      assert p1.request == Some(Prompt(systemPrompt, history, Enrich(message, FirstPassContext)));
    }
  }

  /** The first pass's message is the user's with the tool list appended. */
  lemma FirstPassMessage(message: string)
    ensures Enrich(message, FirstPassContext) == message + "\n\nAvailable tools: getpatientlist"
  {
    assert Join(AvailableTools, ", ") == PatientListTool;
  }

  /** When the first pass asks for setup, the reply is its text with the
      setup instructions added, and there is no tool call, no second pass
      and no change to the log. */
  lemma SetupEndsTurn(hasClient: bool, systemPrompt: string, modelName: string, history: seq<Message>, mcpAvailable: bool,
                      message: string, first: LlmOutcome, tool: ToolOutcome, second: LlmOutcome)
    requires FirstPass(hasClient, systemPrompt, modelName, history, message, first).reply.setupRequired
    ensures var t := TurnSpec(hasClient, systemPrompt, modelName, history, mcpAvailable, message, first, tool, second);
      && t.reply == FirstPass(hasClient, systemPrompt, modelName, history, message, first).reply.response + SetupSuffix
      && t.toolCalls == [] && t.history == history && |t.requests| <= 1
      && (!hasClient ==> t.reply == NotConfiguredReply + SetupSuffix)
      && (hasClient ==> first.Raised? && t.reply == AuthFailedReply + SetupSuffix)
  {
    GenerateFailures(hasClient, systemPrompt, modelName, history, message, FirstPassContext, first);
  }

  /** Without a tool call, the reply is the first pass's text unchanged
      (unless setup is required). */
  lemma NoToolReply(hasClient: bool, systemPrompt: string, modelName: string, history: seq<Message>, mcpAvailable: bool,
                    message: string, first: LlmOutcome, tool: ToolOutcome, second: LlmOutcome)
    requires !FirstPass(hasClient, systemPrompt, modelName, history, message, first).reply.setupRequired
    requires TurnSpec(hasClient, systemPrompt, modelName, history, mcpAvailable, message, first, tool, second).toolCalls == []
    ensures var t := TurnSpec(hasClient, systemPrompt, modelName, history, mcpAvailable, message, first, tool, second);
      t.reply == FirstPass(hasClient, systemPrompt, modelName, history, message, first).reply.response
      && |t.requests| <= 1
  {
  }

  /** With a tool call, the reply is the second pass's text; the second
      model call gets the original message and the tool's text, even when
      that text reports that the tool failed or is unavailable. */
  lemma ToolTurnReply(hasClient: bool, systemPrompt: string, modelName: string, history: seq<Message>, mcpAvailable: bool,
                      message: string, first: LlmOutcome, tool: ToolOutcome, second: LlmOutcome)
    requires TurnSpec(hasClient, systemPrompt, modelName, history, mcpAvailable, message, first, tool, second).toolCalls != []
    ensures var t := TurnSpec(hasClient, systemPrompt, modelName, history, mcpAvailable, message, first, tool, second);
      var p1 := FirstPass(hasClient, systemPrompt, modelName, history, message, first);
      var toolContext := Context(PatientListResult(mcpAvailable, tool), []);
      && t.reply == GenerateSpec(hasClient, systemPrompt, modelName, p1.history, message, toolContext, second).reply.response
      && |t.requests| == 2
      && t.requests[1] == Prompt(systemPrompt, p1.history, Enrich(message, toolContext))
  {
    GenerateFailures(hasClient, systemPrompt, modelName, history, message, FirstPassContext, first);
  }

  /** A tool turn whose two model calls both succeed logs the message, the
      first reply, the message again and the second reply, keeping the
      newest `MaxHistory` entries. */
  lemma ToolTurnLogsFour(hasClient: bool, systemPrompt: string, modelName: string, history: seq<Message>, mcpAvailable: bool,
                         message: string, first: LlmOutcome, tool: ToolOutcome, second: LlmOutcome)
    requires |history| <= MaxHistory
    requires TurnSpec(hasClient, systemPrompt, modelName, history, mcpAvailable, message, first, tool, second).toolCalls != []
    requires second.Completed?
    ensures first.Completed?
    ensures TurnSpec(hasClient, systemPrompt, modelName, history, mcpAvailable, message, first, tool, second).history ==
      LastN(history + [Message(UserRole, message), Message(AssistantRole, first.content),
                       Message(UserRole, message), Message(AssistantRole, second.content)], MaxHistory)
  {
    GenerateFailures(hasClient, systemPrompt, modelName, history, message, FirstPassContext, first);
    var u := Message(UserRole, message);
    var a1, a2 := Message(AssistantRole, first.content), Message(AssistantRole, second.content);
    var p1 := FirstPass(hasClient, systemPrompt, modelName, history, message, first);
    assert p1.history == Added(Added(history, u), a1);
    FourAppends(history, u, a1, u, a2);
  }
}
