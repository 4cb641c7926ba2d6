/**
  The support agent's single chat turn: ask the language model once; if it asks for
  tools, announce them, run each one in order, and ask the model a second time.

  The language model, the tool server and JSON decoding are oracles: the model's
  reply is a function of how many requests came before and of the request itself,
  a tool's result is a function of how many invocations came before and of the
  invocation, and decoding is a function of the text. The services keep a log of
  what they were asked, so call counts and call order can be stated.
*/
module Agent {
  import opened Wrappers

  /** The fixed system prompt sent first in every turn. */
  const SystemPrompt: string :=
    "You are a helpful customer support agent for a computer products company that sells monitors, printers, computers, and accessories.\n\nYour capabilities include:\n- **Product Search**: Find products by name, category, or description\n- **Product Details**: Get detailed information including price, specs, and stock\n- **Customer Lookup**: Find customer information and verify identity\n- **Order Management**: View order history, check order status, and create new orders\n- **Inventory**: Browse available products and check stock levels\n\nGuidelines:\n- Be friendly, professional, and concise\n- Always verify customer identity before accessing account-specific information\n- When creating orders, confirm all details with the customer first\n- Use tools to get accurate, real-time information\n- If you need more information, ask specific questions\n\nAvailable tools:\n- list_products: Browse products by category\n- get_product: Get detailed info by SKU\n- search_products: Search by name/description\n- get_customer: Look up customer by ID\n- verify_customer_pin: Verify customer with email + PIN\n- list_orders: View customer orders\n- get_order: Get order details\n- create_order: Create a new order (requires customer_id and items)"

  /** The reply used when the model's final content is missing or empty. */
  const FallbackResponse: string := "I apologize, but I couldn't generate a response."

  /** Decoded JSON; numbers are kept to integers. */
  datatype Json =
    | JNull
    | JBool(b: bool)
    | JNumber(n: int)
    | JString(s: string)
    | JArray(items: seq<Json>)
    | JObject(fields: map<string, Json>)

  type Arguments = map<string, Json>

  /** A tool offered to the model: name, description and parameter schema. */
  datatype ToolSchema = ToolSchema(name: string, description: string, parameters: Json)

  /** A tool call as the model requests it; `arguments` is undecoded text. */
  datatype ToolCallRequest = ToolCallRequest(id: string, kind: string, name: string, arguments: string)

  /** The `{id, type, function: {name, arguments}}` entry of the assistant's announcement. */
  datatype ToolCallDescriptor = ToolCallDescriptor(id: string, kind: string, functionName: string, functionArguments: string)

  /** A message sent to the model. */
  datatype ChatMessage =
    | Plain(role: string, content: string)
    | Announcement(content: string, toolCalls: seq<ToolCallDescriptor>)  // role "assistant"
    | ToolResult(toolCallId: string, content: string)                     // role "tool"

  /** The model's reply: optional text and the tool calls it requests, in its order. */
  datatype Completion = Completion(content: Option<string>, toolCalls: seq<ToolCallRequest>)

  /** One request to the model: the message list and the tools offered with it. */
  datatype Request = Request(messages: seq<ChatMessage>, tools: seq<ToolSchema>)

  /** One call to the tool server. */
  datatype Invocation = Invocation(name: string, arguments: Arguments)

  /** A tool call as reported back to the caller. */
  datatype ToolCall = ToolCall(name: string, arguments: Arguments)

  /** What a chat turn returns; `toolCalls` is absent when no tool ran. */
  datatype ChatResponse = ChatResponse(response: string, toolCalls: Option<seq<ToolCall>>)

  /** Why a chat turn raised: the model call raised, or a tool call's decoded arguments are not an object. */
  datatype ChatError = ModelError(message: string) | InvalidArguments(toolName: string)

  /** The tool phase so far: recorded calls, tool messages, and the error that stopped it, if any. */
  datatype ToolTrace = ToolTrace(records: seq<ToolCall>, results: seq<ChatMessage>, error: Option<ChatError>)

  /** Everything observable about one turn: its result, the model requests and the tool invocations. */
  datatype TurnOutcome = TurnOutcome(result: Result<ChatResponse, ChatError>, requests: seq<Request>, invocations: seq<Invocation>)

  /** The model oracle: the reply to the request made after `n` earlier requests; a failure is the error it raised. */
  type Responder = (nat, Request) -> Result<Completion, string>

  /** The tool oracle: the text returned by the invocation made after `n` earlier invocations. */
  type Executor = (nat, Invocation) -> string

  /** The JSON decoder: `None` when the text is not valid JSON. */
  type JsonParser = string -> Option<Json>

  /** The two messages every turn starts with: the system prompt, then the user's message. */
  function Initial(systemPrompt: string, userMessage: string): seq<ChatMessage>
  {
    [Plain("system", systemPrompt), Plain("user", userMessage)]
  }

  /** Python's `content or ""`. */
  function OrEmpty(content: Option<string>): string
  {
    if content.Some? then content.value else ""
  }

  /** Python's `content or FALLBACK`: the model's text when it is non-empty, the fallback otherwise. */
  function OrFallback(content: Option<string>): (r: string)
    ensures r != ""
    ensures r == FallbackResponse || content == Some(r)
    ensures content.Some? && content.value != "" ==> r == content.value
  {
    if content.Some? && content.value != "" then content.value else FallbackResponse
  }

  function Describe(call: ToolCallRequest): ToolCallDescriptor
  {
    ToolCallDescriptor(call.id, call.kind, call.name, call.arguments)
  }

  function Descriptors(calls: seq<ToolCallRequest>): seq<ToolCallDescriptor>
  {
    seq(|calls|, i requires 0 <= i < |calls| => Describe(calls[i]))
  }

  /** `json.loads` with the fall-back: text that does not decode becomes the empty object. */
  function ParseArguments(parse: JsonParser, raw: string): Json
  {
    match parse(raw)
    case None => JObject(map[])
    case Some(j) => j
  }

  /** Building the reported `ToolCall` accepts only a JSON object as its arguments. */
  function ValidateArguments(name: string, j: Json): Result<Arguments, ChatError>
  {
    if j.JObject? then Success(j.fields) else Failure(InvalidArguments(name))
  }

  /**
    The arguments a requested call runs with: the decoded object unchanged, the empty
    mapping when the text does not decode, and an error when it decodes to a non-object.
  */
  function ArgumentsOf(parse: JsonParser, call: ToolCallRequest): (r: Result<Arguments, ChatError>)
    ensures parse(call.arguments).None? ==> r == Success(map[])
    ensures parse(call.arguments).Some? && parse(call.arguments).value.JObject? ==>
              r == Success(parse(call.arguments).value.fields)
    ensures parse(call.arguments).Some? && !parse(call.arguments).value.JObject? ==>
              r == Failure(InvalidArguments(call.name))
  {
    ValidateArguments(call.name, ParseArguments(parse, call.arguments))
  }

  function InvocationsOf(records: seq<ToolCall>): seq<Invocation>
  {
    seq(|records|, i requires 0 <= i < |records| => Invocation(records[i].name, records[i].arguments))
  }

  /**
    The tool phase over `calls`, strictly in order: each call's arguments are decoded,
    the call is recorded and its tool invoked (the `base + i`-th invocation overall),
    and a tool message with the call's id carries the result. A call whose arguments
    decode to a non-object stops the phase before it is recorded or invoked.
  */
  function RunTools(calls: seq<ToolCallRequest>, parse: JsonParser, execute: Executor, base: nat): (t: ToolTrace)
    ensures |t.records| == |t.results| <= |calls|
    ensures t.error.None? <==> |t.records| == |calls|
    decreases |calls|
  {
    if calls == [] then ToolTrace([], [], None)
    else
      var done := RunTools(calls[..|calls| - 1], parse, execute, base);
      if done.error.Some? then done
      else
        var call := calls[|calls| - 1];
        match ArgumentsOf(parse, call)
        case Failure(e) => done.(error := Some(e))
        case Success(args) =>
          var result := execute(base + |done.records|, Invocation(call.name, args));
          ToolTrace(done.records + [ToolCall(call.name, args)], done.results + [ToolResult(call.id, result)], None)
  }

  /**
    The tool phase handles the calls one by one in the model's order. The i-th record is
    the i-th call's name with its decoded arguments, and the i-th tool message carries the
    i-th call's id and the result of invoking exactly that tool with exactly those
    arguments. The phase stops only at the first call whose arguments are not an object,
    and otherwise covers every call.
  */
  lemma {:induction false} RunToolsInOrder(calls: seq<ToolCallRequest>, parse: JsonParser, execute: Executor, base: nat)
    ensures var t := RunTools(calls, parse, execute, base);
            && |t.records| == |t.results| <= |calls|
            && (t.error.None? ==> |t.records| == |calls|)
            && (t.error.Some? ==>
                  |t.records| < |calls| && ArgumentsOf(parse, calls[|t.records|]) == Failure(t.error.value))
            && forall i :: 0 <= i < |t.records| ==>
                 && ArgumentsOf(parse, calls[i]) == Success(t.records[i].arguments)
                 && t.records[i].name == calls[i].name
                 && t.results[i] == ToolResult(calls[i].id, execute(base + i, Invocation(calls[i].name, t.records[i].arguments)))
    decreases |calls|
  {
    if calls != [] {
      var front := calls[..|calls| - 1];
      RunToolsInOrder(front, parse, execute, base);
      var done := RunTools(front, parse, execute, base);
      assert forall i :: 0 <= i < |front| ==> front[i] == calls[i];
    }
  }

  /** A run that has not stopped, extended by a call with usable arguments, records and invokes that call. */
  lemma RunToolsAppend(calls: seq<ToolCallRequest>, i: nat, parse: JsonParser, execute: Executor, base: nat,
                       records: seq<ToolCall>, results: seq<ChatMessage>, args: Arguments)
    requires i < |calls|
    requires RunTools(calls[..i], parse, execute, base) == ToolTrace(records, results, None)
    requires ArgumentsOf(parse, calls[i]) == Success(args)
    ensures RunTools(calls[..i + 1], parse, execute, base) ==
              ToolTrace(records + [ToolCall(calls[i].name, args)],
                        results + [ToolResult(calls[i].id, execute(base + |records|, Invocation(calls[i].name, args)))],
                        None)
  {
    assert calls[..i + 1][..i] == calls[..i];
  }

  /** A run that has not stopped, extended by a call whose arguments are not an object, stops there. */
  lemma RunToolsHalt(calls: seq<ToolCallRequest>, i: nat, parse: JsonParser, execute: Executor, base: nat,
                     records: seq<ToolCall>, results: seq<ChatMessage>, e: ChatError)
    requires i < |calls|
    requires RunTools(calls[..i], parse, execute, base) == ToolTrace(records, results, None)
    requires ArgumentsOf(parse, calls[i]) == Failure(e)
    ensures RunTools(calls[..i + 1], parse, execute, base) == ToolTrace(records, results, Some(e))
  {
    assert calls[..i + 1][..i] == calls[..i];
  }

  /** Once the tool phase has stopped on a prefix, later calls change nothing. */
  lemma {:induction false} HaltedRunIsFinal(calls: seq<ToolCallRequest>, k: nat, parse: JsonParser, execute: Executor, base: nat)
    requires k <= |calls|
    requires RunTools(calls[..k], parse, execute, base).error.Some?
    ensures RunTools(calls, parse, execute, base) == RunTools(calls[..k], parse, execute, base)
    decreases |calls|
  {
    if k < |calls| {
      var front := calls[..|calls| - 1];
      assert front[..k] == calls[..k];
      HaltedRunIsFinal(front, k, parse, execute, base);
    } else {
      assert calls[..k] == calls;
    }
  }

  /** One chat turn, as the observable outcome of the oracles' answers. */
  function ChatTurn(systemPrompt: string, userMessage: string, tools: seq<ToolSchema>, respond: Responder, requestsBefore: nat,
                    parse: JsonParser, execute: Executor, invocationsBefore: nat): (o: TurnOutcome)
    ensures 1 <= |o.requests| <= 2 && o.requests[0] == Request(Initial(systemPrompt, userMessage), tools)
    ensures |o.requests| == 1 && o.result.Success? ==> o.invocations == []
  {
    var first := Request(Initial(systemPrompt, userMessage), tools);
    match respond(requestsBefore, first)
    case Failure(e) => TurnOutcome(Failure(ModelError(e)), [first], [])
    case Success(reply) =>
      if reply.toolCalls == [] then
        TurnOutcome(Success(ChatResponse(OrFallback(reply.content), None)), [first], [])
      else
        var trace := RunTools(reply.toolCalls, parse, execute, invocationsBefore);
        var invocations := InvocationsOf(trace.records);
        if trace.error.Some? then TurnOutcome(Failure(trace.error.value), [first], invocations)
        else
          var announce := Announcement(OrEmpty(reply.content), Descriptors(reply.toolCalls));
          var second := Request(Initial(systemPrompt, userMessage) + [announce] + trace.results, tools);
          match respond(requestsBefore + 1, second)
          case Failure(e) => TurnOutcome(Failure(ModelError(e)), [first, second], invocations)
          case Success(final) =>
            var reported := if trace.records != [] then Some(trace.records) else None;
            TurnOutcome(Success(ChatResponse(OrFallback(final.content), reported)), [first, second], invocations)
  }

  /**
    Every turn makes one or two model requests, all with the same tool list; the first
    is exactly the system prompt and the user message. There is a second request exactly
    when the first reply asks for tools and every requested call's arguments are usable.
  */
  lemma RequestsOfATurn(systemPrompt: string, userMessage: string, tools: seq<ToolSchema>, respond: Responder, requestsBefore: nat,
                        parse: JsonParser, execute: Executor, invocationsBefore: nat)
    ensures var o := ChatTurn(systemPrompt, userMessage, tools, respond, requestsBefore, parse, execute, invocationsBefore);
            && 1 <= |o.requests| <= 2
            && o.requests[0] == Request([Plain("system", systemPrompt), Plain("user", userMessage)], tools)
            && (forall j :: 0 <= j < |o.requests| ==> o.requests[j].tools == tools)
            && (|o.requests| == 2 <==>
                  && respond(requestsBefore, o.requests[0]).Success?
                  && respond(requestsBefore, o.requests[0]).value.toolCalls != []
                  && forall i :: 0 <= i < |respond(requestsBefore, o.requests[0]).value.toolCalls| ==>
                       ArgumentsOf(parse, respond(requestsBefore, o.requests[0]).value.toolCalls[i]).Success?)
  {
    var first := Request(Initial(systemPrompt, userMessage), tools);
    var reply := respond(requestsBefore, first);
    if reply.Success? && reply.value.toolCalls != [] {
      var calls := reply.value.toolCalls;
      RunToolsInOrder(calls, parse, execute, invocationsBefore);
      var trace := RunTools(calls, parse, execute, invocationsBefore);
      if trace.error.Some? {
        assert !ArgumentsOf(parse, calls[|trace.records|]).Success?;
      }
    }
  }

  /** Without tool calls: one model request, no invocation, and the reply text or the fallback. */
  lemma DirectReply(systemPrompt: string, userMessage: string, tools: seq<ToolSchema>, respond: Responder, requestsBefore: nat,
                    parse: JsonParser, execute: Executor, invocationsBefore: nat, reply: Completion)
    requires respond(requestsBefore, Request(Initial(systemPrompt, userMessage), tools)) == Success(reply)
    requires reply.toolCalls == []
    ensures var o := ChatTurn(systemPrompt, userMessage, tools, respond, requestsBefore, parse, execute, invocationsBefore);
            && o.requests == [Request(Initial(systemPrompt, userMessage), tools)]
            && o.invocations == []
            && o.result == Success(ChatResponse(OrFallback(reply.content), None))
  {
  }

  /**
    With tool calls whose arguments are all usable, the model is asked a second time, with
    the same tools. That request holds the two initial messages, one assistant announcement
    of every call in order (its text `content or ""`), and then one tool message per call,
    in the model's order, carrying that call's id and its tool's result.
  */
  lemma ToolRoundRequests(systemPrompt: string, userMessage: string, tools: seq<ToolSchema>, respond: Responder, requestsBefore: nat,
      parse: JsonParser, execute: Executor, invocationsBefore: nat, reply: Completion)
    requires respond(requestsBefore, Request(Initial(systemPrompt, userMessage), tools)) == Success(reply)
    requires reply.toolCalls != []
    requires forall i :: 0 <= i < |reply.toolCalls| ==> ArgumentsOf(parse, reply.toolCalls[i]).Success?
    ensures var o := ChatTurn(systemPrompt, userMessage, tools, respond, requestsBefore, parse, execute, invocationsBefore);
            var calls := reply.toolCalls;
            && |o.requests| == 2
            && o.requests[1].tools == tools
            && |o.requests[1].messages| == 3 + |calls|
            && o.requests[1].messages[..3] == Initial(systemPrompt, userMessage) + [Announcement(OrEmpty(reply.content), Descriptors(calls))]
            && forall i :: 0 <= i < |calls| ==>
                 o.requests[1].messages[3 + i] ==
                   ToolResult(calls[i].id, execute(invocationsBefore + i, Invocation(calls[i].name, ArgumentsOf(parse, calls[i]).value)))
  {
    var calls := reply.toolCalls;
    RunToolsInOrder(calls, parse, execute, invocationsBefore);
    var trace := RunTools(calls, parse, execute, invocationsBefore);
    assert trace.error.None?;
    var announce := Announcement(OrEmpty(reply.content), Descriptors(calls));
    var second := Request(Initial(systemPrompt, userMessage) + [announce] + trace.results, tools);
    assert ChatTurn(systemPrompt, userMessage, tools, respond, requestsBefore, parse, execute, invocationsBefore).requests
           == [Request(Initial(systemPrompt, userMessage), tools), second];
    assert second.messages[..3] == Initial(systemPrompt, userMessage) + [announce];
    forall i | 0 <= i < |calls|
      ensures second.messages[3 + i] ==
                ToolResult(calls[i].id, execute(invocationsBefore + i, Invocation(calls[i].name, ArgumentsOf(parse, calls[i]).value)))
    {
      assert second.messages[3 + i] == trace.results[i];
    }
  }

  /** With tool calls whose arguments are all usable, each tool is invoked once, in order, with the decoded arguments. */
  lemma ToolRoundInvocations(systemPrompt: string, userMessage: string, tools: seq<ToolSchema>, respond: Responder, requestsBefore: nat,
      parse: JsonParser, execute: Executor, invocationsBefore: nat, reply: Completion)
    requires respond(requestsBefore, Request(Initial(systemPrompt, userMessage), tools)) == Success(reply)
    requires reply.toolCalls != []
    requires forall i :: 0 <= i < |reply.toolCalls| ==> ArgumentsOf(parse, reply.toolCalls[i]).Success?
    ensures var o := ChatTurn(systemPrompt, userMessage, tools, respond, requestsBefore, parse, execute, invocationsBefore);
            var calls := reply.toolCalls;
            && |o.invocations| == |calls|
            && forall i :: 0 <= i < |calls| ==>
                 o.invocations[i] == Invocation(calls[i].name, ArgumentsOf(parse, calls[i]).value)
  {
    RunToolsInOrder(reply.toolCalls, parse, execute, invocationsBefore);
  }

  /** When the first model call raises, the turn raises that error: one request, and no tool is invoked. */
  lemma ModelFailureIsFatal(systemPrompt: string, userMessage: string, tools: seq<ToolSchema>, respond: Responder, requestsBefore: nat,
                            parse: JsonParser, execute: Executor, invocationsBefore: nat, e: string)
    requires respond(requestsBefore, Request(Initial(systemPrompt, userMessage), tools)) == Failure(e)
    ensures var o := ChatTurn(systemPrompt, userMessage, tools, respond, requestsBefore, parse, execute, invocationsBefore);
            && o.result == Failure(ModelError(e))
            && o.requests == [Request(Initial(systemPrompt, userMessage), tools)]
            && o.invocations == []
  {
  }

  /**
    With tool calls whose arguments are all usable, the turn returns exactly when the
    second model call does; the response is the second reply's text or the fallback,
    and one `ToolCall` is reported per requested call, in order.
  */
  lemma ToolRoundResult(systemPrompt: string, userMessage: string, tools: seq<ToolSchema>, respond: Responder, requestsBefore: nat,
      parse: JsonParser, execute: Executor, invocationsBefore: nat, reply: Completion)
    requires respond(requestsBefore, Request(Initial(systemPrompt, userMessage), tools)) == Success(reply)
    requires reply.toolCalls != []
    requires forall i :: 0 <= i < |reply.toolCalls| ==> ArgumentsOf(parse, reply.toolCalls[i]).Success?
    ensures var o := ChatTurn(systemPrompt, userMessage, tools, respond, requestsBefore, parse, execute, invocationsBefore);
            var calls := reply.toolCalls;
            && |o.requests| == 2
            && (o.result.Success? <==> respond(requestsBefore + 1, o.requests[1]).Success?)
            && (respond(requestsBefore + 1, o.requests[1]).Failure? ==>
                  o.result == Failure(ModelError(respond(requestsBefore + 1, o.requests[1]).error)))
            && (o.result.Success? ==>
                  && o.result.value.response == OrFallback(respond(requestsBefore + 1, o.requests[1]).value.content)
                  && o.result.value.toolCalls.Some?
                  && |o.result.value.toolCalls.value| == |calls|
                  && forall i :: 0 <= i < |calls| ==>
                       o.result.value.toolCalls.value[i] == ToolCall(calls[i].name, ArgumentsOf(parse, calls[i]).value))
  {
    RunToolsInOrder(reply.toolCalls, parse, execute, invocationsBefore);
  }

  /**
    A call at position `k` whose arguments decode to a non-object, after `k` usable ones:
    the turn raises for that tool after invoking exactly the first `k` tools, and the model
    is not asked again.
  */
  lemma RejectedArguments(systemPrompt: string, userMessage: string, tools: seq<ToolSchema>, respond: Responder, requestsBefore: nat,
                          parse: JsonParser, execute: Executor, invocationsBefore: nat, reply: Completion, k: nat)
    requires respond(requestsBefore, Request(Initial(systemPrompt, userMessage), tools)) == Success(reply)
    requires k < |reply.toolCalls| && ArgumentsOf(parse, reply.toolCalls[k]).Failure?
    requires forall i :: 0 <= i < k ==> ArgumentsOf(parse, reply.toolCalls[i]).Success?
    ensures var o := ChatTurn(systemPrompt, userMessage, tools, respond, requestsBefore, parse, execute, invocationsBefore);
            var calls := reply.toolCalls;
            && o.result == Failure(InvalidArguments(calls[k].name))
            && o.requests == [Request(Initial(systemPrompt, userMessage), tools)]
            && |o.invocations| == k
            && forall i :: 0 <= i < k ==> o.invocations[i] == Invocation(calls[i].name, ArgumentsOf(parse, calls[i]).value)
  {
    var calls := reply.toolCalls;
    RunToolsInOrder(calls, parse, execute, invocationsBefore);
    var trace := RunTools(calls, parse, execute, invocationsBefore);
    assert |trace.records| == k;
  }

  /** A turn that returns always returns non-empty text. */
  lemma ResponseIsNeverEmpty(systemPrompt: string, userMessage: string, tools: seq<ToolSchema>, respond: Responder, requestsBefore: nat,
                             parse: JsonParser, execute: Executor, invocationsBefore: nat)
    ensures var o := ChatTurn(systemPrompt, userMessage, tools, respond, requestsBefore, parse, execute, invocationsBefore);
            o.result.Success? ==> o.result.value.response != ""
  {
  }

  /** The language-model service: answers each request from its oracle and logs it. */
  class LlmService {
    const respond: Responder
    var requests: seq<Request>

    constructor(respond: Responder)
      ensures this.respond == respond && requests == []
    {
      this.respond := respond;
      requests := [];
    }

    /** One chat-completion request; a failure stands for the exception the client raises. */
    method Chat(messages: seq<ChatMessage>, tools: seq<ToolSchema>) returns (reply: Result<Completion, string>)
      modifies this
      ensures requests == old(requests) + [Request(messages, tools)]
      ensures reply == respond(|old(requests)|, Request(messages, tools))
    {
      reply := respond(|requests|, Request(messages, tools));
      requests := requests + [Request(messages, tools)];
    }
  }

  /** The tool server client: tool listing and tool invocation, answered by oracles and counted. */
  class McpClient {
    const catalog: nat -> seq<ToolSchema>
    const execute: Executor
    var listings: nat
    var invocations: seq<Invocation>

    constructor(catalog: nat -> seq<ToolSchema>, execute: Executor)
      ensures this.catalog == catalog && this.execute == execute
      ensures listings == 0 && invocations == []
    {
      this.catalog := catalog;
      this.execute := execute;
      listings := 0;
      invocations := [];
    }

    /** Lists the tools; a failed listing is the empty list, one of the oracle's answers. */
    method ListTools() returns (tools: seq<ToolSchema>)
      modifies this
      ensures listings == old(listings) + 1 && invocations == old(invocations)
      ensures tools == catalog(old(listings))
    {
      tools := catalog(listings);
      listings := listings + 1;
    }

    /** Invokes one tool; failures come back as text, never as an exception. */
    method CallTool(name: string, arguments: Arguments) returns (result: string)
      modifies this
      ensures invocations == old(invocations) + [Invocation(name, arguments)] && listings == old(listings)
      ensures result == execute(|old(invocations)|, Invocation(name, arguments))
    {
      result := execute(|invocations|, Invocation(name, arguments));
      invocations := invocations + [Invocation(name, arguments)];
    }
  }

  /** The customer-support agent. */
  class SupportAgent {
    const llm: LlmService
    const mcp: McpClient
    const parseJson: JsonParser
    const systemPrompt: string
    var availableTools: Option<seq<ToolSchema>>
    ghost const listingsBefore: nat

    /** The tool list is fetched at most once: one listing since construction exactly when it is cached. */
    ghost predicate Valid()
      reads this, mcp
    {
      mcp.listings == listingsBefore + (if availableTools.Some? then 1 else 0)
    }

    constructor(llm: LlmService, mcp: McpClient, parseJson: JsonParser)
      ensures Valid() && availableTools == None
      ensures this.llm == llm && this.mcp == mcp && this.parseJson == parseJson
      ensures systemPrompt == SystemPrompt
    {
      this.llm := llm;
      this.mcp := mcp;
      this.parseJson := parseJson;
      systemPrompt := SystemPrompt;
      availableTools := None;
      listingsBefore := mcp.listings;
    }

    /**
      Returns the cached tool list, listing the tools on the first call only. An empty
      list is cached like any other and never fetched again.
    */
    method GetAvailableTools() returns (tools: seq<ToolSchema>)
      requires Valid()
      modifies this, mcp
      ensures Valid() && availableTools == Some(tools)
      ensures old(availableTools).Some? ==> tools == old(availableTools).value && mcp.listings == old(mcp.listings)
      ensures old(availableTools).None? ==> tools == mcp.catalog(old(mcp.listings)) && mcp.listings == old(mcp.listings) + 1
      ensures mcp.invocations == old(mcp.invocations)
    {
      if availableTools.None? {
        var listed := mcp.ListTools();
        availableTools := Some(listed);
      }
      tools := availableTools.value;
    }

    /**
      The tool loop: for each requested call in order, decode its arguments, record it,
      invoke the tool once with that name and those arguments, and keep the tool message.
      It stops, raising, at the first call whose arguments decode to a non-object.
    */
    method ExecuteToolCalls(calls: seq<ToolCallRequest>) returns (trace: ToolTrace)
      modifies mcp
      ensures trace == RunTools(calls, parseJson, mcp.execute, |old(mcp.invocations)|)
      ensures mcp.invocations == old(mcp.invocations) + InvocationsOf(trace.records)
      ensures mcp.listings == old(mcp.listings)
    {
      ghost var base := |mcp.invocations|;
      var records: seq<ToolCall> := [];
      var results: seq<ChatMessage> := [];
      var i := 0;
      assert calls[..0] == [];
      while i < |calls|
        invariant 0 <= i <= |calls|
        invariant RunTools(calls[..i], parseJson, mcp.execute, base) == ToolTrace(records, results, None)
        invariant mcp.invocations == old(mcp.invocations) + InvocationsOf(records)
        invariant mcp.listings == old(mcp.listings)
      {
        var call := calls[i];
        var parsed := ParseArguments(parseJson, call.arguments);
        var arguments := ValidateArguments(call.name, parsed);
        if arguments.Failure? {
          RunToolsHalt(calls, i, parseJson, mcp.execute, base, records, results, arguments.error);
          HaltedRunIsFinal(calls, i + 1, parseJson, mcp.execute, base);
          trace := ToolTrace(records, results, Some(arguments.error));
          return;
        }
        RunToolsAppend(calls, i, parseJson, mcp.execute, base, records, results, arguments.value);
        ghost var invoked := InvocationsOf(records);
        assert |mcp.invocations| == base + |records|;
        records := records + [ToolCall(call.name, arguments.value)];
        assert InvocationsOf(records) == invoked + [Invocation(call.name, arguments.value)];
        var result := mcp.CallTool(call.name, arguments.value);
        results := results + [ToolResult(call.id, result)];
        i := i + 1;
      }
      assert calls[..i] == calls;
      trace := ToolTrace(records, results, None);
    }

    /** One chat turn: its result and the requests and invocations it makes are those of `ChatTurn`. */
    method Chat(userMessage: string) returns (r: Result<ChatResponse, ChatError>)
      requires Valid()
      modifies this, llm, mcp
      ensures Valid() && availableTools.Some?
      ensures old(availableTools).Some? ==> availableTools == old(availableTools)
      ensures old(availableTools).None? ==> availableTools == Some(mcp.catalog(old(mcp.listings)))
      ensures var o := ChatTurn(systemPrompt, userMessage, availableTools.value, llm.respond, |old(llm.requests)|,
                                parseJson, mcp.execute, |old(mcp.invocations)|);
              && r == o.result
              && llm.requests == old(llm.requests) + o.requests
              && mcp.invocations == old(mcp.invocations) + o.invocations
    {
      var messages := Initial(systemPrompt, userMessage);
      var tools := GetAvailableTools();
      var first := llm.Chat(messages, tools);
      if first.Failure? {
        r := Failure(ModelError(first.error));
        return;
      }
      var reply := first.value;
      if reply.toolCalls == [] {
        r := Success(ChatResponse(OrFallback(reply.content), None));
        return;
      }
      var calls := reply.toolCalls;
      var descriptors: seq<ToolCallDescriptor> := [];
      for i := 0 to |calls|
        invariant |descriptors| == i
        invariant forall j :: 0 <= j < i ==> descriptors[j] == Describe(calls[j])
      {
        descriptors := descriptors + [Describe(calls[i])];
      }
      assert descriptors == Descriptors(calls);
      messages := messages + [Announcement(OrEmpty(reply.content), descriptors)];

      var trace := ExecuteToolCalls(calls);
      if trace.error.Some? {
        r := Failure(trace.error.value);
        return;
      }
      messages := messages + trace.results;
      var records := trace.records;

      var second := llm.Chat(messages, tools);
      if second.Failure? {
        r := Failure(ModelError(second.error));
        return;
      }
      r := Success(ChatResponse(OrFallback(second.value.content), if records != [] then Some(records) else None));
    }
  }
}
