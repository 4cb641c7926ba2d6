# Support chatbot core: conversation store and support agent

This project models the two parts of the customer-support chatbot that hold its
deterministic logic, and proves properties about them.

- **Conversation store** (`Store` module, `conversation_store.dfy`).
  - A `Conversation` is a bounded FIFO buffer of at most 50 messages. It also keeps a
    last-activity clock reading and a creation clock reading.
  - A `ConversationStore` maps a caller identity to its conversation. It supports
    get-or-create, lookup, delete (reporting whether the entry existed) and statistics.
  - Stale entries are purged only when the table holds more than 80% of its bound.
    The model states this test in integers as `5 * len > 4 * max`.
  - The current time is an integer clock in microseconds. Callers pass it in.
- **Support agent** (`Agent` module, `agent.dfy`). A single chat turn works as follows:
  1. Send the system prompt and the user message to the language model, with the
     tool list. The tool list is fetched once and cached.
  2. If the reply asks for tools, append an assistant announcement of every call.
  3. Run the calls strictly in order. For each call, decode its arguments, record a
     `ToolCall`, invoke the tool, and append a `tool` message carrying the call's id.
  4. Ask the model a second time.

  The reply text falls back to a fixed apology when it is empty. Three things are
  oracles, each a function fixed at construction:
  - the language model answers the n-th request;
  - the tool server answers the n-th invocation and the n-th listing;
  - JSON decoding maps text to a value.

  The services log what they were asked, so call counts and call order are part of the
  stated behaviour. The pure function `ChatTurn` gives the whole observable outcome of
  a turn: its result, the requests made to the model and the tools invoked.
  `SupportAgent.Chat` is proved to produce exactly that outcome. The lemmas about
  `ChatTurn` state what a turn does.

`wrappers.dfy` holds the `Option` and `Result` types both modules share.

The agent never reads or writes the store: each turn sends only the system prompt and
the user message (`app/agent.py:57-60`), so the two components are modelled separately.

`GetHistory` models the slice `[-limit:]` as written: limit 0 gives every message, and a
negative limit drops the first `-limit` messages.

## Model

| member | source | states |
|---|---|---|
| Store.Push | app/conversation_store.py:21-27 | Appending to the `maxlen=50` deque keeps the newest 50 of the old messages plus the new one. The new message is last, the length stays within 50, and nothing is dropped while there is room. |
| Store.PushAllKeepsNewest | app/conversation_store.py:21-27 | After any sequence of appends, the buffer is exactly the newest `min(50, n)` messages in insertion order. The oldest messages are dropped first. |
| Store.Conversation.constructor | app/conversation_store.py:19-23 | A new conversation is empty, and both clock readings are the creation time. |
| Store.Conversation.AddMessage | app/conversation_store.py:25-28 | Appends exactly one message with the given role, content and time, evicting the oldest when full. The capacity bound is kept, `last_activity` becomes the current time and `created_at` is unchanged. |
| Store.Conversation.GetHistory | app/conversation_store.py:30-48 | The result is a contiguous suffix of the buffer, in original order, as role/content pairs. It is the whole buffer with `include_all`, with no limit, or with limit 0. It is the newest `min(k, len)` messages for a positive limit `k`, and the buffer minus its first `-k` messages for a negative `k`. |
| Store.Conversation.IsStale | app/conversation_store.py:50-52 | The staleness test itself: more than `timeout` minutes, counted in microseconds of the integer clock, have passed since the last activity, compared with a strict `>`; so with a non-negative timeout a stale conversation has had no activity at or after the current time. The timeout defaults to 30 minutes. |
| Store.StalenessIsStrict | app/conversation_store.py:50-52 | Staleness is a strict comparison. Idle for exactly the timeout is not stale, one tick longer is stale, and a stale conversation stays stale as the clock advances. |
| Store.ConversationStore.constructor | app/conversation_store.py:58-61 | A new store is empty and keeps its bound and timeout, which default to 1000 conversations and 30 minutes. |
| Store.ConversationStore.GetOrCreateConversation | app/conversation_store.py:63-73 | The purge runs first exactly when more than 80% of the bound is in use, and removes exactly the stale entries. After that, an existing conversation is returned unchanged with the table untouched. Otherwise a fresh empty conversation is inserted under the identifier and returned. No other key is added. |
| Store.ConversationStore.GetConversation | app/conversation_store.py:75-77 | Finds the stored conversation exactly when the identifier is a key, and otherwise returns none. |
| Store.ConversationStore.DeleteConversation | app/conversation_store.py:79-85 | Returns true exactly when the key existed. Afterwards the key is absent and every other entry is unchanged. |
| Store.ConversationStore.CleanupStale | app/conversation_store.py:87-96 | The loop deletes exactly the entries stale at the given time and keeps every other entry as it was. |
| Store.ConversationStore.GetStats | app/conversation_store.py:98-103 | Reports the number of stored conversations and the configured bound. |
| Store.DeleteTwiceThenRecreate | app/conversation_store.py:63-85 | Two consecutive deletes of a stored conversation return true, then false. The next get-or-create returns a fresh, empty conversation stored under that identifier. |
| Agent.OrFallback | app/agent.py:123-131 | The response text is never empty. It is the model's content when that is non-empty, and the fixed apology otherwise. |
| Agent.ArgumentsOf | app/agent.py:96-107 | Argument text that does not decode becomes the empty mapping. A decoded object is passed through unchanged. A decoded non-object makes building the `ToolCall` fail for that tool. |
| Agent.RunTools | app/agent.py:94-117 | The tool loop as a recursive trace over the requested calls: the recorded calls, the tool messages and the error that stopped it. There are as many tool messages as records and no more than there are calls, and the loop stops early exactly when it has not covered every call. |
| Agent.RunToolsInOrder | app/agent.py:94-117 | The tool loop handles calls in the model's order. The i-th record is the i-th call's name and decoded arguments. The i-th tool message has the i-th call's id and the result of invoking that tool with those arguments, as the i-th invocation. The loop stops only at the first call whose arguments are not an object, and otherwise covers every call. |
| Agent.HaltedRunIsFinal | app/agent.py:94-107 | Once the loop has stopped, later calls are neither recorded nor invoked. |
| Agent.ChatTurn | app/agent.py:54-131 | The whole observable outcome of one turn: its result, the model requests and the tool invocations. There are one or two requests, the first is exactly `[system prompt, user message]` with the tool list, and a turn that returns after one request has invoked no tool. |
| Agent.RequestsOfATurn | app/agent.py:57-66 | A turn makes one or two model requests, all with the same tool list. The first is exactly `[system prompt, user message]`. There is a second request exactly when the first reply requests tools and every call's arguments are usable. |
| Agent.ModelFailureIsFatal | app/agent.py:63-67 | When the first model call raises, the turn raises that same error. Exactly one request has been made and no tool has been invoked. |
| Agent.DirectReply | app/agent.py:128-131 | With no tool calls, the turn makes exactly one model request and no invocation. It returns the reply content or the apology, with `tool_calls` absent. |
| Agent.ToolRoundRequests | app/agent.py:86-117 | The second request carries the same tools. Its messages are: the two initial messages; one assistant message with `content or ""` and every call descriptor in order; then one tool message per call, in order, with that call's id and its tool's result. |
| Agent.ToolRoundInvocations | app/agent.py:103-110 | In the tool round, the tool server is invoked once per requested call, in order, with exactly its name and decoded arguments. |
| Agent.ToolRoundResult | app/agent.py:119-126 | In the tool round, exactly two model requests are made, and the turn returns exactly when the second one does. When the second call raises, the turn raises that same error. The response is the second reply's content or the apology. The reported `tool_calls` is the non-empty list of recorded calls, one per requested call, in order. |
| Agent.RejectedArguments | app/agent.py:94-110 | A call whose arguments decode to a non-object, after k usable ones, makes the turn fail for that tool. Exactly the first k tools have been invoked, and the model is not asked again. |
| Agent.ResponseIsNeverEmpty | app/agent.py:123-131 | Every turn that returns a response returns non-empty text. |
| Agent.LlmService.constructor | app/llm_service.py:14-19 | A new service has made no requests. |
| Agent.LlmService.Chat | app/llm_service.py:21-45 | Each completion request is logged and answered by the model oracle for its position in the log. A failure stands for the exception the client raises. |
| Agent.McpClient.constructor | app/mcp_client.py:17-18 | A new client has made no listings and no invocations. |
| Agent.McpClient.ListTools | app/mcp_client.py:28-46 | Each listing is counted and answered by the catalog oracle. A failed listing is the empty list, one of the oracle's answers. |
| Agent.McpClient.CallTool | app/mcp_client.py:48-60 | Each invocation is logged and answered with text by the tool oracle. Failures come back as text, never as an exception. |
| Agent.SupportAgent.constructor | app/agent.py:42-45 | A new agent has no cached tool list and uses the fixed system prompt. |
| Agent.SupportAgent.GetAvailableTools | app/agent.py:47-52 | The first call lists the tools once and caches the result, including an empty list. Later calls return the cache without listing again. No tool is invoked. |
| Agent.SupportAgent.ExecuteToolCalls | app/agent.py:93-117 | The loop over the requested calls produces exactly the trace `RunTools` specifies. The tools invoked are exactly the recorded calls, in order, and no listing happens. |
| Agent.SupportAgent.Chat | app/agent.py:54-131 | One turn returns exactly `ChatTurn`'s result. It makes exactly `ChatTurn`'s model requests and tool invocations, in order. It lists the tools at most once over the agent's life. |

## Left out

- Asynchronous execution and concurrency: the store and the agent are modelled as sequential code. The source has no locks.
- `datetime` and time zones: the clock is an integer count of microseconds passed in by the caller.
- `Store.Conversation.AddMessage`: the message timestamp and `last_activity` use the same clock reading. The source reads the clock twice.
- `Store.ConversationStore.GetOrCreateConversation`: the 80% test is `5 * len > 4 * max` in integers. The source compares against the float `max * 0.8`, which agrees for the bounds a process can use.
- Logging calls in both files are left out: they have no effect on the state.
- The global lazily created instances (`get_conversation_store`, `get_support_agent`, `get_llm_service`, `get_mcp_client`) are left out: they only create one shared object.
- The language model is an oracle of the request and its position. The OpenAI client, its parameters, headers, temperature and token limit are not modelled. So is the detail that an empty tool list is not sent at all (`app/llm_service.py:40-42`): the model request always carries the list.
- The tool server is an oracle. MCP sessions, the streamable-HTTP transport and the tool-schema conversion (`app/mcp_client.py:21-43`) are not modelled, and neither is `health_check` in either service.
- `json.loads` is an oracle from text to an optional JSON value. JSON numbers are kept to integers, and floats are not modelled.
- Exceptions: an exception raised by the model call is a `ModelError` failure. A pydantic validation error for non-object arguments is an `InvalidArguments` failure. No other exception is modelled.
- `app/prompt_loader.py`, `app/config.py`, `api/routes.py` and `main.py` are not part of this model. They handle file I/O, environment settings and HTTP routing.
