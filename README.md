# Airline customer-service orchestrator: a Dafny model

This project models the core of a multi-agent airline customer-service
backend. The backend is built on a LangGraph state graph and exposes one
HTTP chat endpoint. A triage agent reads the customer's message and routes
it, by routing codes in its reply, to one of four specialists: seat booking,
flight status, cancellation and FAQ. Each specialist may call its tools, and
it either stays active for the next turn or hands the conversation back to
triage. The model covers:

- the shared conversation context (`Context`). This is five optional
  customer facts held in one mutable object. The seat-booking and
  cancellation agents fill in a confirmation number and a flight number
  there (the "handoff hook") before they answer.
- the six tools and how a specialist dispatches tool calls (`Tools`,
  `Agents`). This includes the argument-validation error path and the
  "Unknown tool" answer.
- the triage node and the four specialist nodes (`Agents`). Each works on
  the graph state. The language-model reply is an input.
- the graph's conditional edge tables, `determine_entry_point`, and the
  state `process_message_sdk_style` builds for a turn (`Workflow`).
- the HTTP layer's conversions (`ApiConvert`): context to and from its
  stored dictionary, messages to and from their stored form, and the run's
  messages and events to chat replies and timeline events.
- the in-memory conversation store, the agent directory, and both halves
  of a chat turn around the workflow run (`ApiStore`).

Language-model calls are parameters: the `LlmResponse` a node receives. So
is everything the source draws at random: the six-character confirmation
code, the three flight digits, the eight account digits and the
conversation id. Each random parameter is constrained to the range the
source draws from (`IsConfirmationCode`, `IsFlightDigits`,
`IsAccountDigits`, and `IsConversationId` for the 32 lower-case
hexadecimal digits of `uuid4().hex`).

Python semantics are written out explicitly:

- a context field is "set" only when it is neither `None` nor `""` (Python
  truthiness);
- `str.lower()` and `str.strip()` are modelled on ASCII;
- `sub in s` is a substring search;
- `str(n)` is a decimal rendering that is proved to read back as `n`.

## Model

| member | source | states |
|---|---|---|
| Text.DecimalRoundTrip | python-backend/langgraph_pure.py:35 | the decimal text `str(n)` produces reads back as exactly `n` |
| Text.LowerIdempotent | python-backend/langgraph_pure.py:63 | lower-casing an already lower-cased string changes nothing |
| Context.AgentContext.constructor | python-backend/langgraph_pure.py:24-30 | a new context has all five fields `None` |
| Context.CreateInitialContext | python-backend/langgraph_pure.py:32-36 | a fresh context whose only set field is the account number, the decimal text of the drawn number |
| Context.InitialFields | python-backend/langgraph_pure.py:32-36 | the initial fields have the account number set and the other four `None` |
| Context.AccountNumberShape | python-backend/langgraph_pure.py:35 | the account number is eight digits that read back as the drawn number |
| Context.HookFields | python-backend/langgraph_pure.py:190-194 | after the hook, the confirmation and flight numbers are both set. Each keeps its old value when it was set and gets the generated value otherwise. Passenger, seat and account are unchanged |
| Context.HookIdempotent | python-backend/langgraph_pure.py:190-194 | running the hook again with any other random values changes nothing |
| Context.FlightNumberShape | python-backend/langgraph_pure.py:194 | a generated flight number is `FLT-` followed by three digits that read back as the drawn number |
| Context.AgentContext.ApplyHandoffHook | python-backend/langgraph_pure.py:190-194 | the hook, applied in place: the new fields are `HookFields` of the old ones |
| Tools.FaqLookup | python-backend/langgraph_pure.py:61-78 | the FAQ answer for a question: the bag answer when the lower-cased question contains "bag" or "baggage", else the 120-seat answer for "seats" or "plane", else the wifi answer, else the apology |
| Tools.FaqLookupPriority | python-backend/langgraph_pure.py:61-78 | each of the four FAQ answers is returned exactly when its keyword is in the lower-cased question and no earlier keyword is. The priority is bag, then seats/plane, then wifi, then the apology |
| Tools.FaqSeatsAnswerMentionsCapacity | python-backend/langgraph_pure.py:68-74 | a question about seats or the plane, and not about bags, is answered with the 120-seat count |
| Tools.FaqLookupCaseInsensitive | python-backend/langgraph_pure.py:63 | the FAQ answer does not depend on letter case |
| Tools.BaggageLookup | python-backend/langgraph_pure.py:101-108 | the baggage answer for a query: the fee answer when the lower-cased query contains "fee", else the allowance answer for "allowance", else the prompt for details |
| Tools.BaggageLookupPriority | python-backend/langgraph_pure.py:101-108 | "fee" yields the fee answer, else "allowance" yields the allowance answer, else the prompt for details (each direction proved) |
| Tools.BaggageLookupCaseInsensitive | python-backend/langgraph_pure.py:103 | the baggage answer does not depend on letter case |
| Tools.UpdateSeat | python-backend/langgraph_pure.py:80-83 | the seat-update reply, built from the new seat and the confirmation number |
| Tools.FlightStatus | python-backend/langgraph_pure.py:85-88 | the flight-status reply for a flight number: on time, gate A10 |
| Tools.CancelFlight | python-backend/langgraph_pure.py:95-98 | the cancellation reply for a confirmation number |
| Tools.TemplatedAnswersEchoArguments | python-backend/langgraph_pure.py:80-98 | the seat-update, flight-status and cancellation replies contain the seat, flight number and confirmation number they were given |
| Tools.FirstMissing | python-backend/langgraph_pure.py:80-108 | returns none exactly when every required argument of the tool's signature is present; otherwise it returns a required argument that is absent |
| Tools.Invoke | python-backend/langgraph_pure.py:60-108 | invoking a tool fails exactly when a required argument is missing. The seat-map tool always returns the `DISPLAY_SEAT_MAP` sentinel |
| Agents.Dispatch | python-backend/langgraph_pure.py:273-279 | a specialist's dispatch by tool name: seat booking knows the seat-update and seat-map tools, flight status its status tool, cancellation its cancel tool, FAQ the FAQ and baggage tools. Any other name gets the `Unknown tool` text. Each node repeats this loop (python-backend/langgraph_pure.py:393-397, 518-522, 631-637) |
| Agents.DispatchBoundTools | python-backend/langgraph_pure.py:273-279 | a tool bound to the agent is invoked. Any other name is answered with the text `Unknown tool: <name>`, never an error |
| Agents.ToolMessageFor | python-backend/langgraph_pure.py:282-300 | every call gets a tool message carrying its call id: the result, or `Tool error: …` |
| Agents.ToolEventFor | python-backend/langgraph_pure.py:288-309 | every call gets an event naming the agent and the tool. It is `tool_call` exactly when the tool ran, otherwise `tool_error` |
| Agents.UnknownToolIsAnswered | python-backend/langgraph_pure.py:278-279 | an unknown tool name yields an `Unknown tool` tool message and a successful `tool_call` event |
| Agents.SeatMapCallYieldsSentinel | python-backend/langgraph_pure.py:274-277 | a seat-map call's tool message is the sentinel |
| Agents.RunToolCall | python-backend/langgraph_pure.py:269-309 | the body of the tool loop for one call, specified by `ToolMessageFor` and `ToolEventFor`: it records exactly the tool message and the event that the call's dispatch outcome determines |
| Agents.RunToolCalls | python-backend/langgraph_pure.py:265-309 | the tool loop yields the requested calls mapped, in order, to their tool messages and to their events |
| Agents.TriageNextAgent | python-backend/langgraph_pure.py:153-163 | the next agent is the first routing code present in the reply, in fixed priority (each case an if-and-only-if), or "end" when none is present |
| Agents.SelfAssessment | python-backend/langgraph_pure.py:252-260 | a specialist hands back to triage, with reason `cannot_handle_request`, exactly when its reply contains `HANDOFF_TO_TRIAGE`. Otherwise it ends the run with an empty reason |
| Agents.FindLatestHuman | python-backend/langgraph_pure.py:167-171 | finds the most recent user message, or none exactly when there is no user message |
| Agents.TriageNode | python-backend/langgraph_pure.py:122-184 | its outcome (`TriageOutcome`) appends the reply and then repeats the latest user message (only when one exists). It sets current agent triage and the routed next agent, and appends one `agent_response` event and one routing-history entry. Nothing else changes |
| Agents.SpecialistStep | python-backend/langgraph_pure.py:252-320 | appends the reply, then one tool message per call. Events are one `agent_response` then one per call. The agent is recorded as current and last active, next agent and reason come from the self-assessment, and the history entry is appended. Nothing else changes |
| Agents.SeatBookingNode | python-backend/langgraph_pure.py:186-320 | the handoff hook on the shared context, then the specialist step with the seat tools |
| Agents.FlightStatusNode | python-backend/langgraph_pure.py:322-438 | the specialist step with the flight-status tool; the context is untouched |
| Agents.CancellationNode | python-backend/langgraph_pure.py:440-563 | the handoff hook, then the specialist step with the cancellation tool |
| Agents.FaqNode | python-backend/langgraph_pure.py:565-678 | the specialist step with the FAQ and baggage tools; the context is untouched |
| Agents.SpecialistOutcomeShape | python-backend/langgraph_pure.py:252-320 | after any specialist node, with or without tool calls, the history grew by the reply plus one tool message per call with the reply right after the old history, and the events grew by one `agent_response`, right after the old events, plus one per call |
| Agents.SpecialistAnswersEveryCall | python-backend/langgraph_pure.py:262-301 | after a specialist node the history grew by the reply plus one tool message per call, the reply sits right after the old history, and the i-th tool message answers the i-th call id |
| Agents.SpecialistReportsEveryCall | python-backend/langgraph_pure.py:263-309 | after a specialist node the events grew by one `agent_response` plus one per call, and the i-th call is reported by a `tool_call` or `tool_error` event naming the agent and that tool |
| Workflow.Route | python-backend/langgraph_pure.py:712-752 | an edge is taken exactly when `next_agent` is a key of the node's table, and it leads to the node registered under that name (END for "end"). No edge leads back to the smart entry |
| Workflow.NoTriageSelfLoop | python-backend/langgraph_pure.py:726-736 | triage has no edge to itself, and no node has an edge to the smart entry |
| Workflow.SpecialistsFullMesh | python-backend/langgraph_pure.py:712-752 | a specialist, like the smart entry, can step to every agent and to END |
| Workflow.TriageDecisionIsRoutable | python-backend/langgraph_pure.py:153-163 | every triage decision is a key of triage's table and never leads back to triage |
| Workflow.SelfAssessmentIsRoutable | python-backend/langgraph_pure.py:739-752 | every self-assessment is a key of the specialist table and leads to triage or END |
| Workflow.SpecialistStateRoutable | python-backend/langgraph_pure.py:311-319 | after any specialist node, the state routes to triage or END, and its last active agent is a node the smart entry can dispatch to |
| Workflow.DetermineEntryPoint | python-backend/langgraph_pure.py:760-781 | the entry is triage or the last active agent. It is triage for a conversation of at most one message and after a handoff. It resumes the last active agent exactly on a follow-up whose last active agent is a specialist and with no handoff |
| Workflow.FirstNode | python-backend/langgraph_pure.py:684-693 | the node a run starts at: the smart entry passes `next_agent` through its edge table, and an unknown agent has no edge |
| Workflow.NewConversationState | python-backend/langgraph_pure.py:790-806 | a new conversation's state: the message alone, the fresh context, triage as current, next and last active agent, no events or history, not a follow-up, empty reason |
| Workflow.ContinuingState | python-backend/langgraph_pure.py:807-823 | a follow-up's state: the stored messages plus the new one, the stored context, current agent, events, history, last active agent and reason, `next_agent` set to the last active agent, and the follow-up flag raised |
| Workflow.EntryOverrideAsWritten | python-backend/langgraph_pure.py:825-831 | the override as written: a non-triage entry point becomes the current and next agent; a triage entry point changes nothing |
| Workflow.NewConversationStartsAtTriage | python-backend/langgraph_pure.py:790-806 | a new conversation starts at triage, is not a follow-up, and has triage as last active agent. The run starts at the triage node under the override as written and under the corrected one |
| Workflow.AsWrittenResumesLastActive | python-backend/langgraph_pure.py:807-832 | as written, a follow-up always starts at the last active specialist |
| Workflow.EntryPointIgnoredAfterHandoff | python-backend/langgraph_pure.py:826-832 | a concrete follow-up where the entry point is triage but the run starts at FAQ |
| Workflow.EntryOverrideStartsAtEntryPoint | python-backend/langgraph_pure.py:826-832 | with the corrected override, the run starts exactly at the entry point decided |
| Workflow.ProcessMessageState | python-backend/langgraph_pure.py:786-832 | a new conversation gets a fresh initial context whose account number is the drawn one, and the new-conversation state. A follow-up gets the stored history plus the message. Both then go through the override as written, which writes the entry point in only when it is not triage |
| ApiConvert.DictOfFields | python-backend/api_pure.py:189-197 | the stored context dictionary has exactly the five field keys |
| ApiConvert.ContextToDict | python-backend/api_pure.py:189-197 | `context_to_dict` has exactly the five keys, and reading them back gives the context's fields |
| ApiConvert.DictRoundTrip | python-backend/api_pure.py:189-207 | a five-key dictionary survives a trip through the context unchanged |
| ApiConvert.DictToContext | python-backend/api_pure.py:199-207 | a fresh context whose fields are the dictionary's values, `None` for missing keys |
| ApiConvert.ContextRoundTrip | python-backend/api_pure.py:189-207 | converting a context to a dictionary and back gives the same five fields |
| ApiConvert.SerializeMessages | python-backend/api_pure.py:410-414 | one stored message per message, in order, with its text and role "user" for human messages and "assistant" for all others |
| ApiConvert.ResultToLanggraphMessages | python-backend/api_pure.py:126-134 | one message per stored entry. "user" entries come back as user messages and every other entry as a model reply, with the same text |
| ApiConvert.MessagesRoundTrip | python-backend/api_pure.py:126-134 | storing and reloading keeps count, text and which messages were the user's. Tool results come back as model replies |
| ApiConvert.HandoffEventsPairs | python-backend/api_pure.py:220-236 | a routing history of n > 1 entries yields n-1 handoff events, the i-th from entry i to entry i+1. A shorter history yields none |
| ApiConvert.MessageRepliesFromAiOnly | python-backend/api_pure.py:238-283 | chat replies come only from model messages, one each, attributed to the current agent, or to "assistant" when the current agent is unknown |
| ApiConvert.MessageEventsOnePerMessage | python-backend/api_pure.py:238-283 | each message yields exactly one timeline event, in order |
| ApiConvert.ToolApiEvents | python-backend/api_pure.py:286-321 | a `tool_call` graph event expands to a `tool_call` then a `tool_output` event. Every other graph event expands to nothing |
| ApiConvert.ToolEventsAppend | python-backend/api_pure.py:285-327 | the event expansion distributes over concatenation |
| ApiConvert.ToolEventsTwoPerCall | python-backend/api_pure.py:285-321 | exactly two timeline events per `tool_call` graph event |
| ApiConvert.ToolCallExpandsInPlace | python-backend/api_pure.py:285-321 | each graph event's expansion appears in place, in order |
| ApiConvert.SeatMapRepliesAreSentinels | python-backend/api_pure.py:323-327 | the extra chat replies are one `DISPLAY_SEAT_MAP` per seat-map call, and nothing else |
| ApiConvert.CollectHandoffs | python-backend/api_pure.py:220-236 | the handoff loop computes the handoff events of the history |
| ApiConvert.ConvertMessages | python-backend/api_pure.py:238-283 | the message loop skips the first `prev_count` messages and converts the rest |
| ApiConvert.ConvertMessage | python-backend/api_pure.py:244-283 | one unseen message: a user message gives an event only, a model message a reply and an event by the current agent (or "assistant"), a tool message a `tool_call` event |
| ApiConvert.ExpandGraphEvents | python-backend/api_pure.py:285-327 | the graph-event loop computes the tool events and the seat-map replies |
| ApiConvert.FormatReplies | python-backend/api_pure.py:209-330 | the formatter's chat replies: one per model message from index `prev_count` on, attributed to the current agent, then one `DISPLAY_SEAT_MAP` per seat-map call among the given graph events |
| ApiConvert.FormatEvents | python-backend/api_pure.py:209-330 | the formatter's timeline events: the handoffs of the routing history, then one event per message from index `prev_count` on, then the expanded tool events of the given graph events |
| ApiConvert.ApiFormat | python-backend/api_pure.py:209-330 | the replies are the unseen model messages then the seat-map sentinels. The events are the handoffs, then the unseen messages' events, then the tool events |
| ApiStore.InMemoryConversationStore.constructor | python-backend/api_pure.py:88-89 | an empty store |
| ApiStore.InMemoryConversationStore.Save | python-backend/api_pure.py:94-95 | after a save the id maps to the state and every other id is unchanged. The id list grows by the id only when it is new |
| ApiStore.InMemoryConversationStore.Get | python-backend/api_pure.py:91-92 | the state saved under an id, or none for an id never saved |
| ApiStore.InMemoryConversationStore.List | python-backend/api_pure.py:97-98 | the saved ids, in the order they were first saved |
| ApiStore.GetFindsListed | python-backend/api_pure.py:91-98 | `get` finds a state exactly for the listed ids |
| ApiStore.GetAgentsInfo | python-backend/api_pure.py:140-183 | the agent directory: triage, then the four specialists, each with its description, tools, handoffs and no guardrails |
| ApiStore.AgentsInfoMatchesWorkflow | python-backend/api_pure.py:140-183 | the directory lists triage first, with no tools and a route to every specialist. Each specialist's tools are exactly the tools its node binds, and its only route is triage (where its self-assessment leads). No agent has a guardrail |
| ApiStore.BeginTurn | python-backend/api_pure.py:337-396 | opens and saves a new conversation under the drawn 32-digit hexadecimal id (and answers at once) exactly when the request is new and the message is blank; the id list then gains the id at its end unless it was already listed. Otherwise the store is unchanged and the turn proceeds: with no state and no previous messages when new, else with the stored state rebuilt using the endpoint's defaults and the stored message count |
| ApiStore.SeatMapTriageRoutes | python-backend/langgraph_pure.py:153-163 | in the seat-map conversation, triage's reply routes to seat booking and the graph has that edge |
| ApiStore.SeatMapCallAnswered | python-backend/langgraph_pure.py:265-309 | seat booking answers the conversation's seat-map call with the sentinel and a `tool_call` event |
| ApiStore.SeatMapTriagedFromTriage | python-backend/langgraph_pure.py:122-184 | the example's triaged state is the triage node's outcome for the opening question and a reply carrying the seat-booking code |
| ApiStore.SeatMapFirstTurnReachable | python-backend/langgraph_pure.py:252-320 | turn 1 of the seat-map conversation is the seat-booking node's outcome after triage |
| ApiStore.SeatMapSecondTurnReachable | python-backend/langgraph_pure.py:760-832 | turn 2 of the seat-map conversation enters at seat booking and is that node's outcome |
| ApiStore.SeatMapRepeatedAsWritten | python-backend/api_pure.py:401-407 | a concrete second turn with no seat-map call whose replies, as written, still end with `DISPLAY_SEAT_MAP` |
| ApiStore.TurnRepliesOnlyThisTurn | python-backend/api_pure.py:238-240 | with per-turn events, a turn without a seat-map call replies with its new model messages only |
| ApiStore.SaveTurn | python-backend/api_pure.py:409-427 | saves the run's result under the id: its messages serialised, every other field as the run left it. Other conversations are unchanged; an id already listed keeps its place and a new id is appended to the list |
| ApiStore.FinishTurn | python-backend/api_pure.py:401-440 | as written: formats the messages from `prev_count` on together with the whole event log and the whole routing history, and saves the result under the id, appending the id to the list only when it is new. It answers with the current agent, the context dictionary, the agent directory, no guardrails and the full routing history |
| ApiStore.FinishTurnThisTurn | python-backend/api_pure.py:401-407 | as intended: formats only the events and routing-history entries this turn added; saving, the id list and the answer are as in `FinishTurn` |

## Left out

- The LangGraph runtime (`StateGraph.compile`, `ainvoke`, the step loop and its recursion limit) is not modelled. The model states one node step at a time and the edge table that chains them; the graph library fails the run on a missing edge, and `Route` returns none there.
- The `add_messages` reducer is not modelled. A node's returned message list is taken as written. The library merges messages by id, so the human message triage repeats would collapse into the existing one.
- The language-model calls (`get_llm`, `bind_tools`, `ainvoke`) and the prompts are left out. Each node receives the model's reply as a parameter.
- Random values (the confirmation code, the flight and account digits, the conversation id) are parameters constrained to the values the source can draw. Event ids and timestamps from `uuid4` and `time.time` are dropped from `AgentEvent`.
- Tools.Invoke: the text of the validation error the tool framework raises is replaced by `missing required argument: <name>` for the first missing argument. Only whether an error occurs is faithful. Argument values are modelled as strings.
- Text.Lower and Text.IsBlank cover ASCII only, not Unicode case mapping or Unicode whitespace.
- The `"baggage"` test in `faq_lookup_pure` is redundant: any string containing it contains `"bag"`. The model keeps it, and `Tools.FaqLookupPriority` shows it never matters.
- `process_message_sdk_style` falls back to `.get` defaults when the conversation state lacks a key. These defaults are not modelled, because the chat endpoint always supplies every key; the endpoint's own defaults are modelled in `ApiStore.BeginTurn`.
- `process_message_pure`, `test_pure_implementation`, the `/test`, `/health`, `/conversations` and `/agents` routes, FastAPI, CORS, logging and `load_dotenv` are not part of this model. They are wrappers or development helpers; the `/agents` and `/conversations` data come from `GetAgentsInfo` and `List`.
- The `ConversationStore` base class has only `pass` bodies and is not modelled. `_conversations` is a class attribute, so it is shared by every store instance; the module creates only one instance, which the class models.
- The guardrails are not modelled: the source always returns an empty list (a to-do in the endpoint).
- An unknown tool name is not an error: the node answers `Unknown tool: <name>` and records a `tool_call` event (python-backend/langgraph_pure.py:278-294); `Agents.UnknownToolIsAnswered` states it.
- The first, duplicate definitions of `context_to_dict` and `dict_to_context` (python-backend/api_pure.py:106-124) are replaced at import by the later ones, so only the later ones are modelled. The two are identical.
- An exception from the workflow run propagates out of the endpoint unchanged. The model has no failing run, so that path is not represented.

## Findings

| source | as written | input that shows it | evidently intended | confidence | as-written member | corrected member |
|---|---|---|---|---|---|---|
| python-backend/langgraph_pure.py:815-832 | a follow-up turn sets `next_agent` to the last active agent, and the entry-point override is written only when the entry point is not triage. When `determine_entry_point` answers triage, the smart entry still dispatches to the last active specialist | the FAQ agent handed back to triage and triage ended the run (`handoff_reason` = `cannot_handle_request`, last active `faq`). The next message "Cancel my flight" gets entry point triage, yet the run starts at FAQ | the run starts at the entry point decided, triage included | medium, not executed | Workflow.EntryPointIgnoredAfterHandoff | Workflow.EntryOverrideStartsAtEntryPoint |
| python-backend/api_pure.py:401-407 | the endpoint formats the conversation's cumulative events and routing history with only the messages sliced by `prev_count`. So the seat-map sentinel, the tool events and the handoff events of earlier turns are sent again every turn | turn 1 shows the seat map; turn 2 says "Thanks" and gets a plain reply with no tool call. Turn 2's replies are "You're welcome." followed by `DISPLAY_SEAT_MAP` | only what the current turn produced is returned, as the comment at python-backend/api_pure.py:239 states for messages. `ApiStore.FinishTurnThisTurn` formats that way | medium, not executed | ApiStore.SeatMapRepeatedAsWritten | ApiStore.TurnRepliesOnlyThisTurn |
