/**
 * The agent nodes of the orchestration graph. Each node takes the graph
 * state and the language model's response (an input here: its text and
 * the tool calls it requests) and yields the next state. The triage node
 * only picks a specialist; a specialist runs the tool calls it was asked
 * for and decides, from its own reply, whether to hand back to triage.
 */
module Agents {
  import opened Wrappers
  import opened Text
  import opened Context
  import opened Tools

  const TriageId: string := "triage"
  const SeatBookingId: string := "seat_booking"
  const FlightStatusId: string := "flight_status"
  const CancellationId: string := "cancellation"
  const FaqId: string := "faq"
  /** The routing value that ends a workflow run. */
  const EndId: string := "end"

  /** The four specialist agents. */
  datatype Specialist = SeatBooking | FlightStatus | Cancellation | Faq
  {
    function Id(): string
    {
      match this
      case SeatBooking => SeatBookingId
      case FlightStatus => FlightStatusId
      case Cancellation => CancellationId
      case Faq => FaqId
    }

    /** The tools bound to the agent's model, in binding order. */
    function Tools(): seq<Tool>
    {
      match this
      case SeatBooking => [UpdateSeatTool, DisplaySeatMapTool]
      case FlightStatus => [FlightStatusTool]
      case Cancellation => [CancelFlightTool]
      case Faq => [FaqLookupTool, BaggageLookupTool]
    }
  }

  /** One tool call requested by the model: tool name, arguments and call id. */
  datatype ToolCall = ToolCall(name: string, args: map<string, string>, id: string)

  /** The chat history: user turns, model replies, and one tool result per executed call. */
  datatype Message =
    | Human(content: string)
    | Ai(content: string, toolCalls: seq<ToolCall>)
    | ToolResult(content: string, toolCallId: string)

  /** What the language model returns for one node invocation. */
  datatype LlmResponse = LlmResponse(content: string, toolCalls: seq<ToolCall>)

  /** The graph's own event log entries. */
  datatype NodeEvent =
    | AgentResponse(agent: string)
    | ToolCallEvent(agent: string, tool: string, args: map<string, string>, result: string)
    | ToolErrorEvent(agent: string, tool: string, error: string)

  /**
   * `AirlineState`. The context is a reference: every state of one run
   * shares the same context object, which the handoff hooks update in place.
   */
  datatype AirlineState = AirlineState(
    messages: seq<Message>,
    context: AgentContext,
    currentAgent: string,
    nextAgent: string,
    events: seq<NodeEvent>,
    routingHistory: seq<string>,
    lastActiveAgent: string,
    isFollowupMessage: bool,
    handoffReason: string)

  function UnknownTool(name: string): string
  {
    "Unknown tool: " + name
  }

  /**
   * A specialist's tool dispatch: the named tool if the agent has it,
   * otherwise the "Unknown tool" text (never an error).
   */
  function Dispatch(agent: Specialist, name: string, args: map<string, string>): ToolOutcome
  {
    match agent
    case SeatBooking =>
      if name == UpdateSeatTool.Name() then Invoke(UpdateSeatTool, args)
      else if name == DisplaySeatMapTool.Name() then Invoke(DisplaySeatMapTool, args)
      else Output(UnknownTool(name))
    case FlightStatus =>
      if name == FlightStatusTool.Name() then Invoke(FlightStatusTool, args)
      else Output(UnknownTool(name))
    case Cancellation =>
      if name == CancelFlightTool.Name() then Invoke(CancelFlightTool, args)
      else Output(UnknownTool(name))
    case Faq =>
      if name == FaqLookupTool.Name() then Invoke(FaqLookupTool, args)
      else if name == BaggageLookupTool.Name() then Invoke(BaggageLookupTool, args)
      else Output(UnknownTool(name))
  }

  /**
   * Dispatch by name among the agent's bound tools: a bound tool of that
   * name is invoked; a name bound to none of them is answered with text.
   */
  lemma DispatchBoundTools(agent: Specialist, name: string, args: map<string, string>)
    ensures forall t :: t in agent.Tools() && t.Name() == name ==> Dispatch(agent, name, args) == Invoke(t, args)
    ensures (forall t :: t in agent.Tools() ==> t.Name() != name) ==> Dispatch(agent, name, args) == Output(UnknownTool(name))
  {
  }

  /** The tool message recorded for one call: the result, or "Tool error: ..." when the tool raised. */
  function ToolMessageFor(agent: Specialist, call: ToolCall): (m: Message)
    ensures m.ToolResult? && m.toolCallId == call.id
  {
    match Dispatch(agent, call.name, call.args)
    case Output(result) => ToolResult(result, call.id)
    case Failure(e) => ToolResult("Tool error: " + e, call.id)
  }

  /** The event recorded for one call: `tool_call` when it ran, `tool_error` when it raised. */
  function ToolEventFor(agent: Specialist, call: ToolCall): (e: NodeEvent)
    ensures !e.AgentResponse? && e.agent == agent.Id() && e.tool == call.name
    ensures e.ToolCallEvent? <==> Dispatch(agent, call.name, call.args).Output?
  {
    match Dispatch(agent, call.name, call.args)
    case Output(result) => ToolCallEvent(agent.Id(), call.name, call.args, result)
    case Failure(e) => ToolErrorEvent(agent.Id(), call.name, e)
  }

  /** An unknown tool name is answered with text, recorded as a successful `tool_call`. */
  lemma UnknownToolIsAnswered(agent: Specialist, call: ToolCall)
    requires forall t :: t in agent.Tools() ==> t.Name() != call.name
    ensures ToolMessageFor(agent, call) == ToolResult(UnknownTool(call.name), call.id)
    ensures ToolEventFor(agent, call) == ToolCallEvent(agent.Id(), call.name, call.args, UnknownTool(call.name))
  {
  }

  /** The seat-map tool always yields exactly the UI sentinel. */
  lemma SeatMapCallYieldsSentinel(args: map<string, string>, id: string)
    ensures ToolMessageFor(SeatBooking, ToolCall(DisplaySeatMapTool.Name(), args, id))
            == ToolResult(SeatMapSentinel, id)
  {
  }

  /**
   * The body of the tool loop for one call: dispatch it and record its tool
   * message and event. `ToolMessageFor` and `ToolEventFor` are the
   * specification of this loop body.
   */
  method RunToolCall(agent: Specialist, call: ToolCall) returns (toolMessage: Message, toolEvent: NodeEvent)
    ensures toolMessage == ToolMessageFor(agent, call) && toolEvent == ToolEventFor(agent, call)
  {
    var outcome := Dispatch(agent, call.name, call.args);
    match outcome {
      case Output(result) =>
        toolMessage := ToolResult(result, call.id);
        toolEvent := ToolCallEvent(agent.Id(), call.name, call.args, result);
      case Failure(e) =>
        toolMessage := ToolResult("Tool error: " + e, call.id);
        toolEvent := ToolErrorEvent(agent.Id(), call.name, e);
    }
  }

  /** `f` applied to every call, in order. */
  function MapCalls<T>(f: ToolCall -> T, calls: seq<ToolCall>): (r: seq<T>)
    ensures |r| == |calls|
  {
    if calls == [] then []
    else MapCalls(f, calls[..|calls| - 1]) + [f(calls[|calls| - 1])]
  }

  lemma {:induction false} MapCallsAt<T>(f: ToolCall -> T, calls: seq<ToolCall>, i: nat)
    requires i < |calls|
    ensures MapCalls(f, calls)[i] == f(calls[i])
    decreases |calls|
  {
    var front := calls[..|calls| - 1];
    if i < |front| {
      MapCallsAt(f, front, i);
      assert front[i] == calls[i];
    }
  }

  function MessageFor(agent: Specialist): ToolCall -> Message
  {
    call => ToolMessageFor(agent, call)
  }

  function EventFor(agent: Specialist): ToolCall -> NodeEvent
  {
    call => ToolEventFor(agent, call)
  }

  /** The tool messages a run of calls yields, one per call, in order. */
  function CallMessages(agent: Specialist, calls: seq<ToolCall>): seq<Message>
  {
    MapCalls(MessageFor(agent), calls)
  }

  /** The events a run of calls yields, one per call, in order. */
  function CallEvents(agent: Specialist, calls: seq<ToolCall>): seq<NodeEvent>
  {
    MapCalls(EventFor(agent), calls)
  }

  /**
   * The tool loop of a specialist node: every requested call, in order,
   * yields exactly one tool message (success or error) and one event.
   */
  method RunToolCalls(agent: Specialist, calls: seq<ToolCall>)
    returns (toolMessages: seq<Message>, toolEvents: seq<NodeEvent>)
    ensures toolMessages == CallMessages(agent, calls) && toolEvents == CallEvents(agent, calls)
  {
    toolMessages, toolEvents := [], [];
    for i := 0 to |calls|
      invariant toolMessages == CallMessages(agent, calls[..i])
      invariant toolEvents == CallEvents(agent, calls[..i])
    {
      var toolMessage, toolEvent := RunToolCall(agent, calls[i]);
      assert calls[..i + 1][..i] == calls[..i] && calls[..i + 1][i] == calls[i];
      toolMessages := toolMessages + [toolMessage];
      toolEvents := toolEvents + [toolEvent];
    }
    assert calls[..|calls|] == calls;
  }

  const SeatBookingCode: string := "ROUTE_TO_SEAT_BOOKING"
  const FlightStatusCode: string := "ROUTE_TO_FLIGHT_STATUS"
  const CancellationCode: string := "ROUTE_TO_CANCELLATION"
  const FaqCode: string := "ROUTE_TO_FAQ"

  /** The triage decision: the first routing code found, by fixed priority, or "end". */
  function TriageNextAgent(content: string): (r: string)
    ensures r in [SeatBookingId, FlightStatusId, CancellationId, FaqId, EndId]
    ensures r == SeatBookingId <==> Contains(content, SeatBookingCode)
    ensures r == FlightStatusId <==> !Contains(content, SeatBookingCode) && Contains(content, FlightStatusCode)
    ensures r == CancellationId <==>
              !Contains(content, SeatBookingCode) && !Contains(content, FlightStatusCode)
              && Contains(content, CancellationCode)
    ensures r == EndId <==>
              !Contains(content, SeatBookingCode) && !Contains(content, FlightStatusCode)
              && !Contains(content, CancellationCode) && !Contains(content, FaqCode)
  {
    if Contains(content, SeatBookingCode) then SeatBookingId
    else if Contains(content, FlightStatusCode) then FlightStatusId
    else if Contains(content, CancellationCode) then CancellationId
    else if Contains(content, FaqCode) then FaqId
    else EndId
  }

  const HandoffToTriage: string := "HANDOFF_TO_TRIAGE"
  const CannotHandleRequest: string := "cannot_handle_request"

  /**
   * A specialist's self-assessment: hand back to triage, with a reason,
   * exactly when its reply says HANDOFF_TO_TRIAGE; otherwise end the run
   * with no reason.
   */
  function SelfAssessment(content: string): (r: (string, string))
    ensures r.0 == TriageId <==> Contains(content, HandoffToTriage)
    ensures r.0 == TriageId || r.0 == EndId
    ensures r.1 != "" <==> r.0 == TriageId
    ensures r.0 == TriageId ==> r.1 == CannotHandleRequest
  {
    if Contains(content, HandoffToTriage) then (TriageId, CannotHandleRequest) else (EndId, "")
  }

  predicate IsLatestHuman(msgs: seq<Message>, k: int)
  {
    0 <= k < |msgs| && msgs[k].Human? && forall j :: k < j < |msgs| ==> !msgs[j].Human?
  }

  /** The search, from the end, for the most recent user message. */
  method FindLatestHuman(msgs: seq<Message>) returns (found: Option<Message>)
    ensures found.None? <==> forall j :: 0 <= j < |msgs| ==> !msgs[j].Human?
    ensures found.Some? ==> exists k :: IsLatestHuman(msgs, k) && found.value == msgs[k]
  {
    found := None;
    var i := |msgs|;
    while i > 0
      invariant 0 <= i <= |msgs|
      invariant forall j :: i <= j < |msgs| ==> !msgs[j].Human?
    {
      i := i - 1;
      if msgs[i].Human? {
        found := Some(msgs[i]);
        assert IsLatestHuman(msgs, i);
        return;
      }
    }
  }

  /**
   * What the triage node yields: the reply, then the latest user message
   * again when there is one; triage as current agent and the routed next
   * agent; one `agent_response` event and one history entry. Nothing else
   * changes.
   */
  ghost predicate TriageOutcome(st: AirlineState, response: LlmResponse, st': AirlineState)
  {
    && st' == st.(messages := st'.messages, currentAgent := TriageId,
                  nextAgent := TriageNextAgent(response.content),
                  events := st.events + [AgentResponse(TriageId)],
                  routingHistory := st.routingHistory + [TriageId])
    && |st'.messages| > |st.messages|
    && st'.messages[..|st.messages| + 1] == st.messages + [Ai(response.content, response.toolCalls)]
    && ((forall j :: 0 <= j < |st.messages| ==> !st.messages[j].Human?) ==>
          |st'.messages| == |st.messages| + 1)
    && ((exists j :: 0 <= j < |st.messages| && st.messages[j].Human?) ==>
          |st'.messages| == |st.messages| + 2
          && exists k :: IsLatestHuman(st.messages, k) && st'.messages[|st.messages| + 1] == st.messages[k])
  }

  /**
   * The triage node: records its reply, repeats the latest user message
   * after it (so the specialist sees it last), picks the next agent from
   * the routing codes in the reply, and leaves the rest of the state alone.
   */
  method TriageNode(st: AirlineState, response: LlmResponse) returns (st': AirlineState)
    ensures TriageOutcome(st, response, st')
  {
    var nextAgent := TriageNextAgent(response.content);
    var duplicated := FindLatestHuman(st.messages);
    var newMessages := st.messages + [Ai(response.content, response.toolCalls)];
    if duplicated.Some? {
      newMessages := newMessages + [duplicated.value];
    }
    st' := st.(messages := newMessages, currentAgent := TriageId, nextAgent := nextAgent,
               events := st.events + [AgentResponse(TriageId)],
               routingHistory := st.routingHistory + [TriageId]);
  }

  /**
   * What a specialist node yields: its reply then one tool message per
   * requested call; one `agent_response` event then one event per call;
   * its own name appended to the routing history and recorded as current
   * and last active agent; next agent and handoff reason from its
   * self-assessment; everything else, the context reference included, kept.
   */
  predicate SpecialistOutcome(agent: Specialist, st: AirlineState, response: LlmResponse, st': AirlineState)
  {
    var calls := response.toolCalls;
    st' == st.(messages := st.messages + [Ai(response.content, calls)] + CallMessages(agent, calls),
               events := st.events + [AgentResponse(agent.Id())] + CallEvents(agent, calls),
               currentAgent := agent.Id(), lastActiveAgent := agent.Id(),
               nextAgent := SelfAssessment(response.content).0,
               handoffReason := SelfAssessment(response.content).1,
               routingHistory := st.routingHistory + [agent.Id()])
  }

  /** The part every specialist node shares: self-assessment, tool loop, state update. */
  method SpecialistStep(agent: Specialist, st: AirlineState, response: LlmResponse) returns (st': AirlineState)
    ensures SpecialistOutcome(agent, st, response, st')
  {
    var (nextAgent, handoffReason) := SelfAssessment(response.content);
    var toolMessages, toolEvents := RunToolCalls(agent, response.toolCalls);
    st' := st.(messages := st.messages + [Ai(response.content, response.toolCalls)] + toolMessages,
               currentAgent := agent.Id(), nextAgent := nextAgent, lastActiveAgent := agent.Id(),
               handoffReason := handoffReason,
               events := st.events + [AgentResponse(agent.Id())] + toolEvents,
               routingHistory := st.routingHistory + [agent.Id()]);
  }

  /** The seat-booking node: the handoff hook on the shared context, then the specialist step. */
  method SeatBookingNode(st: AirlineState, response: LlmResponse, code: string, flightDigits: nat)
    returns (st': AirlineState)
    requires IsConfirmationCode(code) && IsFlightDigits(flightDigits)
    modifies st.context
    ensures st.context.Snapshot() == HookFields(old(st.context.Snapshot()), code, flightDigits)
    ensures SpecialistOutcome(SeatBooking, st, response, st')
  {
    st.context.ApplyHandoffHook(code, flightDigits);
    st' := SpecialistStep(SeatBooking, st, response);
  }

  /** The flight-status node: no hook, so the context is not touched. */
  method FlightStatusNode(st: AirlineState, response: LlmResponse) returns (st': AirlineState)
    ensures SpecialistOutcome(FlightStatus, st, response, st')
  {
    st' := SpecialistStep(FlightStatus, st, response);
  }

  /** The cancellation node: the same handoff hook as seat booking, then the specialist step. */
  method CancellationNode(st: AirlineState, response: LlmResponse, code: string, flightDigits: nat)
    returns (st': AirlineState)
    requires IsConfirmationCode(code) && IsFlightDigits(flightDigits)
    modifies st.context
    ensures st.context.Snapshot() == HookFields(old(st.context.Snapshot()), code, flightDigits)
    ensures SpecialistOutcome(Cancellation, st, response, st')
  {
    st.context.ApplyHandoffHook(code, flightDigits);
    st' := SpecialistStep(Cancellation, st, response);
  }

  /** The FAQ node: no hook, so the context is not touched. */
  method FaqNode(st: AirlineState, response: LlmResponse) returns (st': AirlineState)
    ensures SpecialistOutcome(Faq, st, response, st')
  {
    st' := SpecialistStep(Faq, st, response);
  }

  /**
   * After a specialist node, with or without tool calls: the history grew
   * by the reply and one tool message per call, with the reply right after
   * the old history; the events grew by one `agent_response`, right after
   * the old events, and one event per call.
   */
  lemma SpecialistOutcomeShape(agent: Specialist, st: AirlineState, response: LlmResponse, st': AirlineState)
    requires SpecialistOutcome(agent, st, response, st')
    ensures |st'.messages| == |st.messages| + 1 + |response.toolCalls|
    ensures st'.messages[|st.messages|] == Ai(response.content, response.toolCalls)
    ensures |st'.events| == |st.events| + 1 + |response.toolCalls|
    ensures st'.events[|st.events|] == AgentResponse(agent.Id())
  {
  }

  /**
   * After a specialist node, the history grew by the reply and one tool
   * message per requested call: the reply sits right after the old
   * history, and the i-th call is answered at position n + 1 + i by a tool
   * message carrying its call id.
   */
  lemma {:induction false} SpecialistAnswersEveryCall(agent: Specialist, st: AirlineState, response: LlmResponse,
                                                      st': AirlineState, i: nat)
    requires SpecialistOutcome(agent, st, response, st')
    requires i < |response.toolCalls|
    ensures |st'.messages| == |st.messages| + 1 + |response.toolCalls|
    ensures st'.messages[|st.messages|] == Ai(response.content, response.toolCalls)
    ensures st'.messages[|st.messages| + 1 + i].ToolResult?
    ensures st'.messages[|st.messages| + 1 + i].toolCallId == response.toolCalls[i].id
  {
    var tail := CallMessages(agent, response.toolCalls);
    MapCallsAt(MessageFor(agent), response.toolCalls, i);
    assert st'.messages == st.messages + [Ai(response.content, response.toolCalls)] + tail;
    assert st'.messages[|st.messages| + 1 + i] == tail[i];
  }

  /**
   * After a specialist node, the events grew by one `agent_response` and
   * one event per requested call; the i-th call is reported at position
   * e + 1 + i by a `tool_call` or `tool_error` event naming its tool and
   * the agent.
   */
  lemma {:induction false} SpecialistReportsEveryCall(agent: Specialist, st: AirlineState, response: LlmResponse,
                                                      st': AirlineState, i: nat)
    requires SpecialistOutcome(agent, st, response, st')
    requires i < |response.toolCalls|
    ensures |st'.events| == |st.events| + 1 + |response.toolCalls|
    ensures st'.events[|st.events|] == AgentResponse(agent.Id())
    ensures st'.events[|st.events| + 1 + i].ToolCallEvent? || st'.events[|st.events| + 1 + i].ToolErrorEvent?
    ensures st'.events[|st.events| + 1 + i].tool == response.toolCalls[i].name
    ensures st'.events[|st.events| + 1 + i].agent == agent.Id()
  {
    var tail := CallEvents(agent, response.toolCalls);
    MapCallsAt(EventFor(agent), response.toolCalls, i);
    assert st'.events == st.events + [AgentResponse(agent.Id())] + tail;
    assert st'.events[|st.events| + 1 + i] == tail[i];
  }
}
