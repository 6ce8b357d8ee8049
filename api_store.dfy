/**
 * The HTTP layer's state and turn handling: the in-memory conversation
 * store, the static description of the agents, and the two halves of a
 * chat turn around the workflow run (preparing the conversation state,
 * then storing the result and building the response).
 */
module ApiStore {
  import opened Wrappers
  import opened Text
  import opened Context
  import opened Tools
  import opened Agents
  import opened Workflow
  import opened ApiConvert

  /**
   * A stored conversation. The state saved when a conversation is opened
   * with an empty message lacks the last four keys, hence the options.
   */
  datatype StoredState = StoredState(
    context: ContextDict,
    messages: seq<StoredMessage>,
    currentAgent: string,
    events: seq<NodeEvent>,
    routingHistory: Option<seq<string>>,
    lastActiveAgent: Option<string>,
    isFollowupMessage: Option<bool>,
    handoffReason: Option<string>)

  /**
   * `InMemoryConversationStore`: a dictionary from conversation id to
   * stored state. `order` keeps the keys in insertion order, as a Python
   * dictionary lists them.
   */
  class InMemoryConversationStore {
    var order: seq<string>
    var conversations: map<string, StoredState>

    ghost predicate Valid()
      reads this
    {
      && (forall i, j :: 0 <= i < j < |order| ==> order[i] != order[j])
      && (forall id :: id in conversations <==> id in order)
    }

    constructor ()
      ensures Valid() && List() == []
      ensures forall id :: Get(id) == None
    {
      order, conversations := [], map[];
    }

    /** `get`: the stored state, or `None` for an id never saved. */
    function Get(id: string): Option<StoredState>
      reads this
    {
      if id in conversations then Some(conversations[id]) else None
    }

    /** `list`: the saved ids, in the order they were first saved. */
    function List(): seq<string>
      reads this
    {
      order
    }

    /** `save`: stores (or replaces) one conversation and leaves all others as they were. */
    method Save(id: string, state: StoredState)
      requires Valid()
      modifies this
      ensures Valid()
      ensures Get(id) == Some(state) && id in List()
      ensures forall other :: other != id ==> Get(other) == old(Get(other))
      ensures id in old(List()) ==> List() == old(List())
      ensures id !in old(List()) ==> List() == old(List()) + [id]
    {
      if id !in conversations {
        order := order + [id];
      }
      conversations := conversations[id := state];
    }
  }

  /** An id is listed exactly when `get` finds a state for it. */
  lemma GetFindsListed(store: InMemoryConversationStore, id: string)
    requires store.Valid()
    ensures store.Get(id).Some? <==> id in store.List()
  {
  }

  /** One entry of `get_agents_info`. */
  datatype AgentInfo = AgentInfo(
    name: string,
    description: string,
    tools: seq<string>,
    handoffs: seq<string>,
    canRouteTo: seq<string>,
    inputGuardrails: seq<string>)

  const Specialists: seq<Specialist> := [SeatBooking, FlightStatus, Cancellation, Faq]

  /** `get_agents_info`: the five agents, their tools and whom they may hand off to. */
  function GetAgentsInfo(): seq<AgentInfo>
  {
    var toSpecialists := [SeatBookingId, FlightStatusId, CancellationId, FaqId];
    [ AgentInfo(TriageId, "Routes customers to appropriate specialists", [], toSpecialists, toSpecialists, []),
      AgentInfo(SeatBookingId, "Handles seat changes and assignments",
                ["update_seat_pure", "display_seat_map_pure"], [TriageId], [TriageId], []),
      AgentInfo(FlightStatusId, "Provides flight status information",
                ["flight_status_pure"], [TriageId], [TriageId], []),
      AgentInfo(CancellationId, "Processes flight cancellations",
                ["cancel_flight_pure"], [TriageId], [TriageId], []),
      AgentInfo(FaqId, "Answers general questions about policies and procedures",
                ["faq_lookup_pure", "baggage_lookup_pure"], [TriageId], [TriageId], []) ]
  }

  function ToolNames(ts: seq<Tool>): seq<string>
  {
    seq(|ts|, i requires 0 <= i < |ts| => ts[i].Name())
  }

  /**
   * The advertised agents agree with the graph: triage first with no tools
   * and a route to every specialist (its edge table but END); each
   * specialist with exactly the tools its node dispatches and with triage
   * as its only handoff, which is the only agent its self-assessment
   * routes to; no agent has an input guardrail.
   */
  lemma AgentsInfoMatchesWorkflow()
    ensures |GetAgentsInfo()| == 5
    ensures GetAgentsInfo()[0].name == TriageId && GetAgentsInfo()[0].tools == []
    ensures forall n :: n in GetAgentsInfo()[0].canRouteTo <==> n in TriageEdges && n != EndId
    ensures forall i :: 0 <= i < 4 ==>
              && GetAgentsInfo()[i + 1].name == Specialists[i].Id()
              && GetAgentsInfo()[i + 1].tools == ToolNames(Specialists[i].Tools())
              && GetAgentsInfo()[i + 1].canRouteTo == [TriageId]
    ensures forall content :: SelfAssessment(content).0 != EndId ==>
              forall i :: 1 <= i < 5 ==> SelfAssessment(content).0 in GetAgentsInfo()[i].canRouteTo
    ensures forall info :: info in GetAgentsInfo() ==> info.inputGuardrails == []
  {
    var infos := GetAgentsInfo();
    assert ToolNames(Specialists[0].Tools()) == ["update_seat_pure", "display_seat_map_pure"];
    assert ToolNames(Specialists[1].Tools()) == ["flight_status_pure"];
    assert ToolNames(Specialists[2].Tools()) == ["cancel_flight_pure"];
    assert ToolNames(Specialists[3].Tools()) == ["faq_lookup_pure", "baggage_lookup_pure"];
  }

  /** The incoming request: an optional conversation id and the user's message. */
  datatype ChatRequest = ChatRequest(conversationId: Option<string>, message: string)

  /** A guardrail result; the endpoint always returns none. */
  datatype GuardrailCheck = GuardrailCheck(name: string, input: string, reasoning: string, passed: bool)

  datatype ChatResponse = ChatResponse(
    conversationId: string,
    currentAgent: string,
    messages: seq<MessageResponse>,
    events: seq<AgentEvent>,
    context: ContextDict,
    agents: seq<AgentInfo>,
    guardrails: seq<GuardrailCheck>,
    routingHistory: seq<string>)

  const HexDigits: string := "0123456789abcdef"

  /** A value `uuid4().hex` can produce: 32 lower-case hexadecimal digits. */
  predicate IsConversationId(id: string)
  {
    |id| == 32 && forall i :: 0 <= i < |id| ==> id[i] in HexDigits
  }

  /** A request opens a new conversation when it has no (or an empty) id, or an id never saved. */
  predicate IsNew(store: InMemoryConversationStore, req: ChatRequest)
    reads store
  {
    req.conversationId.None? || req.conversationId.value == "" || store.Get(req.conversationId.value).None?
  }

  /** The state saved when a conversation is opened with an empty message. */
  function OpeningState(accountDigits: nat): StoredState
    requires IsAccountDigits(accountDigits)
  {
    StoredState(DictOfFields(InitialFields(accountDigits)), [], TriageId, [], None, None, None, None)
  }

  /** The response to an empty opening message: no messages, no events, triage current. */
  function OpeningResponse(id: string, accountDigits: nat): ChatResponse
    requires IsAccountDigits(accountDigits)
  {
    ChatResponse(id, TriageId, [], [], DictOfFields(InitialFields(accountDigits)), GetAgentsInfo(), [], [])
  }

  /**
   * The first half of a turn: either the conversation was just opened with
   * an empty message (and the turn is over), or the workflow is to run
   * with `conv` (`None` for a new conversation). `prevCount` is the number
   * of stored messages, which the front end has already seen.
   */
  datatype TurnStart =
    | Opened(response: ChatResponse)
    | Proceed(conversationId: string, conv: Option<ConversationState>, prevCount: nat)

  /**
   * The follow-up state rebuilt from a stored conversation: the stored
   * messages read back, the stored context, and the defaults of the chat
   * endpoint for keys the opening state lacks.
   */
  ghost predicate RebuiltFrom(conv: ConversationState, stored: StoredState)
    reads conv.context
  {
    && conv.context.Snapshot() == FieldsOfDict(stored.context)
    && |conv.messages| == |stored.messages|
    && (forall i :: 0 <= i < |stored.messages| ==>
          conv.messages[i].content == stored.messages[i].content
          && (conv.messages[i].Human? <==> stored.messages[i].agent == UserRole)
          && (!conv.messages[i].Human? ==> conv.messages[i] == Ai(stored.messages[i].content, [])))
    && conv.currentAgent == stored.currentAgent
    && conv.events == stored.events
    && conv.routingHistory == stored.routingHistory.GetOr([])
    && conv.lastActiveAgent == stored.lastActiveAgent.GetOr(TriageId)
    && conv.isFollowupMessage == stored.isFollowupMessage.GetOr(false)
    && conv.handoffReason == stored.handoffReason.GetOr("")
  }

  /**
   * The chat endpoint up to the workflow run. `newId` stands for the
   * random conversation id and `accountDigits` for the account number a
   * new context draws.
   */
  method BeginTurn(store: InMemoryConversationStore, req: ChatRequest, newId: string, accountDigits: nat)
    returns (start: TurnStart)
    requires store.Valid() && IsConversationId(newId) && IsAccountDigits(accountDigits)
    modifies store
    ensures store.Valid()
    ensures start.Opened? <==> old(IsNew(store, req)) && IsBlank(req.message)
    ensures start.Opened? ==>
              && start.response == OpeningResponse(newId, accountDigits)
              && store.Get(newId) == Some(OpeningState(accountDigits))
              && (forall other :: other != newId ==> store.Get(other) == old(store.Get(other)))
              && (newId in old(store.List()) ==> store.List() == old(store.List()))
              && (newId !in old(store.List()) ==> store.List() == old(store.List()) + [newId])
    ensures start.Proceed? ==> unchanged(store)
    ensures start.Proceed? && old(IsNew(store, req)) ==>
              start == Proceed(newId, None, 0)
    ensures start.Proceed? && !old(IsNew(store, req)) ==>
              var id := req.conversationId.value;
              var stored := store.Get(id).value;
              && start.conversationId == id
              && start.conv.Some? && fresh(start.conv.value.context)
              && RebuiltFrom(start.conv.value, stored)
              && start.prevCount == |stored.messages|
  {
    if IsNew(store, req) {
      if IsBlank(req.message) {
        var context := CreateInitialContext(accountDigits);
        var state := StoredState(ContextToDict(context), [], TriageId, [], None, None, None, None);
        store.Save(newId, state);
        start := Opened(ChatResponse(newId, TriageId, [], [], ContextToDict(context), GetAgentsInfo(), [], []));
      } else {
        start := Proceed(newId, None, 0);
      }
    } else {
      var id := req.conversationId.value;
      var stored := store.Get(id).value;
      var messages := ResultToLanggraphMessages(stored.messages);
      var context := DictToContext(stored.context);
      var conv := ConversationState(messages, context, stored.currentAgent, stored.events,
                                    stored.routingHistory.GetOr([]), stored.lastActiveAgent.GetOr(TriageId),
                                    stored.isFollowupMessage.GetOr(false), stored.handoffReason.GetOr(""));
      start := Proceed(id, Some(conv), |stored.messages|);
    }
  }

  /** The chat replies of a turn as written: every graph event of the conversation is expanded again. */
  function TurnRepliesAsWritten(result: AirlineState, prevCount: nat): seq<MessageResponse>
  {
    FormatReplies(result.messages, result.events, prevCount, result.currentAgent)
  }

  /** The example conversation: the question of its first turn and the seat-map call it leads to. */
  const SeatMapQuestion: string := "Show me the seat map"
  const SeatMapCall: ToolCall := ToolCall("display_seat_map_pure", map[], "call_1")

  /** Turn 1 after triage: the reply routes to seat booking, and the question is repeated. */
  function SeatMapTriaged(context: AgentContext): AirlineState
  {
    var start := NewConversationState(SeatMapQuestion, context);
    start.(messages := start.messages + [Ai(SeatBookingCode, []), Human(SeatMapQuestion)],
           nextAgent := SeatBookingId, events := [AgentResponse(TriageId)], routingHistory := [TriageId])
  }

  /** Turn 1 after seat booking: its reply with the seat-map call, the tool result, and END. */
  function SeatMapFirstTurn(context: AgentContext): AirlineState
  {
    var t := SeatMapTriaged(context);
    t.(messages := t.messages + [Ai("Here you go.", [SeatMapCall]), ToolResult(SeatMapSentinel, "call_1")],
       currentAgent := SeatBookingId, nextAgent := EndId, lastActiveAgent := SeatBookingId, handoffReason := "",
       events := t.events + [AgentResponse(SeatBookingId),
                             ToolCallEvent(SeatBookingId, "display_seat_map_pure", map[], SeatMapSentinel)],
       routingHistory := t.routingHistory + [SeatBookingId])
  }

  /**
   * Turn 1 as the endpoint rebuilds it for the follow-up: the stored
   * messages read back (every non-user message as a plain model reply),
   * the other fields as saved.
   */
  function SeatMapStored(context: AgentContext): ConversationState
  {
    var first := SeatMapFirstTurn(context);
    ConversationState([Human(SeatMapQuestion), Ai(SeatBookingCode, []), Human(SeatMapQuestion),
                       Ai("Here you go.", []), Ai(SeatMapSentinel, [])],
                      context, first.currentAgent, first.events, first.routingHistory,
                      first.lastActiveAgent, first.isFollowupMessage, first.handoffReason)
  }

  /** Turn 2 at its start: "Thanks" appended, with the entry override as written. */
  function SeatMapSecondStart(context: AgentContext): AirlineState
  {
    EntryOverrideAsWritten(ContinuingState("Thanks", SeatMapStored(context)))
  }

  /** Turn 2 after seat booking: a plain reply with no tool call, and END. */
  function SeatMapSecondTurn(context: AgentContext): AirlineState
  {
    var s := SeatMapSecondStart(context);
    s.(messages := s.messages + [Ai("You're welcome.", [])], currentAgent := SeatBookingId,
       lastActiveAgent := SeatBookingId, nextAgent := EndId, handoffReason := "",
       events := s.events + [AgentResponse(SeatBookingId)], routingHistory := s.routingHistory + [SeatBookingId])
  }

  /** Triage hands the seat-booking code on to seat booking, and the graph routes there. */
  lemma SeatMapTriageRoutes()
    ensures TriageNextAgent(SeatBookingCode) == SeatBookingId
    ensures Route(TriageAgent, SeatBookingId) == Some(SpecialistAgent(SeatBooking))
  { }

  /** Seat booking answers the seat-map call with the sentinel and reports the call. */
  lemma SeatMapCallAnswered()
    ensures CallMessages(SeatBooking, [SeatMapCall]) == [ToolResult(SeatMapSentinel, "call_1")]
    ensures CallEvents(SeatBooking, [SeatMapCall])
            == [ToolCallEvent(SeatBookingId, "display_seat_map_pure", map[], SeatMapSentinel)]
  {
    SeatMapCallYieldsSentinel(map[], "call_1");
    var calls := [SeatMapCall];
    assert calls[..0] == [];
  }

  /** The triaged state of the example is what the triage node yields for the opening question. */
  lemma SeatMapTriagedFromTriage(context: AgentContext)
    ensures TriageOutcome(NewConversationState(SeatMapQuestion, context), LlmResponse(SeatBookingCode, []),
                          SeatMapTriaged(context))
  {
    SeatMapTriageRoutes();
    var st := NewConversationState(SeatMapQuestion, context);
    var msgs := [Human(SeatMapQuestion), Ai(SeatBookingCode, []), Human(SeatMapQuestion)];
    assert SeatMapTriaged(context).messages == msgs;
    assert msgs[..2] == st.messages + [Ai(SeatBookingCode, [])];
    assert IsLatestHuman(st.messages, 0) && msgs[1 + 1] == st.messages[0];
  }

  /** Turn 1 of the example is what seat booking yields after triage: it runs the seat-map call and ends. */
  lemma SeatMapFirstTurnReachable(context: AgentContext)
    ensures SpecialistOutcome(SeatBooking, SeatMapTriaged(context), LlmResponse("Here you go.", [SeatMapCall]),
                              SeatMapFirstTurn(context))
  {
    ContainsIffOccurs("Here you go.", HandoffToTriage);
    SeatMapCallAnswered();
  }

  /** Turn 2 of the example is what the graph yields: it enters at seat booking, which replies and ends. */
  lemma SeatMapSecondTurnReachable(context: AgentContext)
    ensures DetermineEntryPoint(ContinuingState("Thanks", SeatMapStored(context))) == SeatBookingId
    ensures FirstNode(SeatMapSecondStart(context)) == Some(SpecialistAgent(SeatBooking))
    ensures SpecialistOutcome(SeatBooking, SeatMapSecondStart(context), LlmResponse("You're welcome.", []),
                              SeatMapSecondTurn(context))
  {
    ContainsIffOccurs("You're welcome.", HandoffToTriage);
  }

  /** The graph events of the conversation after turn 2: three from turn 1, one from turn 2. */
  const SeatMapEvents: seq<NodeEvent> := [
    AgentResponse(TriageId), AgentResponse(SeatBookingId),
    ToolCallEvent(SeatBookingId, "display_seat_map_pure", map[], SeatMapSentinel), AgentResponse(SeatBookingId)]

  /** The logs after turn 2: the event log above, and "Thanks" plus the reply after turn 1's five messages. */
  lemma SeatMapSecondTurnLogs(context: AgentContext)
    ensures |SeatMapFirstTurn(context).events| == 3 && |SeatMapFirstTurn(context).messages| == 5
    ensures SeatMapSecondTurn(context).events == SeatMapEvents
    ensures SeatMapSecondTurn(context).currentAgent == SeatBookingId
    ensures Unseen(SeatMapSecondTurn(context).messages, 5) == [Human("Thanks"), Ai("You're welcome.", [])]
  {
  }

  /** The event log holds one seat-map call, in turn 1; turn 2's own events hold none. */
  lemma SeatMapEventsReplies()
    ensures SeatMapReplies(SeatMapEvents) == [MessageResponse(SeatMapSentinel, SeatBookingId)]
    ensures CountSeatMapCalls(Unseen(SeatMapEvents, 3)) == 0
  {
    var e := SeatMapEvents;
    assert e[..1][..0] == [] && e[..2][..1] == e[..1] && e[..3][..2] == e[..2] && e[..4][..3] == e[..3];
    assert e[..4] == e;
    assert SeatMapReplies(e[..1]) == [];
    assert SeatMapReplies(e[..2]) == [];
    assert SeatMapReplies(e[..3]) == [MessageResponse(SeatMapSentinel, SeatBookingId)];
    var turn := [AgentResponse(SeatBookingId)];
    assert Unseen(e, 3) == turn && turn[..0] == [];
  }

  /**
   * The discrepancy, on that conversation: the second turn has no seat-map
   * call and only says "You're welcome.", yet its replies, as written, end
   * with the seat-map sentinel again.
   */
  lemma SeatMapRepeatedAsWritten(context: AgentContext)
    ensures CountSeatMapCalls(Unseen(SeatMapSecondTurn(context).events, |SeatMapFirstTurn(context).events|)) == 0
    ensures TurnRepliesAsWritten(SeatMapSecondTurn(context), |SeatMapFirstTurn(context).messages|)
            == [MessageResponse("You're welcome.", SeatBookingId), MessageResponse(SeatMapSentinel, SeatBookingId)]
  {
    SeatMapSecondTurnLogs(context);
    SeatMapEventsReplies();
    var unseen := [Human("Thanks"), Ai("You're welcome.", [])];
    assert unseen[..1] == [Human("Thanks")] && unseen[..1][..0] == [];
    assert MessageReplies(unseen, SeatBookingId) == [MessageResponse("You're welcome.", SeatBookingId)];
  }

  /** The chat replies of a turn as intended: only the events this turn added are expanded. */
  function TurnReplies(result: AirlineState, prevCount: nat, prevEventCount: nat): seq<MessageResponse>
  {
    FormatReplies(result.messages, Unseen(result.events, prevEventCount), prevCount, result.currentAgent)
  }

  /** As intended, a turn without a seat-map call replies with its new model messages only. */
  lemma TurnRepliesOnlyThisTurn(result: AirlineState, prevCount: nat, prevEventCount: nat)
    requires CountSeatMapCalls(Unseen(result.events, prevEventCount)) == 0
    ensures TurnReplies(result, prevCount, prevEventCount)
            == MessageReplies(Unseen(result.messages, prevCount), result.currentAgent)
  {
    SeatMapRepliesAreSentinels(Unseen(result.events, prevEventCount));
  }

  /** The state stored after a turn: the run's result with its messages serialised. */
  ghost predicate StoredAfter(saved: StoredState, result: AirlineState)
    reads result.context
  {
    && saved.context == ContextToDict(result.context)
    && |saved.messages| == |result.messages|
    && (forall i :: 0 <= i < |result.messages| ==> saved.messages[i] == StoredMessageOf(result.messages[i]))
    && saved.currentAgent == result.currentAgent
    && saved.events == result.events
    && saved.routingHistory == Some(result.routingHistory)
    && saved.lastActiveAgent == Some(result.lastActiveAgent)
    && saved.isFollowupMessage == Some(result.isFollowupMessage)
    && saved.handoffReason == Some(result.handoffReason)
  }

  /** Saving the run's result: its messages serialised, every other field as the run left it. */
  method SaveTurn(store: InMemoryConversationStore, id: string, result: AirlineState)
    requires store.Valid()
    modifies store
    ensures store.Valid()
    ensures store.Get(id).Some? && StoredAfter(store.Get(id).value, result)
    ensures forall other :: other != id ==> store.Get(other) == old(store.Get(other))
    ensures id in old(store.List()) ==> store.List() == old(store.List())
    ensures id !in old(store.List()) ==> store.List() == old(store.List()) + [id]
  {
    var serialized := SerializeMessages(result.messages);
    var updated := StoredState(ContextToDict(result.context), serialized, result.currentAgent, result.events,
                               Some(result.routingHistory), Some(result.lastActiveAgent),
                               Some(result.isFollowupMessage), Some(result.handoffReason));
    assert StoredAfter(updated, result);
    store.Save(id, updated);
  }

  /**
   * The chat endpoint after the workflow run, as written: formats the new
   * messages together with the conversation's whole event log and routing
   * history, saves the whole conversation, and answers with the current
   * agent, the context, the agents and the routing history.
   */
  method FinishTurn(store: InMemoryConversationStore, id: string, prevCount: nat, result: AirlineState)
    returns (response: ChatResponse)
    requires store.Valid()
    modifies store
    ensures store.Valid()
    ensures store.Get(id).Some? && StoredAfter(store.Get(id).value, result)
    ensures forall other :: other != id ==> store.Get(other) == old(store.Get(other))
    ensures id in old(store.List()) ==> store.List() == old(store.List())
    ensures id !in old(store.List()) ==> store.List() == old(store.List()) + [id]
    ensures response == ChatResponse(
              id, result.currentAgent,
              TurnRepliesAsWritten(result, prevCount),
              FormatEvents(result.messages, result.events, prevCount, result.routingHistory, result.currentAgent),
              ContextToDict(result.context), GetAgentsInfo(), [], result.routingHistory)
  {
    var replies, apiEvents := ApiFormat(result.messages, result.events, prevCount,
                                        result.routingHistory, result.currentAgent);
    SaveTurn(store, id, result);
    response := ChatResponse(id, result.currentAgent, replies, apiEvents, ContextToDict(result.context),
                             GetAgentsInfo(), [], result.routingHistory);
  }

  /**
   * The chat endpoint after the workflow run, as intended: only the events
   * and routing-history entries this turn added are formatted.
   * `prevEventCount` and `prevHistoryCount` are the lengths of the event
   * log and routing history the turn started from.
   */
  method FinishTurnThisTurn(store: InMemoryConversationStore, id: string, prevCount: nat, prevEventCount: nat,
                            prevHistoryCount: nat, result: AirlineState)
    returns (response: ChatResponse)
    requires store.Valid()
    modifies store
    ensures store.Valid()
    ensures store.Get(id).Some? && StoredAfter(store.Get(id).value, result)
    ensures forall other :: other != id ==> store.Get(other) == old(store.Get(other))
    ensures id in old(store.List()) ==> store.List() == old(store.List())
    ensures id !in old(store.List()) ==> store.List() == old(store.List()) + [id]
    ensures response == ChatResponse(
              id, result.currentAgent,
              TurnReplies(result, prevCount, prevEventCount),
              FormatEvents(result.messages, Unseen(result.events, prevEventCount), prevCount,
                           Unseen(result.routingHistory, prevHistoryCount), result.currentAgent),
              ContextToDict(result.context), GetAgentsInfo(), [], result.routingHistory)
  {
    var replies, apiEvents := ApiFormat(result.messages, Unseen(result.events, prevEventCount), prevCount,
                                        Unseen(result.routingHistory, prevHistoryCount), result.currentAgent);
    SaveTurn(store, id, result);
    response := ChatResponse(id, result.currentAgent, replies, apiEvents, ContextToDict(result.context),
                             GetAgentsInfo(), [], result.routingHistory);
  }
}
