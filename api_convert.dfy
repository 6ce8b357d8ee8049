/**
 * The conversions the HTTP layer performs around a workflow run: the
 * context to and from its stored dictionary, chat messages to and from
 * their stored form, and the run's messages and events to the API's
 * replies and timeline events.
 */
module ApiConvert {
  import opened Wrappers
  import opened Context
  import opened Tools
  import opened Agents

  /** A stored context: field name to value, `None` standing for Python's `None`. */
  type ContextDict = map<string, Option<string>>

  const PassengerNameKey: string := "passenger_name"
  const ConfirmationNumberKey: string := "confirmation_number"
  const SeatNumberKey: string := "seat_number"
  const FlightNumberKey: string := "flight_number"
  const AccountNumberKey: string := "account_number"
  const ContextKeys: set<string> :=
    {PassengerNameKey, ConfirmationNumberKey, SeatNumberKey, FlightNumberKey, AccountNumberKey}

  /** Python's `d.get(key)`: a missing key reads as `None`. */
  function DictGet(d: ContextDict, key: string): Option<string>
  {
    if key in d then d[key] else None
  }

  /** The dictionary `context_to_dict` builds from field values. */
  function DictOfFields(f: Fields): (d: ContextDict)
    ensures d.Keys == ContextKeys
  {
    map[PassengerNameKey := f.passengerName, ConfirmationNumberKey := f.confirmationNumber,
        SeatNumberKey := f.seatNumber, FlightNumberKey := f.flightNumber,
        AccountNumberKey := f.accountNumber]
  }

  /** The field values `dict_to_context` reads out of a dictionary. */
  function FieldsOfDict(d: ContextDict): Fields
  {
    Fields(DictGet(d, PassengerNameKey), DictGet(d, ConfirmationNumberKey), DictGet(d, SeatNumberKey),
           DictGet(d, FlightNumberKey), DictGet(d, AccountNumberKey))
  }

  /** `context_to_dict`: all five keys, and reading them back gives the context's fields. */
  function ContextToDict(c: AgentContext): (d: ContextDict)
    reads c
    ensures d.Keys == ContextKeys
    ensures FieldsOfDict(d) == c.Snapshot()
  {
    DictOfFields(c.Snapshot())
  }

  /** A dictionary with exactly the five keys survives a trip through the context unchanged. */
  lemma DictRoundTrip(d: ContextDict)
    requires d.Keys == ContextKeys
    ensures DictOfFields(FieldsOfDict(d)) == d
  {
    var e := DictOfFields(FieldsOfDict(d));
    assert forall k :: k in d ==> e[k] == d[k];
  }

  /** `dict_to_context`: a fresh context whose fields are set one by one from the dictionary. */
  method DictToContext(data: ContextDict) returns (c: AgentContext)
    ensures fresh(c) && c.Snapshot() == FieldsOfDict(data)
  {
    c := new AgentContext();
    c.passengerName := DictGet(data, PassengerNameKey);
    c.confirmationNumber := DictGet(data, ConfirmationNumberKey);
    c.seatNumber := DictGet(data, SeatNumberKey);
    c.flightNumber := DictGet(data, FlightNumberKey);
    c.accountNumber := DictGet(data, AccountNumberKey);
  }

  /** `dict_to_context(context_to_dict(c))` agrees with `c` on all five fields. */
  method ContextRoundTrip(c: AgentContext) returns (back: AgentContext)
    ensures back.Snapshot() == c.Snapshot()
  {
    back := DictToContext(ContextToDict(c));
  }

  /** A message as the conversation store keeps it: its text and "user" or "assistant". */
  datatype StoredMessage = StoredMessage(content: string, agent: string)

  const UserRole: string := "user"
  const AssistantRole: string := "assistant"

  /** The stored role: human messages are the user's, every other kind the assistant's. */
  function StoredRole(m: Message): string
  {
    if m.Human? then UserRole else AssistantRole
  }

  function StoredMessageOf(m: Message): StoredMessage
  {
    StoredMessage(m.content, StoredRole(m))
  }

  /** The serialisation loop of the chat endpoint: one stored message per chat message. */
  method SerializeMessages(msgs: seq<Message>) returns (stored: seq<StoredMessage>)
    ensures |stored| == |msgs|
    ensures forall i :: 0 <= i < |msgs| ==> stored[i] == StoredMessageOf(msgs[i])
  {
    stored := [];
    for i := 0 to |msgs|
      invariant |stored| == i
      invariant forall k :: 0 <= k < i ==> stored[k] == StoredMessageOf(msgs[k])
    {
      var role := if msgs[i].Human? then UserRole else AssistantRole;
      stored := stored + [StoredMessage(msgs[i].content, role)];
    }
  }

  /** `result_to_langgraph_messages`: "user" entries become human messages, all others model replies. */
  method ResultToLanggraphMessages(stored: seq<StoredMessage>) returns (msgs: seq<Message>)
    ensures |msgs| == |stored|
    ensures forall i :: 0 <= i < |stored| ==> msgs[i].content == stored[i].content
    ensures forall i :: 0 <= i < |stored| ==> (msgs[i].Human? <==> stored[i].agent == UserRole)
    ensures forall i :: 0 <= i < |stored| ==> !msgs[i].Human? ==> msgs[i] == Ai(stored[i].content, [])
  {
    msgs := [];
    for i := 0 to |stored|
      invariant |msgs| == i
      invariant forall k :: 0 <= k < i ==> msgs[k].content == stored[k].content
      invariant forall k :: 0 <= k < i ==> (msgs[k].Human? <==> stored[k].agent == UserRole)
      invariant forall k :: 0 <= k < i ==> !msgs[k].Human? ==> msgs[k] == Ai(stored[k].content, [])
    {
      if stored[i].agent == UserRole {
        msgs := msgs + [Human(stored[i].content)];
      } else {
        msgs := msgs + [Ai(stored[i].content, [])];
      }
    }
  }

  /**
   * Storing a conversation and reading it back keeps every message's text
   * and whether it was the user's; tool results and tool-call requests come
   * back as plain model replies.
   */
  method MessagesRoundTrip(msgs: seq<Message>) returns (back: seq<Message>)
    ensures |back| == |msgs|
    ensures forall i :: 0 <= i < |msgs| ==> back[i].content == msgs[i].content
    ensures forall i :: 0 <= i < |msgs| ==> (back[i].Human? <==> msgs[i].Human?)
    ensures forall i :: 0 <= i < |msgs| ==> !msgs[i].Human? ==> back[i] == Ai(msgs[i].content, [])
  {
    var stored := SerializeMessages(msgs);
    back := ResultToLanggraphMessages(stored);
  }

  /** A reply shown in the chat pane. */
  datatype MessageResponse = MessageResponse(content: string, agent: string)

  /** The payload of a timeline event, by event kind. */
  datatype Metadata =
    | NoMetadata
    | HandoffMetadata(sourceAgent: string, targetAgent: string)
    | ToolResponseMetadata(toolResponse: string)
    | ToolCallMetadata(toolName: string, toolArgs: map<string, string>)
    | ToolOutputMetadata(toolName: string, toolResult: string)

  /** A timeline event (`AgentEvent`), without its random id and its timestamp. */
  datatype AgentEvent = AgentEvent(kind: string, agent: string, content: string, metadata: Metadata)

  function HandoffEvent(source: string, target: string): AgentEvent
  {
    AgentEvent("handoff", target, "Handoff from " + source + " to " + target, HandoffMetadata(source, target))
  }

  /** One handoff event per consecutive pair of the routing history. */
  function HandoffEvents(history: seq<string>): seq<AgentEvent>
  {
    if |history| <= 1 then []
    else HandoffEvents(history[..|history| - 1]) + [HandoffEvent(history[|history| - 2], history[|history| - 1])]
  }

  /** A history of n > 1 entries yields n-1 handoffs, the i-th from entry i to entry i+1; a shorter one none. */
  lemma {:induction false} HandoffEventsPairs(history: seq<string>)
    ensures |HandoffEvents(history)| == if |history| > 1 then |history| - 1 else 0
    ensures forall i :: 0 <= i < |history| - 1 ==>
              HandoffEvents(history)[i] == HandoffEvent(history[i], history[i + 1])
  {
    if |history| > 1 {
      var front := history[..|history| - 1];
      HandoffEventsPairs(front);
      forall i | 0 <= i < |history| - 1
        ensures HandoffEvents(history)[i] == HandoffEvent(history[i], history[i + 1])
      {
        if i < |history| - 2 {
          assert front[i] == history[i] && front[i + 1] == history[i + 1];
        }
      }
    }
  }

  /** The agent a model reply is attributed to: the current agent, or "assistant" when it is unknown. */
  function ReplyAgent(currentAgent: string): string
  {
    if currentAgent != "unknown" then currentAgent else "assistant"
  }

  /** The chat reply one message contributes: only model replies produce one. */
  function MessageReply(m: Message, currentAgent: string): seq<MessageResponse>
  {
    if m.Ai? then [MessageResponse(m.content, ReplyAgent(currentAgent))] else []
  }

  /** The timeline event one message contributes: user and model messages as "message", tool results as "tool_call". */
  function MessageEvent(m: Message, currentAgent: string): AgentEvent
  {
    match m
    case Human(c) => AgentEvent("message", "user", c, NoMetadata)
    case Ai(c, _) => AgentEvent("message", ReplyAgent(currentAgent), c, NoMetadata)
    case ToolResult(c, _) => AgentEvent("tool_call", currentAgent, "Tool executed: " + c, ToolResponseMetadata(c))
  }

  function MessageReplies(msgs: seq<Message>, currentAgent: string): seq<MessageResponse>
  {
    if msgs == [] then []
    else MessageReplies(msgs[..|msgs| - 1], currentAgent) + MessageReply(msgs[|msgs| - 1], currentAgent)
  }

  function MessageEvents(msgs: seq<Message>, currentAgent: string): seq<AgentEvent>
  {
    if msgs == [] then []
    else MessageEvents(msgs[..|msgs| - 1], currentAgent) + [MessageEvent(msgs[|msgs| - 1], currentAgent)]
  }

  function CountAi(msgs: seq<Message>): nat
  {
    if msgs == [] then 0 else CountAi(msgs[..|msgs| - 1]) + (if msgs[|msgs| - 1].Ai? then 1 else 0)
  }

  /** Only model replies become chat replies: one each, attributed to the reply agent. */
  lemma {:induction false} MessageRepliesFromAiOnly(msgs: seq<Message>, currentAgent: string)
    ensures |MessageReplies(msgs, currentAgent)| == CountAi(msgs)
    ensures forall r :: r in MessageReplies(msgs, currentAgent) ==> r.agent == ReplyAgent(currentAgent)
  {
    if msgs != [] {
      MessageRepliesFromAiOnly(msgs[..|msgs| - 1], currentAgent);
    }
  }

  /** Every message yields exactly one timeline event, in order. */
  lemma {:induction false} MessageEventsOnePerMessage(msgs: seq<Message>, currentAgent: string)
    ensures |MessageEvents(msgs, currentAgent)| == |msgs|
    ensures forall i :: 0 <= i < |msgs| ==> MessageEvents(msgs, currentAgent)[i] == MessageEvent(msgs[i], currentAgent)
  {
    if msgs != [] {
      var front := msgs[..|msgs| - 1];
      MessageEventsOnePerMessage(front, currentAgent);
      assert forall i :: 0 <= i < |front| ==> front[i] == msgs[i];
    }
  }

  /** A graph `tool_call` event becomes a `tool_call` and a `tool_output` API event; other events none. */
  function ToolApiEvents(e: NodeEvent): (r: seq<AgentEvent>)
    ensures e.ToolCallEvent? ==> |r| == 2 && r[0].kind == "tool_call" && r[1].kind == "tool_output"
                                 && r[0].agent == r[1].agent == e.agent
    ensures !e.ToolCallEvent? ==> r == []
  {
    if e.ToolCallEvent? then
      [AgentEvent("tool_call", e.agent, e.tool, ToolCallMetadata(e.tool, e.args)),
       AgentEvent("tool_output", e.agent, "Tool " + e.tool + " executed",
                  ToolOutputMetadata(e.tool, "Tool executed successfully"))]
    else []
  }

  predicate IsSeatMapCall(e: NodeEvent)
  {
    e.ToolCallEvent? && e.tool == DisplaySeatMapTool.Name()
  }

  /** A seat-map `tool_call` event also yields the sentinel as a chat reply. */
  function SeatMapReply(e: NodeEvent): seq<MessageResponse>
  {
    if IsSeatMapCall(e) then [MessageResponse(SeatMapSentinel, e.agent)] else []
  }

  function ToolEvents(evs: seq<NodeEvent>): seq<AgentEvent>
  {
    if evs == [] then [] else ToolEvents(evs[..|evs| - 1]) + ToolApiEvents(evs[|evs| - 1])
  }

  function SeatMapReplies(evs: seq<NodeEvent>): seq<MessageResponse>
  {
    if evs == [] then [] else SeatMapReplies(evs[..|evs| - 1]) + SeatMapReply(evs[|evs| - 1])
  }

  function CountToolCalls(evs: seq<NodeEvent>): nat
  {
    if evs == [] then 0 else CountToolCalls(evs[..|evs| - 1]) + (if evs[|evs| - 1].ToolCallEvent? then 1 else 0)
  }

  function CountSeatMapCalls(evs: seq<NodeEvent>): nat
  {
    if evs == [] then 0 else CountSeatMapCalls(evs[..|evs| - 1]) + (if IsSeatMapCall(evs[|evs| - 1]) then 1 else 0)
  }

  /** The expansion of a concatenation is the concatenation of the expansions. */
  lemma {:induction false} ToolEventsAppend(a: seq<NodeEvent>, b: seq<NodeEvent>)
    ensures ToolEvents(a + b) == ToolEvents(a) + ToolEvents(b)
    ensures SeatMapReplies(a + b) == SeatMapReplies(a) + SeatMapReplies(b)
    decreases |b|
  {
    if b != [] {
      var b' := b[..|b| - 1];
      assert (a + b)[..|a + b| - 1] == a + b';
      ToolEventsAppend(a, b');
    } else {
      assert a + b == a;
    }
  }

  /** Each graph `tool_call` event yields exactly two API events; nothing else yields any. */
  lemma {:induction false} ToolEventsTwoPerCall(evs: seq<NodeEvent>)
    ensures |ToolEvents(evs)| == 2 * CountToolCalls(evs)
  {
    if evs != [] {
      ToolEventsTwoPerCall(evs[..|evs| - 1]);
    }
  }

  /** A `tool_call` event in the log expands in place, as `tool_call` then `tool_output`. */
  lemma ToolCallExpandsInPlace(before: seq<NodeEvent>, e: NodeEvent, after: seq<NodeEvent>)
    requires e.ToolCallEvent?
    ensures ToolEvents(before + [e] + after) == ToolEvents(before) + ToolApiEvents(e) + ToolEvents(after)
  {
    ToolEventsAppend(before + [e], after);
    ToolEventsAppend(before, [e]);
    assert [e][..0] == [];
  }

  /** The seat-map replies are all exactly the sentinel, one per seat-map call. */
  lemma {:induction false} SeatMapRepliesAreSentinels(evs: seq<NodeEvent>)
    ensures |SeatMapReplies(evs)| == CountSeatMapCalls(evs)
    ensures forall r :: r in SeatMapReplies(evs) ==> r.content == SeatMapSentinel
  {
    if evs != [] {
      SeatMapRepliesAreSentinels(evs[..|evs| - 1]);
    }
  }

  function Min(a: nat, b: nat): nat
  {
    if a <= b then a else b
  }

  /**
   * The part of a log the front end has not yet seen: the entries at index
   * `prevCount` and later (the messages, or the events a turn added).
   */
  function Unseen<T>(log: seq<T>, prevCount: nat): seq<T>
  {
    log[Min(prevCount, |log|)..]
  }

  /** The chat replies of `langgraph_messages_to_api_format`. */
  function FormatReplies(msgs: seq<Message>, evs: seq<NodeEvent>, prevCount: nat, currentAgent: string)
    : seq<MessageResponse>
  {
    MessageReplies(Unseen(msgs, prevCount), currentAgent) + SeatMapReplies(evs)
  }

  /** The timeline events of `langgraph_messages_to_api_format`. */
  function FormatEvents(msgs: seq<Message>, evs: seq<NodeEvent>, prevCount: nat, history: seq<string>,
                        currentAgent: string): seq<AgentEvent>
  {
    HandoffEvents(history) + MessageEvents(Unseen(msgs, prevCount), currentAgent) + ToolEvents(evs)
  }

  /** The first loop of the formatter: a handoff event per consecutive pair of the history. */
  method CollectHandoffs(history: seq<string>) returns (events: seq<AgentEvent>)
    ensures events == HandoffEvents(history)
  {
    events := [];
    if |history| > 1 {
      for i := 0 to |history| - 1
        invariant events == HandoffEvents(history[..i + 1])
      {
        assert history[..i + 2][..i + 1] == history[..i + 1];
        events := events + [HandoffEvent(history[i], history[i + 1])];
      }
      assert history[..|history|] == history;
    }
  }

  /** The second loop of the formatter: messages before `prevCount` are skipped, the rest converted. */
  method ConvertMessages(msgs: seq<Message>, prevCount: nat, currentAgent: string)
    returns (replies: seq<MessageResponse>, events: seq<AgentEvent>)
    ensures replies == MessageReplies(Unseen(msgs, prevCount), currentAgent)
    ensures events == MessageEvents(Unseen(msgs, prevCount), currentAgent)
  {
    replies, events := [], [];
    for idx := 0 to |msgs|
      invariant replies == MessageReplies(Unseen(msgs[..idx], prevCount), currentAgent)
      invariant events == MessageEvents(Unseen(msgs[..idx], prevCount), currentAgent)
    {
      UnseenStep(msgs, idx, prevCount, currentAgent);
      if idx < prevCount {
        continue;
      }
      var reply, event := ConvertMessage(msgs[idx], currentAgent);
      replies := replies + reply;
      events := events + [event];
    }
    assert msgs[..|msgs|] == msgs;
  }

  /** One more message converts to nothing before `prevCount`, and to its own reply and event from there on. */
  lemma UnseenStep(msgs: seq<Message>, idx: nat, prevCount: nat, currentAgent: string)
    requires idx < |msgs|
    ensures idx < prevCount ==> MessageReplies(Unseen(msgs[..idx + 1], prevCount), currentAgent) == []
    ensures idx < prevCount ==> MessageEvents(Unseen(msgs[..idx + 1], prevCount), currentAgent) == []
    ensures prevCount <= idx ==> MessageReplies(Unseen(msgs[..idx + 1], prevCount), currentAgent)
                                 == MessageReplies(Unseen(msgs[..idx], prevCount), currentAgent)
                                    + MessageReply(msgs[idx], currentAgent)
    ensures prevCount <= idx ==> MessageEvents(Unseen(msgs[..idx + 1], prevCount), currentAgent)
                                 == MessageEvents(Unseen(msgs[..idx], prevCount), currentAgent)
                                    + [MessageEvent(msgs[idx], currentAgent)]
  {
    var longer := Unseen(msgs[..idx + 1], prevCount);
    if prevCount <= idx {
      assert longer == msgs[prevCount..idx + 1];
      assert longer[..|longer| - 1] == Unseen(msgs[..idx], prevCount);
    } else {
      assert longer == [];
    }
  }

  /**
   * The body of the message loop for one unseen message: a user, model or
   * tool message. `MessageReply` and `MessageEvent` are the specification
   * of this loop body.
   */
  method ConvertMessage(m: Message, currentAgent: string) returns (reply: seq<MessageResponse>, event: AgentEvent)
    ensures reply == MessageReply(m, currentAgent) && event == MessageEvent(m, currentAgent)
  {
    reply := [];
    if m.Human? {
      event := AgentEvent("message", "user", m.content, NoMetadata);
    } else if m.Ai? {
      var agentName := if currentAgent != "unknown" then currentAgent else "assistant";
      reply := [MessageResponse(m.content, agentName)];
      event := AgentEvent("message", agentName, m.content, NoMetadata);
    } else {
      event := AgentEvent("tool_call", currentAgent, "Tool executed: " + m.content, ToolResponseMetadata(m.content));
    }
  }

  /** The third loop of the formatter: the graph's events expanded, seat-map calls adding the sentinel. */
  method ExpandGraphEvents(evs: seq<NodeEvent>) returns (replies: seq<MessageResponse>, events: seq<AgentEvent>)
    ensures replies == SeatMapReplies(evs)
    ensures events == ToolEvents(evs)
  {
    replies, events := [], [];
    for k := 0 to |evs|
      invariant replies == SeatMapReplies(evs[..k])
      invariant events == ToolEvents(evs[..k])
    {
      var e := evs[k];
      assert evs[..k + 1][..k] == evs[..k];
      if e.ToolCallEvent? {
        var toolName, agentName := e.tool, e.agent;
        events := events + [AgentEvent("tool_call", agentName, toolName, ToolCallMetadata(toolName, e.args))];
        events := events + [AgentEvent("tool_output", agentName, "Tool " + toolName + " executed",
                                       ToolOutputMetadata(toolName, "Tool executed successfully"))];
        if toolName == DisplaySeatMapTool.Name() {
          replies := replies + [MessageResponse(SeatMapSentinel, agentName)];
        }
      }
    }
    assert evs[..|evs|] == evs;
  }

  /**
   * `langgraph_messages_to_api_format`: handoff events from the routing
   * history, then one event (and, for model replies, one chat reply) per
   * message not yet seen, then the expansion of the graph's events, with
   * the seat-map sentinel after the replies.
   */
  method ApiFormat(msgs: seq<Message>, evs: seq<NodeEvent>, prevCount: nat, history: seq<string>,
                   currentAgent: string)
    returns (replies: seq<MessageResponse>, events: seq<AgentEvent>)
    ensures replies == FormatReplies(msgs, evs, prevCount, currentAgent)
    ensures events == FormatEvents(msgs, evs, prevCount, history, currentAgent)
  {
    var handoffs := CollectHandoffs(history);
    var messageReplies, messageEvents := ConvertMessages(msgs, prevCount, currentAgent);
    var seatMapReplies, toolEvents := ExpandGraphEvents(evs);
    replies := messageReplies + seatMapReplies;
    events := handoffs + messageEvents + toolEvents;
  }
}
