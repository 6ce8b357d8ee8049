/**
 * The workflow graph: the conditional edge tables out of every node, the
 * transition relation they define, and the per-turn choice of the node a
 * run starts at (`determine_entry_point` and the state that
 * `process_message_sdk_style` assembles for a turn).
 */
module Workflow {
  import opened Wrappers
  import opened Context
  import opened Agents

  /** The graph's nodes: the smart entry, triage, the four specialists, and END. */
  datatype Node = SmartEntry | TriageAgent | SpecialistAgent(agent: Specialist) | Finish

  /** Smart entry may dispatch to any agent, or end at once. */
  const EntryEdges: map<string, Node> := map[
    TriageId := TriageAgent,
    SeatBookingId := SpecialistAgent(SeatBooking),
    FlightStatusId := SpecialistAgent(FlightStatus),
    CancellationId := SpecialistAgent(Cancellation),
    FaqId := SpecialistAgent(Faq),
    EndId := Finish]

  /** Triage routes to a specialist or ends; it has no edge back to itself. */
  const TriageEdges: map<string, Node> := map[
    SeatBookingId := SpecialistAgent(SeatBooking),
    FlightStatusId := SpecialistAgent(FlightStatus),
    CancellationId := SpecialistAgent(Cancellation),
    FaqId := SpecialistAgent(Faq),
    EndId := Finish]

  /** Every specialist may go to any specialist, back to triage, or end. */
  const SpecialistEdges: map<string, Node> := map[
    SeatBookingId := SpecialistAgent(SeatBooking),
    FlightStatusId := SpecialistAgent(FlightStatus),
    CancellationId := SpecialistAgent(Cancellation),
    FaqId := SpecialistAgent(Faq),
    TriageId := TriageAgent,
    EndId := Finish]

  /** The name a node is registered under; END is reached by the key "end". */
  function NodeName(n: Node): string
  {
    match n
    case SmartEntry => "smart_entry"
    case TriageAgent => TriageId
    case SpecialistAgent(a) => a.Id()
    case Finish => EndId
  }

  function Edges(n: Node): map<string, Node>
  {
    match n
    case SmartEntry => EntryEdges
    case TriageAgent => TriageEdges
    case SpecialistAgent(_) => SpecialistEdges
    case Finish => map[]
  }

  /**
   * The conditional edge taken out of `n` for a state whose `next_agent`
   * is `nextAgent`; `None` when the value is not in the node's table (the
   * graph library then fails the run).
   */
  function Route(n: Node, nextAgent: string): (r: Option<Node>)
    ensures r.Some? <==> nextAgent in Edges(n)
    ensures r.Some? ==> r.value != SmartEntry
    ensures r.Some? ==> NodeName(r.value) == nextAgent
  {
    if nextAgent in Edges(n) then Some(Edges(n)[nextAgent]) else None
  }

  /** The transition relation over nodes that the edge tables define. */
  predicate CanStep(from: Node, to: Node)
  {
    to in Edges(from).Values
  }

  /** Triage never transitions to itself; smart entry is never a target. */
  lemma NoTriageSelfLoop()
    ensures TriageId !in TriageEdges
    ensures !CanStep(TriageAgent, TriageAgent)
    ensures forall n: Node :: !CanStep(n, SmartEntry)
  {
    forall n: Node ensures !CanStep(n, SmartEntry) {
      if SmartEntry in Edges(n).Values {
        var k :| k in Edges(n) && Edges(n)[k] == SmartEntry;
        assert false;
      }
    }
  }

  /** The specialists form a full mesh: each may step to every node but the entry. */
  lemma SpecialistsFullMesh(a: Specialist, to: Node)
    requires to != SmartEntry
    ensures CanStep(SpecialistAgent(a), to)
    ensures CanStep(SmartEntry, to)
  {
    var key := match to
      case TriageAgent => TriageId
      case SpecialistAgent(s) => s.Id()
      case Finish => EndId;
    assert SpecialistEdges[key] == to && EntryEdges[key] == to;
  }

  /** The triage decision always names an edge of triage's table, and never triage itself. */
  lemma TriageDecisionIsRoutable(content: string)
    ensures TriageNextAgent(content) in TriageEdges
    ensures Route(TriageAgent, TriageNextAgent(content)).Some?
    ensures Route(TriageAgent, TriageNextAgent(content)).value != TriageAgent
  {
  }

  /** A specialist's self-assessment always names an edge: back to triage or to END. */
  lemma SelfAssessmentIsRoutable(a: Specialist, content: string)
    ensures SelfAssessment(content).0 in SpecialistEdges
    ensures Route(SpecialistAgent(a), SelfAssessment(content).0) == Some(TriageAgent)
            || Route(SpecialistAgent(a), SelfAssessment(content).0) == Some(Finish)
  {
  }

  /**
   * After any specialist node, the state can be routed (to triage or END)
   * and its last active agent names a node the entry can dispatch to.
   */
  lemma SpecialistStateRoutable(a: Specialist, st: AirlineState, response: LlmResponse, st': AirlineState)
    requires SpecialistOutcome(a, st, response, st')
    ensures Route(SpecialistAgent(a), st'.nextAgent) in {Some(TriageAgent), Some(Finish)}
    ensures st'.lastActiveAgent in EntryEdges && EntryEdges[st'.lastActiveAgent] == SpecialistAgent(a)
  {
    SelfAssessmentIsRoutable(a, response.content);
  }

  /**
   * `determine_entry_point`: a brand-new conversation, or one whose last
   * run handed back to triage, starts at triage; a follow-up resumes the
   * last active specialist; anything else falls back to triage.
   */
  function DetermineEntryPoint(st: AirlineState): (r: string)
    ensures r == TriageId || r == st.lastActiveAgent
    ensures |st.messages| <= 1 ==> r == TriageId
    ensures st.nextAgent == TriageId || st.handoffReason != "" ==> r == TriageId
    ensures r != TriageId <==>
              |st.messages| > 1 && st.nextAgent != TriageId && st.handoffReason == ""
              && st.lastActiveAgent != "" && st.lastActiveAgent != TriageId && st.isFollowupMessage
  {
    if |st.messages| <= 1 then TriageId
    else if st.nextAgent == TriageId || st.handoffReason != "" then TriageId
    else if st.lastActiveAgent != "" && st.lastActiveAgent != TriageId && st.isFollowupMessage then
      st.lastActiveAgent
    else TriageId
  }

  /** The node a run starts at: the smart entry passes `next_agent` through to its table. */
  function FirstNode(st: AirlineState): Option<Node>
  {
    Route(SmartEntry, st.nextAgent)
  }

  /** The stored conversation handed to `process_message_sdk_style` for a follow-up turn. */
  datatype ConversationState = ConversationState(
    messages: seq<Message>,
    context: AgentContext,
    currentAgent: string,
    events: seq<NodeEvent>,
    routingHistory: seq<string>,
    lastActiveAgent: string,
    isFollowupMessage: bool,
    handoffReason: string)

  /** The initial state of a new conversation: the user message alone, triage everywhere. */
  function NewConversationState(message: string, context: AgentContext): AirlineState
  {
    AirlineState([Human(message)], context, TriageId, TriageId, [], [], TriageId, false, "")
  }

  /**
   * The initial state of a follow-up turn: the stored history plus the new
   * user message, the stored bookkeeping, `next_agent` set to the last
   * active agent, and the follow-up flag raised.
   */
  function ContinuingState(message: string, conv: ConversationState): AirlineState
  {
    AirlineState(conv.messages + [Human(message)], conv.context, conv.currentAgent,
                 conv.lastActiveAgent, conv.events, conv.routingHistory, conv.lastActiveAgent,
                 true, conv.handoffReason)
  }

  /** A new conversation starts at triage with no follow-up flag. */
  lemma NewConversationStartsAtTriage(message: string, context: AgentContext)
    ensures var st := NewConversationState(message, context);
      && DetermineEntryPoint(st) == TriageId
      && !st.isFollowupMessage && st.lastActiveAgent == TriageId
      && FirstNode(EntryOverrideAsWritten(st)) == Some(TriageAgent)
      && FirstNode(EntryOverride(st)) == Some(TriageAgent)
  {
  }

  /** The override as written: only a non-triage entry point is written into the state. */
  function EntryOverrideAsWritten(st: AirlineState): AirlineState
  {
    var entry := DetermineEntryPoint(st);
    if entry != TriageId then st.(currentAgent := entry, nextAgent := entry) else st
  }

  /**
   * As written, a follow-up turn whose last active agent is a specialist
   * always starts at that specialist, whatever the entry point decided.
   */
  lemma AsWrittenResumesLastActive(message: string, conv: ConversationState, a: Specialist)
    requires conv.lastActiveAgent == a.Id()
    ensures FirstNode(EntryOverrideAsWritten(ContinuingState(message, conv))) == Some(SpecialistAgent(a))
  {
  }

  /**
   * The discrepancy, on a concrete follow-up turn: the last FAQ run handed
   * back to triage, so the entry point is triage, yet the run starts at FAQ.
   * The stored conversation is abridged (no events, the triage replies
   * omitted): the entry point and the override read only the message
   * count, the next and last active agents, the follow-up flag and the
   * handoff reason, so the other fields do not affect the outcome.
   */
  lemma EntryPointIgnoredAfterHandoff(context: AgentContext)
    ensures var conv := ConversationState([Human("How many seats are on the plane?"),
                                           Ai("HANDOFF_TO_TRIAGE", [])],
                                          context, TriageId, [], [TriageId, FaqId, TriageId],
                                          FaqId, true, CannotHandleRequest);
      var st := ContinuingState("Cancel my flight", conv);
      && DetermineEntryPoint(st) == TriageId
      && FirstNode(EntryOverrideAsWritten(st)) == Some(SpecialistAgent(Faq))
  {
  }

  /** The override as intended: the entry point decided is the one the run starts at. */
  function EntryOverride(st: AirlineState): AirlineState
  {
    var entry := DetermineEntryPoint(st);
    st.(currentAgent := entry, nextAgent := entry)
  }

  /**
   * With the intended override, a run starts exactly at the decided entry
   * point, whenever the last active agent is one the entry can dispatch to
   * (every node writes its own name there).
   */
  lemma EntryOverrideStartsAtEntryPoint(st: AirlineState)
    requires st.lastActiveAgent in EntryEdges || st.lastActiveAgent == ""
    ensures DetermineEntryPoint(st) in EntryEdges
    ensures FirstNode(EntryOverride(st)) == Some(EntryEdges[DetermineEntryPoint(st)])
    ensures DetermineEntryPoint(st) == TriageId ==> FirstNode(EntryOverride(st)) == Some(TriageAgent)
  {
  }

  /**
   * The state `process_message_sdk_style` hands to the workflow: a new
   * conversation (with a fresh context whose account number is the drawn
   * number) or a follow-up. The entry point is written into the state only
   * when it is not triage, so a follow-up whose entry point is triage keeps
   * the last active agent as `next_agent`.
   */
  method ProcessMessageState(message: string, conv: Option<ConversationState>, accountDigits: nat)
    returns (st: AirlineState)
    requires IsAccountDigits(accountDigits)
    ensures conv.None? ==> fresh(st.context) && st.context.Snapshot() == InitialFields(accountDigits)
    ensures conv.None? ==> st == EntryOverrideAsWritten(NewConversationState(message, st.context))
    ensures conv.Some? ==> st == EntryOverrideAsWritten(ContinuingState(message, conv.value))
  {
    var initial: AirlineState;
    if conv.None? {
      var context := CreateInitialContext(accountDigits);
      initial := NewConversationState(message, context);
    } else {
      initial := ContinuingState(message, conv.value);
    }
    var entryPoint := DetermineEntryPoint(initial);
    if entryPoint != TriageId {
      initial := initial.(currentAgent := entryPoint, nextAgent := entryPoint);
    }
    st := initial;
  }
}
