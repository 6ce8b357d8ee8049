/**
 * The tools the specialist agents may call. Each takes string arguments
 * and returns text; none of them touches the conversation context
 * (`update_seat_pure` only reports the new seat, it does not record it).
 */
module Tools {
  import opened Wrappers
  import opened Text

  const BagAnswer: string :=
    "You are allowed to bring one bag on the plane. "
    + "It must be under 50 pounds and 22 inches x 14 inches x 9 inches."
  /** The seat count the FAQ answer opens with. */
  const SeatCapacity: string := "120 seats"
  const SeatsAnswer: string := "There are " + SeatCapacity + SeatsAnswerRest
  const SeatsAnswerRest: string :=
    " on the plane. "
    + "There are 22 business class seats and 98 economy seats. "
    + "Exit rows are rows 4 and 16. "
    + "Rows 5-8 are Economy Plus, with extra legroom."
  const WifiAnswer: string := "We have free wifi on the plane, join Airline-Wifi"
  const FaqFallback: string := "I'm sorry, I don't know the answer to that question."

  const FeeAnswer: string := "Overweight bag fee is $75."
  const AllowanceAnswer: string := "One carry-on and one checked bag (up to 50 lbs) are included."
  const BaggageFallback: string := "Please provide details about your baggage inquiry."

  /** The UI token that asks the front end to render the seat-map widget. */
  const SeatMapSentinel: string := "DISPLAY_SEAT_MAP"

  /** `faq_lookup_pure`: keyword match on the lower-cased question. */
  function FaqLookup(question: string): string
  {
    var q := Lower(question);
    if Contains(q, "bag") || Contains(q, "baggage") then BagAnswer
    else if Contains(q, "seats") || Contains(q, "plane") then SeatsAnswer
    else if Contains(q, "wifi") then WifiAnswer
    else FaqFallback
  }

  /**
   * The FAQ answer classes and their priority: "bag" beats "seats"/"plane",
   * which beat "wifi"; anything else gets the fixed apology.
   */
  lemma FaqLookupPriority(question: string)
    ensures var q := Lower(question);
      && (FaqLookup(question) == BagAnswer <==> Contains(q, "bag"))
      && (FaqLookup(question) == SeatsAnswer <==>
            !Contains(q, "bag") && (Contains(q, "seats") || Contains(q, "plane")))
      && (FaqLookup(question) == WifiAnswer <==>
            !Contains(q, "bag") && !Contains(q, "seats") && !Contains(q, "plane") && Contains(q, "wifi"))
      && (FaqLookup(question) == FaqFallback <==>
            !Contains(q, "bag") && !Contains(q, "seats") && !Contains(q, "plane") && !Contains(q, "wifi"))
  {
    var q := Lower(question);
    if Contains(q, "baggage") {
      ContainsPrefix(q, "baggage", "bag");
    }
    assert |BagAnswer| != |SeatsAnswer| && |BagAnswer| != |WifiAnswer| && |BagAnswer| != |FaqFallback|;
    assert |SeatsAnswer| != |WifiAnswer| && |SeatsAnswer| != |FaqFallback| && |WifiAnswer| != |FaqFallback|;
  }

  /** A question about seats or the plane (and not bags) is answered with the seat count. */
  lemma FaqSeatsAnswerMentionsCapacity(question: string)
    requires var q := Lower(question); !Contains(q, "bag") && (Contains(q, "seats") || Contains(q, "plane"))
    ensures Contains(FaqLookup(question), SeatCapacity)
  {
    FaqLookupPriority(question);
    ContainsInfix("There are ", SeatCapacity, SeatsAnswerRest);
  }

  /** The lookup ignores letter case: a lower-cased question gets the same answer. */
  lemma FaqLookupCaseInsensitive(question: string)
    ensures FaqLookup(Lower(question)) == FaqLookup(question)
  {
    LowerIdempotent(question);
  }

  /** `baggage_lookup_pure`: "fee" wins over "allowance"; anything else gets a prompt for details. */
  function BaggageLookup(query: string): string
  {
    var q := Lower(query);
    if Contains(q, "fee") then FeeAnswer
    else if Contains(q, "allowance") then AllowanceAnswer
    else BaggageFallback
  }

  lemma BaggageLookupPriority(query: string)
    ensures var q := Lower(query);
      && (BaggageLookup(query) == FeeAnswer <==> Contains(q, "fee"))
      && (BaggageLookup(query) == AllowanceAnswer <==> !Contains(q, "fee") && Contains(q, "allowance"))
      && (BaggageLookup(query) == BaggageFallback <==> !Contains(q, "fee") && !Contains(q, "allowance"))
  {
    assert |FeeAnswer| != |AllowanceAnswer| && |FeeAnswer| != |BaggageFallback|;
    assert |AllowanceAnswer| != |BaggageFallback|;
  }

  lemma BaggageLookupCaseInsensitive(query: string)
    ensures BaggageLookup(Lower(query)) == BaggageLookup(query)
  {
    LowerIdempotent(query);
  }

  function UpdateSeat(confirmationNumber: string, newSeat: string): string
  {
    "Updated seat to " + newSeat + " for confirmation number " + confirmationNumber
  }

  function FlightStatus(flightNumber: string): string
  {
    "Flight " + flightNumber + " is on time and scheduled to depart at gate A10."
  }

  function CancelFlight(confirmationNumber: string): string
  {
    "Flight with confirmation number " + confirmationNumber + " has been successfully cancelled"
  }

  /**
   * The three templated tools report back what they were given: the seat
   * and confirmation number, the flight number, the confirmation number.
   */
  lemma TemplatedAnswersEchoArguments(confirmationNumber: string, newSeat: string, flightNumber: string)
    ensures Contains(UpdateSeat(confirmationNumber, newSeat), newSeat)
    ensures Contains(UpdateSeat(confirmationNumber, newSeat), confirmationNumber)
    ensures Contains(FlightStatus(flightNumber), flightNumber)
    ensures Contains(CancelFlight(confirmationNumber), confirmationNumber)
  {
    var seat := UpdateSeat(confirmationNumber, newSeat);
    assert seat[16..16 + |newSeat|] == newSeat;
    ContainsAt(seat, newSeat, 16);
    var at := 16 + |newSeat| + 25;
    assert seat[at..at + |confirmationNumber|] == confirmationNumber;
    ContainsAt(seat, confirmationNumber, at);
    assert FlightStatus(flightNumber)[7..7 + |flightNumber|] == flightNumber;
    ContainsAt(FlightStatus(flightNumber), flightNumber, 7);
    assert CancelFlight(confirmationNumber)[32..32 + |confirmationNumber|] == confirmationNumber;
    ContainsAt(CancelFlight(confirmationNumber), confirmationNumber, 32);
  }

  /** The six tools, by the name under which an agent binds them. */
  datatype Tool = UpdateSeatTool | FlightStatusTool | DisplaySeatMapTool
                | CancelFlightTool | FaqLookupTool | BaggageLookupTool
  {
    function Name(): string
    {
      match this
      case UpdateSeatTool => "update_seat_pure"
      case FlightStatusTool => "flight_status_pure"
      case DisplaySeatMapTool => "display_seat_map_pure"
      case CancelFlightTool => "cancel_flight_pure"
      case FaqLookupTool => "faq_lookup_pure"
      case BaggageLookupTool => "baggage_lookup_pure"
    }

    /** The argument names the tool's signature requires. */
    function Params(): seq<string>
    {
      match this
      case UpdateSeatTool => ["confirmation_number", "new_seat"]
      case FlightStatusTool => ["flight_number"]
      case DisplaySeatMapTool => []
      case CancelFlightTool => ["confirmation_number"]
      case FaqLookupTool => ["question"]
      case BaggageLookupTool => ["query"]
    }
  }

  /** What `tool.invoke(args)` gives: the tool's text, or the validation error it raises. */
  datatype ToolOutcome = Output(text: string) | Failure(error: string)

  /** The first required argument missing from `args`, if any. */
  function FirstMissing(params: seq<string>, args: map<string, string>): (r: Option<string>)
    ensures r == None <==> forall p :: p in params ==> p in args
    ensures r.Some? ==> r.value in params && r.value !in args
  {
    if params == [] then None
    else if params[0] !in args then Some(params[0])
    else FirstMissing(params[1..], args)
  }

  /** The message an argument-validation error carries. */
  function MissingArgument(param: string): string
  {
    "missing required argument: " + param
  }

  /**
   * `tool.invoke(args)`: a missing required argument raises a validation
   * error; otherwise the tool runs on the given arguments (extra ones are
   * ignored).
   */
  function Invoke(tool: Tool, args: map<string, string>): (r: ToolOutcome)
    ensures r.Failure? <==> exists p :: p in tool.Params() && p !in args
    ensures tool == DisplaySeatMapTool ==> r == Output(SeatMapSentinel)
  {
    var missing := FirstMissing(tool.Params(), args);
    if missing.Some? then Failure(MissingArgument(missing.value))
    else
      match tool
      case UpdateSeatTool => Output(UpdateSeat(args["confirmation_number"], args["new_seat"]))
      case FlightStatusTool => Output(FlightStatus(args["flight_number"]))
      case DisplaySeatMapTool => Output(SeatMapSentinel)
      case CancelFlightTool => Output(CancelFlight(args["confirmation_number"]))
      case FaqLookupTool => Output(FaqLookup(args["question"]))
      case BaggageLookupTool => Output(BaggageLookup(args["query"]))
  }
}
