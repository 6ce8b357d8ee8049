/**
 * The airline agent context: five optional customer facts shared by all
 * agents of one conversation and updated in place, plus the "handoff hook"
 * that the seat-booking and cancellation agents run before answering.
 */
module Context {
  import opened Wrappers
  import opened Text

  /**
   * Python truthiness of an optional string field: a field counts as set
   * only when it holds a non-empty string (`None` and `""` are both unset).
   */
  predicate IsSet(f: Option<string>)
  {
    f.Some? && f.value != ""
  }

  /** The value of the five context fields at one moment. */
  datatype Fields = Fields(
    passengerName: Option<string>,
    confirmationNumber: Option<string>,
    seatNumber: Option<string>,
    flightNumber: Option<string>,
    accountNumber: Option<string>)

  const EmptyFields := Fields(None, None, None, None, None)

  /** The characters a generated confirmation number is drawn from: A-Z then 0-9. */
  const ConfirmationAlphabet: string := "ABCDEFGHIJKLMNOPQRSTUVWXYZ0123456789"

  /** A value `random.choices(ascii_uppercase + digits, k=6)` can produce. */
  predicate IsConfirmationCode(code: string)
  {
    |code| == 6 && forall i :: 0 <= i < |code| ==> code[i] in ConfirmationAlphabet
  }

  /** A value `random.randint(100, 999)` can produce. */
  predicate IsFlightDigits(n: nat)
  {
    100 <= n <= 999
  }

  /** A value `random.randint(10000000, 99999999)` can produce. */
  predicate IsAccountDigits(n: nat)
  {
    10000000 <= n <= 99999999
  }

  /** The flight number the hook invents: `f"FLT-{n}"`. */
  function FlightNumberFor(n: nat): string
  {
    "FLT-" + DecimalString(n)
  }

  /** A hook-generated flight number is "FLT-" and three digits that read back as n. */
  lemma FlightNumberShape(n: nat)
    requires IsFlightDigits(n)
    ensures |FlightNumberFor(n)| == 7 && FlightNumberFor(n)[..4] == "FLT-"
    ensures forall i :: 4 <= i < 7 ==> IsDigit(FlightNumberFor(n)[i])
    ensures DigitsValue(FlightNumberFor(n)[4..]) == n
  {
    assert Pow10(2) == 100 && Pow10(3) == 1000;
    DecimalStringLength(n, 3);
    DecimalRoundTrip(n);
    assert FlightNumberFor(n)[4..] == DecimalString(n);
  }

  /**
   * The handoff hook on the field values: it fills `confirmationNumber`
   * with the generated code and `flightNumber` with the generated flight
   * number, each only when unset, and leaves every other field alone.
   */
  function HookFields(f: Fields, code: string, flightDigits: nat): (g: Fields)
    requires IsConfirmationCode(code) && IsFlightDigits(flightDigits)
    ensures IsSet(g.confirmationNumber) && IsSet(g.flightNumber)
    ensures IsSet(f.confirmationNumber) ==> g.confirmationNumber == f.confirmationNumber
    ensures !IsSet(f.confirmationNumber) ==> g.confirmationNumber == Some(code)
    ensures IsSet(f.flightNumber) ==> g.flightNumber == f.flightNumber
    ensures !IsSet(f.flightNumber) ==> g.flightNumber == Some(FlightNumberFor(flightDigits))
    ensures g.passengerName == f.passengerName && g.seatNumber == f.seatNumber
    ensures g.accountNumber == f.accountNumber
  {
    f.(confirmationNumber := if IsSet(f.confirmationNumber) then f.confirmationNumber else Some(code),
       flightNumber := if IsSet(f.flightNumber) then f.flightNumber else Some(FlightNumberFor(flightDigits)))
  }

  /**
   * Running the hook again, with any other random values, changes nothing:
   * a conversation that re-enters seat booking or cancellation keeps the
   * confirmation and flight numbers it was first given.
   */
  lemma HookIdempotent(f: Fields, code: string, n: nat, code2: string, n2: nat)
    requires IsConfirmationCode(code) && IsFlightDigits(n)
    requires IsConfirmationCode(code2) && IsFlightDigits(n2)
    ensures HookFields(HookFields(f, code, n), code2, n2) == HookFields(f, code, n)
  {
  }

  /** The fields of a fresh context from `create_initial_context`: only the account number is set. */
  function InitialFields(accountDigits: nat): (f: Fields)
    requires IsAccountDigits(accountDigits)
    ensures IsSet(f.accountNumber)
    ensures f.passengerName == f.confirmationNumber == f.seatNumber == f.flightNumber == None
  {
    EmptyFields.(accountNumber := Some(DecimalString(accountDigits)))
  }

  /** The generated account number is eight digits that read back as the drawn number. */
  lemma AccountNumberShape(n: nat)
    requires IsAccountDigits(n)
    ensures InitialFields(n).accountNumber.Some?
    ensures |InitialFields(n).accountNumber.value| == 8
    ensures DigitsValue(InitialFields(n).accountNumber.value) == n
  {
    assert Pow10(7) == 10000000 && Pow10(8) == 100000000;
    DecimalStringLength(n, 8);
    DecimalRoundTrip(n);
  }

  /** `AirlineAgentContext`: a mutable record of the five optional customer facts. */
  class AgentContext {
    var passengerName: Option<string>
    var confirmationNumber: Option<string>
    var seatNumber: Option<string>
    var flightNumber: Option<string>
    var accountNumber: Option<string>

    /** `AirlineAgentContext()`: every field `None`. */
    constructor ()
      ensures Snapshot() == EmptyFields
    {
      passengerName, confirmationNumber, seatNumber := None, None, None;
      flightNumber, accountNumber := None, None;
    }

    function Snapshot(): Fields
      reads this
    {
      Fields(passengerName, confirmationNumber, seatNumber, flightNumber, accountNumber)
    }

    /**
     * The seat-booking and cancellation handoff hook, run on the shared
     * context in place. `code` and `flightDigits` stand for the values the
     * source draws at random.
     */
    method ApplyHandoffHook(code: string, flightDigits: nat)
      requires IsConfirmationCode(code) && IsFlightDigits(flightDigits)
      modifies this
      ensures Snapshot() == HookFields(old(Snapshot()), code, flightDigits)
    {
      if !IsSet(confirmationNumber) {
        confirmationNumber := Some(code);
      }
      if !IsSet(flightNumber) {
        flightNumber := Some(FlightNumberFor(flightDigits));
      }
    }
  }

  /** `create_initial_context`: a fresh context whose account number is the drawn number. */
  method CreateInitialContext(accountDigits: nat) returns (c: AgentContext)
    requires IsAccountDigits(accountDigits)
    ensures fresh(c) && c.Snapshot() == InitialFields(accountDigits)
  {
    c := new AgentContext();
    c.accountNumber := Some(DecimalString(accountDigits));
  }
}
