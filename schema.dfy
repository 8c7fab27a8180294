/** The request validator of lib/schema.ts (`calculatorSchema`): bounds on the
    amount and the weekly hours, and closed vocabularies for the unit, the
    direction and the status. A request arrives as text and coerced numbers;
    a valid one is read into the typed `Convert.Input`. */
module Schema {
  import opened Wrappers
  import Convert

  /** The outcome of `z.coerce.number()`: a number, or NaN (rejected). */
  datatype Coerced = Number(value: real) | NotANumber

  /** A request as it reaches the schema; an absent `hoursPerWeek` is `None`. */
  datatype Request = Request(
    amount: Coerced,
    unit: string,
    direction: string,
    status: string,
    hoursPerWeek: Option<Coerced>)

  const MIN_AMOUNT: real := 0.0
  const MAX_AMOUNT: real := 1000000.0
  const MIN_HOURS: real := 1.0
  const MAX_HOURS: real := 50.0

  const UNITS: set<string> := {"hourly", "daily", "monthly", "yearly"}
  const DIRECTIONS: set<string> := {"brut", "net"}
  const STATUSES: set<string> := {"CDI", "CDD", "FONCTION_PUBLIQUE", "ALTERNANCE", "AUTO_ENTREPRENEUR"}

  predicate InRange(c: Coerced, lo: real, hi: real)
  {
    c.Number? && lo <= c.value <= hi
  }

  /** What `calculatorSchema` accepts: both bounds of each range are inclusive,
      and the hours may be absent. */
  predicate Valid(req: Request)
  {
    && InRange(req.amount, MIN_AMOUNT, MAX_AMOUNT)
    && req.unit in UNITS
    && req.direction in DIRECTIONS
    && req.status in STATUSES
    && (req.hoursPerWeek.Some? ==> InRange(req.hoursPerWeek.value, MIN_HOURS, MAX_HOURS))
  }

  function ParseUnit(s: string): (r: Option<Convert.Unit>)
    ensures r.Some? <==> s in UNITS
  {
    match s
    case "hourly" => Some(Convert.Hourly)
    case "daily" => Some(Convert.Daily)
    case "monthly" => Some(Convert.Monthly)
    case "yearly" => Some(Convert.Yearly)
    case _ => None
  }

  function ParseDirection(s: string): (r: Option<Convert.Direction>)
    ensures r.Some? <==> s in DIRECTIONS
  {
    match s
    case "brut" => Some(Convert.Brut)
    case "net" => Some(Convert.Net)
    case _ => None
  }

  function ParseStatus(s: string): (r: Option<Convert.Status>)
    ensures r.Some? <==> s in STATUSES
  {
    match s
    case "CDI" => Some(Convert.CDI)
    case "CDD" => Some(Convert.CDD)
    case "FONCTION_PUBLIQUE" => Some(Convert.FONCTION_PUBLIQUE)
    case "ALTERNANCE" => Some(Convert.ALTERNANCE)
    case "AUTO_ENTREPRENEUR" => Some(Convert.AUTO_ENTREPRENEUR)
    case _ => None
  }

  function UnitName(u: Convert.Unit): string
  {
    match u
    case Hourly => "hourly"
    case Daily => "daily"
    case Monthly => "monthly"
    case Yearly => "yearly"
  }

  function DirectionName(d: Convert.Direction): string
  {
    match d
    case Brut => "brut"
    case Net => "net"
  }

  function StatusName(s: Convert.Status): string
  {
    match s
    case CDI => "CDI"
    case CDD => "CDD"
    case FONCTION_PUBLIQUE => "FONCTION_PUBLIQUE"
    case ALTERNANCE => "ALTERNANCE"
    case AUTO_ENTREPRENEUR => "AUTO_ENTREPRENEUR"
  }

  /** `calculatorSchema.safeParse`: the typed input, or `None` when a check
      fails; parsing succeeds exactly on the valid requests. */
  function Parse(req: Request): (r: Option<Convert.Input>)
    ensures r.Some? <==> Valid(req)
  {
    if !InRange(req.amount, MIN_AMOUNT, MAX_AMOUNT) then None
    else if req.hoursPerWeek.Some? && !InRange(req.hoursPerWeek.value, MIN_HOURS, MAX_HOURS) then None
    else
      match (ParseUnit(req.unit), ParseDirection(req.direction), ParseStatus(req.status))
      case (Some(u), Some(d), Some(s)) =>
        var hours := if req.hoursPerWeek.Some? then Some(req.hoursPerWeek.value.value) else None;
        Some(Convert.Input(req.amount.value, u, d, s, hours))
      case _ => None
  }

  /** The request a typed input is written as. */
  function Render(input: Convert.Input): Request
  {
    Request(
      Number(input.amount),
      UnitName(input.unit),
      DirectionName(input.direction),
      StatusName(input.status),
      if input.hoursPerWeek.Some? then Some(Number(input.hoursPerWeek.value)) else None)
  }

  /** The typed inputs the schema admits. */
  predicate InBounds(input: Convert.Input)
  {
    && MIN_AMOUNT <= input.amount <= MAX_AMOUNT
    && (input.hoursPerWeek.Some? ==> MIN_HOURS <= input.hoursPerWeek.value <= MAX_HOURS)
  }

  /** A valid request is written back exactly as it came, and what it parses
      to is within bounds. */
  lemma ParseThenRender(req: Request)
    requires Valid(req)
    ensures Parse(req).Some? && Render(Parse(req).value) == req
    ensures InBounds(Parse(req).value)
  {
    assert req.unit in UNITS;
    assert req.direction in DIRECTIONS;
    assert req.status in STATUSES;
  }

  /** A typed input within bounds is valid once written, and reads back as itself. */
  lemma RenderThenParse(input: Convert.Input)
    requires InBounds(input)
    ensures Valid(Render(input))
    ensures Parse(Render(input)) == Some(input)
  {
    match input.unit { case Hourly => case Daily => case Monthly => case Yearly => }
    match input.status {
      case CDI => case CDD => case FONCTION_PUBLIQUE => case ALTERNANCE => case AUTO_ENTREPRENEUR =>
    }
  }

  /** Among requests alike in every other field, the amount rule alone decides:
      a number in [0, 1 000 000], both bounds included; NaN is rejected. */
  lemma AmountBounds(req: Request)
    ensures Valid(req) <==>
            && req.amount.Number? && 0.0 <= req.amount.value <= 1000000.0
            && Valid(req.(amount := Number(0.0)))
  {
  }

  /** Given weekly hours are accepted exactly when they are a number in [1, 50]
      and the rest of the request is valid without them. */
  lemma HoursBounds(req: Request, h: Coerced)
    requires req.hoursPerWeek == Some(h)
    ensures Valid(req) <==>
            && h.Number? && 1.0 <= h.value <= 50.0
            && Valid(req.(hoursPerWeek := None))
  {
  }

  /** The form's hours slider goes down to 0, which the schema rejects. */
  lemma ZeroHoursRejected(req: Request)
    requires req.hoursPerWeek == Some(Number(0.0))
    ensures !Valid(req) && Parse(req).None?
  {
  }
}
