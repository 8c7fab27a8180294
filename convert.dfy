/** The reference converter of lib/convert.ts: a placeholder that turns one
    amount into gross and net grids with fixed ratios, ignoring the unit, the
    status and the weekly hours. The request vocabulary declared here (status,
    unit, direction, the four-figure grid) is the one lib/hooks/useCalculator.ts
    and lib/schema.ts import. */
module Convert {
  import opened Wrappers

  /** The five employment statuses of the `Input` type. */
  datatype Status = CDI | CDD | FONCTION_PUBLIQUE | ALTERNANCE | AUTO_ENTREPRENEUR

  /** The time basis an amount is expressed in. */
  datatype Unit = Hourly | Daily | Monthly | Yearly

  /** Whether an amount is gross ("brut") or net. */
  datatype Direction = Brut | Net

  datatype Input = Input(
    amount: real,
    unit: Unit,
    direction: Direction,
    status: Status,
    hoursPerWeek: Option<real>)

  /** One figure per time basis. */
  datatype Grid = Grid(hourly: real, daily: real, monthly: real, yearly: real)
  {
    function At(u: Unit): real
    {
      match u
      case Hourly => hourly
      case Daily => daily
      case Monthly => monthly
      case Yearly => yearly
    }

    function Scale(k: real): Grid
    {
      Grid(k * hourly, k * daily, k * monthly, k * yearly)
    }
  }

  datatype Urssaf = Urssaf(employee: real, employer: real)

  datatype ChargeDetails = ChargeDetails(urssaf: Urssaf, csg: real, crds: real, total: real)
  {
    function Scale(k: real): ChargeDetails
    {
      ChargeDetails(Urssaf(k * urssaf.employee, k * urssaf.employer), k * csg, k * crds, k * total)
    }
  }

  datatype Output = Output(brut: Grid, net: Grid, details: Option<ChargeDetails>)

  /** Gross-to-net and net-to-gross ratios. */
  const BRUT_TO_NET: real := 0.78
  const NET_TO_BRUT: real := 1.22

  /** Hours in a day, in a month and in a year, as fixed multipliers. */
  const DAY_FACTOR: real := 7.0
  const MONTH_FACTOR: real := 151.67
  const YEAR_FACTOR: real := 1820.0

  /** The grid shape: every period is a fixed multiple of the hourly figure. */
  predicate Expanded(g: Grid)
  {
    && g.daily == DAY_FACTOR * g.hourly
    && g.monthly == MONTH_FACTOR * g.hourly
    && g.yearly == YEAR_FACTOR * g.hourly
  }

  /** `convert`: the entered amount is taken as the hourly figure on its own
      side; the other side's hourly figure is the amount times the ratio of the
      direction; both sides are expanded with the fixed multipliers, and the
      charge details are fixed fractions of the converted amount: of the net
      figure when a gross is entered, of the gross when a net is entered. */
  function Convert(input: Input): (out: Output)
    ensures input.direction == Brut ==>
      out.brut.hourly == input.amount && out.net.hourly == BRUT_TO_NET * input.amount
    ensures input.direction == Net ==>
      out.net.hourly == input.amount && out.brut.hourly == NET_TO_BRUT * input.amount
    ensures Expanded(out.brut) && Expanded(out.net)
    ensures out.details.Some?
    ensures input.direction == Brut ==> out.details == Some(DetailsFrom(out.net.hourly))
    ensures input.direction == Net ==> out.details == Some(DetailsFrom(out.brut.hourly))
  {
    var isBrut := input.direction == Brut;
    var isNet := input.direction == Net;
    var ratio := if isBrut then BRUT_TO_NET else NET_TO_BRUT;
    var amount := input.amount * ratio;
    Output(
      Grid(
        if isBrut then input.amount else amount,
        if isBrut then input.amount * 7.0 else amount * 7.0,
        if isBrut then input.amount * 151.67 else amount * 151.67,
        if isBrut then input.amount * 1820.0 else amount * 1820.0),
      Grid(
        if isNet then input.amount else amount,
        if isNet then input.amount * 7.0 else amount * 7.0,
        if isNet then input.amount * 151.67 else amount * 151.67,
        if isNet then input.amount * 1820.0 else amount * 1820.0),
      Some(ChargeDetails(
        Urssaf(amount * 0.22, amount * 0.42),
        amount * 0.098,
        amount * 0.005,
        amount * 0.743)))
  }

  /** On either side, a year is 260 days. */
  lemma YearIsTwoHundredSixtyDays(input: Input)
    ensures Convert(input).brut.yearly == 260.0 * Convert(input).brut.daily
    ensures Convert(input).net.yearly == 260.0 * Convert(input).net.daily
  {
  }

  /** Converting gross to net and the net figure back to gross does not give
      the original amount back: 0.78 * 1.22 = 0.9516. */
  lemma DirectionsNotInverse(input: Input)
    requires input.direction == Brut && input.amount != 0.0
    ensures var back := Convert(input.(amount := Convert(input).net.hourly, direction := Net));
            back.brut.hourly == 0.9516 * input.amount
    ensures var back := Convert(input.(amount := Convert(input).net.hourly, direction := Net));
            back.brut.hourly != input.amount
  {
  }

  /** The result depends on the amount and the direction only: the unit, the
      status and the weekly hours are ignored. */
  lemma OnlyAmountAndDirectionMatter(x: Input, y: Input)
    requires x.amount == y.amount && x.direction == y.direction
    ensures Convert(x) == Convert(y)
  {
  }

  /** The charge total is the sum of its four parts (0.22 + 0.42 + 0.098 + 0.005 = 0.743). */
  lemma DetailsTotalIsSum(input: Input)
    ensures var d := Convert(input).details.value;
            d.total == d.urssaf.employee + d.urssaf.employer + d.csg + d.crds
  {
  }

  /** Every figure of the output is linear in the amount. */
  lemma Linear(input: Input, k: real)
    ensures Convert(input.(amount := k * input.amount)).brut == Convert(input).brut.Scale(k)
    ensures Convert(input.(amount := k * input.amount)).net == Convert(input).net.Scale(k)
    ensures Convert(input.(amount := k * input.amount)).details.value == Convert(input).details.value.Scale(k)
  {
    LinearGross(input, k);
    LinearNet(input, k);
    LinearDetails(input, k);
  }

  lemma LinearGross(input: Input, k: real)
    ensures Convert(input.(amount := k * input.amount)).brut == Convert(input).brut.Scale(k)
  {
    Shape(input);
    Shape(input.(amount := k * input.amount));
  }

  lemma LinearNet(input: Input, k: real)
    ensures Convert(input.(amount := k * input.amount)).net == Convert(input).net.Scale(k)
  {
    Shape(input);
    Shape(input.(amount := k * input.amount));
  }

  lemma LinearDetails(input: Input, k: real)
    ensures Convert(input.(amount := k * input.amount)).details.value == Convert(input).details.value.Scale(k)
  {
    Shape(input);
    Shape(input.(amount := k * input.amount));
  }

  /** The gross-to-net or net-to-gross ratio a direction applies. */
  function Ratio(d: Direction): real
  {
    if d == Brut then BRUT_TO_NET else NET_TO_BRUT
  }

  /** The output, side by side: the entered side expands the amount, the other
      side expands the converted amount, and the details follow the converted amount. */
  lemma Shape(input: Input)
    ensures var m := input.amount * Ratio(input.direction);
            var out := Convert(input);
            && out.brut == (if input.direction == Brut then GridFrom(input.amount) else GridFrom(m))
            && out.net == (if input.direction == Net then GridFrom(input.amount) else GridFrom(m))
            && out.details.value == DetailsFrom(m)
  {
  }

  /** The grid whose hourly figure is `x`. */
  function GridFrom(x: real): Grid
  {
    Grid(x, x * 7.0, x * 151.67, x * 1820.0)
  }

  /** The charge details of a converted amount `m`. */
  function DetailsFrom(m: real): ChargeDetails
  {
    ChargeDetails(Urssaf(m * 0.22, m * 0.42), m * 0.098, m * 0.005, m * 0.743)
  }

  /** A zero amount gives an all-zero output. */
  lemma ZeroInZeroOut(input: Input)
    requires input.amount == 0.0
    ensures var out := Convert(input);
            && out.brut == Grid(0.0, 0.0, 0.0, 0.0)
            && out.net == Grid(0.0, 0.0, 0.0, 0.0)
            && out.details == Some(ChargeDetails(Urssaf(0.0, 0.0), 0.0, 0.0, 0.0))
  {
  }

  predicate NonNegativeGrid(g: Grid)
  {
    g.hourly >= 0.0 && g.daily >= 0.0 && g.monthly >= 0.0 && g.yearly >= 0.0
  }

  /** A non-negative amount gives non-negative figures everywhere. */
  lemma NonNegativeInNonNegativeOut(input: Input)
    requires input.amount >= 0.0
    ensures var out := Convert(input);
            var d := out.details.value;
            && NonNegativeGrid(out.brut) && NonNegativeGrid(out.net)
            && d.urssaf.employee >= 0.0 && d.urssaf.employer >= 0.0
            && d.csg >= 0.0 && d.crds >= 0.0 && d.total >= 0.0
  {
  }
}
