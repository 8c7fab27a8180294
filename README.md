# DuBrutAuNet salary arithmetic, in Dafny

DuBrutAuNet is a French gross-to-net ("brut" to "net") salary calculator.
This project models its arithmetic core and proves properties of it:

- **`calculator.dfy`** (`lib/hooks/useCalculator.ts`): the calculator hook.
  - The five state cells (status, income-tax rate, work percentage, yearly
    bonus "prime", and the entered `{direction, period, value}`) are a
    class, `CalculatorState`, whose setters update one field each.
  - Everything the hook derives is a function of a snapshot of those cells:
    - the weekly hours
    - the hourly gross from a figure of any period, entered as gross or as net
    - the four gross and four net figures
    - the yearly net plus prime
    - the `values` record, which echoes the raw entry in the entered cell
  - Text typed by the user is cleaned exactly as `handleValueChange` cleans
    it: only digits, `.` and `,` are kept, and `,` becomes `.`.
  - JavaScript's `Number(...)` is modelled on such cleaned text: the empty
    text is 0; more than one `.` or a lone `.` is NaN.
- **`convert.dfy`** (`lib/convert.ts`): the stand-alone `convert` function.
  - It uses a fixed ratio of 0.78 gross to net, or 1.22 net to gross.
  - It uses fixed hour factors: 7 per day, 151.67 per month, 1820 per year.
  - It returns a fixed split of contributions.
  - As written, it ignores the unit, the status and the weekly hours of
    its input.
  - The two ratios are not inverse: `DirectionsNotInverse` proves that a
    round trip gives back 0.9516 times the amount.
- **`schema.dfy`** (`lib/schema.ts`): the request validation.
  - The amount is in [0, 1 000 000], after coercion to a number.
  - The unit, direction and status belong to their enumerations.
  - The optional weekly hours are in [1, 50].
  - Validation is modelled as a parser into `Convert.Input`, with a
    renderer back.
- **`breakdown.dfy`** (`components/ChargeBreakdown.tsx`): the contribution
  card.
  - Its tables are keyed by six statuses of their own: the global rate, the
    itemised rates with their labels, and the average net with its source.
  - The figures it shows are the contributions, the income tax, the net
    after tax, the width of the net bar, the percentage of the average
    net, and the amount of each item line.
  - The component is typed with the calculator's five statuses. Only
    `FONCTION_PUBLIQUE` and `AUTO_ENTREPRENEUR` are keys of its tables, so
    for `CDI`, `CDD` and `ALTERNANCE` the lookup finds nothing
    (`CalculatorStatusesFound`).
- **`freelance.dfy`** (`components/FreelanceComparator.tsx`): the comparison
  with a micro-entrepreneur.
  - The "super-brut" is the gross plus 45 % employer charges.
  - The micro-entrepreneur's net is that amount less 21.2 % contributions
    and less the same income tax.
  - The model gives the difference to the salaried net, its sign and its
    percentage.
- **`pyramid.dfy`** (`components/SocialPyramid.tsx`): the salary-position
  chart.
  - The 20-point density table, `interpolateDensity`, the percentage scale
    and the label clamp.
  - The chart points and the position of the user's dot.

`wrappers.dfy` holds the `Option` type.

## Model

| member | source | states |
|---|---|---|
| Convert.Convert | lib/convert.ts:41-69 | the entered side keeps the amount as its hourly figure and the other side gets 0.78 (gross entered) or 1.22 (net entered) times it; both sides are expanded by 7 / 151.67 / 1820 hours; the details are always present and are fixed fractions of the other side's hourly figure: of the net for a gross entry, of the gross for a net entry |
| Convert.YearIsTwoHundredSixtyDays | lib/convert.ts:46-59 | on both sides the yearly figure is 260 times the daily one (1820 = 7 × 260) |
| Convert.DirectionsNotInverse | lib/convert.ts:42-43 | converting a gross amount to net and that net back to gross yields 0.9516 times the amount, never the amount itself |
| Convert.OnlyAmountAndDirectionMatter | lib/convert.ts:1-12 | two inputs with the same amount and direction convert identically, whatever their unit, status and weekly hours |
| Convert.DetailsTotalIsSum | lib/convert.ts:60-68 | the total of the details is the sum of employee URSSAF, employer URSSAF, CSG and CRDS (0.22 + 0.42 + 0.098 + 0.005 = 0.743) |
| Convert.Linear | lib/convert.ts:41-69 | scaling the amount by k scales every gross figure, every net figure and every detail by k |
| Convert.LinearGross | lib/convert.ts:46-52 | scaling the amount by k scales the gross grid by k |
| Convert.LinearNet | lib/convert.ts:53-59 | scaling the amount by k scales the net grid by k |
| Convert.LinearDetails | lib/convert.ts:60-68 | scaling the amount by k scales every contribution detail by k |
| Convert.ZeroInZeroOut | lib/convert.ts:41-69 | a zero amount gives all-zero grids and all-zero details |
| Convert.NonNegativeInNonNegativeOut | lib/convert.ts:41-69 | a non-negative amount gives non-negative figures and details |
| Calculator.ChargesSociales | lib/hooks/useCalculator.ts:10-16 | every status's contribution rate lies in [0, 1) |
| Calculator.Round | lib/hooks/useCalculator.ts:36-39 | `Math.round`: the integer nearest to x, halves rounded up |
| Calculator.HoursPerWeek | lib/hooks/useCalculator.ts:36-39 | the weekly hours are 35 × work % / 100 rounded to the nearest integer (within ½ of it); not negative for a non-negative percentage, at most 35 up to 100 % |
| Calculator.SliderHoursRoundTrip | components/CalculatorForm.tsx:476-487 | setting the work percentage from a slider value of h hours (h / 35 × 100) gives back exactly h weekly hours |
| Calculator.Clean | lib/hooks/useCalculator.ts:148 | the cleaned text holds only digits and dots and is no longer than the entry |
| Calculator.CleanAppend | lib/hooks/useCalculator.ts:148 | cleaning works character by character: cleaning a concatenation concatenates the cleanings |
| Calculator.CleanChar | lib/hooks/useCalculator.ts:148 | one character: a digit or '.' is kept, ',' becomes '.', anything else is dropped (with `CleanAppend`, this fixes the cleaning of every text) |
| Calculator.CleanKeepsCleanText | lib/hooks/useCalculator.ts:148 | text made only of digits and dots is left as it is |
| Calculator.CleanIdempotent | lib/hooks/useCalculator.ts:148 | cleaning twice is cleaning once |
| Calculator.JsNumber | lib/hooks/useCalculator.ts:60-67 | `Number(...)` of a cleaned text: a number is never negative, and a text of digits alone reads as its decimal value (the empty text as 0); `JsNumberNaN` and `JsNumberDecimal` give the other cases |
| Calculator.JsNumberNaN | lib/hooks/useCalculator.ts:60-62 | a cleaned text is NaN exactly when it is a lone '.' or holds two dots |
| Calculator.JsNumberDecimal | lib/hooks/useCalculator.ts:60-67 | a text with one dot reads as the digits without the dot, as one whole number, divided by 10 to the number of digits after the dot |
| Calculator.JsNumberRejects | lib/hooks/useCalculator.ts:60 | a lone dot and a text with two dots are NaN |
| Calculator.JsNumberReadsDecimals | lib/hooks/useCalculator.ts:60-67 | "12.5" reads as 12.5 and ".5" as 0.5 |
| Calculator.Numeric | lib/hooks/useCalculator.ts:60-67 | the empty text is treated as no number; any other text is read by `Number(...)` (NaN being no number); a number is taken as it is |
| Calculator.GetBrutFrom | lib/hooks/useCalculator.ts:44-56 | an hourly figure is kept; other periods are divided by their hours, so multiplying back gives the figure; with 0 weekly hours they give 0 |
| Calculator.BrutFromNet | lib/hooks/useCalculator.ts:18-21 | the gross whose net, after charges and tax, is the given net |
| Calculator.CalcNet | lib/hooks/useCalculator.ts:80-88 | an empty or non-numeric gross gives a net of 0 |
| Calculator.NetInvertsBrutFromNet | lib/hooks/useCalculator.ts:18-21 | `calcNet` of `brutFromNet(net)` is the net |
| Calculator.BrutFromNetInvertsNet | lib/hooks/useCalculator.ts:80-88 | `brutFromNet` of `calcNet(brut)` is the gross |
| Calculator.Expand | lib/hooks/useCalculator.ts:71-76 | each figure of the gross grid is the hourly gross times the hours in its period (1, h/7, 52h/12, 52h) |
| Calculator.BaseBrut | lib/hooks/useCalculator.ts:63-70 | with weekly hours, or for an hourly entry, the hourly gross times the hours of the entered period is the entered gross, or for a net entry the gross `brutFromNet` gives for it; with 0 weekly hours and a period other than the hour it is 0 |
| Calculator.BrutGrid | lib/hooks/useCalculator.ts:59-77 | an empty or NaN entry gives four zeros; otherwise every gross figure is the hourly base times the hours in its period |
| Calculator.NetOf | lib/hooks/useCalculator.ts:90-96 | every net figure is its gross figure times (1 − charges)(1 − tax) |
| Calculator.NetGrid | lib/hooks/useCalculator.ts:90-96 | the net of each period is the gross of that period times (1 − charges)(1 − tax) |
| Calculator.AnnualNetWithPrime | lib/hooks/useCalculator.ts:97-100 | `calcNet` of the yearly gross, plus the prime, which itself goes through no contribution and no tax |
| Calculator.RatesInvertible | lib/hooks/useCalculator.ts:40-41 | for any tax rate other than 100 %, charges and tax leave a non-zero share of the gross |
| Calculator.NoNumberAllZero | lib/hooks/useCalculator.ts:60-62 | an empty or non-numeric entry zeroes every gross and every net figure |
| Calculator.BrutGridProportional | lib/hooks/useCalculator.ts:71-76 | daily, monthly and yearly gross are the hourly gross times h/7, 52h/12 and 52h; a year is twelve months |
| Calculator.ExpandProportional | lib/hooks/useCalculator.ts:71-76 | the same proportions for any hourly figure and weekly hours |
| Calculator.ZeroHoursKeepsHourly | lib/hooks/useCalculator.ts:44-56 | with 0 weekly hours an hourly gross entry is kept and the other gross figures are 0; a gross entry of any other period zeroes the grid |
| Calculator.EnteredFigureRecomputed | lib/hooks/useCalculator.ts:59-96 | with weekly hours, or for an hourly entry whatever the hours, the grid recomputed from an entry gives back the entered number in the entered period and direction |
| Calculator.ExpandRecovers | lib/hooks/useCalculator.ts:44-76 | expanding the hourly gross of a period's figure gives that figure back: for every period with weekly hours, for the hour always |
| Calculator.PrimeAddedUntaxed | lib/hooks/useCalculator.ts:97-100 | the prime is added to the yearly net as it is: changing it changes the total by the same amount |
| Calculator.DisplayValues | lib/hooks/useCalculator.ts:104-142 | the entered gross cell echoes the raw entry; every other gross cell is the computed figure; `net` and `rawNet` are the net grid and `rawBrut` the gross grid |
| Calculator.Derive | lib/hooks/useCalculator.ts:154-164 | the hook returns the `values` record, the status, tax rate, work percentage and prime as they are, the weekly hours of the work percentage, and a yearly total equal to the raw yearly net plus the prime |
| Calculator.CalculatorState.constructor | lib/hooks/useCalculator.ts:24-34 | the initial cells: CDI, 14 % tax, 100 % work, no prime, the 2025 hourly SMIC (11.65) entered as gross |
| Calculator.CalculatorState.SetStatus | lib/hooks/useCalculator.ts:24 | replaces the status and nothing else; every entered text stays cleaned |
| Calculator.CalculatorState.SetTaxRate | lib/hooks/useCalculator.ts:25 | replaces the tax rate and nothing else; every entered text stays cleaned |
| Calculator.CalculatorState.SetWorkPercent | lib/hooks/useCalculator.ts:26 | replaces the work percentage and nothing else; every entered text stays cleaned |
| Calculator.CalculatorState.SetPrime | lib/hooks/useCalculator.ts:27 | replaces the prime and nothing else; every entered text stays cleaned |
| Calculator.CalculatorState.HandleValueChange | lib/hooks/useCalculator.ts:144-152 | the entry becomes the cleaned text with the given period and direction; the other cells are unchanged |
| Calculator.CalculatorState.Current | lib/hooks/useCalculator.ts:154-164 | what the hook returns for the current cells: the status, tax rate, work percentage and prime as they are, the weekly hours of the work percentage, the displayed and raw gross and net grids of the current entry (`DisplayValues`), and a yearly total equal to that raw yearly net plus the prime |
| Schema.ParseUnit | lib/schema.ts:8-10 | a unit is accepted exactly when it is one of the four unit names |
| Schema.ParseDirection | lib/schema.ts:11-13 | a direction is accepted exactly when it is "brut" or "net" |
| Schema.ParseStatus | lib/schema.ts:14-19 | a status is accepted exactly when it is one of the five status names |
| Schema.Valid | lib/schema.ts:3-25 | what the schema accepts (no contract of its own: `AmountBounds`, `HoursBounds` and `ZeroHoursRejected` state its rules one field at a time) |
| Schema.Parse | lib/schema.ts:3-25 | a request parses exactly when every field satisfies its rule |
| Schema.Render | lib/schema.ts:3-25 | the request an input is written as (no contract of its own: `ParseThenRender` and `RenderThenParse` prove it inverse to `Parse`) |
| Schema.ParseThenRender | lib/schema.ts:3-25 | a valid request parses to an input within the bounds, and rendering that input gives the request back |
| Schema.RenderThenParse | lib/schema.ts:3-25 | rendering an input within the bounds gives a valid request that parses back to that input |
| Schema.AmountBounds | lib/schema.ts:4-7 | whatever the other fields, the amount rule alone decides: a number in [0, 1 000 000], both bounds included; NaN is rejected |
| Schema.HoursBounds | lib/schema.ts:20-24 | given weekly hours are accepted exactly when they are a number in [1, 50] and the rest of the request is valid |
| Schema.ZeroHoursRejected | lib/schema.ts:20-24 | 0 weekly hours, when given, are rejected |
| Breakdown.Lookup | components/ChargeBreakdown.tsx:140 | indexing the tables finds a status exactly when the name is that status's key |
| Breakdown.CalculatorStatusesFound | components/ChargeBreakdown.tsx:127-140 | of the five statuses the component is typed with, only FONCTION_PUBLIQUE and AUTO_ENTREPRENEUR are found |
| Breakdown.GlobalRate | components/ChargeBreakdown.tsx:44-51 | every global contribution rate lies in [0, 1) |
| Breakdown.AverageNetOf | components/ChargeBreakdown.tsx:12-42 | every average net is positive |
| Breakdown.AverageNetValue | components/ChargeBreakdown.tsx:12-42 | every average net is at least 1650 € a month |
| Breakdown.LabelsOf | components/ChargeBreakdown.tsx:53-125 | the title and the labelled item rates of each status, as data (their sums are compared with the global rate by `ItemRatesMatchGlobalOnlyForMicro`) |
| Breakdown.ItemAmounts | components/ChargeBreakdown.tsx:273-288 | one line per item, each the gross times the item's rate |
| Breakdown.ItemAmountsSum | components/ChargeBreakdown.tsx:273-288 | the item lines add up to the gross times the sum of the item rates |
| Breakdown.Contributions | components/ChargeBreakdown.tsx:161 | the gross at the global rate (with the next two, it adds up to the gross: `PartsAddUpToBrut`) |
| Breakdown.IncomeTax | components/ChargeBreakdown.tsx:174-176 | the tax rate, as a percentage, of what contributions leave (see `PartsAddUpToBrut`) |
| Breakdown.NetAfterTax | components/ChargeBreakdown.tsx:188-190 | what contributions leave, less the tax (see `PartsAddUpToBrut`) |
| Breakdown.NetBarWidth | components/ChargeBreakdown.tsx:203-208 | the net after tax as a percentage of the gross (its value for every gross is given by `NetBarIndependentOfBrut`) |
| Breakdown.AveragePercent | components/ChargeBreakdown.tsx:225-230 | the net after tax as a percentage of the average net (its meaning is given by `AveragePercentScale`) |
| Breakdown.Compute | components/ChargeBreakdown.tsx:140-148 | no figures exactly when the gross is absent or 0; otherwise each figure is the one its function gives for that gross, status and tax rate |
| Breakdown.PartsAddUpToBrut | components/ChargeBreakdown.tsx:161-190 | contributions, income tax and net after tax add up to the gross |
| Breakdown.NetBarIndependentOfBrut | components/ChargeBreakdown.tsx:203-208 | the net bar is (1 − rate)(1 − tax) × 100 whatever the gross, within [0, 100] for a tax rate in [0, 100] |
| Breakdown.AveragePercentScale | components/ChargeBreakdown.tsx:225-230 | the percentage times the average is 100 × the net after tax, and it is 100 exactly when the net equals the average |
| Breakdown.ItemRatesMatchGlobalOnlyForMicro | components/ChargeBreakdown.tsx:44-125 | the item rates add up to the global rate only for AUTO_ENTREPRENEUR; the non-cadre items add up to 0.2115 against 0.22 |
| Freelance.DiffPct | components/FreelanceComparator.tsx:65 | for a positive salaried net, the percentage times that net is 100 × the difference; otherwise 0 |
| Freelance.SuperBrut | components/FreelanceComparator.tsx:58 | the gross plus 45 % employer charges (closed form of the chain in `NetAEClosedForm`) |
| Freelance.NetAEAvantIR | components/FreelanceComparator.tsx:59 | the super-brut less 21.2 % contributions (see `NetAEClosedForm`) |
| Freelance.NetAE | components/FreelanceComparator.tsx:60 | that net less the income tax (`NetAEClosedForm`, `NetAEBounds`) |
| Freelance.Compare | components/FreelanceComparator.tsx:46-65 | nothing exactly when the status is excluded or the gross is not positive; otherwise super-brut = 1.45 × gross, the two nets are those of `NetAEAvantIR` and `NetAE`, diff = net AE − salaried net, positive exactly when net AE ≥ salaried net, and the percentage is `DiffPct` of the difference |
| Freelance.NetAEClosedForm | components/FreelanceComparator.tsx:58-60 | the micro-entrepreneur's net is 1.1426 × gross × (1 − tax/100) |
| Freelance.NetAEBounds | components/FreelanceComparator.tsx:58-60 | for a positive gross and a tax rate in [0, 100] that net is non-negative and does not increase with the tax rate |
| Freelance.DiffPctSign | components/FreelanceComparator.tsx:63-65 | the percentage has the sign of the difference |
| Pyramid.DistributionIncreasing | components/SocialPyramid.tsx:26-47 | the table has 20 points, strictly increasing in salary, from (0, 0) to (7000, 0.1) |
| Pyramid.DistributionWithinScale | components/SocialPyramid.tsx:19-47 | every point has a salary in [0, 7000] and a density in [0, 14] |
| Pyramid.IncreasingPairwise | components/SocialPyramid.tsx:26-47 | in an increasing table, every earlier salary is below every later one |
| Pyramid.Lerp | components/SocialPyramid.tsx:74-75 | the linear interpolation within one segment (bounded by `LerpBetween`) |
| Pyramid.Scan | components/SocialPyramid.tsx:70-78 | the loop as a recursion from segment i on, which `InterpolateIn` is proved equal to (`ScanFindsSegment`, `ScanBelowTable`, `ScanBounded`, `ScanAtBreakpoint` state its properties) |
| Pyramid.DensityAt | components/SocialPyramid.tsx:68-79 | the value of `interpolateDensity`, which `InterpolateDensity` is proved to return (its properties: the `Density…` lemmas below) |
| Pyramid.InterpolateIn | components/SocialPyramid.tsx:70-78 | the loop returns the interpolation in the first segment that holds the salary, or 0 when none does |
| Pyramid.InterpolateDensity | components/SocialPyramid.tsx:68-79 | the density of the salary capped at 7000 is looked up in the table |
| Pyramid.ScanFindsSegment | components/SocialPyramid.tsx:70-76 | when the salary lies in segment k and in no earlier one, the scan returns the interpolation in segment k |
| Pyramid.ScanBelowTable | components/SocialPyramid.tsx:70-78 | a salary below the first point falls in no segment and gives 0 |
| Pyramid.LerpBetween | components/SocialPyramid.tsx:74-75 | the interpolated density lies between the two densities of its segment |
| Pyramid.ScanBounded | components/SocialPyramid.tsx:70-78 | with every density in [0, m], so is the scan |
| Pyramid.ScanAtBreakpoint | components/SocialPyramid.tsx:70-78 | at a point's own salary, the scan returns that point's density |
| Pyramid.DensityAtBreakpoint | components/SocialPyramid.tsx:68-79 | at each salary of the table, `interpolateDensity` returns its density |
| Pyramid.DensityInSegment | components/SocialPyramid.tsx:68-79 | strictly inside a segment it returns the linear interpolation, which lies between the two densities |
| Pyramid.DensityAboveScale | components/SocialPyramid.tsx:69 | above 7000 the salary is capped and the density is that of 7000, 0.1 |
| Pyramid.DensityBelowZero | components/SocialPyramid.tsx:78 | a negative salary falls in no segment and gives 0 |
| Pyramid.DensityBounded | components/SocialPyramid.tsx:68-79 | the density lies in [0, 14] for every salary |
| Pyramid.ToPercent | components/SocialPyramid.tsx:81-83 | at most 100; v/70 up to 7000; 100 from 7000 on; non-negative for a non-negative salary |
| Pyramid.LabelLeft | components/SocialPyramid.tsx:95 | the label position lies in [6, 94]: the percentage when that is already inside, 6 at or below 6, 94 at or above 94 |
| Pyramid.BenchmarkLeft | components/SocialPyramid.tsx:155-175 | the left offset of a benchmark's tick and label, its value over 7000 in percent, uncapped (placed on the scale by `BenchmarksOnScale`) |
| Pyramid.BenchmarksOnScale | components/SocialPyramid.tsx:11-17 | the five benchmarks increase in value, each tick lies in [0, 100] % at the offset `toPercent` gives its value, and the last one sits at 100 % |
| Pyramid.MaxDensity | components/SocialPyramid.tsx:99 | the maximum density bounds every density and is one of them |
| Pyramid.MaxDensityOfDistribution | components/SocialPyramid.tsx:99 | the maximum density of the table is 14 |
| Pyramid.ToChart | components/SocialPyramid.tsx:101-104 | a table point mapped onto the 1000 × 80 chart (into the view box: `InViewBox`) |
| Pyramid.ChartPoints | components/SocialPyramid.tsx:101-104 | one chart point per table point, in order |
| Pyramid.ChartPointsInViewBox | components/SocialPyramid.tsx:101-104 | every chart point lies in the 1000 × 80 view box |
| Pyramid.InViewBox | components/SocialPyramid.tsx:101-104 | a salary in [0, 7000] with a density in [0, 14] maps into the view box |
| Pyramid.UserX | components/SocialPyramid.tsx:114 | the user's x is net/7 (net/7000 of the 1000-wide chart) up to 7000, and 1000 from there on; at most 1000, and non-negative for a non-negative net |
| Pyramid.UserDotY | components/SocialPyramid.tsx:116 | the height of the user's dot from the interpolated density (on the chart: `UserDotOnChart`) |
| Pyramid.UserDotOnChart | components/SocialPyramid.tsx:115-116 | the user's dot lies between the top and the bottom of the chart |
| Pyramid.Position | components/SocialPyramid.tsx:92-116 | no marker exactly when the net is not positive; otherwise the percentage is ToPercent of the net, the label LabelLeft of it, x is UserX of the net and the dot's y UserDotY with the peak density 14; above the scale exactly when above 7000, the label in [6, 94], the percentage in [0, 100] and x in [0, 1000] |
| Pyramid.MarkerDotOnChart | components/SocialPyramid.tsx:92-116 | for a positive net, the marker's dot lies within the chart's height |

## Left out

- Rendering is not modelled: the JSX, the currency and percentage formatting (`toLocaleString`, `toFixed`), hover cards, the collapsible panels and the `useState` of the panels.
- React's memoisation (`useMemo`, `useCallback`) is not modelled: each derived value is a function of the current cells.
- `smoothPath` and `areaPath` in `components/SocialPyramid.tsx` only build SVG path text from the chart points; the chart points themselves are modelled.
- IEEE doubles are modelled as exact reals, so the model has no rounding, NaN or Infinity. Where the source could produce NaN, the guard that catches it is modelled instead.
- Calculator.JsNumber: covers `Number(...)` only on text that `handleValueChange` has cleaned (digits and dots). Whitespace, signs, exponents and hexadecimal forms cannot reach it.
- Calculator.BrutGrid: requires a tax rate other than 100 % when a net figure is entered. At exactly 100 % the source divides by zero (`brutFromNet`) and goes on with Infinity or NaN.
- Calculator.CalculatorState.SetStatus: the status is one of the five of `CHARGES_SOCIALES`. `components/CalculatorForm.tsx` (lines 72, 304 and 314-408) calls `setStatus` with NON_CADRE, CADRE, PROFESSION_LIBERALE and PORTAGE_SALARIAL, none of which is a key of `CHARGES_SOCIALES` (`lib/hooks/useCalculator.ts`, lines 10-16). There `charges` is undefined and every net figure is NaN (for a net entry, every gross figure too); the closed `Status` type leaves these calls out.
- Calculator.CalculatorState.SetPrime: the prime is a real number, so `Number(prime || 0)` is the prime itself. The NaN, empty-text and non-number cases of `prime || 0` are not modelled.
- Calculator.DisplayValues: the entered cell echoes the raw value (`Echo`). The text form that `toString()` gives a number is not modelled.
- The caption under the yearly total in `components/ChargeBreakdown.tsx` (lines 307-308) describes the prime as reduced by the contribution rate and the tax. The hook adds the prime untaxed (`lib/hooks/useCalculator.ts`, line 98); the model follows the hook (`Calculator.PrimeAddedUntaxed`) and does not model the caption.
- The `annualNetWithPrime` line of `components/ChargeBreakdown.tsx` only displays a figure computed by the hook; that figure is modelled by `Calculator.AnnualNetWithPrime`.
- Breakdown: titles, item labels and sources appear in the tables as data. Their text processing (the `replace(/.*\((.+)\)/)` and `toLowerCase` of the title) is display-only and is not modelled.
- Breakdown.Compute: takes the table key as already found. The component's crash when `CHARGES_LABELS[status]` is undefined is only stated, by `Breakdown.CalculatorStatusesFound`.
- Freelance: the `open` toggle of the panel is display state and is not modelled.
- Schema: zod's error messages are not modelled; a rejection is `None`. `z.coerce.number()` is taken as giving a number or NaN.
