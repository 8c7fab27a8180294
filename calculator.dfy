/** The calculator engine of lib/hooks/useCalculator.ts.

    The hook keeps five state cells (status, tax rate, work percentage, prime
    and the entered value) and derives from them, on every change, the weekly
    hours, the four gross figures, the four net figures and the yearly net with
    the prime. The cells are the fields of class `CalculatorState`; the
    derivations are pure functions of a `Settings` snapshot of those cells. */
module Calculator {
  import opened Wrappers
  import opened Convert

  /** The hook's own name for a time basis. */
  type Period = Unit

  const SMIC_2025: real := 11.65
  const DEFAULT_HOURS: real := 35.0

  /** `CHARGES_SOCIALES`: the flat share of gross withheld as contributions. */
  function ChargesSociales(s: Status): (r: real)
    ensures 0.0 <= r < 1.0
  {
    match s
    case CDI => 0.22
    case CDD => 0.22
    case FONCTION_PUBLIQUE => 0.15
    case ALTERNANCE => 0.12
    case AUTO_ENTREPRENEUR => 0.22
  }

  // ---------------------------------------------------------------------
  // Weekly hours

  /** `Math.round`: the nearest integer, halves rounded up. */
  function Round(x: real): (r: int)
    ensures r as real - 0.5 <= x < r as real + 0.5
  {
    (x + 0.5).Floor
  }

  /** `hoursPerWeek`: the work percentage applied to a 35-hour week, rounded. */
  function HoursPerWeek(workPercent: real): (h: int)
    ensures h as real - 0.5 <= DEFAULT_HOURS * workPercent / 100.0 < h as real + 0.5
    ensures 0.0 <= workPercent ==> h >= 0
    ensures workPercent <= 100.0 ==> h <= 35
  {
    Round(DEFAULT_HOURS * workPercent / 100.0)
  }

  /** The hours slider of the form stores `h / 35 * 100` as the work
      percentage; the hook turns that back into exactly `h`. */
  lemma SliderHoursRoundTrip(h: int)
    ensures HoursPerWeek(h as real / 35.0 * 100.0) == h
  {
    assert DEFAULT_HOURS * (h as real / 35.0 * 100.0) / 100.0 == h as real;
  }

  // ---------------------------------------------------------------------
  // The entered value

  predicate IsDigit(c: char) { '0' <= c <= '9' }

  /** The characters `handleValueChange` keeps. */
  predicate IsCleanChar(c: char) { IsDigit(c) || c == '.' }

  predicate IsClean(s: string) { forall i :: 0 <= i < |s| ==> IsCleanChar(s[i]) }

  predicate AllDigits(s: string) { forall i :: 0 <= i < |s| ==> IsDigit(s[i]) }

  /** The cleaning of `handleValueChange`: every character other than a digit,
      '.' or ',' is dropped, then every ',' becomes '.'. */
  function Clean(s: string): (r: string)
    ensures IsClean(r)
    ensures |r| <= |s|
  {
    if s == [] then []
    else
      var c := s[0];
      (if IsCleanChar(c) then [c] else if c == ',' then ['.'] else []) + Clean(s[1..])
  }

  /** Cleaning works character by character. */
  lemma {:induction false} CleanAppend(a: string, b: string)
    ensures Clean(a + b) == Clean(a) + Clean(b)
  {
    if a == [] {
      assert a + b == b;
    } else {
      assert (a + b)[0] == a[0];
      assert (a + b)[1..] == a[1..] + b;
      CleanAppend(a[1..], b);
    }
  }

  /** What cleaning does to one character: a digit or '.' is kept, ',' becomes
      '.', anything else is dropped. With `CleanAppend` this fixes `Clean` on
      every string. */
  lemma CleanChar(c: char)
    ensures Clean([c]) == (if IsCleanChar(c) then [c] else if c == ',' then "." else "")
  {
    assert [c][1..] == [];
  }

  /** A string that is already clean is left as it is. */
  lemma {:induction false} CleanKeepsCleanText(s: string)
    requires IsClean(s)
    ensures Clean(s) == s
  {
    if s != [] {
      CleanKeepsCleanText(s[1..]);
    }
  }

  /** Cleaning twice is cleaning once. */
  lemma CleanIdempotent(s: string)
    ensures Clean(Clean(s)) == Clean(s)
  {
    CleanKeepsCleanText(Clean(s));
  }

  function DigitValue(c: char): nat
    requires IsDigit(c)
  {
    c as int - '0' as int
  }

  /** The natural number a string of decimal digits spells. */
  function DigitsValue(s: string): nat
    requires AllDigits(s)
  {
    if s == [] then 0 else 10 * DigitsValue(s[..|s| - 1]) + DigitValue(s[|s| - 1])
  }

  function Pow10(n: nat): (r: nat)
    ensures r >= 1
  {
    if n == 0 then 1 else 10 * Pow10(n - 1)
  }

  /** The index of the first '.', or the length when there is none. */
  function DotIndex(s: string): (k: nat)
    ensures k <= |s|
    ensures k < |s| ==> s[k] == '.'
    ensures forall i :: 0 <= i < k ==> s[i] != '.'
  {
    if s == [] then 0
    else if s[0] == '.' then 0
    else 1 + DotIndex(s[1..])
  }

  /** JavaScript's `Number(s)` on a cleaned string: "" is 0; digits with at
      most one '.' and at least one digit are a decimal number; anything else
      (".", "1.2.3") is NaN, here `None`. */
  function JsNumber(s: string): (r: Option<real>)
    requires IsClean(s)
    ensures r.Some? ==> r.value >= 0.0
    ensures AllDigits(s) ==> r == Some(DigitsValue(s) as real)
  {
    if s == "" then Some(0.0)
    else
      var k := DotIndex(s);
      if k == |s| then Some(DigitsValue(s) as real)
      else
        var whole, frac := s[..k], s[k + 1..];
        if !AllDigits(frac) || (whole == "" && frac == "") then None
        else Some(DigitsValue(whole) as real + DigitsValue(frac) as real / Pow10(|frac|) as real)
  }

  /** The text holds two dots. */
  predicate TwoDots(s: string)
  {
    exists i, j :: 0 <= i < j < |s| && s[i] == '.' && s[j] == '.'
  }

  /** A cleaned text is NaN exactly when it is a lone '.' or holds two dots. */
  lemma JsNumberNaN(s: string)
    requires IsClean(s)
    ensures JsNumber(s).None? <==> s == "." || TwoDots(s)
  {
    if s != "" {
      var k := DotIndex(s);
      if k == |s| {
        assert !TwoDots(s);
      } else {
        var frac := s[k + 1..];
        if TwoDots(s) {
          var i, j :| 0 <= i < j < |s| && s[i] == '.' && s[j] == '.';
          assert k <= i;
          assert frac[j - k - 1] == '.';
          assert !AllDigits(frac);
        }
        if !AllDigits(frac) {
          var m :| 0 <= m < |frac| && !IsDigit(frac[m]);
          assert s[k + 1 + m] == frac[m] == '.';
          assert TwoDots(s);
        }
        assert s == "." <==> (s[..k] == "" && frac == "");
      }
    }
  }

  /** `x` is the whole number `d` over `p`: x times p is d. */
  predicate Scaled(x: real, p: nat, d: nat)
  {
    x * p as real == d as real
  }

  /** A number with one dot is the digits around the dot, read as one whole
      number, divided by 10 to the number of digits after the dot. */
  lemma JsNumberDecimal(s: string)
    requires IsClean(s) && DotIndex(s) < |s| && JsNumber(s).Some?
    ensures AllDigits(s[..DotIndex(s)] + s[DotIndex(s) + 1..])
    ensures Scaled(JsNumber(s).value, Pow10(|s| - DotIndex(s) - 1),
                   DigitsValue(s[..DotIndex(s)] + s[DotIndex(s) + 1..]))
  {
    var k := DotIndex(s);
    var whole, frac := s[..k], s[k + 1..];
    assert AllDigits(whole);
    assert |frac| == |s| - k - 1;
    DigitsAppend(whole, frac);
    var w, f, p, d := DigitsValue(whole), DigitsValue(frac), Pow10(|frac|), DigitsValue(whole + frac);
    assert JsNumber(s).value == w as real + f as real / p as real;
    ShiftPoint(JsNumber(s).value, w, f, p, d);
  }

  /** Moving the point back: if x = w + f / p then x * p = w * p + f. */
  lemma ShiftPoint(x: real, w: nat, f: nat, p: nat, d: nat)
    requires p >= 1 && d == w * p + f
    requires x == w as real + f as real / p as real
    ensures Scaled(x, p, d)
  {
    assert (f as real / p as real) * p as real == f as real;
    assert (w * p) as real == w as real * p as real;
  }

  /** Reading digits after digits: the first run is shifted by the length of the second. */
  lemma {:induction false} DigitsAppend(a: string, b: string)
    requires AllDigits(a) && AllDigits(b)
    ensures AllDigits(a + b)
    ensures DigitsValue(a + b) == DigitsValue(a) * Pow10(|b|) + DigitsValue(b)
    decreases |b|
  {
    if b == [] {
      assert a + b == a;
    } else {
      var b' := b[..|b| - 1];
      DigitsAppend(a, b');
      var ab := a + b;
      assert ab[..|ab| - 1] == a + b';
      var c := DigitValue(b[|b| - 1]);
      assert ab[|ab| - 1] == b[|b| - 1];
      var x, y, p := DigitsValue(a), DigitsValue(b'), Pow10(|b'|);
      assert DigitsValue(ab) == 10 * DigitsValue(a + b') + c;
      assert DigitsValue(b) == 10 * y + c;
      assert Pow10(|b|) == 10 * p;
      ShiftDigit(x, p, y, c);
    }
  }

  /** One more digit on the right multiplies the shifted run by ten. */
  lemma ShiftDigit(x: int, p: int, y: int, c: int)
    ensures 10 * (x * p + y) + c == x * (10 * p) + (10 * y + c)
  {
  }

  /** A lone point and a second point are not numbers. */
  lemma JsNumberRejects()
    ensures JsNumber(".") == None
    ensures JsNumber("1.2.3") == None
  {
    assert DotIndex(".") == 0;
    assert DotIndex("1.2.3") == 1 by { assert "1.2.3"[1..] == ".2.3"; }
    assert "1.2.3"[2..] == "2.3";
    assert !AllDigits("2.3") by { assert "2.3"[1] == '.'; }
  }

  /** A decimal with one point reads as its value, with or without a leading digit. */
  lemma JsNumberReadsDecimals()
    ensures JsNumber("12.5") == Some(12.5)
    ensures JsNumber(".5") == Some(0.5)
  {
    assert DotIndex("12.5") == 2 by {
      assert "12.5"[1..] == "2.5";
      assert "2.5"[1..] == ".5";
    }
    assert "12.5"[..2] == "12" && "12.5"[3..] == "5";
    assert DigitsValue("12") == 12 by { assert "12"[..1] == "1"; }
    assert DigitsValue("5") == 5 by { assert "5"[..0] == ""; }
    assert DotIndex(".5") == 0;
    assert ".5"[..0] == "" && ".5"[1..] == "5";
  }

  /** The entered value: the initial number or the cleaned text of a keystroke. */
  datatype InputValue = Num(n: real) | Text(s: string)

  predicate WellFormed(v: InputValue) { v.Text? ==> IsClean(v.s) }

  /** `Number(value)` past the guard `value === "" || isNaN(Number(value))`:
      `None` when the guard trips. */
  function Numeric(v: InputValue): (r: Option<real>)
    requires WellFormed(v)
    ensures v == Text("") ==> r == None
    ensures v.Num? ==> r == Some(v.n)
    ensures v.Text? && v.s != "" ==> r == JsNumber(v.s)
  {
    match v
    case Num(x) => Some(x)
    case Text(s) => if s == "" then None else JsNumber(s)
  }

  // ---------------------------------------------------------------------
  // Gross and net

  /** The hours in one period at `h` hours a week: the multiplier the gross
      grid applies to the hourly figure. */
  function PeriodHours(p: Period, h: int): real
  {
    match p
    case Hourly => 1.0
    case Daily => h as real / 7.0
    case Monthly => h as real * 52.0 / 12.0
    case Yearly => h as real * 52.0
  }

  /** An hourly figure `hourly`, over the hours of period `p` at `h` hours a
      week, comes to `figure`. */
  predicate ComesTo(hourly: real, p: Period, h: int, figure: real)
  {
    hourly * PeriodHours(p, h) == figure
  }

  /** `getBrutFrom`: the hourly gross of a gross figure for a period; with no
      weekly hours every period but the hour gives 0 instead of dividing. */
  function GetBrutFrom(value: real, period: Period, h: int): (r: real)
    ensures period == Hourly ==> r == value
    ensures period != Hourly && h == 0 ==> r == 0.0
    ensures h != 0 || period == Hourly ==> ComesTo(r, period, h, value)
  {
    match period
    case Hourly => value
    case Daily => if h != 0 then value / (h as real / 7.0) else 0.0
    case Monthly => if h != 0 then value / ((h as real * 52.0) / 12.0) else 0.0
    case Yearly => if h != 0 then value / (h as real * 52.0) else 0.0
  }

  /** `brutFromNet`: the gross whose net, after contributions and tax, is `net`. */
  function BrutFromNet(net: real, charges: real, tax: real): (r: real)
    requires (1.0 - charges) * (1.0 - tax) != 0.0
    ensures r * ((1.0 - charges) * (1.0 - tax)) == net
  {
    net / ((1.0 - charges) * (1.0 - tax))
  }

  /** `calcNet`: gross less contributions, less tax; 0 past the empty/NaN guard. */
  function CalcNet(brut: InputValue, charges: real, tax: real): (r: real)
    requires WellFormed(brut)
    ensures Numeric(brut).None? ==> r == 0.0
  {
    match Numeric(brut)
    case None => 0.0
    case Some(b) =>
      var afterCharges := b * (1.0 - charges);
      afterCharges * (1.0 - tax)
  }

  /** `calcNet` and `brutFromNet` undo each other whenever the rates leave
      something to divide by (in particular when charges < 1 and tax < 1). */
  lemma NetInvertsBrutFromNet(net: real, charges: real, tax: real)
    requires (1.0 - charges) * (1.0 - tax) != 0.0
    ensures CalcNet(Num(BrutFromNet(net, charges, tax)), charges, tax) == net
  {
    var b := BrutFromNet(net, charges, tax);
    assert b * (1.0 - charges) * (1.0 - tax) == b * ((1.0 - charges) * (1.0 - tax));
  }

  lemma BrutFromNetInvertsNet(brut: real, charges: real, tax: real)
    requires (1.0 - charges) * (1.0 - tax) != 0.0
    ensures BrutFromNet(CalcNet(Num(brut), charges, tax), charges, tax) == brut
  {
    var k := (1.0 - charges) * (1.0 - tax);
    assert CalcNet(Num(brut), charges, tax) == brut * k;
  }

  /** The gross grid from an hourly gross, as the memo builds it: each period
      is the hourly figure times the hours in it. */
  function Expand(base: real, h: int): (g: Grid)
    ensures forall p :: ComesTo(base, p, h, g.At(p))
  {
    assert (base * h as real * 52.0) / 12.0 == base * (h as real * 52.0 / 12.0);
    Grid(base, base * (h as real / 7.0), (base * h as real * 52.0) / 12.0, base * h as real * 52.0)
  }

  // ---------------------------------------------------------------------
  // The hook's state as a value

  /** The `input` cell: which figure was entered, and its raw value. */
  datatype CalcInput = CalcInput(direction: Direction, period: Period, value: InputValue)

  /** A snapshot of the five state cells. */
  datatype Settings = Settings(
    status: Status,
    taxRate: real,
    workPercent: real,
    prime: real,
    input: CalcInput)

  function Charges(st: Settings): real { ChargesSociales(st.status) }

  function Tax(st: Settings): real { st.taxRate / 100.0 }

  function Hours(st: Settings): int { HoursPerWeek(st.workPercent) }

  /** What the derivations demand of the state: a cleaned entered value, and a
      tax rate other than 100 % when a net figure must be turned into gross
      (at 100 % the source divides by zero). */
  predicate Computable(st: Settings)
  {
    && WellFormed(st.input.value)
    && (st.input.direction == Net ==> st.taxRate != 100.0)
  }

  lemma RatesInvertible(st: Settings)
    requires st.taxRate != 100.0
    ensures (1.0 - Charges(st)) * (1.0 - Tax(st)) != 0.0
  {
    assert 1.0 - Charges(st) > 0.0;
    assert 1.0 - Tax(st) != 0.0;
  }

  /** The hourly gross the memo starts from: with weekly hours, or for an
      hourly entry, the gross (or, for a net entry, the gross `brutFromNet`
      gives for it) of the entered period is that hourly figure times the
      period's hours. */
  function BaseBrut(st: Settings, x: real): (r: real)
    requires st.input.direction == Net ==> st.taxRate != 100.0
    ensures (Hours(st) != 0 || st.input.period == Hourly) && st.input.direction == Brut ==>
              ComesTo(r, st.input.period, Hours(st), x)
    ensures (Hours(st) != 0 || st.input.period == Hourly) && st.input.direction == Net ==>
              (RatesInvertible(st); ComesTo(r, st.input.period, Hours(st), BrutFromNet(x, Charges(st), Tax(st))))
    ensures Hours(st) == 0 && st.input.period != Hourly ==> r == 0.0
  {
    if st.input.direction == Brut then GetBrutFrom(x, st.input.period, Hours(st))
    else
      RatesInvertible(st);
      GetBrutFrom(BrutFromNet(x, Charges(st), Tax(st)), st.input.period, Hours(st))
  }

  /** The gross memo: `hourlyBrut`, `dailyBrut`, `monthlyBrut`, `yearlyBrut`. */
  function BrutGrid(st: Settings): (g: Grid)
    requires Computable(st)
    ensures Numeric(st.input.value).None? ==> g == Grid(0.0, 0.0, 0.0, 0.0)
    ensures Numeric(st.input.value).Some? ==>
              forall p :: ComesTo(BaseBrut(st, Numeric(st.input.value).value), p, Hours(st), g.At(p))
  {
    match Numeric(st.input.value)
    case None => Grid(0.0, 0.0, 0.0, 0.0)
    case Some(x) => Expand(BaseBrut(st, x), Hours(st))
  }

  /** `hourlyNet` … `yearlyNet`: `calcNet` of each gross figure. */
  function NetGrid(st: Settings): (n: Grid)
    requires Computable(st)
    ensures forall p :: n.At(p) == BrutGrid(st).At(p) * (1.0 - Charges(st)) * (1.0 - Tax(st))
  {
    NetOf(BrutGrid(st), Charges(st), Tax(st))
  }

  /** At every granularity, net = gross * (1 - charges) * (1 - tax). */
  function NetOf(g: Grid, c: real, t: real): (n: Grid)
    ensures forall p :: n.At(p) == g.At(p) * (1.0 - c) * (1.0 - t)
  {
    Grid(CalcNet(Num(g.hourly), c, t), CalcNet(Num(g.daily), c, t),
         CalcNet(Num(g.monthly), c, t), CalcNet(Num(g.yearly), c, t))
  }

  /** `annualNetWithPrime`: the yearly net plus the prime. */
  function AnnualNetWithPrime(st: Settings): (r: real)
    requires Computable(st)
    ensures r == CalcNet(Num(BrutGrid(st).yearly), Charges(st), Tax(st)) + st.prime
  {
    NetGrid(st).yearly + st.prime
  }

  /** A gross cell of the display record: the raw entered value echoed, or a figure. */
  datatype Cell = Echo(raw: InputValue) | Figure(amount: real)

  datatype CellGrid = CellGrid(hourly: Cell, daily: Cell, monthly: Cell, yearly: Cell)
  {
    function At(p: Period): Cell
    {
      match p
      case Hourly => hourly
      case Daily => daily
      case Monthly => monthly
      case Yearly => yearly
    }
  }

  /** The `values` record. */
  datatype Values = Values(brut: CellGrid, net: Grid, rawBrut: Grid, rawNet: Grid)

  function BrutCell(st: Settings, p: Period, figure: real): Cell
  {
    if st.input.direction == Brut && st.input.period == p then Echo(st.input.value) else Figure(figure)
  }

  /** The `values` record echoes the raw entry in the entered gross cell
      only; every other gross cell and every net cell is a computed figure. */
  function DisplayValues(st: Settings): (v: Values)
    requires Computable(st)
    ensures forall p :: v.brut.At(p) == (if st.input.direction == Brut && st.input.period == p
                                         then Echo(st.input.value) else Figure(BrutGrid(st).At(p)))
    ensures v.net == v.rawNet == NetGrid(st)
    ensures v.rawBrut == BrutGrid(st)
  {
    var g, n := BrutGrid(st), NetGrid(st);
    Values(
      CellGrid(BrutCell(st, Hourly, g.hourly), BrutCell(st, Daily, g.daily),
               BrutCell(st, Monthly, g.monthly), BrutCell(st, Yearly, g.yearly)),
      n, g, n)
  }

  /** The first element the hook returns. */
  datatype View = View(
    values: Values,
    status: Status,
    taxRate: real,
    workPercent: real,
    hoursPerWeek: int,
    prime: real,
    annualNetWithPrime: real)

  /** The hook's result: the display record, the settings as they are, the
      weekly hours, and the yearly net with the prime added untaxed. */
  function Derive(st: Settings): (v: View)
    requires Computable(st)
    ensures v.values == DisplayValues(st)
    ensures v.status == st.status && v.taxRate == st.taxRate
    ensures v.workPercent == st.workPercent && v.prime == st.prime
    ensures v.hoursPerWeek == HoursPerWeek(st.workPercent)
    ensures v.annualNetWithPrime == v.values.rawNet.yearly + st.prime
  {
    View(DisplayValues(st), st.status, st.taxRate, st.workPercent, Hours(st), st.prime,
         AnnualNetWithPrime(st))
  }

  // ---------------------------------------------------------------------
  // Properties of the derivations

  /** An empty or non-numeric entry zeroes every gross and every net figure. */
  lemma NoNumberAllZero(st: Settings)
    requires Computable(st) && Numeric(st.input.value).None?
    ensures BrutGrid(st) == Grid(0.0, 0.0, 0.0, 0.0)
    ensures NetGrid(st) == Grid(0.0, 0.0, 0.0, 0.0)
  {
  }

  /** Each gross figure is the hourly gross times the hours in its period, so
      a year is twelve months. */
  lemma BrutGridProportional(st: Settings)
    requires Computable(st)
    ensures var g, h := BrutGrid(st), Hours(st);
            && g.daily == g.hourly * (h as real / 7.0)
            && g.monthly == g.hourly * (52.0 * h as real / 12.0)
            && g.yearly == g.hourly * (52.0 * h as real)
            && g.yearly == 12.0 * g.monthly
  {
    match Numeric(st.input.value)
    case None =>
    case Some(x) => ExpandProportional(BaseBrut(st, x), Hours(st));
  }

  lemma ExpandProportional(base: real, h: int)
    ensures var g := Expand(base, h);
            && g.daily == g.hourly * (h as real / 7.0)
            && g.monthly == g.hourly * (52.0 * h as real / 12.0)
            && g.yearly == g.hourly * (52.0 * h as real)
            && g.yearly == 12.0 * g.monthly
  {
    assert (base * h as real * 52.0) / 12.0 == base * (52.0 * h as real / 12.0);
  }

  /** With no weekly hours, an hourly gross entry is kept and the daily, monthly
      and yearly figures are 0; any other gross entry zeroes the grid. */
  lemma ZeroHoursKeepsHourly(st: Settings, x: real)
    requires Computable(st) && Hours(st) == 0
    requires Numeric(st.input.value) == Some(x) && st.input.direction == Brut
    ensures st.input.period == Hourly ==> BrutGrid(st) == Grid(x, 0.0, 0.0, 0.0)
    ensures st.input.period != Hourly ==> BrutGrid(st) == Grid(0.0, 0.0, 0.0, 0.0)
  {
  }

  /** With weekly hours, or for an hourly entry, the figure recomputed for
      the entered period and direction is the entered number. */
  lemma EnteredFigureRecomputed(st: Settings, x: real)
    requires Computable(st) && (Hours(st) != 0 || st.input.period == Hourly)
    requires Numeric(st.input.value) == Some(x)
    ensures st.input.direction == Brut ==> BrutGrid(st).At(st.input.period) == x
    ensures st.input.direction == Net ==> NetGrid(st).At(st.input.period) == x
  {
    var p, h := st.input.period, Hours(st);
    if st.input.direction == Brut {
      ExpandRecovers(x, p, h);
    } else {
      RatesInvertible(st);
      var c, t := Charges(st), Tax(st);
      var b := BrutFromNet(x, c, t);
      ExpandRecovers(b, p, h);
      assert BrutGrid(st).At(p) == b;
      NetInvertsBrutFromNet(x, c, t);
    }
  }

  /** Expanding the hourly gross of a period's figure gives that figure back,
      for any period when there are weekly hours and for the hour always. */
  lemma ExpandRecovers(value: real, p: Period, h: int)
    requires h != 0 || p == Hourly
    ensures Expand(GetBrutFrom(value, p, h), h).At(p) == value
  {
  }

  /** The prime is added to the yearly net as it is: no contribution, no tax. */
  lemma PrimeAddedUntaxed(st: Settings, prime: real)
    requires Computable(st)
    ensures AnnualNetWithPrime(st.(prime := prime)) == AnnualNetWithPrime(st) - st.prime + prime
  {
  }

  // ---------------------------------------------------------------------
  // The state cells

  /** The five `useState` cells and their setters. */
  class CalculatorState {
    var status: Status
    var taxRate: real
    var workPercent: real
    var prime: real
    var input: CalcInput

    /** Every entered text has been through the cleaning. */
    ghost predicate Valid()
      reads this
    {
      WellFormed(input.value)
    }

    function Snapshot(): Settings
      reads this
    {
      Settings(status, taxRate, workPercent, prime, input)
    }

    /** The initial state: CDI, 14 % tax, full time, no prime, the hourly SMIC
        entered as gross. */
    constructor ()
      ensures Valid()
      ensures Snapshot() == Settings(CDI, 14.0, 100.0, 0.0, CalcInput(Brut, Hourly, Num(SMIC_2025)))
    {
      status := CDI;
      taxRate := 14.0;
      workPercent := 100.0;
      prime := 0.0;
      input := CalcInput(Brut, Hourly, Num(SMIC_2025));
    }

    method SetStatus(s: Status)
      requires Valid()
      modifies this
      ensures Valid()
      ensures Snapshot() == old(Snapshot()).(status := s)
    {
      status := s;
    }

    method SetTaxRate(r: real)
      requires Valid()
      modifies this
      ensures Valid()
      ensures Snapshot() == old(Snapshot()).(taxRate := r)
    {
      taxRate := r;
    }

    method SetWorkPercent(w: real)
      requires Valid()
      modifies this
      ensures Valid()
      ensures Snapshot() == old(Snapshot()).(workPercent := w)
    {
      workPercent := w;
    }

    method SetPrime(p: real)
      requires Valid()
      modifies this
      ensures Valid()
      ensures Snapshot() == old(Snapshot()).(prime := p)
    {
      prime := p;
    }

    /** `handleValueChange`: the cleaned text becomes the entry; nothing else changes. */
    method HandleValueChange(value: string, period: Period, direction: Direction)
      requires Valid()
      modifies this
      ensures Valid()
      ensures Snapshot() == old(Snapshot()).(input := CalcInput(direction, period, Text(Clean(value))))
    {
      input := CalcInput(direction, period, Text(Clean(value)));
    }

    /** What the hook returns for the current cells: the displayed and raw
        grids of the current entry, the cells as they are, the weekly hours of
        the work percentage, and the yearly net with the prime added. */
    function Current(): (v: View)
      reads this
      requires Valid() && Computable(Snapshot())
      ensures v.status == status && v.taxRate == taxRate
      ensures v.workPercent == workPercent && v.prime == prime
      ensures v.hoursPerWeek == HoursPerWeek(workPercent)
      ensures v.annualNetWithPrime == v.values.rawNet.yearly + prime
      ensures v.values == DisplayValues(Snapshot())
    {
      Derive(Snapshot())
    }
  }
}
