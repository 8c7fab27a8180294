/** The freelance comparison of components/FreelanceComparator.tsx: the
    employer's total cost of a salaried month is taken as a micro-entrepreneur's
    turnover, and its net after URSSAF contributions and the same withholding
    tax is compared with the salaried net. */
module Freelance {
  import opened Wrappers

  /** Employer contributions, as a share of gross (total cost = gross * 1.45). */
  const CHARGES_PATRONALES_RATE: real := 0.45

  /** The micro-entrepreneur's URSSAF rate for services. */
  const URSSAF_AE_RATE: real := 0.212

  /** Statuses for which the comparison is not shown. */
  const EXCLUDED_STATUSES: set<string> := {"AUTO_ENTREPRENEUR"}

  datatype Comparison = Comparison(
    superBrut: real,
    netAEAvantIR: real,
    netAE: real,
    diff: real,
    isPositive: bool,
    diffPct: real)

  /** The employer's total cost of a gross monthly salary. */
  function SuperBrut(mensuelBrut: real): real
  {
    mensuelBrut * (1.0 + CHARGES_PATRONALES_RATE)
  }

  /** The micro-entrepreneur's net, before tax, on that turnover. */
  function NetAEAvantIR(mensuelBrut: real): real
  {
    SuperBrut(mensuelBrut) * (1.0 - URSSAF_AE_RATE)
  }

  /** The micro-entrepreneur's net after the withholding tax. */
  function NetAE(mensuelBrut: real, taxRate: real): real
  {
    NetAEAvantIR(mensuelBrut) * (1.0 - taxRate / 100.0)
  }

  /** The gap as a percentage of the salaried net; 0 rather than a division
      when that net is not positive. */
  function DiffPct(diff: real, mensuelNetCDI: real): (r: real)
    ensures mensuelNetCDI > 0.0 ==> r * mensuelNetCDI == diff * 100.0
    ensures mensuelNetCDI <= 0.0 ==> r == 0.0
  {
    if mensuelNetCDI > 0.0 then (diff / mensuelNetCDI) * 100.0 else 0.0
  }

  /** The component: nothing for an excluded status or a gross that is not
      positive, the comparison otherwise. */
  function Compare(mensuelBrut: real, mensuelNetCDI: real, status: string, taxRate: real)
    : (r: Option<Comparison>)
    ensures r.None? <==> status in EXCLUDED_STATUSES || mensuelBrut <= 0.0
    ensures r.Some? ==> r.value.superBrut == 1.45 * mensuelBrut
    ensures r.Some? ==> r.value.diff == r.value.netAE - mensuelNetCDI
    ensures r.Some? ==> (r.value.isPositive <==> r.value.netAE >= mensuelNetCDI)
    ensures r.Some? ==> r.value.netAEAvantIR == NetAEAvantIR(mensuelBrut)
    ensures r.Some? ==> r.value.netAE == NetAE(mensuelBrut, taxRate)
    ensures r.Some? ==> r.value.diffPct == DiffPct(r.value.diff, mensuelNetCDI)
  {
    if status in EXCLUDED_STATUSES || mensuelBrut <= 0.0 then None
    else
      var netAE := NetAE(mensuelBrut, taxRate);
      var diff := netAE - mensuelNetCDI;
      Some(Comparison(
        SuperBrut(mensuelBrut),
        NetAEAvantIR(mensuelBrut),
        netAE,
        diff,
        diff >= 0.0,
        DiffPct(diff, mensuelNetCDI)))
  }

  /** The net after tax is the gross times 1.45 * 0.788 = 1.1426, less the tax. */
  lemma NetAEClosedForm(mensuelBrut: real, taxRate: real)
    ensures NetAE(mensuelBrut, taxRate) == 1.1426 * mensuelBrut * (1.0 - taxRate / 100.0)
  {
  }

  /** For a positive gross and a tax rate in [0, 100] the net is not negative,
      and a higher tax rate never gives a higher net. */
  lemma NetAEBounds(mensuelBrut: real, t1: real, t2: real)
    requires mensuelBrut > 0.0
    requires 0.0 <= t1 <= t2 <= 100.0
    ensures 0.0 <= NetAE(mensuelBrut, t2) <= NetAE(mensuelBrut, t1)
  {
    NetAEClosedForm(mensuelBrut, t1);
    NetAEClosedForm(mensuelBrut, t2);
    var k := 1.1426 * mensuelBrut;
    assert k > 0.0;
    assert 0.0 <= 1.0 - t2 / 100.0 <= 1.0 - t1 / 100.0;
    assert k * (1.0 - t2 / 100.0) <= k * (1.0 - t1 / 100.0);
  }

  /** When shown, the gap's percentage has the gap's sign. */
  lemma DiffPctSign(mensuelBrut: real, mensuelNetCDI: real, status: string, taxRate: real)
    requires Compare(mensuelBrut, mensuelNetCDI, status, taxRate).Some?
    requires mensuelNetCDI > 0.0
    ensures var c := Compare(mensuelBrut, mensuelNetCDI, status, taxRate).value;
            c.isPositive <==> c.diffPct >= 0.0
  {
    var c := Compare(mensuelBrut, mensuelNetCDI, status, taxRate).value;
    assert c.diffPct * mensuelNetCDI == c.diff * 100.0;
    if c.diffPct < 0.0 {
      assert c.diffPct * mensuelNetCDI < 0.0;
    }
  }
}
