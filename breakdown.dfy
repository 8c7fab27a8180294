/** The contribution breakdown of components/ChargeBreakdown.tsx: per-status
    tables (global contribution rate, itemised rates, average net salary) and
    the figures the card shows for a gross amount and a tax rate. */
module Breakdown {
  import opened Wrappers
  import Convert
  import Schema

  /** The six keys of the component's tables: a vocabulary of its own. */
  datatype ChargeStatus =
    | NON_CADRE
    | CADRE
    | FONCTION_PUBLIQUE
    | PORTAGE_SALARIAL
    | PROFESSION_LIBERALE
    | AUTO_ENTREPRENEUR

  function Key(s: ChargeStatus): string
  {
    match s
    case NON_CADRE => "NON_CADRE"
    case CADRE => "CADRE"
    case FONCTION_PUBLIQUE => "FONCTION_PUBLIQUE"
    case PORTAGE_SALARIAL => "PORTAGE_SALARIAL"
    case PROFESSION_LIBERALE => "PROFESSION_LIBERALE"
    case AUTO_ENTREPRENEUR => "AUTO_ENTREPRENEUR"
  }

  /** Indexing the tables by a status name: `None` when the name is no key. */
  function Lookup(name: string): (r: Option<ChargeStatus>)
    ensures r.Some? ==> Key(r.value) == name
    ensures forall s: ChargeStatus :: Key(s) == name ==> r == Some(s)
  {
    match name
    case "NON_CADRE" => Some(NON_CADRE)
    case "CADRE" => Some(CADRE)
    case "FONCTION_PUBLIQUE" => Some(FONCTION_PUBLIQUE)
    case "PORTAGE_SALARIAL" => Some(PORTAGE_SALARIAL)
    case "PROFESSION_LIBERALE" => Some(PROFESSION_LIBERALE)
    case "AUTO_ENTREPRENEUR" => Some(AUTO_ENTREPRENEUR)
    case _ => None
  }

  /** The component is typed with the five calculator statuses, but only two of
      them are keys of its tables: CDI, CDD and ALTERNANCE fail the lookup. */
  lemma CalculatorStatusesFound(s: Convert.Status)
    ensures Lookup(Schema.StatusName(s)).Some? <==>
            (s == Convert.FONCTION_PUBLIQUE || s == Convert.AUTO_ENTREPRENEUR)
  {
  }

  /** `GLOBAL_RATE`: the share of gross withheld as contributions. */
  function GlobalRate(s: ChargeStatus): (r: real)
    ensures 0.0 <= r < 1.0
  {
    match s
    case NON_CADRE => 0.22
    case CADRE => 0.245
    case PORTAGE_SALARIAL => 0.22
    case FONCTION_PUBLIQUE => 0.167
    case PROFESSION_LIBERALE => 0.3567
    case AUTO_ENTREPRENEUR => 0.212
  }

  datatype AverageNet = AverageNet(value: real, source: string)

  /** `AVERAGE_NET`: a published average net monthly salary per status, with its source. */
  function AverageNetOf(s: ChargeStatus): (a: AverageNet)
    ensures a.value > 0.0
  {
    AverageNet(AverageNetValue(s), AverageSource(s))
  }

  /** The amount of `AVERAGE_NET`, in euros per month. */
  function AverageNetValue(s: ChargeStatus): (v: real)
    ensures v >= 1650.0
  {
    match s
    case NON_CADRE => 1950.0
    case CADRE => 3375.0
    case FONCTION_PUBLIQUE => 2527.0
    case PORTAGE_SALARIAL => 4000.0
    case AUTO_ENTREPRENEUR => 1650.0
    case PROFESSION_LIBERALE => 3000.0
  }

  /** Where each amount of `AVERAGE_NET` was published. */
  function AverageSource(s: ChargeStatus): string
  {
    match s
    case NON_CADRE => "https://www.insee.fr/fr/statistiques/7457170"
    case CADRE => "https://www.apec.fr/actualites/etudes/salaire-moyen-cadres.html"
    case FONCTION_PUBLIQUE => "https://www.insee.fr/fr/statistiques/2381332"
    case PORTAGE_SALARIAL => "https://syndicatportagesalarial.fr/branche/chiffres-portage-salarial/"
    case AUTO_ENTREPRENEUR => "https://www.hellowork.com/fr-fr/medias/salaire-auto-entrepreneur.html"
    case PROFESSION_LIBERALE => "https://www.insee.fr/fr/statistiques/4470782?sommaire=4470890"
  }

  datatype ChargeItem = ChargeItem(labelText: string, rate: real)

  datatype ChargeLabels = ChargeLabels(title: string, items: seq<ChargeItem>)

  /** The items of the salaried regimes that share the general scheme. */
  const GENERAL_SCHEME_ITEMS: seq<ChargeItem> := [
    ChargeItem("Assurance vieillesse plafonnée", 0.069),
    ChargeItem("Assurance vieillesse déplafonnée", 0.004),
    ChargeItem("Retraite complémentaire – Tranche 1", 0.0315),
    ChargeItem("CEG – Tranche 1", 0.0086),
    ChargeItem("CET", 0.0014),
    ChargeItem("CSG déductible", 0.068),
    ChargeItem("CSG non déductible", 0.024),
    ChargeItem("CRDS", 0.005)
  ]

  /** `CHARGES_LABELS`: a title and the itemised rates per status. */
  function LabelsOf(s: ChargeStatus): ChargeLabels
  {
    match s
    case NON_CADRE => ChargeLabels("Charges salariales (Non‑cadre)", GENERAL_SCHEME_ITEMS)
    case CADRE => ChargeLabels("Charges salariales (Cadre)", [
        ChargeItem("Assurance vieillesse plafonnée", 0.069),
        ChargeItem("Assurance vieillesse déplafonnée", 0.004),
        ChargeItem("Retraite complémentaire – Tranche 1", 0.0315),
        ChargeItem("Retraite complémentaire – Tranche 2", 0.0864),
        ChargeItem("CEG – Tranche 1", 0.0086),
        ChargeItem("CEG – Tranche 2", 0.0108),
        ChargeItem("Cotisation APEC", 0.00024),
        ChargeItem("CSG déductible", 0.068),
        ChargeItem("CSG non déductible", 0.024),
        ChargeItem("CRDS", 0.005)
      ])
    case FONCTION_PUBLIQUE => ChargeLabels("Charges salariales (Fonction publique)", [
        ChargeItem("Pension civile (retraite de base)", 0.111),
        ChargeItem("RAFP (retraite additionnelle)", 0.05),
        ChargeItem("CSG déductible", 0.068),
        ChargeItem("CSG non déductible", 0.024),
        ChargeItem("CRDS", 0.005)
      ])
    case PORTAGE_SALARIAL => ChargeLabels("Charges salariales (Portage)", GENERAL_SCHEME_ITEMS)
    case AUTO_ENTREPRENEUR => ChargeLabels("Cotisations (Micro‑entrepreneur)", [
        ChargeItem("Forfait social", 0.212)
      ])
    case PROFESSION_LIBERALE => ChargeLabels("Cotisations sociales (Prof. libérale)", [
        ChargeItem("Maladie‑maternité (taux plein)", 0.065),
        ChargeItem("Indemnités journalières", 0.005),
        ChargeItem("Allocations familiales", 0.031),
        ChargeItem("Retraite de base (≤ 1 PASS)", 0.0873),
        ChargeItem("Retraite complémentaire – Tranche 1", 0.09),
        ChargeItem("Retraite complémentaire – Tranche 2", 0.22),
        ChargeItem("Invalidité‑décès", 0.013),
        ChargeItem("CSG déductible", 0.068),
        ChargeItem("CSG non déductible", 0.024),
        ChargeItem("CRDS", 0.005),
        ChargeItem("CFP", 0.0025)
      ])
  }

  /** The sum of the item rates from index `i` on. */
  function RateSum(items: seq<ChargeItem>, i: nat): real
    decreases |items| - i
  {
    if i >= |items| then 0.0 else items[i].rate + RateSum(items, i + 1)
  }

  /** The sum of the amounts from index `i` on. */
  function Sum(xs: seq<real>, i: nat): real
    decreases |xs| - i
  {
    if i >= |xs| then 0.0 else xs[i] + Sum(xs, i + 1)
  }

  /** The amount of each item line: the gross times the item's rate. */
  function ItemAmounts(brut: real, items: seq<ChargeItem>): (r: seq<real>)
    ensures |r| == |items|
    ensures forall i :: 0 <= i < |items| ==> r[i] == brut * items[i].rate
  {
    seq(|items|, i requires 0 <= i < |items| => brut * items[i].rate)
  }

  /** The item lines add up to the gross times the sum of the item rates. */
  lemma {:induction false} ItemAmountsSum(brut: real, items: seq<ChargeItem>, i: nat)
    ensures Sum(ItemAmounts(brut, items), i) == brut * RateSum(items, i)
    decreases |items| - i
  {
    if i < |items| {
      ItemAmountsSum(brut, items, i + 1);
    }
  }

  /** The figures of the card. */
  datatype Figures = Figures(
    contributions: real,
    incomeTax: real,
    netAfterTax: real,
    netBarWidth: real,
    averagePercent: real,
    itemAmounts: seq<real>)

  /** Total contributions: the gross at the status's global rate. */
  function Contributions(status: ChargeStatus, brut: real): real
  {
    brut * GlobalRate(status)
  }

  /** Income tax: the tax rate, as a percentage, of what contributions leave. */
  function IncomeTax(status: ChargeStatus, brut: real, taxRate: real): real
  {
    ((brut - brut * GlobalRate(status)) * taxRate) / 100.0
  }

  /** Net after tax: what contributions leave, less the tax. */
  function NetAfterTax(status: ChargeStatus, brut: real, taxRate: real): real
  {
    (brut - brut * GlobalRate(status)) * (1.0 - taxRate / 100.0)
  }

  /** The width of the net bar: the net after tax as a percentage of gross. */
  function NetBarWidth(status: ChargeStatus, brut: real, taxRate: real): real
    requires brut != 0.0
  {
    (NetAfterTax(status, brut, taxRate) / brut) * 100.0
  }

  /** The net after tax as a percentage of the status's average net. */
  function AveragePercent(status: ChargeStatus, brut: real, taxRate: real): real
  {
    (NetAfterTax(status, brut, taxRate) / AverageNetValue(status)) * 100.0
  }

  /** The card for a gross amount: no figures when the amount is absent or 0
      (the `!brutAmount` guard), the figures above otherwise. */
  function Compute(status: ChargeStatus, brutAmount: Option<real>, taxRate: real): (r: Option<Figures>)
    ensures r.None? <==> brutAmount.None? || brutAmount.value == 0.0
    ensures r.Some? ==>
              var brut := brutAmount.value;
              && r.value.contributions == Contributions(status, brut)
              && r.value.incomeTax == IncomeTax(status, brut, taxRate)
              && r.value.netAfterTax == NetAfterTax(status, brut, taxRate)
              && r.value.netBarWidth == NetBarWidth(status, brut, taxRate)
              && r.value.averagePercent == AveragePercent(status, brut, taxRate)
              && r.value.itemAmounts == ItemAmounts(brut, LabelsOf(status).items)
  {
    if brutAmount.None? || brutAmount.value == 0.0 then None
    else
      var brut := brutAmount.value;
      Some(Figures(
        Contributions(status, brut),
        IncomeTax(status, brut, taxRate),
        NetAfterTax(status, brut, taxRate),
        NetBarWidth(status, brut, taxRate),
        AveragePercent(status, brut, taxRate),
        ItemAmounts(brut, LabelsOf(status).items)))
  }

  /** Contributions, income tax and net after tax split the gross exactly. */
  lemma PartsAddUpToBrut(status: ChargeStatus, brut: real, taxRate: real)
    ensures Contributions(status, brut) + IncomeTax(status, brut, taxRate)
            + NetAfterTax(status, brut, taxRate) == brut
  {
    var rest := brut - brut * GlobalRate(status);
    assert (rest * taxRate) / 100.0 + rest * (1.0 - taxRate / 100.0) == rest;
  }

  /** The net bar is (1 - rate) * (1 - tax) as a percentage: it does not depend
      on the gross, and it lies in [0, 100] for a tax rate in [0, 100]. */
  lemma NetBarIndependentOfBrut(status: ChargeStatus, brut: real, taxRate: real)
    requires brut != 0.0
    ensures NetBarWidth(status, brut, taxRate)
            == (1.0 - GlobalRate(status)) * (1.0 - taxRate / 100.0) * 100.0
    ensures 0.0 <= taxRate <= 100.0 ==> 0.0 <= NetBarWidth(status, brut, taxRate) <= 100.0
  {
    var r := GlobalRate(status);
    var k := (1.0 - r) * (1.0 - taxRate / 100.0);
    assert NetAfterTax(status, brut, taxRate) == brut * k;
    assert (brut * k) / brut == k;
    if 0.0 <= taxRate <= 100.0 {
      UnitProduct(1.0 - r, 1.0 - taxRate / 100.0);
    }
  }

  lemma UnitProduct(x: real, y: real)
    requires 0.0 <= x <= 1.0 && 0.0 <= y <= 1.0
    ensures 0.0 <= x * y <= 1.0
  {
    assert 0.0 <= x * y by {
      if x > 0.0 && y > 0.0 { assert x * y > 0.0; }
    }
    assert x * y <= 1.0 * y;
  }

  /** The percentage of the average is 100 exactly when the net after tax
      equals the average net. */
  lemma AveragePercentScale(status: ChargeStatus, brut: real, taxRate: real)
    ensures AveragePercent(status, brut, taxRate) * AverageNetValue(status)
            == NetAfterTax(status, brut, taxRate) * 100.0
    ensures AveragePercent(status, brut, taxRate) == 100.0
            <==> NetAfterTax(status, brut, taxRate) == AverageNetValue(status)
  {
    PercentOf(NetAfterTax(status, brut, taxRate), AverageNetValue(status));
  }

  /** `n` as a percentage of a positive `a`. */
  lemma PercentOf(n: real, a: real)
    requires a > 0.0
    ensures (n / a) * 100.0 * a == n * 100.0
    ensures (n / a) * 100.0 == 100.0 <==> n == a
  {
    assert (n / a) * a == n;
  }

  /** The item rates add up to the global rate only for the micro-entrepreneur;
      the non-cadre items, for one, add up to 0.2115 against 0.22. */
  lemma ItemRatesMatchGlobalOnlyForMicro(s: ChargeStatus)
    ensures RateSum(LabelsOf(s).items, 0) == GlobalRate(s) <==> s == AUTO_ENTREPRENEUR
    ensures RateSum(LabelsOf(NON_CADRE).items, 0) == 0.2115
  {
  }
}
