/**
 * The freight calculator: from a shipping guide and the company's cost per
 * kilogram to the nine amounts of an invoice (freight, insurance, handling,
 * discount, subtotal, IPOSTEL, IVA, IGTF, total). Every malformed number is
 * normalised first (`|| 0`, or `|| 1` for a quantity); nothing can fail.
 */
module Financials {
  import opened Outcomes
  import opened Numbers
  import opened Domain

  const HANDLING_FEE: real := 10.0
  const IPOSTEL_MAX_WEIGHT: real := 30.99

  datatype Financials = Financials(
    freight: real, insuranceCost: real, handling: real, discount: real,
    subtotal: real, ipostel: real, iva: real, igtf: real, total: real)

  const ZERO_FINANCIALS := Financials(0.0, 0.0, 0.0, 0.0, 0.0, 0.0, 0.0, 0.0, 0.0)

  /** Chargeable weight of one unit: the larger of the real and the volumetric weight. */
  function UnitChargeableWeight(item: Merchandise): real
  {
    var volumetric := OrZero(item.length) * OrZero(item.width) * OrZero(item.height) / 5000.0;
    Max(OrZero(item.weight), volumetric)
  }

  /** What one line adds to the total weight: unit weight times quantity (`|| 1`). */
  function LineWeight(item: Merchandise): real
  {
    UnitChargeableWeight(item) * OrOne(item.quantity)
  }

  /** The `reduce` over the merchandise: sum of the line weights. */
  function TotalWeight(items: seq<Merchandise>): real
  {
    if items == [] then 0.0
    else TotalWeight(items[..|items| - 1]) + LineWeight(items[|items| - 1])
  }

  /** Only units of more than 0 and at most 30.99 kg pay IPOSTEL. */
  predicate IpostelEligible(unitWeight: real)
  {
    0.0 < unitWeight <= IPOSTEL_MAX_WEIGHT
  }

  /** What one line adds to the IPOSTEL base. */
  function LineIpostelFreight(item: Merchandise, costPerKg: real): real
  {
    var w := UnitChargeableWeight(item);
    if IpostelEligible(w) then w * costPerKg * OrOne(item.quantity) else 0.0
  }

  /** The freight of the eligible lines only. */
  function IpostelBase(items: seq<Merchandise>, costPerKg: real): real
  {
    if items == [] then 0.0
    else IpostelBase(items[..|items| - 1], costPerKg) + LineIpostelFreight(items[|items| - 1], costPerKg)
  }

  /** `amount * (pct / 100)`: a percentage of an amount. */
  function Percent(amount: real, pct: real): (r: real)
    ensures amount >= 0.0 && pct >= 0.0 ==> r >= 0.0
    ensures amount >= 0.0 && pct <= 100.0 ==> r <= amount
  {
    var p := pct / 100.0;
    assert amount >= 0.0 && p <= 1.0 ==> amount * p <= amount * 1.0;
    amount * p
  }

  /**
   * The pricing steps once the two weight sums are known: `totalWeight` and
   * the freight of the IPOSTEL-eligible lines (`ipostelFreight`).
   */
  function Price(totalWeight: real, ipostelFreight: real, cost: real,
                 hasDiscount: bool, discountPct: real, hasInsurance: bool, declaredValue: real,
                 insurancePct: real, currency: Currency): (f: Financials)
    ensures f.iva == 0.0
    ensures f.total == f.freight - f.discount + f.insuranceCost + f.handling + f.ipostel + f.iva + f.igtf
  {
    var freight := totalWeight * cost;
    var discount := if hasDiscount then Percent(freight, discountPct) else 0.0;
    var freightAfterDiscount := freight - discount;
    var insuranceCost := if hasInsurance then Percent(declaredValue, insurancePct) else 0.0;
    var handling := if totalWeight > 0.0 then HANDLING_FEE else 0.0;
    var subtotal := freightAfterDiscount + insuranceCost + handling;
    var ipostel := ipostelFreight * 0.06;
    var iva := 0.0;
    var preIgtfTotal := subtotal + ipostel + iva;
    var igtf := if currency == USD then preIgtfTotal * 0.03 else 0.0;
    Financials(freight, insuranceCost, handling, discount, subtotal, ipostel, iva, igtf, preIgtfTotal + igtf)
  }

  /** `calculateFinancialDetails`. */
  function CalculateFinancialDetails(guide: Option<ShippingGuide>, costPerKg: Num): (f: Financials)
    ensures guide.None? || guide.value.merchandise.None? ==> f == ZERO_FINANCIALS
    ensures f.iva == 0.0
    ensures f.total == f.freight - f.discount + f.insuranceCost + f.handling + f.ipostel + f.iva + f.igtf
  {
    if guide.None? || guide.value.merchandise.None? then ZERO_FINANCIALS
    else
      var g := guide.value;
      var items := g.merchandise.value;
      var cost := OrZero(costPerKg);
      Price(TotalWeight(items), IpostelBase(items, cost), cost,
            g.hasDiscount, OrZero(g.discountPercentage), g.hasInsurance, OrZero(g.declaredValue),
            OrZero(g.insurancePercentage), g.paymentCurrency)
  }

  /** `calculateInvoiceChargeableWeight`. */
  function InvoiceChargeableWeight(invoice: Option<Invoice>): real
  {
    if invoice.None? || invoice.value.guide.merchandise.None? then 0.0
    else TotalWeight(invoice.value.guide.merchandise.value)
  }

  // ---------------------------------------------------------------------------
  // Properties of the calculator

  /**
   * Each amount follows its own rule: freight is weight times cost, the
   * discount and the insurance are percentages switched on by their flags,
   * handling is 10 exactly for a positive weight, the subtotal adds them up
   * and IPOSTEL is 6% of the eligible freight.
   */
  predicate PricedBy(f: Financials, totalWeight: real, ipostelFreight: real, cost: real,
                     hasDiscount: bool, discountPct: real, hasInsurance: bool, declaredValue: real,
                     insurancePct: real)
  {
    && f.freight == totalWeight * cost
    && (hasDiscount ==> f.discount == f.freight * (discountPct / 100.0))
    && (!hasDiscount ==> f.discount == 0.0)
    && (hasInsurance ==> f.insuranceCost == declaredValue * (insurancePct / 100.0))
    && (!hasInsurance ==> f.insuranceCost == 0.0)
    && (f.handling == 10.0 <==> totalWeight > 0.0)
    && (f.handling == 0.0 <==> totalWeight <= 0.0)
    && f.subtotal == f.freight - f.discount + f.insuranceCost + f.handling
    && f.ipostel == ipostelFreight * 0.06
  }

  /** The pricing steps, each as the rule that prices it. */
  lemma PriceRules(totalWeight: real, ipostelFreight: real, cost: real,
                   hasDiscount: bool, discountPct: real, hasInsurance: bool, declaredValue: real,
                   insurancePct: real, currency: Currency)
    ensures PricedBy(Price(totalWeight, ipostelFreight, cost, hasDiscount, discountPct, hasInsurance,
                           declaredValue, insurancePct, currency),
                     totalWeight, ipostelFreight, cost, hasDiscount, discountPct, hasInsurance, declaredValue, insurancePct)
  {
  }

  /** The calculator's amounts, each as the rule that prices it, from the guide's normalised numbers. */
  lemma PricingRules(g: ShippingGuide, costPerKg: Num)
    requires g.merchandise.Some?
    ensures PricedBy(CalculateFinancialDetails(Some(g), costPerKg),
                     TotalWeight(g.merchandise.value), IpostelBase(g.merchandise.value, OrZero(costPerKg)), OrZero(costPerKg),
                     g.hasDiscount, OrZero(g.discountPercentage), g.hasInsurance, OrZero(g.declaredValue),
                     OrZero(g.insurancePercentage))
  {
    var items, cost := g.merchandise.value, OrZero(costPerKg);
    PriceRules(TotalWeight(items), IpostelBase(items, cost), cost,
               g.hasDiscount, OrZero(g.discountPercentage), g.hasInsurance, OrZero(g.declaredValue),
               OrZero(g.insurancePercentage), g.paymentCurrency);
  }

  /** The freight is the total chargeable weight times the cost per kilogram. */
  lemma FreightRule(g: ShippingGuide, costPerKg: Num)
    requires g.merchandise.Some?
    ensures CalculateFinancialDetails(Some(g), costPerKg).freight == TotalWeight(g.merchandise.value) * OrZero(costPerKg)
  {
    PricingRules(g, costPerKg);
  }

  /** IGTF is 3% of subtotal + IPOSTEL + IVA exactly when paying in USD, and 0 otherwise. */
  lemma IgtfRule(guide: Option<ShippingGuide>, costPerKg: Num)
    ensures var f := CalculateFinancialDetails(guide, costPerKg);
      && ((guide.Some? && guide.value.merchandise.Some? && guide.value.paymentCurrency == USD)
            ==> f.igtf == 0.03 * (f.subtotal + f.ipostel + f.iva))
      && (guide.Some? && guide.value.paymentCurrency == VES ==> f.igtf == 0.0)
      && (f.igtf != 0.0 <==> guide.Some? && guide.value.merchandise.Some? && guide.value.paymentCurrency == USD
                              && f.subtotal + f.ipostel + f.iva != 0.0)
  {
  }

  /** The merchandise list itself may be empty: the guide is still priced, so insurance survives. */
  lemma EmptyMerchandiseKeepsInsurance(g: ShippingGuide, costPerKg: Num)
    requires g.merchandise == Some([])
    ensures var f := CalculateFinancialDetails(Some(g), costPerKg);
      && f.freight == 0.0 && f.handling == 0.0 && f.discount == 0.0 && f.ipostel == 0.0
      && f.insuranceCost == (if g.hasInsurance then OrZero(g.declaredValue) * (OrZero(g.insurancePercentage) / 100.0) else 0.0)
  {
  }

  predicate NonNegative(n: Num)
  {
    n.NaN? || n.v >= 0.0
  }

  predicate NonNegativeItem(item: Merchandise)
  {
    NonNegative(item.quantity) && NonNegative(item.weight)
    && NonNegative(item.length) && NonNegative(item.width) && NonNegative(item.height)
  }

  lemma MulNonNegative(a: real, b: real)
    requires a >= 0.0 && b >= 0.0
    ensures a * b >= 0.0
  {
  }

  lemma Distribute(a: real, b: real, c: real)
    ensures (a + b) * c == a * c + b * c
  {
  }

  lemma UnitWeightNonNegative(item: Merchandise)
    requires NonNegativeItem(item)
    ensures UnitChargeableWeight(item) >= OrZero(item.weight) >= 0.0
  {
  }

  lemma QuantityPositive(q: Num)
    requires NonNegative(q)
    ensures OrOne(q) > 0.0
  {
  }

  lemma LineWeightNonNegative(item: Merchandise)
    requires NonNegativeItem(item)
    ensures LineWeight(item) >= 0.0
  {
    UnitWeightNonNegative(item);
    QuantityPositive(item.quantity);
    MulNonNegative(UnitChargeableWeight(item), OrOne(item.quantity));
  }

  /** The weight a line contributes to the IPOSTEL base: all of it when its units are eligible, else nothing. */
  function EligibleLineWeight(item: Merchandise): real
  {
    if IpostelEligible(UnitChargeableWeight(item)) then LineWeight(item) else 0.0
  }

  /** Sum of the eligible lines' weights. */
  function EligibleWeight(items: seq<Merchandise>): real
  {
    if items == [] then 0.0
    else EligibleWeight(items[..|items| - 1]) + EligibleLineWeight(items[|items| - 1])
  }

  lemma Rearrange(w: real, c: real, q: real)
    ensures w * c * q == w * q * c
  {
  }

  /** A line's IPOSTEL freight is its eligible weight priced at the cost per kilogram. */
  lemma LineIpostelScaled(item: Merchandise, cost: real)
    ensures LineIpostelFreight(item, cost) == EligibleLineWeight(item) * cost
  {
    Rearrange(UnitChargeableWeight(item), cost, OrOne(item.quantity));
  }

  /** The IPOSTEL base is the eligible weight priced at the cost per kilogram. */
  lemma {:induction false} IpostelBaseScaled(items: seq<Merchandise>, cost: real)
    ensures IpostelBase(items, cost) == EligibleWeight(items) * cost
    decreases |items|
  {
    if items != [] {
      var front, last := items[..|items| - 1], items[|items| - 1];
      IpostelBaseScaled(front, cost);
      LineIpostelScaled(last, cost);
      Distribute(EligibleWeight(front), EligibleLineWeight(last), cost);
    }
  }

  /** With non-negative lines the eligible weight lies between 0 and the total weight. */
  lemma {:induction false} EligibleWeightWithin(items: seq<Merchandise>)
    requires forall i :: 0 <= i < |items| ==> NonNegativeItem(items[i])
    ensures 0.0 <= EligibleWeight(items) <= TotalWeight(items)
    decreases |items|
  {
    if items != [] {
      var front := items[..|items| - 1];
      forall i | 0 <= i < |front|
        ensures NonNegativeItem(front[i])
      {
        assert front[i] == items[i];
      }
      EligibleWeightWithin(front);
      LineWeightNonNegative(items[|items| - 1]);
    }
  }

  /** Line-by-line freight: each line's weight priced separately. */
  function LineFreights(items: seq<Merchandise>, cost: real): real
  {
    if items == [] then 0.0
    else LineFreights(items[..|items| - 1], cost) + LineWeight(items[|items| - 1]) * cost
  }

  /** Pricing the lines one by one is pricing the total weight. */
  lemma {:induction false} LineFreightsTotal(items: seq<Merchandise>, cost: real)
    ensures LineFreights(items, cost) == TotalWeight(items) * cost
    decreases |items|
  {
    if items != [] {
      var front := items[..|items| - 1];
      LineFreightsTotal(front, cost);
      Distribute(TotalWeight(front), LineWeight(items[|items| - 1]), cost);
    }
  }

  /** Pricing keeps the order of two weights. */
  lemma ScaledWithin(low: real, high: real, cost: real)
    requires 0.0 <= low <= high && cost >= 0.0
    ensures 0.0 <= low * cost <= high * cost
  {
    MulNonNegative(low, cost);
    MulNonNegative(high - low, cost);
    Distribute(high - low, low, cost);
  }

  /** With non-negative inputs the IPOSTEL base is between 0 and the whole freight. */
  lemma IpostelBaseBounded(items: seq<Merchandise>, cost: real)
    requires forall i :: 0 <= i < |items| ==> NonNegativeItem(items[i])
    requires cost >= 0.0
    ensures 0.0 <= IpostelBase(items, cost) <= TotalWeight(items) * cost
    ensures TotalWeight(items) >= 0.0
  {
    IpostelBaseScaled(items, cost);
    EligibleWeightWithin(items);
    ScaledWithin(EligibleWeight(items), TotalWeight(items), cost);
  }

  predicate PriceInputsNonNegative(totalWeight: real, ipostelFreight: real, cost: real,
                                   discountPct: real, declaredValue: real, insurancePct: real)
  {
    && totalWeight >= 0.0 && cost >= 0.0 && 0.0 <= ipostelFreight <= totalWeight * cost
    && 0.0 <= discountPct <= 100.0 && declaredValue >= 0.0 && insurancePct >= 0.0
  }

  lemma PriceFreightNonNegative(totalWeight: real, ipostelFreight: real, cost: real,
                    hasDiscount: bool, discountPct: real, hasInsurance: bool, declaredValue: real,
                    insurancePct: real, currency: Currency)
    requires PriceInputsNonNegative(totalWeight, ipostelFreight, cost, discountPct, declaredValue, insurancePct)
    ensures var f := Price(totalWeight, ipostelFreight, cost, hasDiscount, discountPct, hasInsurance,
                           declaredValue, insurancePct, currency);

      f.freight >= 0.0
  {
    MulNonNegative(totalWeight, cost);
  }

  lemma PriceDiscountWithin(totalWeight: real, ipostelFreight: real, cost: real,
                    hasDiscount: bool, discountPct: real, hasInsurance: bool, declaredValue: real,
                    insurancePct: real, currency: Currency)
    requires PriceInputsNonNegative(totalWeight, ipostelFreight, cost, discountPct, declaredValue, insurancePct)
    ensures var f := Price(totalWeight, ipostelFreight, cost, hasDiscount, discountPct, hasInsurance,
                           declaredValue, insurancePct, currency);

      0.0 <= f.discount <= f.freight
  {
    PriceFreightNonNegative(totalWeight, ipostelFreight, cost, hasDiscount, discountPct, hasInsurance,
                   declaredValue, insurancePct, currency);
  }

  lemma PriceInsuranceNonNegative(totalWeight: real, ipostelFreight: real, cost: real,
                    hasDiscount: bool, discountPct: real, hasInsurance: bool, declaredValue: real,
                    insurancePct: real, currency: Currency)
    requires PriceInputsNonNegative(totalWeight, ipostelFreight, cost, discountPct, declaredValue, insurancePct)
    ensures var f := Price(totalWeight, ipostelFreight, cost, hasDiscount, discountPct, hasInsurance,
                           declaredValue, insurancePct, currency);
      f.insuranceCost >= 0.0 && f.handling >= 0.0
  {
  }

  lemma PriceIpostelWithin(totalWeight: real, ipostelFreight: real, cost: real,
                    hasDiscount: bool, discountPct: real, hasInsurance: bool, declaredValue: real,
                    insurancePct: real, currency: Currency)
    requires PriceInputsNonNegative(totalWeight, ipostelFreight, cost, discountPct, declaredValue, insurancePct)
    ensures var f := Price(totalWeight, ipostelFreight, cost, hasDiscount, discountPct, hasInsurance,
                           declaredValue, insurancePct, currency);
      0.0 <= f.ipostel <= 0.06 * f.freight
  {
  }

  lemma PriceChargesNonNegative(totalWeight: real, ipostelFreight: real, cost: real,
                    hasDiscount: bool, discountPct: real, hasInsurance: bool, declaredValue: real,
                    insurancePct: real, currency: Currency)
    requires PriceInputsNonNegative(totalWeight, ipostelFreight, cost, discountPct, declaredValue, insurancePct)
    ensures var f := Price(totalWeight, ipostelFreight, cost, hasDiscount, discountPct, hasInsurance,
                           declaredValue, insurancePct, currency);
      && f.freight >= 0.0 && f.insuranceCost >= 0.0 && f.handling >= 0.0
      && 0.0 <= f.discount <= f.freight
      && 0.0 <= f.ipostel <= 0.06 * f.freight
  {
    PriceFreightNonNegative(totalWeight, ipostelFreight, cost, hasDiscount, discountPct, hasInsurance,
                   declaredValue, insurancePct, currency);
    PriceDiscountWithin(totalWeight, ipostelFreight, cost, hasDiscount, discountPct, hasInsurance,
                   declaredValue, insurancePct, currency);
    PriceInsuranceNonNegative(totalWeight, ipostelFreight, cost, hasDiscount, discountPct, hasInsurance,
                   declaredValue, insurancePct, currency);
    PriceIpostelWithin(totalWeight, ipostelFreight, cost, hasDiscount, discountPct, hasInsurance,
                   declaredValue, insurancePct, currency);
  }

  /**
   * Every amount is non-negative, the discount never exceeds the freight and
   * IPOSTEL is at most 6% of the freight.
   */
  predicate SoundAmounts(f: Financials)
  {
    && f.freight >= 0.0 && f.insuranceCost >= 0.0 && f.handling >= 0.0 && f.discount >= 0.0
    && f.discount <= f.freight
    && f.subtotal >= 0.0 && f.ipostel >= 0.0 && f.iva >= 0.0 && f.igtf >= 0.0 && f.total >= 0.0
    && f.ipostel <= 0.06 * f.freight
  }

  lemma PriceNonNegative(totalWeight: real, ipostelFreight: real, cost: real,
                         hasDiscount: bool, discountPct: real, hasInsurance: bool, declaredValue: real,
                         insurancePct: real, currency: Currency)
    requires PriceInputsNonNegative(totalWeight, ipostelFreight, cost, discountPct, declaredValue, insurancePct)
    ensures SoundAmounts(Price(totalWeight, ipostelFreight, cost, hasDiscount, discountPct, hasInsurance,
                               declaredValue, insurancePct, currency))
  {
    PriceChargesNonNegative(totalWeight, ipostelFreight, cost, hasDiscount, discountPct, hasInsurance,
                            declaredValue, insurancePct, currency);
    var f := Price(totalWeight, ipostelFreight, cost, hasDiscount, discountPct, hasInsurance,
                   declaredValue, insurancePct, currency);
    assert f.subtotal == f.freight - f.discount + f.insuranceCost + f.handling;
    MulNonNegative(f.subtotal + f.ipostel + f.iva, 0.03);
  }

  predicate NonNegativeGuide(g: ShippingGuide, costPerKg: Num)
  {
    && g.merchandise.Some?
    && (forall i :: 0 <= i < |g.merchandise.value| ==> NonNegativeItem(g.merchandise.value[i]))
    && NonNegative(costPerKg)
    && NonNegative(g.declaredValue) && NonNegative(g.insurancePercentage)
    && NonNegative(g.discountPercentage) && OrZero(g.discountPercentage) <= 100.0
  }

  lemma RatesNonNegative(costPerKg: Num, discountPct: Num, declaredValue: Num, insurancePct: Num)
    requires NonNegative(costPerKg) && NonNegative(discountPct) && OrZero(discountPct) <= 100.0
    requires NonNegative(declaredValue) && NonNegative(insurancePct)
    ensures OrZero(costPerKg) >= 0.0 && 0.0 <= OrZero(discountPct) <= 100.0
    ensures OrZero(declaredValue) >= 0.0 && OrZero(insurancePct) >= 0.0
  {
  }

  /** Non-negative lines and rates are non-negative inputs to the pricing steps. */
  lemma LinesInputsNonNegative(items: seq<Merchandise>, cost: real, discountPct: real, declaredValue: real,
                               insurancePct: real)
    requires forall i :: 0 <= i < |items| ==> NonNegativeItem(items[i])
    requires cost >= 0.0 && 0.0 <= discountPct <= 100.0 && declaredValue >= 0.0 && insurancePct >= 0.0
    ensures PriceInputsNonNegative(TotalWeight(items), IpostelBase(items, cost), cost,
                                   discountPct, declaredValue, insurancePct)
  {
    IpostelBaseBounded(items, cost);
  }

  /**
   * With non-negative inputs and a discount of at most 100%, every amount is
   * non-negative and IPOSTEL is at most 6% of the freight.
   */
  lemma NonNegativeFinancials(g: ShippingGuide, costPerKg: Num)
    requires NonNegativeGuide(g, costPerKg)
    ensures SoundAmounts(CalculateFinancialDetails(Some(g), costPerKg))
  {
    var items := g.merchandise.value;
    var cost := OrZero(costPerKg);
    RatesNonNegative(costPerKg, g.discountPercentage, g.declaredValue, g.insurancePercentage);
    LinesInputsNonNegative(items, cost, OrZero(g.discountPercentage), OrZero(g.declaredValue),
                           OrZero(g.insurancePercentage));
    PriceNonNegative(TotalWeight(items), IpostelBase(items, cost), cost,
                     g.hasDiscount, OrZero(g.discountPercentage), g.hasInsurance, OrZero(g.declaredValue),
                     OrZero(g.insurancePercentage), g.paymentCurrency);
  }

  function SingleItemGuide(item: Merchandise, currency: Currency): ShippingGuide
  {
    var nobody := Client("", "", "", "", "", Persona, "");
    ShippingGuide("G-1", 0, "o1", "o2", nobody, nobody, Some([item]), "", "", FletePagado, currency,
                  false, Num(0.0), Num(2.0), false, Num(0.0))
  }

  /** The IPOSTEL threshold: a 30 kg unit is taxed, a 31 kg unit is not. */
  lemma IpostelBoundary(costPerKg: real)
    requires costPerKg > 0.0
    ensures var light := Merchandise(Num(1.0), Num(30.0), Num(0.0), Num(0.0), Num(0.0), "", "");
      CalculateFinancialDetails(Some(SingleItemGuide(light, VES)), Num(costPerKg)).ipostel == 0.06 * 30.0 * costPerKg
    ensures var heavy := Merchandise(Num(1.0), Num(31.0), Num(0.0), Num(0.0), Num(0.0), "", "");
      CalculateFinancialDetails(Some(SingleItemGuide(heavy, VES)), Num(costPerKg)).ipostel == 0.0
  {
    var light := Merchandise(Num(1.0), Num(30.0), Num(0.0), Num(0.0), Num(0.0), "", "");
    assert [light][..0] == [];
    assert UnitChargeableWeight(light) == 30.0;
    assert IpostelBase([light], costPerKg) == 30.0 * costPerKg * 1.0;
    var heavy := Merchandise(Num(1.0), Num(31.0), Num(0.0), Num(0.0), Num(0.0), "", "");
    assert [heavy][..0] == [];
  }

  /**
   * Worked example: 5 kg, 30x20x15 cm (volumetric 1.8 kg), 2 per kg gives
   * freight 10, handling 10, IPOSTEL 0.6 and total 20.6; in USD IGTF adds 0.618.
   */
  lemma WorkedExample()
    ensures var item := Merchandise(Num(1.0), Num(5.0), Num(30.0), Num(20.0), Num(15.0), "", "");
      var f := CalculateFinancialDetails(Some(SingleItemGuide(item, VES)), Num(2.0));
      f == Financials(10.0, 0.0, 10.0, 0.0, 20.0, 0.6, 0.0, 0.0, 20.6)
    ensures var item := Merchandise(Num(1.0), Num(5.0), Num(30.0), Num(20.0), Num(15.0), "", "");
      var f := CalculateFinancialDetails(Some(SingleItemGuide(item, USD)), Num(2.0));
      f.igtf == 0.618 && f.total == 21.218
  {
    var item := Merchandise(Num(1.0), Num(5.0), Num(30.0), Num(20.0), Num(15.0), "", "");
    assert [item][..0] == [];
    assert UnitChargeableWeight(item) == 5.0;
  }

  /**
   * The invoice weight helper agrees with the calculator: the freight the
   * calculator charges is exactly that weight times the cost per kilogram.
   */
  lemma ChargeableWeightPricesFreight(invoice: Invoice, costPerKg: Num)
    requires invoice.guide.merchandise.Some?
    ensures CalculateFinancialDetails(Some(invoice.guide), costPerKg).freight
            == InvoiceChargeableWeight(Some(invoice)) * OrZero(costPerKg)
    ensures InvoiceChargeableWeight(None) == 0.0
  {
  }
}
