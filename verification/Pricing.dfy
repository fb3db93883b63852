/** Cross-border prices: a sale price is solved from the cost for a target margin, raised to a
    coupon threshold when close to one, and then checked by adding up what is deducted from
    it.  Money is in centavos; rates are exact reals. */
module Pricing {
  import opened Wrappers
  import opened Rounding

  // ---- Freight -------------------------------------------------------------

  /** Weight limit in kilograms, and the freight card in pesos. */
  datatype Tier = Tier(limit: real, card: int)

  const SHIPPING_RATES: seq<Tier> := [
    Tier(0.1, 69), Tier(0.2, 93), Tier(0.3, 114), Tier(0.4, 134), Tier(0.5, 155),
    Tier(0.6, 176), Tier(0.7, 197), Tier(0.8, 218), Tier(0.9, 239), Tier(1.0, 259),
    Tier(1.5, 350), Tier(2.0, 454), Tier(3.0, 616), Tier(4.0, 824), Tier(5.0, 1033),
    Tier(6.0, 1394), Tier(7.0, 1603), Tier(8.0, 1811), Tier(9.0, 1825), Tier(10.0, 2059),
    Tier(11.0, 2293), Tier(12.0, 2527), Tier(13.0, 2762), Tier(14.0, 2996), Tier(30.0, 3230)]

  /** The tier is the first whose limit is not below the weight. */
  ghost predicate LeastTier(weight: real, t: nat) {
    && t < |SHIPPING_RATES| && weight <= SHIPPING_RATES[t].limit
    && forall i :: 0 <= i < t ==> SHIPPING_RATES[i].limit < weight
  }

  /** shipping_lookup: out of range is refused, and in range a tier is always found. */
  method ShippingLookup(weight: real) returns (tier: Option<nat>)
    ensures tier.Some? <==> 0.0 < weight <= 30.0
    ensures tier.Some? ==> LeastTier(weight, tier.value)
  {
    if weight <= 0.0 || weight > 30.0 {
      return None;
    }
    assert SHIPPING_RATES[24].limit == 30.0;
    var i := 0;
    while i < |SHIPPING_RATES|
      invariant 0 <= i <= |SHIPPING_RATES|
      invariant forall j :: 0 <= j < i ==> SHIPPING_RATES[j].limit < weight
    {
      if weight <= SHIPPING_RATES[i].limit {
        return Some(i);
      }
      i := i + 1;
    }
    assert false;
  }

  lemma CardsRise(i: nat, j: nat)
    requires i <= j < |SHIPPING_RATES|
    ensures SHIPPING_RATES[i].card <= SHIPPING_RATES[j].card
    ensures i < j ==> SHIPPING_RATES[i].limit < SHIPPING_RATES[j].limit && SHIPPING_RATES[i].card < SHIPPING_RATES[j].card
    decreases j
  {
    if i < j {
      CardsRise(i, j - 1);
      NextCardRises(j);
    }
  }

  lemma NextCardRises(j: nat)
    requires 0 < j < |SHIPPING_RATES|
    ensures SHIPPING_RATES[j - 1].card < SHIPPING_RATES[j].card && SHIPPING_RATES[j - 1].limit < SHIPPING_RATES[j].limit
  {
  }

  /** A heavier parcel is never carried for less. */
  lemma HeavierCostsMore(light: real, heavy: real, i: nat, j: nat)
    requires light <= heavy && LeastTier(light, i) && LeastTier(heavy, j)
    ensures SHIPPING_RATES[i].card <= SHIPPING_RATES[j].card
  {
    hide SHIPPING_RATES;
    if j >= i {
      CardsRise(i, j);
    }
  }

  /** hidden_logistics_mxn: the card less the subsidy, in centavos. */
  function Hidden(tier: nat): int
    requires tier < |SHIPPING_RATES|
  {
    100 * (SHIPPING_RATES[tier].card - 59)
  }

  /** The freight in a price starts at ten pesos and rises with the card, peso by peso. */
  lemma HiddenFollowsCard(i: nat, j: nat)
    requires i < |SHIPPING_RATES| && j < |SHIPPING_RATES|
    ensures Hidden(j) - Hidden(i) == 100 * (SHIPPING_RATES[j].card - SHIPPING_RATES[i].card)
    ensures Hidden(0) == 1000
  {
    hide SHIPPING_RATES;
    assert SHIPPING_RATES[0].card == 69 by { FirstCard(); }
  }

  lemma FirstCard()
    ensures |SHIPPING_RATES| > 0 && SHIPPING_RATES[0].card == 69
  {
  }

  // ---- Parameters ----------------------------------------------------------

  /** PopParams: percentages, a fee per item in centavos, and the import tax. */
  datatype Params = Params(
    qty: int, profitPct: real, sellerDiscountPct: real, newBuyerPct: real, affiliatePct: real, adPct: real,
    sfpPct: real, platformPct: real, perItemFee: real, taxRate: real, taxDivisor: real, taxCoeff: real)

  const DEFAULTS := Params(1, 20.0, 30.0, 0.0, 8.0, 10.0, 8.0, 6.0, 600.0, 0.335, 1.335, 0.1597)

  /** DE_MINIMIS_USD * USD_MXN in centavos */
  const DE_MINIMIS: real := 4.5 * 17.66 * 100.0

  const SFP_CAP: real := 6000.0

  function Kept(p: Params): real {
    1.0 - p.newBuyerPct / 100.0
  }

  function Times(a: real, b: real): real { a * b }

  function ItemFees(p: Params): real { p.qty as real * p.perItemFee }

  // What a sale of s centavos carries, before rounding.

  function Target(p: Params, s: real): real { s * p.profitPct / 100.0 }

  function Platform(p: Params, s: real): real { s * p.platformPct / 100.0 }

  function Sfp(p: Params, s: real): real { s * p.sfpPct / 100.0 }

  function Affiliate(p: Params, s: real): real { s * Kept(p) * p.affiliatePct / 100.0 }

  function Ad(p: Params, s: real): real { s * p.adPct / 100.0 }

  /** The tax the price formula sets aside. */
  function TaxSetAside(p: Params, s: real): real { p.taxCoeff * Kept(p) * s }

  /** The tax that is due. */
  function TaxDue(p: Params, s: real): real
    requires p.taxDivisor != 0.0
  {
    var raw := (s - DE_MINIMIS) * Kept(p) / p.taxDivisor * p.taxRate;
    if raw < 0.0 then 0.0 else raw
  }

  function SfpDue(p: Params, s: real): real {
    if Sfp(p, s) < SFP_CAP then Sfp(p, s) else SFP_CAP
  }

  /** The tax is due exactly on what exceeds 79.47 pesos. */
  lemma TaxIsOnExcess(p: Params, s: real)
    requires p.taxDivisor > 0.0 && p.taxRate > 0.0 && p.newBuyerPct < 100.0
    ensures TaxDue(p, s) == 0.0 <==> s <= 7947.0
    ensures s >= 7947.0 ==>
              Times(TaxDue(p, s), p.taxDivisor) == Times(Times(s - 7947.0, 1.0 - p.newBuyerPct / 100.0), p.taxRate)
  {
    var kept := 1.0 - p.newBuyerPct / 100.0;
    var net := Times(s - 7947.0, kept);
    var part := net / p.taxDivisor;
    SignOfProduct(s - 7947.0, kept);
    assert Times(part, p.taxDivisor) == net;
    SignOfProduct(part, p.taxDivisor);
    SignOfProduct(part, p.taxRate);
    assert TaxDue(p, s) == if Times(part, p.taxRate) < 0.0 then 0.0 else Times(part, p.taxRate);
    Commutes(part, p.taxRate, p.taxDivisor);
  }

  lemma SignOfProduct(a: real, b: real)
    requires b > 0.0
    ensures Times(a, b) == 0.0 <==> a == 0.0
    ensures Times(a, b) > 0.0 <==> a > 0.0
  {
  }

  lemma Commutes(a: real, b: real, c: real)
    ensures Times(Times(a, b), c) == Times(Times(a, c), b)
  {
  }

  /** With the default parameters: what a sale carries, and what its list price is cut by. */
  lemma DefaultShares(s: real)
    ensures Target(DEFAULTS, s) == 0.2 * s && Platform(DEFAULTS, s) == 0.06 * s && Ad(DEFAULTS, s) == 0.1 * s
    ensures Sfp(DEFAULTS, s) == Affiliate(DEFAULTS, s) == 0.08 * s && TaxSetAside(DEFAULTS, s) == 0.1597 * s
    ensures ItemFees(DEFAULTS) == 600.0 && ListShare(DEFAULTS) == 0.7
    ensures SfpDue(DEFAULTS, s) == if s <= 75000.0 then 0.08 * s else 6000.0
    ensures s > 7947.0 ==> 1.335 * TaxDue(DEFAULTS, s) == 0.335 * (s - 7947.0)
  {
  }

  // ---- Solving for the price -----------------------------------------------

  datatype Branch = HighPrice | Normal

  function DenomHigh(p: Params): real {
    1.0 - p.taxCoeff * Kept(p) - p.platformPct / 100.0 - p.affiliatePct / 100.0 * Kept(p)
    - p.profitPct / 100.0 - p.adPct / 100.0
  }

  function DenomLow(p: Params): real {
    1.0 - p.taxCoeff * Kept(p) - p.platformPct / 100.0 - p.sfpPct / 100.0 - p.affiliatePct / 100.0 * Kept(p)
    - p.profitPct / 100.0 - p.adPct / 100.0
  }

  function Denom(p: Params, branch: Branch): real {
    if branch == HighPrice then DenomHigh(p) else DenomLow(p)
  }

  function Base(p: Params, cost: int, logistics: int): int {
    p.qty * cost + logistics
  }

  datatype Price = Price(sale: int, branch: Branch)

  /** sale_price_from_cost; none when a division by zero is raised. */
  function SalePrice(p: Params, cost: int, logistics: int, rnd: real -> int): Option<Price> {
    var base := Base(p, cost, logistics) as real;
    if DenomHigh(p) == 0.0 then None
    else
      var high := base / DenomHigh(p) + 6000.0;
      if high > 100000.0 then Some(Price(rnd(high), HighPrice))
      else if DenomLow(p) == 0.0 then None
      else Some(Price(rnd(base / DenomLow(p)), Normal))
  }

  /** The high branch is taken exactly when its price is above a thousand pesos: when the base
      exceeds 940 pesos times its denominator. */
  lemma HighBranchIff(p: Params, cost: int, logistics: int, rnd: real -> int)
    requires DenomHigh(p) > 0.0 && SalePrice(p, cost, logistics, rnd).Some?
    ensures SalePrice(p, cost, logistics, rnd).value.branch == HighPrice
       <==> (p.qty * cost + logistics) as real > Times(94000.0, DenomHigh(p))
  {
    hide DenomHigh, DenomLow;
    var base, d := Base(p, cost, logistics) as real, DenomHigh(p);
    SignOfProduct(base / d - 94000.0, d);
    assert Times(base / d - 94000.0, d) == base / d * d - Times(94000.0, d);
    assert base / d * d == base;
  }

  // ---- Coupon thresholds ---------------------------------------------------

  const THRESHOLDS: seq<int> := [17900, 9900]

  /** Within a tenth below the threshold. */
  predicate Near(threshold: int, sale: int) {
    threshold as real * (1.0 - 0.10) <= sale as real && sale < threshold
  }

  /** apply_sfp_coupon_floors */
  method CouponFloor(sale: int) returns (raised: int)
    ensures raised == Raised(sale)
  {
    var i := 0;
    while i < |THRESHOLDS|
      invariant 0 <= i <= 2 && forall j :: 0 <= j < i ==> !Near(THRESHOLDS[j], sale)
    {
      if Near(THRESHOLDS[i], sale) {
        return THRESHOLDS[i];
      }
      i := i + 1;
    }
    assert !Near(THRESHOLDS[0], sale) && !Near(THRESHOLDS[1], sale);
    raised := sale;
  }

  function Raised(sale: int): int {
    if 16110 <= sale < 17900 then 17900 else if 8910 <= sale < 9900 then 9900 else sale
  }

  /** Raising never lowers a price, adds at most a ninth to it, keeps the order of prices,
      and is done once. */
  lemma RaisingSettles(sale: int, other: int)
    ensures Raised(Raised(sale)) == Raised(sale)
    ensures sale <= Raised(sale) && (Raised(sale) != sale ==> 9 * Raised(sale) <= 10 * sale)
    ensures sale <= other ==> Raised(sale) <= Raised(other)
    ensures forall i :: 0 <= i < |THRESHOLDS| ==> !Near(THRESHOLDS[i], Raised(sale))
    ensures Raised(sale) == sale || Raised(sale) == 17900 || Raised(sale) == 9900
    ensures Raised(sale) != sale <==> 9 * 17900 <= 10 * sale < 10 * 17900 || 9 * 9900 <= 10 * sale < 10 * 9900
  {
  }

  // ---- Checking the price --------------------------------------------------

  datatype Check = Check(
    tax: int, platform: int, sfp: int, perItem: int, affiliate: int, ad: int, income: int, profit: int, list: real)

  /** What discounts leave of a list price. */
  function ListShare(p: Params): real {
    1.0 - p.sellerDiscountPct / 100.0 - p.newBuyerPct / 100.0
  }

  /** _verify_sale; none when a division by zero is raised. */
  function VerifySale(p: Params, sale: int, cost: int, logistics: int, rnd: real -> int): Option<Check> {
    if p.taxDivisor == 0.0 || (ListShare(p) > 0.0 && p.qty == 0) then None
    else
      var s := sale as real;
      var tax, platform, sfp := rnd(TaxDue(p, s)), rnd(Platform(p, s)), rnd(SfpDue(p, s));
      var perItem, affiliate, ad := rnd(ItemFees(p)), rnd(Affiliate(p, s)), rnd(Ad(p, s));
      var income := rnd((sale - logistics - tax - platform - sfp - affiliate - ad - perItem) as real);
      var profit := rnd((income - cost * p.qty) as real);
      var list := if ListShare(p) > 0.0 then rnd(s / ListShare(p) / p.qty as real) as real else s;
      Some(Check(tax, platform, sfp, perItem, affiliate, ad, income, profit, list))
  }

  /** All deductions, the cost and the profit add back to the price, to the centavo. */
  lemma DeductionsAddBack(p: Params, sale: int, cost: int, logistics: int, rnd: real -> int)
    requires Nearest(rnd) && VerifySale(p, sale, cost, logistics, rnd).Some?
    ensures var c := VerifySale(p, sale, cost, logistics, rnd).value;
            sale == c.tax + c.platform + c.sfp + c.affiliate + c.ad + c.perItem + Base(p, cost, logistics) + c.profit
  {
    hide TaxDue, Platform, SfpDue, Affiliate, Ad, ListShare, Nearest;
    var c := VerifySale(p, sale, cost, logistics, rnd).value;
    WholeStays(rnd, sale - logistics - c.tax - c.platform - c.sfp - c.affiliate - c.ad - c.perItem);
    WholeStays(rnd, c.income - cost * p.qty);
  }

  /** Unrounded, the price formula shares a price out completely. */
  lemma SharedOut(p: Params, s: real, branch: Branch)
    ensures Times(s, Denom(p, branch))
         == s - TaxSetAside(p, s) - Platform(p, s) - Affiliate(p, s) - Target(p, s) - Ad(p, s)
            - if branch == Normal then Sfp(p, s) else 0.0
  {
  }

  /** Rounding a solved price moves its product with the denominator by at most half of that. */
  lemma SolvedWithin(s: real, raw: real, base: real, d: real)
    requires d != 0.0 && raw == base / d && -0.5 <= s - raw <= 0.5
    ensures Abs(Times(s, d) - base) <= 0.5 * Abs(d)
  {
    var off := Times(s - raw, d);
    assert off == Times(s, d) - base by {
      assert raw * d == base;
    }
    HalfOf(s - raw, d);
    hide Times;
  }

  lemma HalfOf(x: real, d: real)
    requires -0.5 <= x <= 0.5
    ensures Abs(Times(x, d)) <= 0.5 * Abs(d)
  {
    if d >= 0.0 {
      HalfOfPositive(x, d);
    } else {
      HalfOfPositive(x, -d);
      assert Times(x, -d) == -Times(x, d);
    }
  }

  lemma HalfOfPositive(x: real, d: real)
    requires -0.5 <= x <= 0.5 && d >= 0.0
    ensures -0.5 * d <= Times(x, d) <= 0.5 * d
  {
    NotNegative(0.5 - x, d);
    NotNegative(0.5 + x, d);
  }

  lemma NotNegative(a: real, b: real)
    requires a >= 0.0 && b >= 0.0
    ensures a * b >= 0.0
  {
  }

  lemma HighSolvedWithin(s: real, raw: real, base: real, d: real)
    requires d != 0.0 && raw == base / d + SFP_CAP && -0.5 <= s - raw <= 0.5
    ensures Abs(Times(s, d) - base - SFP_CAP * d) <= 0.5 * Abs(d)
  {
    SolvedWithin(s - SFP_CAP, raw - SFP_CAP, base, d);
    assert Times(s - SFP_CAP, d) == Times(s, d) - SFP_CAP * d;
    hide Times;
  }

  /** What the price formula keeps back for the platform's shipping fee. */
  function SfpKeptBack(p: Params, s: real, branch: Branch): real {
    if branch == Normal then Sfp(p, s) else SFP_CAP * DenomHigh(p)
  }

  /** Profit as the formula means it: the target, plus what was set aside for the tax and for
      the shipping fee beyond what is due, less the fee per item, which the formula leaves out. */
  function IntendedProfit(p: Params, s: real, branch: Branch): real
    requires p.taxDivisor != 0.0
  {
    Target(p, s) + (TaxSetAside(p, s) - TaxDue(p, s)) + (SfpKeptBack(p, s, branch) - SfpDue(p, s))
    - ItemFees(p)
  }

  lemma PriceIsSolved(p: Params, cost: int, logistics: int, rnd: real -> int)
    requires Nearest(rnd) && SalePrice(p, cost, logistics, rnd).Some?
    ensures var price := SalePrice(p, cost, logistics, rnd).value;
            var s, d := price.sale as real, Denom(p, price.branch);
            Abs(Times(s, d) - Base(p, cost, logistics) as real - if price.branch == Normal then 0.0 else SFP_CAP * d)
            <= 0.5 * Abs(d)
  {
    hide DenomHigh, DenomLow, Base, Abs, Times;
    var price, base := SalePrice(p, cost, logistics, rnd).value, Base(p, cost, logistics) as real;
    var s, d := price.sale as real, Denom(p, price.branch);
    if price.branch == Normal {
      SolvedWithin(s, base / d, base, d);
      assert Times(s, d) - base - 0.0 == Times(s, d) - base;
    } else {
      HighSolvedWithin(s, base / d + SFP_CAP, base, d);
    }
  }

  lemma WithinHalf(rnd: real -> int, x: real)
    requires Nearest(rnd)
    ensures -0.5 <= rnd(x) as real - x <= 0.5
  {
  }

  /** The six rounded deductions, against what they round. */
  lemma DeductionsRounded(p: Params, sale: int, cost: int, logistics: int, rnd: real -> int)
    requires Nearest(rnd) && VerifySale(p, sale, cost, logistics, rnd).Some?
    ensures var c, s := VerifySale(p, sale, cost, logistics, rnd).value, sale as real;
            Abs((c.tax + c.platform + c.sfp + c.perItem + c.affiliate + c.ad) as real
                - (TaxDue(p, s) + Platform(p, s) + SfpDue(p, s) + ItemFees(p) + Affiliate(p, s) + Ad(p, s))) <= 3.0
  {
    hide TaxDue, Platform, SfpDue, Affiliate, Ad, ItemFees, ListShare, Nearest;
    var s := sale as real;
    WithinHalf(rnd, TaxDue(p, s));
    WithinHalf(rnd, Platform(p, s));
    WithinHalf(rnd, SfpDue(p, s));
    WithinHalf(rnd, ItemFees(p));
    WithinHalf(rnd, Affiliate(p, s));
    WithinHalf(rnd, Ad(p, s));
  }

  /** The check agrees with the price: on either branch, with no threshold raising the price,
      the verified profit is the intended one to within three centavos of rounding and half
      the denominator; within four centavos in all while the denominator is at most two. */
  lemma CheckAgrees(p: Params, cost: int, logistics: int, rnd: real -> int)
    requires Nearest(rnd) && SalePrice(p, cost, logistics, rnd).Some?
    requires var sale := SalePrice(p, cost, logistics, rnd).value.sale;
             Raised(sale) == sale && VerifySale(p, sale, cost, logistics, rnd).Some?
    ensures var price := SalePrice(p, cost, logistics, rnd).value;
            var profit := VerifySale(p, price.sale, cost, logistics, rnd).value.profit;
            var error := Abs(profit as real - IntendedProfit(p, price.sale as real, price.branch));
            && error <= 3.0 + 0.5 * Abs(Denom(p, price.branch))
            && (Abs(Denom(p, price.branch)) <= 2.0 ==> error <= 4.0)
  {
    var price := SalePrice(p, cost, logistics, rnd).value;
    PriceIsSolved(p, cost, logistics, rnd);
    SharedOut(p, price.sale as real, price.branch);
    DeductionsRounded(p, price.sale, cost, logistics, rnd);
    DeductionsAddBack(p, price.sale, cost, logistics, rnd);
    hide SalePrice, VerifySale, TaxDue, Platform, Sfp, SfpDue, Affiliate, Ad, Target, TaxSetAside, DenomHigh, DenomLow,
      Times, ItemFees, Base, Nearest, Raised;
  }

  /** What a price should leave: the target, what was set aside for the tax beyond what is due,
      less the fee per item. */
  function Wanted(p: Params, s: real): real
    requires p.taxDivisor != 0.0
  {
    Target(p, s) + (TaxSetAside(p, s) - TaxDue(p, s)) - ItemFees(p)
  }

  /** A high price is above every threshold, so none raises it. */
  lemma HighPriceIsHigh(p: Params, cost: int, logistics: int, rnd: real -> int)
    requires Nearest(rnd) && SalePrice(p, cost, logistics, rnd).Some?
    requires SalePrice(p, cost, logistics, rnd).value.branch == HighPrice
    ensures var sale := SalePrice(p, cost, logistics, rnd).value.sale; sale >= 100000 && Raised(sale) == sale
  {
    hide DenomHigh, DenomLow, Base;
    var high := Base(p, cost, logistics) as real / DenomHigh(p) + 6000.0;
    WithinHalf(rnd, high);
    assert rnd(high) as real > 99999.4;
  }

  /** Verified profits on the high-price branch, for every cost that takes it.  The branch keeps
      back the cap times its denominator for the shipping fee: the verified profit is what is
      wanted, plus that, less the fee due, within rounding, which is four centavos while the
      denominator is at most two.  The branch keeps back enough exactly when the fee due is no
      more than that, and the verified profit is as wanted or short accordingly. */
  lemma HighPriceShortfall(p: Params, cost: int, logistics: int, rnd: real -> int)
    requires Nearest(rnd) && SalePrice(p, cost, logistics, rnd).Some?
    requires SalePrice(p, cost, logistics, rnd).value.branch == HighPrice
    requires VerifySale(p, SalePrice(p, cost, logistics, rnd).value.sale, cost, logistics, rnd).Some?
    ensures var sale := SalePrice(p, cost, logistics, rnd).value.sale;
            var s, profit := sale as real, VerifySale(p, sale, cost, logistics, rnd).value.profit as real;
            var short, rounding := SfpDue(p, s) - SFP_CAP * DenomHigh(p), 3.0 + 0.5 * Abs(DenomHigh(p));
            && Abs(profit - (Wanted(p, s) - short)) <= rounding
            && (IntendedProfit(p, s, HighPrice) >= Wanted(p, s) <==> SfpDue(p, s) <= SFP_CAP * DenomHigh(p))
            && (Abs(DenomHigh(p)) <= 2.0 ==> rounding <= 4.0)
            && (SfpDue(p, s) <= SFP_CAP * DenomHigh(p) ==> profit >= Wanted(p, s) - rounding)
            && (SfpDue(p, s) > SFP_CAP * DenomHigh(p) ==> profit < Wanted(p, s) + rounding)
            && (SfpDue(p, s) > SFP_CAP * DenomHigh(p) + 2.0 * rounding ==> profit < Wanted(p, s) - rounding)
  {
    HighPriceIsHigh(p, cost, logistics, rnd);
    CheckAgrees(p, cost, logistics, rnd);
    hide SalePrice, VerifySale, TaxDue, Sfp, SfpDue, Target, TaxSetAside, DenomHigh, ItemFees, Nearest, Raised;
  }

  /** With the default parameters every high-priced sale is short of what is wanted by 35.982
      pesos, within four centavos. */
  lemma DefaultShortfall(cost: int, logistics: int, rnd: real -> int)
    requires Nearest(rnd) && SalePrice(DEFAULTS, cost, logistics, rnd).Some?
    requires SalePrice(DEFAULTS, cost, logistics, rnd).value.branch == HighPrice
    ensures var sale := SalePrice(DEFAULTS, cost, logistics, rnd).value.sale;
            && VerifySale(DEFAULTS, sale, cost, logistics, rnd).Some?
            && Abs(VerifySale(DEFAULTS, sale, cost, logistics, rnd).value.profit as real
                   - (Wanted(DEFAULTS, sale as real) - 3598.2)) <= 4.0
  {
    var sale := SalePrice(DEFAULTS, cost, logistics, rnd).value.sale;
    HighPriceIsHigh(DEFAULTS, cost, logistics, rnd);
    DefaultsVerify(sale, cost, logistics, rnd);
    HighPriceShortfall(DEFAULTS, cost, logistics, rnd);
    DefaultFigures(sale as real);
    hide SalePrice, VerifySale, Wanted, SfpDue, DenomHigh, Nearest;
  }

  lemma DefaultsVerify(sale: int, cost: int, logistics: int, rnd: real -> int)
    ensures VerifySale(DEFAULTS, sale, cost, logistics, rnd).Some?
  {
    hide TaxDue, Platform, SfpDue, Affiliate, Ad, ItemFees;
  }

  lemma DefaultFigures(s: real)
    requires s >= 100000.0
    ensures DenomHigh(DEFAULTS) == 0.4003 && SfpDue(DEFAULTS, s) == SFP_CAP
  {
  }

  ghost predicate KeepsOrder(rnd: real -> int) {
    forall x, y :: x <= y ==> rnd(x) <= rnd(y)
  }

  lemma QuotientKeepsOrder(a: real, b: real, d: real)
    requires a <= b && d > 0.0
    ensures a / d <= b / d
  {
  }

  /** Within one branch a dearer item is never sold for less, when the denominator is positive. */
  lemma DearerCostsMore(p: Params, cost: int, dearer: int, logistics: int, rnd: real -> int)
    requires KeepsOrder(rnd) && cost <= dearer && p.qty >= 0
    requires SalePrice(p, cost, logistics, rnd).Some? && SalePrice(p, dearer, logistics, rnd).Some?
    requires var branch := SalePrice(p, cost, logistics, rnd).value.branch;
             SalePrice(p, dearer, logistics, rnd).value.branch == branch && Denom(p, branch) > 0.0
    ensures SalePrice(p, cost, logistics, rnd).value.sale <= SalePrice(p, dearer, logistics, rnd).value.sale
  {
    assert Base(p, cost, logistics) <= Base(p, dearer, logistics) by {
      assert p.qty * (dearer - cost) >= 0;
    }
    hide DenomHigh, DenomLow, Base;
    var branch := SalePrice(p, cost, logistics, rnd).value.branch;
    QuotientKeepsOrder(Base(p, cost, logistics) as real, Base(p, dearer, logistics) as real, Denom(p, branch));
  }

  /** Discounting the list price gives the sale price back, to half a centavo an item. */
  lemma ListDiscountsBack(p: Params, sale: int, cost: int, logistics: int, rnd: real -> int)
    requires Nearest(rnd) && VerifySale(p, sale, cost, logistics, rnd).Some? && ListShare(p) > 0.0
    ensures var c := VerifySale(p, sale, cost, logistics, rnd).value;
            var whole := Times(1.0 - p.sellerDiscountPct / 100.0 - p.newBuyerPct / 100.0, p.qty as real);
            Abs(Times(c.list, whole) - sale as real) <= 0.5 * Abs(whole)
  {
    assert ListShare(p) == 1.0 - p.sellerDiscountPct / 100.0 - p.newBuyerPct / 100.0;
    hide TaxDue, Platform, SfpDue, Affiliate, Ad, ListShare, Abs, Times, ItemFees;
    var c := VerifySale(p, sale, cost, logistics, rnd).value;
    var s, share, qty := sale as real, ListShare(p), p.qty as real;
    var raw := s / share / qty;
    DivideTwice(s, share, qty);
    WithinHalf(rnd, raw);
    assert c.list == rnd(raw) as real;
    SolvedWithin(c.list, raw, s, Times(share, qty));
  }

  lemma DivideTwice(s: real, a: real, b: real)
    requires a != 0.0 && b != 0.0
    ensures Times(a, b) != 0.0 && s / a / b == s / Times(a, b)
  {
    var x := s / a / b;
    assert x * b == s / a;
    assert x * b * a == s;
    assert x * (a * b) == s;
  }

  // ---- From the cost to the price ------------------------------------------

  datatype Quote = Quote(tier: nat, price: Price, sale: int, check: Check)

  function Billable(weight: real, volume: real): real {
    if weight < volume then volume else weight
  }

  /** calc_pop_price, from the cost in centavos and both weights: freight, price, threshold,
      check.  A quote adds up, is never below the solved price, and lies near no threshold. */
  method CalcPopPrice(p: Params, cost: int, weight: real, volume: real, rnd: real -> int) returns (quote: Option<Quote>)
    requires Nearest(rnd)
    ensures quote.Some? ==>
              var q := quote.value;
              && LeastTier(Billable(weight, volume), q.tier)
              && SalePrice(p, cost, Hidden(q.tier), rnd) == Some(q.price)
              && q.sale == Raised(q.price.sale)
              && VerifySale(p, q.sale, cost, Hidden(q.tier), rnd) == Some(q.check)
    ensures quote.Some? ==>
              var q, c := quote.value, quote.value.check;
              && q.sale == c.tax + c.platform + c.sfp + c.affiliate + c.ad + c.perItem
                           + p.qty * cost + Hidden(q.tier) + c.profit
              && q.price.sale <= q.sale == Raised(q.sale)
              && q.tier < |SHIPPING_RATES|
              && weight <= SHIPPING_RATES[q.tier].limit && volume <= SHIPPING_RATES[q.tier].limit
              && forall i :: 0 <= i < q.tier ==> SHIPPING_RATES[i].limit < weight || SHIPPING_RATES[i].limit < volume
    ensures quote.None? && (0.0 < weight || 0.0 < volume) && weight <= 30.0 && volume <= 30.0 ==>
              exists t :: LeastTier(Billable(weight, volume), t) && Unpriced(p, cost, Hidden(t), rnd)
  {
    hide LeastTier, SalePrice, VerifySale, Hidden, SHIPPING_RATES, Nearest;
    var tier := ShippingLookup(Billable(weight, volume));
    if tier.None? {
      return None;
    }
    assert tier.value < |SHIPPING_RATES| by { TierInTable(Billable(weight, volume), tier.value); }
    var logistics := Hidden(tier.value);
    var price := SalePrice(p, cost, logistics, rnd);
    if price.None? {
      return None;
    }
    var sale := CouponFloor(price.value.sale);
    RaisingSettles(price.value.sale, price.value.sale);
    var check := VerifySale(p, sale, cost, logistics, rnd);
    if check.None? {
      return None;
    }
    DeductionsAddBack(p, sale, cost, logistics, rnd);
    quote := Some(Quote(tier.value, price.value, sale, check.value));
  }

  lemma TierInTable(weight: real, t: nat)
    requires LeastTier(weight, t)
    ensures t < |SHIPPING_RATES|
  {
  }

  /** A division by zero on the way. */
  predicate Unpriced(p: Params, cost: int, logistics: int, rnd: real -> int) {
    var price := SalePrice(p, cost, logistics, rnd);
    price.None? || VerifySale(p, Raised(price.value.sale), cost, logistics, rnd).None?
  }
}
