/**
 * The financial ratio calculator (services/financial_ratios.py): ratios by
 * category from the last one or two values of the revenue, EBITDA and
 * profit lists, each with an interpretation against fixed thresholds.
 *
 * Numbers are reals. `float()` of a string and the fractional power of the
 * compound growth rate enter as functions.
 */
module FinancialRatios {
  import opened Wrappers

  /** What a metric dictionary's `value` holds. */
  datatype Raw = Num(x: real) | Text(s: string) | Null

  /** One metric list element: a dictionary, whose `value` key may be
      missing, or anything else. */
  datatype Entry = Dict(value: Option<Raw>) | NotADict

  /** The KPI lists the calculator reads; a missing key is an empty list.
      `grossMargins` is `margins["gross_margin"]`. */
  datatype Kpis = Kpis(revenue: seq<Entry>, ebitda: seq<Entry>, profit: seq<Entry>, grossMargins: seq<Entry>)

  /** `market_data`, when it is a non-empty dictionary. */
  datatype MarketData = MarketData(marketCap: Option<real>, sharesOutstanding: Option<real>)

  /** One computed ratio. */
  datatype Ratio = Ratio(value: real, unit: string, interpretation: Option<string>)

  /** The ratio names, one per key the calculator writes. */
  datatype RatioName =
    | EbitdaMargin | NetProfitMargin | GrossMargin | ReturnOnRevenue
    | RevenueGrowthRate | EbitdaGrowthRate | ProfitGrowthRate | RevenueCagr
    | EbitdaToRevenue | PeRatio | Eps

  /** The dictionary key of each ratio. */
  function Key(n: RatioName): string {
    match n
    case EbitdaMargin => "ebitda_margin"
    case NetProfitMargin => "net_profit_margin"
    case GrossMargin => "gross_margin"
    case ReturnOnRevenue => "return_on_revenue"
    case RevenueGrowthRate => "revenue_growth_rate"
    case EbitdaGrowthRate => "ebitda_growth_rate"
    case ProfitGrowthRate => "profit_growth_rate"
    case RevenueCagr => "revenue_cagr"
    case EbitdaToRevenue => "ebitda_to_revenue"
    case PeRatio => "pe_ratio"
    case Eps => "eps"
  }

  type Category = map<RatioName, Ratio>

  /** The six categories `calculate_ratios` always returns. */
  datatype Ratios = Ratios(profitability: Category, liquidity: Category, leverage: Category,
                           efficiency: Category, valuation: Category, growth: Category)

  const NO_RATIOS: Ratios := Ratios(map[], map[], map[], map[], map[], map[])

  /** `float(value)`: `None` when it raises `ValueError` or `TypeError`. */
  function FloatOf(v: Raw, parseFloat: string -> Option<real>): Option<real> {
    match v
    case Num(x) => Some(x)
    case Text(s) => parseFloat(s)
    case Null => None
  }

  /** The values `_extract_metric_values` keeps, in order. */
  function Extracted(es: seq<Entry>, parseFloat: string -> Option<real>): (vs: seq<real>)
    ensures |vs| <= |es|
  {
    if es == [] then []
    else
      var e := es[|es| - 1];
      Extracted(es[..|es| - 1], parseFloat) +
        if e.Dict? && e.value.Some? && FloatOf(e.value.value, parseFloat).Some? then [FloatOf(e.value.value, parseFloat).value]
        else []
  }

  /** `_extract_metric_values`. */
  method ExtractMetricValues(es: seq<Entry>, parseFloat: string -> Option<real>) returns (vs: seq<real>)
    ensures vs == Extracted(es, parseFloat)
  {
    vs := [];
    for i := 0 to |es|
      invariant vs == Extracted(es[..i], parseFloat)
    {
      assert es[..i + 1][..i] == es[..i];
      var e := es[i];
      if e.Dict? && e.value.Some? {
        var f := FloatOf(e.value.value, parseFloat);
        if f.Some? {
          vs := vs + [f.value];
        }
      }
    }
    assert es[..|es|] == es;
  }

  function Last(xs: seq<real>): real
    requires xs != []
  {
    xs[|xs| - 1]
  }

  /** `latest_num and latest_den and latest_den > 0` over non-empty lists. */
  predicate LatestGuard(num: seq<real>, den: seq<real>) {
    num != [] && den != [] && Last(num) != 0.0 && Last(den) > 0.0
  }

  /** How many of the descending thresholds `hi > mid > lo` a value strictly exceeds. */
  function Level3(x: real, hi: real, mid: real, lo: real): (l: nat)
    requires hi > mid > lo
    ensures l <= 3
    ensures l == 3 <==> x > hi
    ensures l >= 2 <==> x > mid
    ensures l >= 1 <==> x > lo
  {
    if x > hi then 3 else if x > mid then 2 else if x > lo then 1 else 0
  }

  /** The level of a margin against the thresholds of its type: 20/10/5 for
      EBITDA, 15/10/5 for net profit, 40/30/20 otherwise. */
  function MarginLevel(margin: real, kind: string): (l: nat)
    ensures l <= 3
    ensures kind == "EBITDA" ==> (l == 3 <==> margin > 20.0) && (l >= 2 <==> margin > 10.0) && (l >= 1 <==> margin > 5.0)
    ensures kind == "Net Profit" ==>
              (l == 3 <==> margin > 15.0) && (l >= 2 <==> margin > 10.0) && (l >= 1 <==> margin > 5.0)
    ensures kind != "EBITDA" && kind != "Net Profit" ==>
              (l == 3 <==> margin > 40.0) && (l >= 2 <==> margin > 30.0) && (l >= 1 <==> margin > 20.0)
  {
    if kind == "EBITDA" then Level3(margin, 20.0, 10.0, 5.0)
    else if kind == "Net Profit" then Level3(margin, 15.0, 10.0, 5.0)
    else Level3(margin, 40.0, 30.0, 20.0)
  }

  /** The interpretations of a margin type, from level 0 to level 3. */
  function MarginLabels(kind: string): (labels: seq<string>)
    ensures |labels| == 4
  {
    if kind == "EBITDA" then
      ["Low - May indicate operational challenges", "Moderate - Acceptable operational margins",
       "Good - Healthy operational margins", "Excellent - Strong operational efficiency"]
    else if kind == "Net Profit" then
      ["Low - Thin profit margins", "Moderate - Reasonable profitability",
       "Good - Strong profitability", "Excellent - Very profitable"]
    else ["Low", "Moderate", "Good", "Excellent"]
  }

  /** `_interpret_margin(margin, margin_type)`: the label names the margin's
      level, and a different level reads differently. */
  function InterpretMargin(margin: real, kind: string): (s: string)
    ensures forall i :: 0 <= i < 4 ==> (s == MarginLabels(kind)[i] <==> MarginLevel(margin, kind) == i)
  {
    MarginLabels(kind)[MarginLevel(margin, kind)]
  }

  /** How many of 20, 10, 5, 0 a growth rate strictly exceeds. */
  function GrowthLevel(rate: real): (l: nat)
    ensures l <= 4
    ensures l == 4 <==> rate > 20.0
    ensures l >= 3 <==> rate > 10.0
    ensures l >= 2 <==> rate > 5.0
    ensures l >= 1 <==> rate > 0.0
  {
    if rate > 20.0 then 4 else if rate > 10.0 then 3 else if rate > 5.0 then 2 else if rate > 0.0 then 1 else 0
  }

  const GROWTH_LABELS: seq<string> := ["Declining - Negative growth", "Slow - Minimal growth",
    "Moderate - Steady growth", "Good - Healthy growth", "Excellent - Strong growth trajectory"]

  /** `_interpret_growth(rate)`: the label names the rate's level, and a
      different level reads differently. */
  function InterpretGrowth(rate: real): (s: string)
    ensures forall i :: 0 <= i < |GROWTH_LABELS| ==> (s == GROWTH_LABELS[i] <==> GrowthLevel(rate) == i)
  {
    GROWTH_LABELS[GrowthLevel(rate)]
  }

  /** How many of 10, 20, 30 a P/E ratio reaches. */
  function PeLevel(pe: real): (l: nat)
    ensures l <= 3
    ensures l == 0 <==> pe < 10.0
    ensures l >= 2 <==> pe >= 20.0
    ensures l == 3 <==> pe >= 30.0
  {
    if pe < 10.0 then 0 else if pe < 20.0 then 1 else if pe < 30.0 then 2 else 3
  }

  const PE_LABELS: seq<string> := ["Potentially undervalued or high risk", "Reasonable valuation",
    "Moderately overvalued", "Potentially overvalued"]

  /** `_interpret_pe_ratio(pe)`: the label names the ratio's level, and a
      different level reads differently. */
  function InterpretPe(pe: real): (s: string)
    ensures forall i :: 0 <= i < |PE_LABELS| ==> (s == PE_LABELS[i] <==> PeLevel(pe) == i)
  {
    PE_LABELS[PeLevel(pe)]
  }

  /** `latest / base * 100` under `LatestGuard`, the shared form of the margins. */
  function Percent(num: seq<real>, den: seq<real>): real
    requires LatestGuard(num, den)
  {
    Last(num) / Last(den) * 100.0
  }

  /** The last gross margin entry is a dictionary whose value is a
      non-empty string: truthy, so `_interpret_margin` compares it with a
      number and raises. */
  predicate GrossIsText(grossMargins: seq<Entry>) {
    grossMargins != [] && grossMargins[|grossMargins| - 1].Dict? && grossMargins[|grossMargins| - 1].value.Some?
    && grossMargins[|grossMargins| - 1].value.value.Text? && grossMargins[|grossMargins| - 1].value.value.s != ""
  }

  /** The last gross margin entry is a dictionary whose value is a non-zero number. */
  predicate GrossIsNumber(grossMargins: seq<Entry>) {
    grossMargins != [] && grossMargins[|grossMargins| - 1].Dict? && grossMargins[|grossMargins| - 1].value.Some?
    && grossMargins[|grossMargins| - 1].value.value.Num? && grossMargins[|grossMargins| - 1].value.value.x != 0.0
  }

  /** `latest_gross` when it is truthy: `Some(Some(x))` for a non-zero number,
      `Some(None)` when no gross margin is reported, `None` when it raises. */
  function LatestGross(grossMargins: seq<Entry>): (g: Option<Option<real>>)
    ensures g.None? <==> GrossIsText(grossMargins)
    ensures g.Some? && g.value.Some? <==> GrossIsNumber(grossMargins)
    ensures g.Some? && g.value.Some? ==> g.value.value == grossMargins[|grossMargins| - 1].value.value.x
  {
    if grossMargins == [] then Some(None)
    else match grossMargins[|grossMargins| - 1]
      case Dict(Some(Num(x))) => Some(if x != 0.0 then Some(x) else None)
      case Dict(Some(Text(s))) => if s != "" then None else Some(None)
      case _ => Some(None)
  }

  /** `_calculate_profitability_ratios`: `None` when it raises, which a
      non-empty string as the last gross margin does (`str > int`). */
  function ProfitabilityRatios(revenues: seq<real>, ebitda: seq<real>, profit: seq<real>, grossMargins: seq<Entry>)
    : (r: Option<Category>)
    ensures r.None? <==> GrossIsText(grossMargins)
    ensures r.Some? ==> (GrossMargin in r.value <==> GrossIsNumber(grossMargins))
    ensures r.Some? && GrossIsNumber(grossMargins) ==>
              var x := grossMargins[|grossMargins| - 1].value.value.x;
              r.value[GrossMargin] == Ratio(x, "percentage", Some(InterpretMargin(x, "Gross")))
    ensures r.Some? ==> (EbitdaMargin in r.value <==> LatestGuard(ebitda, revenues))
    ensures r.Some? ==> (NetProfitMargin in r.value <==> LatestGuard(profit, revenues))
    ensures r.Some? ==> (ReturnOnRevenue in r.value <==> LatestGuard(profit, revenues))
    ensures r.Some? && LatestGuard(ebitda, revenues) ==>
              var v := Percent(ebitda, revenues);
              r.value[EbitdaMargin] == Ratio(v, "percentage", Some(InterpretMargin(v, "EBITDA")))
    ensures r.Some? && LatestGuard(profit, revenues) ==>
              var v := Percent(profit, revenues);
              && r.value[NetProfitMargin] == Ratio(v, "percentage", Some(InterpretMargin(v, "Net Profit")))
              && r.value[ReturnOnRevenue] == Ratio(v, "percentage", None)
    ensures r.Some? ==> r.value.Keys <= {EbitdaMargin, NetProfitMargin, GrossMargin, ReturnOnRevenue}
  {
    var withEbitda: Category :=
      if LatestGuard(ebitda, revenues) then
        var v := Percent(ebitda, revenues);
        map[EbitdaMargin := Ratio(v, "percentage", Some(InterpretMargin(v, "EBITDA")))]
      else map[];
    var withNet :=
      if LatestGuard(profit, revenues) then
        var v := Percent(profit, revenues);
        withEbitda[NetProfitMargin := Ratio(v, "percentage", Some(InterpretMargin(v, "Net Profit")))]
      else withEbitda;
    var gross := LatestGross(grossMargins);
    if gross.None? then None
    else
      var withGross :=
        if gross.value.Some? then
          withNet[GrossMargin := Ratio(gross.value.value, "percentage", Some(InterpretMargin(gross.value.value, "Gross")))]
        else withNet;
      Some(if LatestGuard(profit, revenues) then withGross[ReturnOnRevenue := Ratio(Percent(profit, revenues), "percentage", None)]
           else withGross)
  }

  /** A year-over-year growth rate of the last two values, present when the
      earlier one is positive: the change as a percentage of the earlier value. */
  function GrowthRate(vs: seq<real>): (g: Option<real>)
    ensures g.Some? <==> |vs| >= 2 && vs[|vs| - 2] > 0.0
    ensures g.Some? ==> g.value == (vs[|vs| - 1] - vs[|vs| - 2]) / vs[|vs| - 2] * 100.0
    ensures g.Some? ==> (g.value > 0.0 <==> vs[|vs| - 1] > vs[|vs| - 2])
  {
    if |vs| >= 2 && vs[|vs| - 2] > 0.0 then
      var prev := vs[|vs| - 2];
      var diff := vs[|vs| - 1] - prev;
      assert diff > 0.0 <==> diff / prev > 0.0;
      Some(diff / prev * 100.0)
    else None
  }

  /** The compound growth computation takes a real root of a negative number
      and yields a complex value, which the interpretation cannot compare:
      three or more revenues, the first positive and the last negative. */
  predicate CagrRaises(revenues: seq<real>) {
    |revenues| >= 3 && revenues[0] > 0.0 && Last(revenues) < 0.0
  }

  /** A growth ratio: the rate, as a percentage, with its interpretation. */
  function GrowthEntry(rate: real): Ratio {
    Ratio(rate, "percentage", Some(InterpretGrowth(rate)))
  }

  /** Adds a growth rate under `key` when there is one. */
  function WithRate(c: Category, key: RatioName, g: Option<real>): Category {
    if g.Some? then c[key := GrowthEntry(g.value)] else c
  }

  /** `_calculate_growth_ratios`; `root(x, n)` is `x ** (1 / n)` for `x >= 0`.
      `None` when it raises. */
  function GrowthRatios(revenues: seq<real>, ebitda: seq<real>, profit: seq<real>, root: (real, nat) -> real)
    : (r: Option<Category>)
    ensures r.None? <==> CagrRaises(revenues)
    ensures r.Some? ==> (RevenueGrowthRate in r.value <==> GrowthRate(revenues).Some?)
    ensures r.Some? ==> (EbitdaGrowthRate in r.value <==> GrowthRate(ebitda).Some?)
    ensures r.Some? ==> (ProfitGrowthRate in r.value <==> GrowthRate(profit).Some?)
    ensures r.Some? ==> (RevenueCagr in r.value <==> |revenues| >= 3 && revenues[0] > 0.0)
    ensures r.Some? && GrowthRate(revenues).Some? ==>
              r.value[RevenueGrowthRate] == GrowthEntry(GrowthRate(revenues).value)
    ensures r.Some? && GrowthRate(ebitda).Some? ==> r.value[EbitdaGrowthRate] == GrowthEntry(GrowthRate(ebitda).value)
    ensures r.Some? && GrowthRate(profit).Some? ==> r.value[ProfitGrowthRate] == GrowthEntry(GrowthRate(profit).value)
    ensures r.Some? && RevenueCagr in r.value ==>
              r.value[RevenueCagr] == GrowthEntry((root(Last(revenues) / revenues[0], |revenues| - 1) - 1.0) * 100.0)
    ensures r.Some? ==> r.value.Keys <= {RevenueGrowthRate, EbitdaGrowthRate, ProfitGrowthRate, RevenueCagr}
  {
    if CagrRaises(revenues) then None
    else
      var rates := WithRate(WithRate(WithRate(map[], RevenueGrowthRate, GrowthRate(revenues)),
                                     EbitdaGrowthRate, GrowthRate(ebitda)),
                            ProfitGrowthRate, GrowthRate(profit));
      if |revenues| >= 3 && revenues[0] > 0.0 then
        var periods := |revenues| - 1;
        var cagr := (root(Last(revenues) / revenues[0], periods) - 1.0) * 100.0;
        Some(rates[RevenueCagr := GrowthEntry(cagr)])
      else Some(rates)
  }

  /** `_calculate_efficiency_ratios`. */
  function EfficiencyRatios(revenues: seq<real>, ebitda: seq<real>): (r: Category)
    ensures EbitdaToRevenue in r <==> LatestGuard(ebitda, revenues)
    ensures r.Keys <= {EbitdaToRevenue}
  {
    if LatestGuard(ebitda, revenues) then map[EbitdaToRevenue := Ratio(Last(ebitda) / Last(revenues), "ratio", None)]
    else map[]
  }

  /** Python truthiness of an optional number. */
  predicate Truthy(v: Option<real>) {
    v.Some? && v.value != 0.0
  }

  /** `_calculate_valuation_ratios`. */
  function ValuationRatios(profit: seq<real>, market: MarketData): (r: Category)
    ensures PeRatio in r <==> Truthy(market.marketCap) && profit != [] && Last(profit) > 0.0
    ensures Eps in r <==> profit != [] && Last(profit) != 0.0 && Truthy(market.sharesOutstanding)
                            && market.sharesOutstanding.value > 0.0
    ensures PeRatio in r ==>
              var pe := market.marketCap.value / Last(profit);
              r[PeRatio] == Ratio(pe, "ratio", Some(InterpretPe(pe)))
    ensures Eps in r ==> r[Eps] == Ratio(Last(profit) / market.sharesOutstanding.value, "currency_per_share", None)
    ensures r.Keys <= {PeRatio, Eps}
  {
    var withPe: Category :=
      if Truthy(market.marketCap) && profit != [] && Last(profit) > 0.0 then
        var pe := market.marketCap.value / Last(profit);
        map[PeRatio := Ratio(pe, "ratio", Some(InterpretPe(pe)))]
      else map[];
    if profit != [] && Last(profit) != 0.0 && Truthy(market.sharesOutstanding) && market.sharesOutstanding.value > 0.0 then
      withPe[Eps := Ratio(Last(profit) / market.sharesOutstanding.value, "currency_per_share", None)]
    else withPe
  }

  /** `calculate_ratios(kpis, market_data)`; `market` is `None` when
      `market_data` is falsy. An exception keeps the categories filled so far. */
  method CalculateRatios(kpis: Kpis, market: Option<MarketData>, parseFloat: string -> Option<real>,
                         root: (real, nat) -> real)
    returns (r: Ratios)
    ensures var rev := Extracted(kpis.revenue, parseFloat);
            var ebitda := Extracted(kpis.ebitda, parseFloat);
            var profit := Extracted(kpis.profit, parseFloat);
            var p := ProfitabilityRatios(rev, ebitda, profit, kpis.grossMargins);
            var g := GrowthRatios(rev, ebitda, profit, root);
            && r.liquidity == map[] && r.leverage == map[]
            && (p.None? ==> r == NO_RATIOS)
            && (p.Some? && g.None? ==> r == NO_RATIOS.(profitability := p.value))
            && (p.Some? && g.Some? ==>
                  r == Ratios(p.value, map[], map[], EfficiencyRatios(rev, ebitda),
                              if market.Some? then ValuationRatios(profit, market.value) else map[], g.value))
  {
    r := NO_RATIOS;
    var revenues := ExtractMetricValues(kpis.revenue, parseFloat);
    var ebitda := ExtractMetricValues(kpis.ebitda, parseFloat);
    var profit := ExtractMetricValues(kpis.profit, parseFloat);
    // `capex` and `opex` are extracted too and never used.
    var profitability := ProfitabilityRatios(revenues, ebitda, profit, kpis.grossMargins);
    if profitability.None? {
      return;
    }
    r := r.(profitability := profitability.value);
    var growth := GrowthRatios(revenues, ebitda, profit, root);
    if growth.None? {
      return;
    }
    r := r.(growth := growth.value);
    r := r.(efficiency := EfficiencyRatios(revenues, ebitda));
    if market.Some? {
      r := r.(valuation := ValuationRatios(profit, market.value));
    }
  }
}

/** Properties of the calculator's specification functions. */
module FinancialRatiosFacts {
  import opened Wrappers
  import opened FinancialRatios

  /** Every extracted value is the `float()` of some dictionary entry's value. */
  lemma {:induction false} ExtractedSound(es: seq<Entry>, parseFloat: string -> Option<real>, j: nat)
    requires j < |Extracted(es, parseFloat)|
    ensures exists i :: 0 <= i < |es| && es[i].Dict? && es[i].value.Some?
                        && FloatOf(es[i].value.value, parseFloat) == Some(Extracted(es, parseFloat)[j])
  {
    var init := es[..|es| - 1];
    if j < |Extracted(init, parseFloat)| {
      ExtractedSound(init, parseFloat, j);
      var i :| 0 <= i < |init| && init[i].Dict? && init[i].value.Some?
               && FloatOf(init[i].value.value, parseFloat) == Some(Extracted(init, parseFloat)[j]);
      assert es[i] == init[i];
    } else {
      var i := |es| - 1;
      assert es[i].Dict? && es[i].value.Some?
             && FloatOf(es[i].value.value, parseFloat) == Some(Extracted(es, parseFloat)[j]);
    }
  }

  /** A list of numbers is extracted whole and in order. */
  lemma {:induction false} ExtractedNumbers(xs: seq<real>, parseFloat: string -> Option<real>)
    ensures Extracted(seq(|xs|, i requires 0 <= i < |xs| => Dict(Some(Num(xs[i])))), parseFloat) == xs
  {
    if xs != [] {
      var es := seq(|xs|, i requires 0 <= i < |xs| => Dict(Some(Num(xs[i]))));
      var init := xs[..|xs| - 1];
      assert es[..|es| - 1] == seq(|init|, i requires 0 <= i < |init| => Dict(Some(Num(init[i]))));
      ExtractedNumbers(init, parseFloat);
      assert init + [xs[|xs| - 1]] == xs;
    }
  }

  /** The EBITDA margin and the EBITDA-to-revenue ratio appear together, the
      margin being the ratio times 100. */
  lemma EbitdaMarginIsScaledRatio(revenues: seq<real>, ebitda: seq<real>, profit: seq<real>, gross: seq<Entry>)
    requires ProfitabilityRatios(revenues, ebitda, profit, gross).Some?
    ensures var p := ProfitabilityRatios(revenues, ebitda, profit, gross).value;
            var e := EfficiencyRatios(revenues, ebitda);
            && (EbitdaMargin in p <==> EbitdaToRevenue in e)
            && (EbitdaMargin in p ==> p[EbitdaMargin].value == e[EbitdaToRevenue].value * 100.0)
  {
  }

  /** A higher growth rate never reads as a worse interpretation, and
      different levels read differently. */
  lemma GrowthInterpretationMonotone(x: real, y: real)
    requires x <= y
    ensures GrowthLevel(x) <= GrowthLevel(y)
    ensures InterpretGrowth(x) == InterpretGrowth(y) <==> GrowthLevel(x) == GrowthLevel(y)
  {
  }

  /** The same holds for margins of every type. */
  lemma MarginInterpretationMonotone(x: real, y: real, kind: string)
    requires x <= y
    ensures MarginLevel(x, kind) <= MarginLevel(y, kind)
  {
  }

  /** A growth rate is undone by growing the earlier value by it: the
      earlier value times `1 + g/100` is the later value. */
  lemma GrowthRateRecovers(vs: seq<real>)
    requires GrowthRate(vs).Some?
    ensures vs[|vs| - 2] * (1.0 + GrowthRate(vs).value / 100.0) == vs[|vs| - 1]
  {
    var prev, last := vs[|vs| - 2], vs[|vs| - 1];
    var q := (last - prev) / prev;
    assert GrowthRate(vs).value / 100.0 == q;
    assert prev * q == last - prev;
    assert prev * (1.0 + q) == prev + prev * q;
  }
}
