/**
 * The KPI validator (services/data_validator.py). A KPI dictionary holds
 * lists of entries for revenue, EBITDA and profit and, under `margins`, for
 * the EBITDA margin; an entry is a dictionary with an optional numeric
 * `value` and an optional `period`, or something that is not a dictionary.
 *
 * Numbers are reals. Warning and error texts are represented by what they
 * report; their wording is not modelled.
 */
module DataValidator {
  import opened Wrappers

  /** One KPI list element. */
  datatype Entry = Metric(value: Option<real>, period: Option<string>) | NotADict

  /** The KPI dictionary; a missing key is an empty list. */
  datatype Kpis = Kpis(revenue: seq<Entry>, ebitda: seq<Entry>, profit: seq<Entry>, ebitdaMargin: seq<Entry>)

  /** Python truthiness of a period. */
  predicate Named(p: Option<string>) {
    p.Some? && p.value != ""
  }

  /** An entry whose value is not `None`. */
  predicate Present(e: Entry) {
    e.Metric? && e.value.Some?
  }

  // ---------------------------------------------------------------------
  // Per-metric validation

  /** A warning of one metric's validation. */
  datatype MetricWarning =
    | NoData                      // "No revenue/EBITDA/profit data found"
    | MissingValue(entry: Entry)  // "... entry missing value: {entry}"
    | DuplicatePeriod(period: string)
    | NegativeValues(count: nat)  // "Found {n} negative revenue values"

  datatype MetricValidation = MetricValidation(count: nat, values: seq<real>, periods: seq<Option<string>>,
                                               warnings: seq<MetricWarning>, isValid: bool)

  /** The values kept from a list: those of the present entries, in order. */
  function PresentValues(es: seq<Entry>): (vs: seq<real>)
    ensures |vs| <= |es|
  {
    if es == [] then []
    else PresentValues(es[..|es| - 1]) + if Present(es[|es| - 1]) then [es[|es| - 1].value.value] else []
  }

  /** The periods kept alongside `PresentValues`. */
  function PresentPeriods(es: seq<Entry>): (ps: seq<Option<string>>)
    ensures |ps| == |PresentValues(es)|
  {
    if es == [] then []
    else PresentPeriods(es[..|es| - 1]) + if Present(es[|es| - 1]) then [es[|es| - 1].period] else []
  }

  /** The named periods of the present entries: `seen_periods`. */
  function SeenPeriods(es: seq<Entry>): set<string> {
    if es == [] then {}
    else
      var e := es[|es| - 1];
      SeenPeriods(es[..|es| - 1]) + if Present(e) && Named(e.period) then {e.period.value} else {}
  }

  /** The warnings of the scan over a list: a missing value for every entry
      without one and, when `duplicates`, a repeated period for every
      present entry whose named period was seen before. */
  function ScanWarnings(es: seq<Entry>, duplicates: bool): seq<MetricWarning> {
    if es == [] then []
    else
      var e := es[|es| - 1];
      ScanWarnings(es[..|es| - 1], duplicates) +
        if e.NotADict? then []
        else if e.value.None? then [MissingValue(e)]
        else if duplicates && Named(e.period) && e.period.value in SeenPeriods(es[..|es| - 1]) then [DuplicatePeriod(e.period.value)]
        else []
  }

  /** How many values are negative. */
  function Negatives(vs: seq<real>): (n: nat)
    ensures n <= |vs|
  {
    if vs == [] then 0 else Negatives(vs[..|vs| - 1]) + if vs[|vs| - 1] < 0.0 then 1 else 0
  }

  /** `len([v for v in values if v < 0])` */
  method CountNegatives(values: seq<real>) returns (negatives: nat)
    ensures negatives == Negatives(values)
  {
    negatives := 0;
    for j := 0 to |values|
      invariant negatives == Negatives(values[..j])
    {
      assert values[..j + 1][..j] == values[..j];
      if values[j] < 0.0 {
        negatives := negatives + 1;
      }
    }
    assert values[..|values|] == values;
  }

  /** What `_validate_revenue` reports for `es`: an empty list is invalid
      with a no-data warning; otherwise the list is valid, keeps the values
      present and their periods, and warns of missing values, repeated
      periods and negative values. */
  predicate RevenueValidated(es: seq<Entry>, v: MetricValidation) {
    && v.count == |es|
    && (es == [] ==> v == MetricValidation(0, [], [], [NoData], false))
    && (es != [] ==>
          && v.isValid && v.values == PresentValues(es) && v.periods == PresentPeriods(es)
          && v.warnings == ScanWarnings(es, true) + if Negatives(v.values) > 0 then [NegativeValues(Negatives(v.values))] else [])
  }

  /** What `_validate_ebitda` and `_validate_profit` report for `es`: always
      valid; an empty list warns of no data; otherwise the values present,
      their periods and the missing-value warnings. */
  predicate PlainValidated(es: seq<Entry>, v: MetricValidation) {
    && v.count == |es| && v.isValid
    && (es == [] ==> v == MetricValidation(0, [], [], [NoData], true))
    && (es != [] ==> v.values == PresentValues(es) && v.periods == PresentPeriods(es)
                     && v.warnings == ScanWarnings(es, false))
  }

  /** `_validate_revenue`. */
  method ValidateRevenue(es: seq<Entry>) returns (v: MetricValidation)
    ensures RevenueValidated(es, v)
  {
    if es == [] {
      return MetricValidation(0, [], [], [NoData], false);
    }
    var seen: set<string> := {};
    var values: seq<real> := [];
    var periods: seq<Option<string>> := [];
    var warnings: seq<MetricWarning> := [];
    for i := 0 to |es|
      invariant values == PresentValues(es[..i]) && periods == PresentPeriods(es[..i])
      invariant seen == SeenPeriods(es[..i])
      invariant warnings == ScanWarnings(es[..i], true)
    {
      var e := es[i];
      assert es[..i + 1][..i] == es[..i];
      if e.Metric? {
        if e.value.None? {
          warnings := warnings + [MissingValue(e)];
        } else {
          if Named(e.period) {
            if e.period.value in seen {
              warnings := warnings + [DuplicatePeriod(e.period.value)];
            }
            seen := seen + {e.period.value};
          }
          values := values + [e.value.value];
          periods := periods + [e.period];
        }
      }
    }
    assert es[..|es|] == es;
    var negatives := CountNegatives(values);
    if negatives > 0 {
      warnings := warnings + [NegativeValues(negatives)];
    }
    v := MetricValidation(|es|, values, periods, warnings, true);
  }

  /** `_validate_ebitda` and `_validate_profit`, which differ only in their
      messages: no duplicate or sign checks, and an empty list keeps
      `is_valid`. */
  method ValidatePlain(es: seq<Entry>) returns (v: MetricValidation)
    ensures PlainValidated(es, v)
  {
    if es == [] {
      return MetricValidation(0, [], [], [NoData], true);
    }
    var values: seq<real> := [];
    var periods: seq<Option<string>> := [];
    var warnings: seq<MetricWarning> := [];
    for i := 0 to |es|
      invariant values == PresentValues(es[..i]) && periods == PresentPeriods(es[..i])
      invariant warnings == ScanWarnings(es[..i], false)
    {
      var e := es[i];
      assert es[..i + 1][..i] == es[..i];
      if e.Metric? {
        if e.value.None? {
          warnings := warnings + [MissingValue(e)];
        } else {
          values := values + [e.value.value];
          periods := periods + [e.period];
        }
      }
    }
    assert es[..|es|] == es;
    v := MetricValidation(|es|, values, periods, warnings, true);
  }

  // ---------------------------------------------------------------------
  // Relationship checks

  /** A `cross_references` entry. */
  datatype RelationshipCheck =
    | EbitdaExceedsRevenue(ebitda: real, revenue: real)  // status "warning"
    | NegativeEbitda(ebitda: real, revenue: real)        // status "warning"
    | ProfitExceedsEbitda(profit: real, ebitda: real)    // status "info"
    | MarginMismatch(calculated: real, reported: real, difference: real)  // status "warning"

  /** Whether a check has status "warning" or "error", which the score penalises. */
  predicate Penalised(c: RelationshipCheck) {
    !c.ProfitExceedsEbitda?
  }

  /** `xs[-1].get("value")`: `None` when the last element is not a
      dictionary, which makes `.get` raise. */
  function LastValue(es: seq<Entry>): Option<Option<real>>
    requires es != []
  {
    match es[|es| - 1]
    case NotADict => None
    case Metric(v, _) => Some(v)
  }

  /** Python truthiness of an optional number. */
  predicate Truthy(v: Option<real>) {
    v.Some? && v.value != 0.0
  }

  function Abs(x: real): real {
    if x < 0.0 then -x else x
  }

  /** `xs[-1].get("value")` where the checks read it: `None` for an empty
      list, a non-dictionary last element or a missing value. */
  function Latest(es: seq<Entry>): Option<real> {
    if es == [] then None
    else match es[|es| - 1]
      case NotADict => None
      case Metric(v, _) => v
  }

  /** EBITDA / revenue · 100, or 0 when the revenue is not positive. */
  function CalculatedMargin(revenue: real, ebitda: real): real {
    if revenue > 0.0 then ebitda / revenue * 100.0 else 0.0
  }

  /** The condition under which `_check_relationships` emits the flag `c`:
      the flag carries the latest values it compares, all of them truthy,
      and they stand in the flagged relation. */
  predicate Fires(c: RelationshipCheck, k: Kpis) {
    var r, e, p, m := Latest(k.revenue), Latest(k.ebitda), Latest(k.profit), Latest(k.ebitdaMargin);
    match c
    case EbitdaExceedsRevenue(x, y) => Truthy(r) && Truthy(e) && x == e.value && y == r.value && x > y
    case NegativeEbitda(x, y) =>
      Truthy(r) && Truthy(e) && x == e.value && y == r.value && x <= y && x < 0.0 && y > 0.0
    case ProfitExceedsEbitda(x, y) => Truthy(e) && Truthy(p) && x == p.value && y == e.value && x > y
    case MarginMismatch(calculated, reported, difference) =>
      Truthy(r) && Truthy(e) && Truthy(m) && calculated == CalculatedMargin(r.value, e.value)
      && reported == m.value && difference == Abs(calculated - reported) && difference > 5.0
  }

  /** EBITDA against revenue; `None` when a last element is not a dictionary. */
  function RevenueCheck(k: Kpis): (rc: Option<seq<RelationshipCheck>>)
    ensures rc.None? <==> k.revenue != [] && k.ebitda != [] && (k.revenue[|k.revenue| - 1].NotADict? || k.ebitda[|k.ebitda| - 1].NotADict?)
    ensures rc.Some? ==> |rc.value| <= 1
    ensures rc.Some? ==> forall c :: c in rc.value ==> (c.EbitdaExceedsRevenue? || c.NegativeEbitda?) && Fires(c, k)
    ensures rc.Some? && Truthy(Latest(k.revenue)) && Truthy(Latest(k.ebitda)) ==>
              var r, e := Latest(k.revenue).value, Latest(k.ebitda).value;
              && (e > r ==> EbitdaExceedsRevenue(e, r) in rc.value)
              && (e < 0.0 && r > 0.0 && e <= r ==> NegativeEbitda(e, r) in rc.value)
  {
    if k.revenue != [] && k.ebitda != [] then
      match (LastValue(k.revenue), LastValue(k.ebitda))
      case (Some(r), Some(e)) =>
        if Truthy(r) && Truthy(e) then
          if e.value > r.value then Some([EbitdaExceedsRevenue(e.value, r.value)])
          else if e.value < 0.0 && r.value > 0.0 then Some([NegativeEbitda(e.value, r.value)])
          else Some([])
        else Some([])
      case _ => None
    else Some([])
  }

  /** Profit against EBITDA. */
  function ProfitCheck(k: Kpis): (pc: Option<seq<RelationshipCheck>>)
    ensures pc.None? <==> k.ebitda != [] && k.profit != [] && (k.ebitda[|k.ebitda| - 1].NotADict? || k.profit[|k.profit| - 1].NotADict?)
    ensures pc.Some? ==> |pc.value| <= 1
    ensures pc.Some? ==> forall c :: c in pc.value ==> c.ProfitExceedsEbitda? && Fires(c, k)
    ensures pc.Some? && Truthy(Latest(k.ebitda)) && Truthy(Latest(k.profit)) && Latest(k.profit).value > Latest(k.ebitda).value ==>
              ProfitExceedsEbitda(Latest(k.profit).value, Latest(k.ebitda).value) in pc.value
  {
    if k.ebitda != [] && k.profit != [] then
      match (LastValue(k.ebitda), LastValue(k.profit))
      case (Some(e), Some(p)) =>
        if Truthy(e) && Truthy(p) && p.value > e.value then Some([ProfitExceedsEbitda(p.value, e.value)])
        else Some([])
      case _ => None
    else Some([])
  }

  /** The reported EBITDA margin against EBITDA / revenue · 100. */
  function MarginCheck(k: Kpis): (mc: Option<seq<RelationshipCheck>>)
    ensures mc.None? <==> k.ebitdaMargin != [] && k.revenue != [] && k.ebitda != []
                          && (k.revenue[|k.revenue| - 1].NotADict? || k.ebitda[|k.ebitda| - 1].NotADict?
                              || k.ebitdaMargin[|k.ebitdaMargin| - 1].NotADict?)
    ensures mc.Some? ==> |mc.value| <= 1
    ensures mc.Some? ==> forall c :: c in mc.value ==> c.MarginMismatch? && Fires(c, k)
    ensures mc.Some? && Truthy(Latest(k.revenue)) && Truthy(Latest(k.ebitda)) && Truthy(Latest(k.ebitdaMargin)) ==>
              var calculated := CalculatedMargin(Latest(k.revenue).value, Latest(k.ebitda).value);
              var reported := Latest(k.ebitdaMargin).value;
              Abs(calculated - reported) > 5.0 ==>
                MarginMismatch(calculated, reported, Abs(calculated - reported)) in mc.value
  {
    if k.ebitdaMargin != [] && k.revenue != [] && k.ebitda != [] then
      match (LastValue(k.revenue), LastValue(k.ebitda), LastValue(k.ebitdaMargin))
      case (Some(r), Some(e), Some(m)) =>
        if Truthy(r) && Truthy(e) && Truthy(m) then
          var calculated := CalculatedMargin(r.value, e.value);
          var diff := Abs(calculated - m.value);
          if diff > 5.0 then Some([MarginMismatch(calculated, m.value, diff)]) else Some([])
        else Some([])
      case _ => None
    else Some([])
  }

  /** `_check_relationships`: `None` when it raises. */
  function CheckRelationships(k: Kpis): (r: Option<seq<RelationshipCheck>>)
    ensures r.Some? ==> |r.value| <= 3
    ensures r.Some? ==> forall c :: c in r.value && c.ProfitExceedsEbitda? ==> c.profit > c.ebitda
    ensures r.Some? ==> forall c :: c in r.value && c.EbitdaExceedsRevenue? ==> c.ebitda > c.revenue
    ensures r.Some? ==> forall c :: c in r.value && c.MarginMismatch? ==> c.difference > 5.0
    ensures r.None? <==> RevenueCheck(k).None? || ProfitCheck(k).None? || MarginCheck(k).None?
    ensures r.Some? ==> forall c :: c in r.value ==> Fires(c, k)
    ensures r.Some? ==>
              var rev, e, p, m := Latest(k.revenue), Latest(k.ebitda), Latest(k.profit), Latest(k.ebitdaMargin);
              && (Truthy(rev) && Truthy(e) && e.value > rev.value ==> EbitdaExceedsRevenue(e.value, rev.value) in r.value)
              && (Truthy(rev) && Truthy(e) && e.value <= rev.value && e.value < 0.0 && rev.value > 0.0 ==>
                    NegativeEbitda(e.value, rev.value) in r.value)
              && (Truthy(e) && Truthy(p) && p.value > e.value ==> ProfitExceedsEbitda(p.value, e.value) in r.value)
              && (Truthy(rev) && Truthy(e) && Truthy(m) && Abs(CalculatedMargin(rev.value, e.value) - m.value) > 5.0 ==>
                    var calculated := CalculatedMargin(rev.value, e.value);
                    MarginMismatch(calculated, m.value, Abs(calculated - m.value)) in r.value)
  {
    match (RevenueCheck(k), ProfitCheck(k), MarginCheck(k))
    case (Some(a), Some(b), Some(c)) => Some(a + b + c)
    case _ => None
  }

  /** How many checks the score penalises. */
  function PenalisedCount(cs: seq<RelationshipCheck>): (n: nat)
    ensures n <= |cs|
  {
    if cs == [] then 0 else PenalisedCount(cs[..|cs| - 1]) + if Penalised(cs[|cs| - 1]) then 1 else 0
  }

  // ---------------------------------------------------------------------
  // Contradictions

  datatype Severity = High | Medium

  datatype Contradiction = Contradiction(metric: string, period: string, values: seq<real>, severity: Severity)

  function MaxOf(vs: seq<real>): (m: real)
    requires vs != []
    ensures m in vs && forall i :: 0 <= i < |vs| ==> vs[i] <= m
  {
    if |vs| == 1 then vs[0]
    else var m := MaxOf(vs[..|vs| - 1]); if vs[|vs| - 1] > m then vs[|vs| - 1] else m
  }

  function MinOf(vs: seq<real>): (m: real)
    requires vs != []
    ensures m in vs && forall i :: 0 <= i < |vs| ==> m <= vs[i]
  {
    if |vs| == 1 then vs[0]
    else var m := MinOf(vs[..|vs| - 1]); if vs[|vs| - 1] < m then vs[|vs| - 1] else m
  }

  /** The verdict on one period's values: a contradiction when there are at
      least two distinct values spread by more than a tenth of the largest,
      high when by more than a fifth. */
  function Judge(vs: seq<real>): (s: Option<Severity>)
    ensures s.Some? <==> |vs| > 1 && MaxOf(vs) > MinOf(vs) && MaxOf(vs) - MinOf(vs) > MaxOf(vs) * 0.1
    ensures s == Some(High) <==> |vs| > 1 && MaxOf(vs) > MinOf(vs) && MaxOf(vs) - MinOf(vs) > MaxOf(vs) * 0.1
                                 && MaxOf(vs) - MinOf(vs) > MaxOf(vs) * 0.2
  {
    if |vs| > 1 && MaxOf(vs) > MinOf(vs) then
      var diff := MaxOf(vs) - MinOf(vs);
      if diff > MaxOf(vs) * 0.1 then Some(if diff > MaxOf(vs) * 0.2 then High else Medium) else None
    else None
  }

  /** The present values of the entries filed under the named period `p`. */
  function ValuesFor(es: seq<Entry>, p: string): seq<real> {
    if es == [] then []
    else
      var e := es[|es| - 1];
      ValuesFor(es[..|es| - 1], p) + if Present(e) && e.period == Some(p) && p != "" then [e.value.value] else []
  }

  /** The named periods of present entries, in order of first occurrence:
      the key order of the `defaultdict`. */
  function GroupPeriods(es: seq<Entry>): (ps: seq<string>)
    ensures forall i, j :: 0 <= i < j < |ps| ==> ps[i] != ps[j]
    ensures forall p :: p in ps <==> p in SeenPeriods(es)
  {
    if es == [] then []
    else
      var e := es[|es| - 1];
      var before := GroupPeriods(es[..|es| - 1]);
      if Present(e) && Named(e.period) && e.period.value !in before then before + [e.period.value] else before
  }

  /** The contradictions found over the periods `ps`, in their order. */
  function ContradictionsIn(metric: string, es: seq<Entry>, ps: seq<string>): (cs: seq<Contradiction>)
    ensures |cs| <= |ps|
    ensures forall c :: c in cs ==> c.metric == metric && c.period in ps && c.values == ValuesFor(es, c.period)
                                    && Judge(c.values) == Some(c.severity)
  {
    if ps == [] then []
    else
      var p := ps[|ps| - 1];
      ContradictionsIn(metric, es, ps[..|ps| - 1]) +
        match Judge(ValuesFor(es, p))
        case Some(s) => [Contradiction(metric, p, ValuesFor(es, p), s)]
        case None => []
  }

  /** The `defaultdict(list)` grouping loop: the named periods in order of
      first occurrence and each one's values. */
  method GroupByPeriod(es: seq<Entry>) returns (periods: seq<string>, byPeriod: map<string, seq<real>>)
    ensures periods == GroupPeriods(es)
    ensures forall p :: p in byPeriod <==> p in periods
    ensures forall p :: p in byPeriod ==> byPeriod[p] == ValuesFor(es, p)
  {
    periods, byPeriod := [], map[];
    for i := 0 to |es|
      invariant periods == GroupPeriods(es[..i])
      invariant forall p :: p in byPeriod <==> p in periods
      invariant forall p :: ValuesFor(es[..i], p) == if p in byPeriod then byPeriod[p] else []
    {
      var e := es[i];
      assert es[..i + 1][..i] == es[..i];
      if Present(e) && Named(e.period) {
        var p := e.period.value;
        if p !in byPeriod {
          periods := periods + [p];
        }
        byPeriod := byPeriod[p := (if p in byPeriod then byPeriod[p] else []) + [e.value.value]];
      }
    }
    assert es[..|es|] == es;
  }

  /** The verdict loop over one metric's groups. */
  method JudgeGroups(metric: string, es: seq<Entry>) returns (cs: seq<Contradiction>)
    ensures cs == ContradictionsIn(metric, es, GroupPeriods(es))
  {
    var periods, byPeriod := GroupByPeriod(es);
    cs := [];
    for j := 0 to |periods|
      invariant cs == ContradictionsIn(metric, es, periods[..j])
    {
      assert periods[..j + 1][..j] == periods[..j];
      var values := byPeriod[periods[j]];
      var verdict := Judge(values);
      if verdict.Some? {
        cs := cs + [Contradiction(metric, periods[j], values, verdict.value)];
      }
    }
    assert periods[..|periods|] == periods;
  }

  /** `_detect_contradictions`: revenue periods first, then EBITDA periods. */
  method DetectContradictions(k: Kpis) returns (cs: seq<Contradiction>)
    ensures cs == ContradictionsIn("revenue", k.revenue, GroupPeriods(k.revenue))
                  + ContradictionsIn("ebitda", k.ebitda, GroupPeriods(k.ebitda))
  {
    var revenue := JudgeGroups("revenue", k.revenue);
    var ebitda := JudgeGroups("ebitda", k.ebitda);
    cs := revenue + ebitda;
  }

  // ---------------------------------------------------------------------
  // Missing data and the score

  /** A missing-data warning. */
  datatype MissingWarning =
    | ProfitMissing          // revenue without profit, severity "medium"
    | EbitdaMissing          // revenue without EBITDA, severity "low"
    | MarginWithoutEbitda    // an EBITDA margin without EBITDA, severity "medium"

  /** `_check_missing_data`. */
  function CheckMissingData(k: Kpis): (ws: seq<MissingWarning>)
    ensures |ws| <= 3
    ensures ProfitMissing in ws <==> k.revenue != [] && k.profit == []
    ensures EbitdaMissing in ws <==> k.revenue != [] && k.ebitda == []
    ensures MarginWithoutEbitda in ws <==> k.ebitdaMargin != [] && k.ebitda == []
  {
    (if k.revenue != [] && k.profit == [] then [ProfitMissing] else []) +
    (if k.revenue != [] && k.ebitda == [] then [EbitdaMissing] else []) +
    (if k.ebitdaMargin != [] && k.ebitda == [] then [MarginWithoutEbitda] else [])
  }

  /** `_calculate_consistency_score` for the given numbers of errors,
      warnings and penalised checks. */
  function ConsistencyScore(errors: nat, warnings: nat, penalised: nat): (s: real)
    ensures 0.0 <= s <= 1.0
    ensures s == 1.0 <==> errors + warnings + penalised == 0
  {
    var raw := 1.0 - errors as real * 0.2 - warnings as real * 0.05 - penalised as real * 0.1;
    if raw < 0.0 then 0.0 else if raw > 1.0 then 1.0 else raw
  }

  /** An entry of `errors`. */
  datatype ValidationError = Contradicted(c: Contradiction) | InternalError

  datatype ValidationResult = ValidationResult(isValid: bool, warnings: seq<MissingWarning>,
                                               errors: seq<ValidationError>, score: real,
                                               revenue: MetricValidation, ebitda: MetricValidation,
                                               profit: MetricValidation, crossReferences: seq<RelationshipCheck>)

  function AsErrors(cs: seq<Contradiction>): (es: seq<ValidationError>)
    ensures |es| == |cs| && forall i :: 0 <= i < |cs| ==> es[i] == Contradicted(cs[i])
  {
    seq(|cs|, i requires 0 <= i < |cs| => Contradicted(cs[i]))
  }

  /** `validate_kpis`. When the relationship checks raise, the result keeps
      the per-metric validations, an empty cross-reference list, the initial
      score 1.0 and a single internal error, and is not valid. */
  method ValidateKpis(k: Kpis) returns (r: ValidationResult)
    ensures 0.0 <= r.score <= 1.0
    ensures r.isValid <==> r.errors == [] && r.score > 0.7
    ensures CheckRelationships(k).None? ==>
              r.errors == [InternalError] && r.warnings == [] && r.crossReferences == [] && r.score == 1.0
    ensures CheckRelationships(k).Some? ==>
              && r.crossReferences == CheckRelationships(k).value
              && r.errors == AsErrors(ContradictionsIn("revenue", k.revenue, GroupPeriods(k.revenue))
                                      + ContradictionsIn("ebitda", k.ebitda, GroupPeriods(k.ebitda)))
              && r.warnings == CheckMissingData(k)
              && r.score == ConsistencyScore(|r.errors|, |r.warnings|, PenalisedCount(r.crossReferences))
    ensures RevenueValidated(k.revenue, r.revenue)
    ensures PlainValidated(k.ebitda, r.ebitda) && PlainValidated(k.profit, r.profit)
  {
    var revenue := ValidateRevenue(k.revenue);
    var ebitda := ValidatePlain(k.ebitda);
    var profit := ValidatePlain(k.profit);
    var checks := CheckRelationships(k);
    if checks.None? {
      return ValidationResult(false, [], [InternalError], 1.0, revenue, ebitda, profit, []);
    }
    var contradictions := DetectContradictions(k);
    var errors := AsErrors(contradictions);
    var warnings := CheckMissingData(k);
    var score := ConsistencyScore(|errors|, |warnings|, PenalisedCount(checks.value));
    r := ValidationResult(|errors| == 0 && score > 0.7, warnings, errors, score, revenue, ebitda, profit, checks.value);
  }
}

/** Properties of the validator's specification functions. */
module DataValidatorFacts {
  import opened Wrappers
  import opened DataValidator

  function CountDuplicates(ws: seq<MetricWarning>): nat {
    if ws == [] then 0 else CountDuplicates(ws[..|ws| - 1]) + if ws[|ws| - 1].DuplicatePeriod? then 1 else 0
  }

  function CountMissing(ws: seq<MetricWarning>): nat {
    if ws == [] then 0 else CountMissing(ws[..|ws| - 1]) + if ws[|ws| - 1].MissingValue? then 1 else 0
  }

  /** How many present entries carry a named period. */
  function NamedCount(es: seq<Entry>): nat {
    if es == [] then 0
    else NamedCount(es[..|es| - 1]) + if Present(es[|es| - 1]) && Named(es[|es| - 1].period) then 1 else 0
  }

  /** How many entries are not dictionaries. */
  function NotDictCount(es: seq<Entry>): nat {
    if es == [] then 0 else NotDictCount(es[..|es| - 1]) + if es[|es| - 1].NotADict? then 1 else 0
  }

  lemma {:induction false} CountsAppend(a: seq<MetricWarning>, b: seq<MetricWarning>)
    ensures CountDuplicates(a + b) == CountDuplicates(a) + CountDuplicates(b)
    ensures CountMissing(a + b) == CountMissing(a) + CountMissing(b)
    decreases |b|
  {
    if b == [] {
      assert a + b == a;
    } else {
      assert (a + b)[..|a + b| - 1] == a + b[..|b| - 1];
      CountsAppend(a, b[..|b| - 1]);
    }
  }

  /** Every repeat of a named period yields one duplicate warning: the
      warnings and the distinct periods together account for all named
      periods. */
  lemma {:induction false} DuplicatesCountRepeats(es: seq<Entry>)
    ensures CountDuplicates(ScanWarnings(es, true)) + |SeenPeriods(es)| == NamedCount(es)
  {
    if es != [] {
      var init := es[..|es| - 1];
      var e := es[|es| - 1];
      DuplicatesCountRepeats(init);
      var tail := if e.NotADict? then []
                  else if e.value.None? then [MissingValue(e)]
                  else if Named(e.period) && e.period.value in SeenPeriods(init) then [DuplicatePeriod(e.period.value)]
                  else [];
      assert ScanWarnings(es, true) == ScanWarnings(init, true) + tail;
      CountsAppend(ScanWarnings(init, true), tail);
      if Present(e) && Named(e.period) {
        if e.period.value in SeenPeriods(init) {
          assert SeenPeriods(es) == SeenPeriods(init);
          assert CountDuplicates(tail) == 1;
        } else {
          assert SeenPeriods(es) == SeenPeriods(init) + {e.period.value};
          assert CountDuplicates(tail) == 0;
        }
      } else {
        assert SeenPeriods(es) == SeenPeriods(init);
        assert CountDuplicates(tail) == 0;
      }
    }
  }

  /** Every entry is accounted for: kept, reported as missing its value, or
      skipped as not a dictionary. */
  lemma {:induction false} EveryEntryAccounted(es: seq<Entry>, duplicates: bool)
    ensures |PresentValues(es)| + CountMissing(ScanWarnings(es, duplicates)) + NotDictCount(es) == |es|
  {
    if es != [] {
      var init := es[..|es| - 1];
      var e := es[|es| - 1];
      EveryEntryAccounted(init, duplicates);
      var tail := if e.NotADict? then []
                  else if e.value.None? then [MissingValue(e)]
                  else if duplicates && Named(e.period) && e.period.value in SeenPeriods(init) then [DuplicatePeriod(e.period.value)]
                  else [];
      CountsAppend(ScanWarnings(init, duplicates), tail);
    }
  }

  /** The negative-revenue warning appears exactly when some kept value is negative. */
  lemma {:induction false} NegativesIff(vs: seq<real>)
    ensures Negatives(vs) > 0 <==> exists i :: 0 <= i < |vs| && vs[i] < 0.0
  {
    if vs != [] {
      var init := vs[..|vs| - 1];
      NegativesIff(init);
      if Negatives(init) > 0 {
        var i :| 0 <= i < |init| && init[i] < 0.0;
        assert vs[i] < 0.0;
      }
      if exists i :: 0 <= i < |vs| && vs[i] < 0.0 {
        var i :| 0 <= i < |vs| && vs[i] < 0.0;
        if i < |init| {
          assert init[i] < 0.0;
        }
      }
    }
  }

  /** A period whose values all agree is never a contradiction. */
  lemma AgreeingValuesPass(vs: seq<real>)
    requires forall i, j :: 0 <= i < |vs| && 0 <= j < |vs| ==> vs[i] == vs[j]
    ensures Judge(vs) == None
  {
    if |vs| > 1 {
      var hi, lo := MaxOf(vs), MinOf(vs);
      var i :| 0 <= i < |vs| && vs[i] == hi;
      var j :| 0 <= j < |vs| && vs[j] == lo;
    }
  }

  /** When every period's values agree, no contradiction is reported. */
  lemma {:induction false} AgreeingPeriodsNoContradiction(metric: string, es: seq<Entry>, ps: seq<string>)
    requires forall p, i, j :: p in ps && 0 <= i < |ValuesFor(es, p)| && 0 <= j < |ValuesFor(es, p)| ==>
               ValuesFor(es, p)[i] == ValuesFor(es, p)[j]
    ensures ContradictionsIn(metric, es, ps) == []
  {
    if ps != [] {
      AgreeingPeriodsNoContradiction(metric, es, ps[..|ps| - 1]);
      AgreeingValuesPass(ValuesFor(es, ps[|ps| - 1]));
    }
  }

  /** With a non-positive largest value the tenth-of-the-largest bar is at
      most 0, so any spread at all, however small, counts as a
      high-severity contradiction: `-100` against `-101` is one. */
  lemma NegativeSpreadJudgedHigh(vs: seq<real>)
    requires vs != [] && MaxOf(vs) <= 0.0 && MaxOf(vs) > MinOf(vs)
    ensures Judge(vs) == Some(High)
  {
  }

  /** The score only falls as issues are added. */
  lemma ScoreMonotone(e1: nat, w1: nat, c1: nat, e2: nat, w2: nat, c2: nat)
    requires e1 <= e2 && w1 <= w2 && c1 <= c2
    ensures ConsistencyScore(e2, w2, c2) <= ConsistencyScore(e1, w1, c1)
  {
  }

  /** Without errors, the result is valid exactly when fewer than six
      warning-equivalents (a penalised check counting two) were found; any
      error makes it invalid. */
  lemma ValidityThreshold(k: Kpis, r: ValidationResult)
    requires CheckRelationships(k).Some?
    requires r.errors == [] && r.warnings == CheckMissingData(k)
    requires r.score == ConsistencyScore(0, |r.warnings|, PenalisedCount(CheckRelationships(k).value))
    ensures r.score > 0.7 <==> |r.warnings| + 2 * PenalisedCount(CheckRelationships(k).value) < 6
  {
  }
}
