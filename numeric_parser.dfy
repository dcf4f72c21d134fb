/**
 * The numeric parser (services/numeric_parser.py): the `Unit` and
 * `Currency` enums, `_parse_unit`, `_normalize_to_unit`, `parse_number`
 * trying its five number patterns in turn, `parse_all_numbers`,
 * `_extract_currency` and `format_number`.
 *
 * The five number patterns, the sentence split of `parse_all_numbers`,
 * `float()` and the `:,.Nf` rendering are external: they enter as
 * functions. Numbers are reals.
 */
module NumericParser {
  import opened Wrappers
  import opened PyStr
  import Seqs

  /** `Unit`, in declaration order. */
  datatype Unit = Billion | Million | Thousand | Hundred | Base

  const UNITS: seq<Unit> := [Billion, Million, Thousand, Hundred, Base]

  /** A unit's labels: its enum value without the multiplier. */
  function Labels(u: Unit): seq<string> {
    match u
    case Billion => ["B", "billion", "bn"]
    case Million => ["M", "million", "mn"]
    case Thousand => ["K", "thousand", "k"]
    case Hundred => ["H", "hundred"]
    case Base => ["", ""]
  }

  /** A unit's multiplier: the last item of its enum value. */
  function Multiplier(u: Unit): (m: real)
    ensures m >= 1.0
  {
    match u
    case Billion => 1000000000.0
    case Million => 1000000.0
    case Thousand => 1000.0
    case Hundred => 100.0
    case Base => 1.0
  }

  /** `[v.upper() for v in unit.value[:-1]]`, spelled out (lemma
      UpperLabelsSpelled). */
  function UpperLabels(u: Unit): seq<string> {
    match u
    case Billion => ["B", "BILLION", "BN"]
    case Million => ["M", "MILLION", "MN"]
    case Thousand => ["K", "THOUSAND", "K"]
    case Hundred => ["H", "HUNDRED"]
    case Base => ["", ""]
  }

  /** What `_parse_unit` answers: BASE for an empty string; otherwise the
      first unit other than BASE, in declaration order, with an upper-cased
      label equal to the upper-cased, stripped string; BASE when none has. */
  function UnitOf(unitStr: string): Unit {
    if unitStr == "" then Base else FirstLabelled(Strip(Upper(unitStr)), 0)
  }

  /** The search of `_parse_unit` from `UNITS[j]` on. */
  function FirstLabelled(key: string, j: nat): (u: Unit)
    ensures u != Base ==> key in UpperLabels(u)
    decreases |UNITS| - j
  {
    if j >= |UNITS| then Base
    else if UNITS[j] != Base && key in UpperLabels(UNITS[j]) then UNITS[j]
    else FirstLabelled(key, j + 1)
  }

  /** `_parse_unit` */
  method ParseUnit(unitStr: string) returns (unit: Unit)
    ensures unit == UnitOf(unitStr)
  {
    if unitStr == "" {
      return Base;
    }
    var key := Strip(Upper(unitStr));
    for j := 0 to |UNITS|
      invariant FirstLabelled(key, 0) == FirstLabelled(key, j)
    {
      if UNITS[j] == Base {
        continue;
      }
      if key in UpperLabels(UNITS[j]) {
        return UNITS[j];
      }
    }
    return Base;
  }

  /** `_normalize_to_unit`: the value in base units, divided by the target's
      multiplier. */
  function NormalizeToUnit(value: real, source: Unit, target: Unit): (r: real)
    ensures r * Multiplier(target) == value * Multiplier(source)
    ensures source == target ==> r == value
  {
    value * Multiplier(source) / Multiplier(target)
  }

  /** `Currency`, in declaration order. */
  datatype Currency = Euro | Dollar | Pound | Yen

  const CURRENCIES: seq<Currency> := [Euro, Dollar, Pound, Yen]

  /** A currency's position in declaration order. */
  function Rank(c: Currency): (k: nat)
    ensures k < |CURRENCIES| && CURRENCIES[k] == c
  {
    match c
    case Euro => 0
    case Dollar => 1
    case Pound => 2
    case Yen => 3
  }

  /** A currency's symbol, name and code: its enum value. */
  function Variants(c: Currency): (v: seq<string>)
    ensures |v| == 3
  {
    match c
    case Euro => ["€", "euro", "EUR"]
    case Dollar => ["$", "dollar", "USD"]
    case Pound => ["£", "pound", "GBP"]
    case Yen => ["¥", "yen", "JPY"]
  }

  function Symbol(c: Currency): string {
    Variants(c)[0]
  }

  /** `[v.lower() for v in currency.value]`, spelled out once as literals
      so that proofs about mentions compare literals instead of lowering
      each variant character by character; lemma LowerVariantsSpelled
      proves the spelling equal to the lowered `Variants`. */
  function LowerVariants(c: Currency): (v: seq<string>)
    ensures |v| == 3
  {
    match c
    case Euro => ["€", "euro", "eur"]
    case Dollar => ["$", "dollar", "usd"]
    case Pound => ["£", "pound", "gbp"]
    case Yen => ["¥", "yen", "jpy"]
  }

  /** The currency's pattern, `(symbol|name|code)` ignoring case, finds a
      match in `text`: one of the variants occurs, letter case aside. */
  predicate Mentions(text: string, c: Currency) {
    var v := LowerVariants(c);
    Contains(Lower(text), v[0]) || Contains(Lower(text), v[1]) || Contains(Lower(text), v[2])
  }

  /** What `_extract_currency` answers: the first currency, in declaration
      order, that the text mentions. */
  function CurrencyIn(text: string): Option<Currency> {
    FirstMentioned(text, 0)
  }

  function FirstMentioned(text: string, j: nat): (r: Option<Currency>)
    ensures r.Some? ==> Mentions(text, r.value)
    decreases |CURRENCIES| - j
  {
    if j >= |CURRENCIES| then None
    else if Mentions(text, CURRENCIES[j]) then Some(CURRENCIES[j])
    else FirstMentioned(text, j + 1)
  }

  /** `_extract_currency` */
  method ExtractCurrency(text: string) returns (currency: Option<Currency>)
    ensures currency == CurrencyIn(text)
  {
    for j := 0 to |CURRENCIES|
      invariant FirstMentioned(text, 0) == FirstMentioned(text, j)
    {
      if Mentions(text, CURRENCIES[j]) {
        return Some(CURRENCIES[j]);
      }
    }
    return None;
  }

  /** The letter `format_number` appends: none for BASE. */
  function UnitLetter(u: Unit): string {
    if u == Base then "" else Labels(u)[0]
  }

  /** `format_number(value, unit, currency, decimals)`, where `fmt` renders
      `f"{value:,.{decimals}f}"`: the symbol, when there is a currency, then
      the rendered number, then the unit's letter. */
  function FormatNumber(value: real, unit: Unit, currency: Option<Currency>, decimals: int,
                        fmt: (real, int) -> string): (text: string)
    ensures currency.Some? ==> Symbol(currency.value) <= text
    ensures currency.None? ==> fmt(value, decimals) <= text
    ensures |UnitLetter(unit)| <= |text| && text[|text| - |UnitLetter(unit)|..] == UnitLetter(unit)
  {
    var currencyStr := if currency.Some? then Symbol(currency.value) else "";
    currencyStr + fmt(value, decimals) + UnitLetter(unit)
  }

  /** A match of one of the five number patterns: its groups, in order. Every
      group of those patterns takes part in any match they make, so
      `lastindex` is the number of groups and no group is `None`. */
  datatype Match = Match(groups: seq<string>)

  /** How many number patterns `parse_number` tries. */
  const PATTERN_COUNT: nat := 5

  /** The metadata `parse_number` reports with a number. */
  datatype NumberMetadata = NumberMetadata(originalText: string, originalValue: real,
                                           originalUnit: Unit, currency: Option<Currency>,
                                           isNegative: bool, normalizedValue: real,
                                           targetUnit: Unit)

  /** What `parse_number(text, target_unit, return_metadata=True)` answers:
      `None` for an empty text, `(None, {original_text, error:
      'ambiguous_parse'})` when no pattern gives a number, and otherwise the
      number in the target unit with its metadata. */
  datatype NumberParse =
    | NoText
    | Ambiguous(originalText: string)
    | Parsed(value: real, metadata: NumberMetadata)

  /** What the call without `return_metadata` answers. */
  function PlainNumber(p: NumberParse): (r: Option<real>)
    ensures r.Some? <==> p.Parsed?
  {
    if p.Parsed? then Some(p.value) else None
  }

  /** The text `float()` is given: the first group without its commas. */
  function NumberText(group: string): string {
    Replace(group, ',', "")
  }

  /** The whole text has both parentheses, which marks the number negative. */
  predicate MarkedNegative(text: string) {
    '(' in text && ')' in text
  }

  /** The `try` block for a match in the stripped `text`: the number in the
      target unit and its metadata, or `None` when the block raises, with an
      `IndexError` for a match without groups or a `ValueError` from
      `float()`. */
  function Attempt(text: string, m: Match, target: Unit, parseFloat: string -> Option<real>)
    : Option<(real, NumberMetadata)>
  {
    if |m.groups| == 0 then None
    else match parseFloat(NumberText(m.groups[0]))
      case None => None
      case Some(x) => Some(Reading(text, x, GroupUnit(m), CurrencyIn(text), target))
  }

  /** The unit of a match: `_parse_unit` of its second group upper-cased,
      BASE when it has one group only. */
  function GroupUnit(m: Match): Unit {
    if |m.groups| > 1 then UnitOf(Upper(m.groups[1])) else Base
  }

  /** The number and metadata the `try` block returns once `float()` gave
      `x`, the unit is `unit` and the text's currency is `currency`: `x` is
      negated when the text is marked negative, then normalised. */
  function Reading(text: string, x: real, unit: Unit, currency: Option<Currency>, target: Unit)
    : (real, NumberMetadata)
  {
    var negative := MarkedNegative(text);
    var number := if negative then -x else x;
    var normalized := NormalizeToUnit(number, unit, target);
    (normalized, NumberMetadata(text, number, unit, currency, negative, normalized, target))
  }

  /** Pattern `j` on the stripped text: `search(j, text)` is
      `number_patterns[j].search(text)`; `None` when it finds no match or
      its `try` block raises. */
  function PatternTry(text: string, j: nat, target: Unit, search: (nat, string) -> Option<Match>,
                      parseFloat: string -> Option<real>): Option<(real, NumberMetadata)>
  {
    match search(j, text)
    case None => None
    case Some(m) => Attempt(text, m, target, parseFloat)
  }

  /** Every pattern's outcome on the stripped text. */
  function Tries(text: string, target: Unit, search: (nat, string) -> Option<Match>,
                 parseFloat: string -> Option<real>): nat -> Option<(real, NumberMetadata)>
  {
    (j: nat) => PatternTry(text, j, target, search, parseFloat)
  }

  /** The pattern loop of `parse_number` from pattern `j` on, over the
      stripped text, with `tries(j)` the outcome of pattern `j`. */
  function FirstParse(text: string, j: nat, tries: nat -> Option<(real, NumberMetadata)>): (r: NumberParse)
    ensures !r.NoText?
    ensures r.Ambiguous? ==> r.originalText == text
    decreases PATTERN_COUNT - j
  {
    if j >= PATTERN_COUNT then Ambiguous(text)
    else match tries(j)
      case Some(p) => Parsed(p.0, p.1)
      case None => FirstParse(text, j + 1, tries)
  }

  /** What `parse_number` answers for `text`. */
  function NumberOf(text: string, target: Unit, search: (nat, string) -> Option<Match>,
                    parseFloat: string -> Option<real>): (r: NumberParse)
    ensures r.NoText? <==> text == ""
  {
    if text == "" then NoText
    else FirstParse(Strip(text), 0, Tries(Strip(text), target, search, parseFloat))
  }

  /** The `try` block of `parse_number` for one match, step by step. */
  method TryMatch(text: string, m: Match, target: Unit, parseFloat: string -> Option<real>)
    returns (r: Option<(real, NumberMetadata)>)
    ensures r == Attempt(text, m, target, parseFloat)
  {
    if |m.groups| == 0 {
      return None;
    }
    var numberStr := NumberText(m.groups[0]);
    var isNegative := false;
    if '(' in text && ')' in text {
      isNegative := true;
    }
    var parsed := parseFloat(numberStr);
    if parsed.None? {
      return None;
    }
    var number := parsed.value;
    if isNegative {
      number := -number;
    }
    assert isNegative == MarkedNegative(text);
    assert number == if isNegative then -parsed.value else parsed.value;
    var unit := MatchUnit(m);
    var normalized := NormalizeToUnit(number, unit, target);
    var currency := ExtractCurrency(text);
    r := Some((normalized, NumberMetadata(text, number, unit, currency, isNegative, normalized, target)));
    assert r.value == Reading(text, parsed.value, unit, currency, target);
  }

  /** The unit step of that block. */
  method MatchUnit(m: Match) returns (unit: Unit)
    ensures unit == GroupUnit(m)
  {
    unit := Base;
    if |m.groups| > 1 {
      unit := ParseUnit(Upper(m.groups[1]));
    }
  }

  /** `parse_number(text, target_unit, return_metadata=True)` */
  method ParseNumber(text: string, target: Unit, search: (nat, string) -> Option<Match>,
                     parseFloat: string -> Option<real>)
    returns (p: NumberParse)
    ensures p == NumberOf(text, target, search, parseFloat)
  {
    if text == "" {
      return NoText;
    }
    var stripped := Strip(text);
    ghost var tries := Tries(stripped, target, search, parseFloat);
    for j := 0 to PATTERN_COUNT
      invariant FirstParse(stripped, 0, tries) == FirstParse(stripped, j, tries)
    {
      var attempt := TryPattern(stripped, j, target, search, parseFloat);
      assert tries(j) == attempt;
      if attempt.Some? {
        return Parsed(attempt.value.0, attempt.value.1);
      }
    }
    return Ambiguous(stripped);
  }

  /** One pass of that loop: search with pattern `j`, then the `try` block
      on its match. */
  method TryPattern(text: string, j: nat, target: Unit, search: (nat, string) -> Option<Match>,
                    parseFloat: string -> Option<real>)
    returns (attempt: Option<(real, NumberMetadata)>)
    ensures attempt == PatternTry(text, j, target, search, parseFloat)
  {
    var m := search(j, text);
    if m.Some? {
      attempt := TryMatch(text, m.value, target, parseFloat);
    } else {
      attempt := None;
    }
  }

  /** What `parse_all_numbers` keeps of one segment's parse: the pair
      `(value, metadata)` of a number, nothing for `None` or an ambiguous
      parse. */
  function Kept(p: NumberParse): Option<(real, NumberMetadata)> {
    if p.Parsed? then Some((p.value, p.metadata)) else None
  }

  /** Each segment's parse, in order. */
  function SegmentParses(segments: seq<string>, parse: string -> NumberParse): (r: seq<Option<(real, NumberMetadata)>>)
    ensures |r| == |segments|
  {
    seq(|segments|, i requires 0 <= i < |segments| => Kept(parse(segments[i])))
  }

  /** The numbers `parse_all_numbers` collects from `segments`, each parsed
      with `parse`. */
  function AllNumbers(segments: seq<string>, parse: string -> NumberParse): seq<(real, NumberMetadata)> {
    Seqs.Present(SegmentParses(segments, parse))
  }

  /** `parse_number` with the target unit and the external functions fixed. */
  function Parser(target: Unit, search: (nat, string) -> Option<Match>,
                  parseFloat: string -> Option<real>): string -> NumberParse
  {
    (s: string) => NumberOf(s, target, search, parseFloat)
  }

  /** One more segment adds its number, if it has one. */
  lemma AllNumbersSnoc(segments: seq<string>, x: string, parse: string -> NumberParse)
    ensures AllNumbers(segments + [x], parse)
            == AllNumbers(segments, parse) + if parse(x).Parsed? then [(parse(x).value, parse(x).metadata)] else []
  {
    var d := SegmentParses(segments + [x], parse);
    assert d[..|segments|] == SegmentParses(segments, parse);
  }

  /** `parse_all_numbers(text, target_unit)`; `split(text)` is
      `re.split(r'[.;]\s+', text)`. */
  method ParseAllNumbers(text: string, target: Unit, split: string -> seq<string>,
                         search: (nat, string) -> Option<Match>, parseFloat: string -> Option<real>)
    returns (results: seq<(real, NumberMetadata)>)
    ensures results == AllNumbers(split(text), Parser(target, search, parseFloat))
  {
    var segments := split(text);
    results := [];
    for i := 0 to |segments|
      invariant results == AllNumbers(segments[..i], Parser(target, search, parseFloat))
    {
      var parsed := ParseNumber(segments[i], target, search, parseFloat);
      assert segments[..i + 1] == segments[..i] + [segments[i]];
      AllNumbersSnoc(segments[..i], segments[i], Parser(target, search, parseFloat));
      if parsed.Parsed? {
        results := results + [(parsed.value, parsed.metadata)];
      }
    }
    assert segments[..|segments|] == segments;
  }
}

/** What the numeric parser promises. */
module NumericParserFacts {
  import opened Wrappers
  import opened PyStr
  import Seqs
  import opened NumericParser

  /** The spelled-out labels are the labels upper-cased. */
  lemma UpperLabelsSpelled(u: Unit)
    ensures |UpperLabels(u)| == |Labels(u)|
    ensures forall i :: 0 <= i < |Labels(u)| ==> UpperLabels(u)[i] == Upper(Labels(u)[i])
  {
    match u
    case Billion =>
      assert Upper("B") == "B" && Upper("billion") == "BILLION" && Upper("bn") == "BN";
    case Million =>
      assert Upper("M") == "M" && Upper("million") == "MILLION" && Upper("mn") == "MN";
    case Thousand =>
      assert Upper("K") == "K" && Upper("thousand") == "THOUSAND" && Upper("k") == "K";
    case Hundred =>
      assert Upper("H") == "H" && Upper("hundred") == "HUNDRED";
    case Base =>
      assert Upper("") == "";
  }

  /** The spelled-out variants are the variants lower-cased. */
  lemma LowerVariantsSpelled(c: Currency)
    ensures forall i :: 0 <= i < 3 ==> LowerVariants(c)[i] == Lower(Variants(c)[i])
  {
    match c
    case Euro =>
      assert Lower("€") == "€" && Lower("euro") == "euro" && Lower("EUR") == "eur";
    case Dollar =>
      assert Lower("$") == "$" && Lower("dollar") == "dollar" && Lower("USD") == "usd";
    case Pound =>
      assert Lower("£") == "£" && Lower("pound") == "pound" && Lower("GBP") == "gbp";
    case Yen =>
      assert Lower("¥") == "¥" && Lower("yen") == "yen" && Lower("JPY") == "jpy";
  }

  /** No two units other than BASE share an upper-cased label. */
  lemma LabelsDisjoint(key: string, u: Unit, w: Unit)
    requires u != Base && w != Base && key in UpperLabels(u) && key in UpperLabels(w)
    ensures u == w
  {
  }

  /** The search from `UNITS[j]` on finds every unit at or after `j`
      whose label is the key. */
  lemma {:induction false} FirstLabelledFinds(key: string, j: nat, u: Unit)
    requires u != Base && key in UpperLabels(u)
    requires j <= Index(u)
    ensures FirstLabelled(key, j) == u
    decreases |UNITS| - j
  {
    if j < Index(u) {
      if UNITS[j] != Base && key in UpperLabels(UNITS[j]) {
        LabelsDisjoint(key, u, UNITS[j]);
      }
      FirstLabelledFinds(key, j + 1, u);
    }
  }

  /** A unit's position in `UNITS`. */
  function Index(u: Unit): (k: nat)
    ensures k < |UNITS| && UNITS[k] == u
  {
    match u
    case Billion => 0
    case Million => 1
    case Thousand => 2
    case Hundred => 3
    case Base => 4
  }

  /** `_parse_unit` gives a unit other than BASE exactly when the stripped,
      upper-cased string is one of that unit's labels upper-cased: the
      declaration order does not matter, since no two units share a label. */
  lemma UnitOfIff(unitStr: string, u: Unit)
    requires u != Base
    ensures UnitOf(unitStr) == u <==> unitStr != "" && Strip(Upper(unitStr)) in UpperLabels(u)
  {
    if unitStr != "" && Strip(Upper(unitStr)) in UpperLabels(u) {
      FirstLabelledFinds(Strip(Upper(unitStr)), 0, u);
    }
  }

  /** Whatever `_parse_unit` is given, a string that is no label of any unit
      gives BASE. */
  lemma UnitOfUnlabelled(unitStr: string)
    requires forall u :: u != Base ==> Strip(Upper(unitStr)) !in UpperLabels(u)
    ensures UnitOf(unitStr) == Base
  {
  }

  /** The letter `format_number` appends is read back by `_parse_unit` as
      the same unit, for every unit. */
  lemma UnitLetterRoundTrip(u: Unit)
    ensures UnitOf(UnitLetter(u)) == u
  {
    if u != Base {
      var letter := UnitLetter(u);
      assert letter == [letter[0]] && 'A' <= letter[0] <= 'Z';
      CapitalIsKey(letter[0]);
      assert letter == UpperLabels(u)[0];
      UnitOfIff(letter, u);
    }
  }

  /** `_parse_unit` looks a single capital letter up as itself. */
  lemma CapitalIsKey(c: char)
    requires 'A' <= c <= 'Z'
    ensures Strip(Upper([c])) == [c]
  {
    var key := Upper([c]);
    assert key[0] == c;
    assert key == [c];
    assert !IsSpace(c);
    assert LStrip(key) == key;
    assert RStrip(key) == key;
  }

  /** The normalised value is the one that stands for the same amount in the
      target unit. */
  lemma NormalizeSameAmount(value: real, source: Unit, target: Unit)
    ensures NormalizeToUnit(value, source, target) * Multiplier(target) == value * Multiplier(source)
  {
  }

  /** Normalising to the unit the value is already in changes nothing. */
  lemma NormalizeIdentity(value: real, u: Unit)
    ensures NormalizeToUnit(value, u, u) == value
  {
  }

  /** Converting to another unit and back gives the value back. */
  lemma NormalizeRoundTrip(value: real, source: Unit, target: Unit)
    ensures NormalizeToUnit(NormalizeToUnit(value, source, target), target, source) == value
  {
  }

  /** Converting through an intermediate unit is converting directly. */
  lemma NormalizeCompose(value: real, a: Unit, b: Unit, c: Unit)
    ensures NormalizeToUnit(NormalizeToUnit(value, a, b), b, c) == NormalizeToUnit(value, a, c)
  {
  }

  /** The search of `_extract_currency` from `CURRENCIES[j]` on answers the
      first currency at or after `j` that the text mentions. */
  lemma {:induction false} FirstMentionedSpec(text: string, j: nat)
    ensures FirstMentioned(text, j).None? ==>
              forall c :: Rank(c) >= j ==> !Mentions(text, c)
    ensures FirstMentioned(text, j).Some? ==>
              && Rank(FirstMentioned(text, j).value) >= j
              && forall c :: j <= Rank(c) < Rank(FirstMentioned(text, j).value) ==> !Mentions(text, c)
    decreases |CURRENCIES| - j
  {
    if j < |CURRENCIES| && !Mentions(text, CURRENCIES[j]) {
      FirstMentionedSpec(text, j + 1);
    }
  }

  /** `_extract_currency` answers `None` exactly when no currency is
      mentioned, and otherwise a mentioned currency with no mentioned one
      before it in declaration order. */
  lemma CurrencyInSpec(text: string)
    ensures CurrencyIn(text).None? <==> forall c :: !Mentions(text, c)
    ensures CurrencyIn(text).Some? ==>
              && Mentions(text, CurrencyIn(text).value)
              && forall c :: Rank(c) < Rank(CurrencyIn(text).value) ==> !Mentions(text, c)
  {
    FirstMentionedSpec(text, 0);
  }

  /** The characters `f"{value:,.2f}"` writes for a finite number. */
  predicate NumeralChar(c: char) {
    '0' <= c <= '9' || c == ',' || c == '.' || c == '-'
  }

  /** A needle that occurs brings its first character along. */
  lemma FirstCharOccurs(s: string, needle: string)
    requires Contains(s, needle) && needle != ""
    ensures needle[0] in s
  {
    ContainsHasChars(s, needle, 0);
  }

  /** A text made of a symbol, numeral characters and unit letters mentions
      no currency but the symbol's. */
  lemma OnlySymbolMentioned(text: string, symbolOf: Option<Currency>, c: Currency)
    requires forall i :: 0 <= i < |text| ==>
               NumeralChar(text[i]) || text[i] in "BMKH" || (symbolOf.Some? && [text[i]] == Symbol(symbolOf.value))
    requires symbolOf != Some(c)
    ensures !Mentions(text, c)
  {
    var t := Lower(text);
    var v := LowerVariants(c);
    forall k | 0 <= k < 3 ensures !Contains(t, v[k]) {
      if Contains(t, v[k]) {
        FirstCharOccurs(t, v[k]);
      }
    }
  }

  /** The rendered number of `format_number` is made of numeral
      characters. */
  predicate RendersNumerals(fmt: (real, int) -> string, value: real, decimals: int) {
    forall i :: 0 <= i < |fmt(value, decimals)| ==> NumeralChar(fmt(value, decimals)[i])
  }

  /** A formatted number is made of its currency symbol, numerals and a
      unit letter. */
  lemma FormattedChars(value: real, unit: Unit, currency: Option<Currency>, decimals: int,
                       fmt: (real, int) -> string)
    requires RendersNumerals(fmt, value, decimals)
    ensures var text := FormatNumber(value, unit, currency, decimals, fmt);
            forall i | 0 <= i < |text| ::
              NumeralChar(text[i]) || text[i] in "BMKH" || (currency.Some? && [text[i]] == Symbol(currency.value))
  {
    var text := FormatNumber(value, unit, currency, decimals, fmt);
    var prefix := if currency.Some? then Symbol(currency.value) else "";
    var number := fmt(value, decimals);
    assert text == prefix + number + UnitLetter(unit);
    forall i | 0 <= i < |text|
      ensures NumeralChar(text[i]) || text[i] in "BMKH" || (currency.Some? && [text[i]] == Symbol(currency.value))
    {
      if i < |prefix| {
        assert text[i] == prefix[i];
      } else if i < |prefix| + |number| {
        assert text[i] == number[i - |prefix|];
      } else {
        assert text[i] == UnitLetter(unit)[i - |prefix| - |number|];
      }
    }
  }

  /** `_extract_currency` reads back the currency `format_number` was given,
      and `None` when it was given none. */
  lemma FormatKeepsCurrency(value: real, unit: Unit, currency: Option<Currency>, decimals: int,
                            fmt: (real, int) -> string)
    requires RendersNumerals(fmt, value, decimals)
    ensures CurrencyIn(FormatNumber(value, unit, currency, decimals, fmt)) == currency
  {
    var text := FormatNumber(value, unit, currency, decimals, fmt);
    OnlyOwnCurrency(value, unit, currency, decimals, fmt);
    CurrencyInSpec(text);
    if currency.Some? {
      SymbolMentions(currency.value, fmt(value, decimals), UnitLetter(unit));
      assert CurrencyIn(text).Some?;
      assert Mentions(text, CurrencyIn(text).value);
    } else {
      assert forall c :: !Mentions(text, c);
    }
  }

  /** A formatted number mentions no currency but the one it was given. */
  lemma OnlyOwnCurrency(value: real, unit: Unit, currency: Option<Currency>, decimals: int,
                        fmt: (real, int) -> string)
    requires RendersNumerals(fmt, value, decimals)
    ensures forall c :: Some(c) != currency ==> !Mentions(FormatNumber(value, unit, currency, decimals, fmt), c)
  {
    var text := FormatNumber(value, unit, currency, decimals, fmt);
    FormattedChars(value, unit, currency, decimals, fmt);
    forall c | Some(c) != currency ensures !Mentions(text, c) {
      OnlySymbolMentioned(text, currency, c);
    }
  }

  /** A text that starts with a currency's symbol mentions that currency. */
  lemma SymbolMentions(c: Currency, number: string, letter: string)
    ensures Mentions(Symbol(c) + number + letter, c)
  {
    var t := Lower(Symbol(c) + number + letter);
    assert t[0] == Symbol(c)[0];
    assert t[..1] == LowerVariants(c)[0];
    ContainsAt(t, LowerVariants(c)[0], 0);
  }

  /** `_parse_unit` reads back, from the end of what `format_number` writes,
      the unit it was given. */
  lemma FormatKeepsUnit(value: real, unit: Unit, currency: Option<Currency>, decimals: int,
                        fmt: (real, int) -> string)
    ensures var text := FormatNumber(value, unit, currency, decimals, fmt);
            UnitOf(text[|text| - |UnitLetter(unit)|..]) == unit
  {
    var text := FormatNumber(value, unit, currency, decimals, fmt);
    assert text[|text| - |UnitLetter(unit)|..] == UnitLetter(unit);
    UnitLetterRoundTrip(unit);
  }

  /** The patterns are tried in order and the first that gives a number
      decides: the search from pattern `j` on answers pattern `k`'s number
      exactly when pattern `k` is the first at or after `j` to give one, and
      is ambiguous when none does. */
  lemma {:induction false} FirstParseSpec(text: string, j: nat, tries: nat -> Option<(real, NumberMetadata)>)
    ensures var r := FirstParse(text, j, tries);
            && (r.Ambiguous? <==> forall k :: j <= k < PATTERN_COUNT ==> tries(k).None?)
            && (r.Parsed? ==> exists k :: j <= k < PATTERN_COUNT && tries(k) == Some((r.value, r.metadata))
                               && forall i :: j <= i < k ==> tries(i).None?)
    decreases PATTERN_COUNT - j
  {
    if j < PATTERN_COUNT && tries(j).None? {
      FirstParseSpec(text, j + 1, tries);
    }
  }

  /** `parse_number` answers `None` only for an empty text; otherwise it
      answers the number of the first pattern whose match parses, and
      ambiguous, with the stripped text, when there is none. */
  lemma FirstPatternWins(text: string, target: Unit, search: (nat, string) -> Option<Match>,
                         parseFloat: string -> Option<real>)
    requires text != ""
    ensures var r := NumberOf(text, target, search, parseFloat);
            var s := Strip(text);
            && (r.Ambiguous? <==> forall k :: 0 <= k < PATTERN_COUNT ==> PatternTry(s, k, target, search, parseFloat).None?)
            && (r.Ambiguous? ==> r.originalText == s)
            && (r.Parsed? ==> exists k :: 0 <= k < PATTERN_COUNT
                               && PatternTry(s, k, target, search, parseFloat) == Some((r.value, r.metadata))
                               && forall i :: 0 <= i < k ==> PatternTry(s, i, target, search, parseFloat).None?)
  {
    var s := Strip(text);
    var tries := Tries(s, target, search, parseFloat);
    FirstParseSpec(s, 0, tries);
    forall k | 0 <= k < PATTERN_COUNT
      ensures tries(k) == PatternTry(s, k, target, search, parseFloat)
    {
    }
  }

  /** What a number from a successful `try` block carries: the text it came
      from, the sign rule (negated exactly when the text has both
      parentheses), a comma-free text handed to `float()`, a value in the
      target unit that converts back to the signed number, and the text's
      currency. */
  lemma AttemptMetadata(text: string, m: Match, target: Unit, parseFloat: string -> Option<real>)
    requires Attempt(text, m, target, parseFloat).Some?
    ensures var r := Attempt(text, m, target, parseFloat).value;
            var md := r.1;
            && |m.groups| > 0 && ',' !in NumberText(m.groups[0])
            && parseFloat(NumberText(m.groups[0])).Some?
            && md.originalText == text && md.targetUnit == target && md.normalizedValue == r.0
            && (md.isNegative <==> '(' in text && ')' in text)
            && md.originalValue == (if md.isNegative then -1.0 else 1.0) * parseFloat(NumberText(m.groups[0])).value
            && NormalizeToUnit(r.0, target, md.originalUnit) == md.originalValue
            && md.currency == CurrencyIn(text)
  {
    ReplaceChars(m.groups[0], ',', "");
    var md := Attempt(text, m, target, parseFloat).value.1;
    NormalizeRoundTrip(md.originalValue, md.originalUnit, target);
  }

  /** `parse_all_numbers` keeps the segments' order: the numbers of two
      runs of segments are the numbers of each in turn. */
  lemma AllNumbersAppend(a: seq<string>, b: seq<string>, parse: string -> NumberParse)
    ensures AllNumbers(a + b, parse) == AllNumbers(a, parse) + AllNumbers(b, parse)
  {
    assert SegmentParses(a + b, parse) == SegmentParses(a, parse) + SegmentParses(b, parse);
    Seqs.PresentAppend(SegmentParses(a, parse), SegmentParses(b, parse));
  }

  /** Every number `parse_all_numbers` returns is the number `parse_number`
      gives for one of the segments, and there are no more numbers than
      segments. */
  lemma AllNumbersFromSegments(segments: seq<string>, parse: string -> NumberParse, k: nat)
    requires k < |AllNumbers(segments, parse)|
    ensures exists i :: 0 <= i < |segments|
              && parse(segments[i]) == Parsed(AllNumbers(segments, parse)[k].0, AllNumbers(segments, parse)[k].1)
    ensures |AllNumbers(segments, parse)| <= |segments|
  {
    Seqs.PresentFrom(SegmentParses(segments, parse), k);
    Seqs.PresentAtMost(SegmentParses(segments, parse));
    var i :| 0 <= i < |segments| && SegmentParses(segments, parse)[i] == Some(AllNumbers(segments, parse)[k]);
    assert Kept(parse(segments[i])) == Some(AllNumbers(segments, parse)[k]);
  }
}
