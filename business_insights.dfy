/**
 * The business insights service (services/business_insights.py): keyword
 * categorisation of queries, topic counting over queries and answers,
 * metric-mention counters, the per-category query counts and the short list
 * of key insights.
 *
 * A `Counter` (and the `defaultdict` of `categorize_query`) is an
 * insertion-ordered list of `Counted` entries, one per key. The five metric
 * regexes are the predicate `search`, the percentage `re.findall` is the
 * function `findPercents`, and the `:.1f` rendering of the success rate is
 * `fmtRate`. What the database and the analytics service return arrives as
 * parameters.
 */
module BusinessInsights {
  import opened Wrappers
  import opened PyStr

  /** One entry of `CATEGORY_KEYWORDS`. */
  datatype Category = Category(name: string, keywords: seq<string>)

  /** `CATEGORY_KEYWORDS`, in declaration order. */
  const CATEGORY_KEYWORDS: seq<Category> := [
    Category("Financial", ["revenue", "profit", "loss", "cost", "price", "financial", "earnings", "income",
                           "budget", "expense", "growth", "million", "billion", "€", "$", "%"]),
    Category("Operations", ["production", "manufacturing", "operation", "process", "efficiency", "capacity",
                            "supply chain", "logistics"]),
    Category("Sales & Marketing", ["sales", "marketing", "customer", "market", "brand", "advertising",
                                   "campaign", "revenue", "market share"]),
    Category("Human Resources", ["employee", "staff", "workforce", "hiring", "training", "personnel", "headcount"]),
    Category("Strategy", ["strategy", "plan", "goal", "objective", "vision", "mission", "roadmap", "initiative"]),
    Category("Technology", ["technology", "digital", "innovation", "IT", "software", "system", "platform",
                            "automation"]),
    Category("Risk & Compliance", ["risk", "compliance", "regulation", "legal", "audit", "security", "governance"])
  ]

  const GENERAL: string := "General"

  /** The `business_terms` of `extract_topics`. */
  const BUSINESS_TERMS: seq<string> := [
    "revenue", "growth", "profit", "sales", "market", "customer",
    "product", "service", "strategy", "financial", "operation",
    "technology", "innovation", "competition", "performance",
    "efficiency", "quality", "brand", "marketing", "investment"
  ]

  /** The words a query word must not be to count as a topic. */
  const STOP_WORDS: seq<string> := ["what", "which", "where", "when", "about", "question"]

  const TOP_TOPICS: nat := 10
  const TOP_NUMBERS: nat := 10
  const TOP_INSIGHTS: nat := 5

  // ---------------------------------------------------------------------
  // categorize_query

  /** How many of `keywords`, lowercased, occur in `queryLower`: the score
      the keyword loop gives one category. */
  function Hits(queryLower: string, keywords: seq<string>): (n: nat)
    ensures n <= |keywords|
    decreases |keywords|
  {
    if keywords == [] then 0
    else
      var last := keywords[|keywords| - 1];
      Hits(queryLower, keywords[..|keywords| - 1]) + (if Contains(queryLower, Lower(last)) then 1 else 0)
  }

  /** Every category's score, in declaration order (a category missing from
      `category_scores` has score 0). */
  function Scores(queryText: string, categories: seq<Category>): (s: seq<nat>)
    ensures |s| == |categories|
  {
    seq(|categories|, i requires 0 <= i < |categories| => Hits(Lower(queryText), categories[i].keywords))
  }

  /** The position `max(category_scores.items(), key=...)` picks among the
      first `n` categories: the first positive score that no later score
      beats; -1 when every score is 0. */
  function Best(scores: seq<nat>, n: nat): (b: int)
    requires n <= |scores|
    ensures -1 <= b < n
  {
    if n == 0 then -1
    else
      var b := Best(scores, n - 1);
      if scores[n - 1] > 0 && (b < 0 || scores[n - 1] > scores[b]) then n - 1 else b
  }

  /** What `categorize_query` answers. */
  function CategoryOf(queryText: string, categories: seq<Category>): string {
    var b := Best(Scores(queryText, categories), |categories|);
    if b < 0 then GENERAL else categories[b].name
  }

  /** The inner loop of `categorize_query`: one category's keyword hits. */
  method CountHits(queryLower: string, keywords: seq<string>) returns (score: nat)
    ensures score == Hits(queryLower, keywords)
  {
    score := 0;
    for k := 0 to |keywords|
      invariant score == Hits(queryLower, keywords[..k])
    {
      assert keywords[..k + 1][..k] == keywords[..k];
      if Contains(queryLower, Lower(keywords[k])) {
        score := score + 1;
      }
    }
    assert keywords[..|keywords|] == keywords;
  }

  /** `categorize_query(query_text)`, with `categories` standing for
      `CATEGORY_KEYWORDS`. */
  method CategorizeQuery(queryText: string, categories: seq<Category>) returns (category: string)
    ensures category == CategoryOf(queryText, categories)
  {
    var queryLower := Lower(queryText);
    var scores: seq<nat> := [];
    for c := 0 to |categories|
      invariant scores == Scores(queryText, categories)[..c]
    {
      var score := CountHits(queryLower, categories[c].keywords);
      scores := scores + [score];
    }
    assert scores == Scores(queryText, categories);
    var best := -1;
    for i := 0 to |scores|
      invariant best == Best(scores, i)
    {
      if scores[i] > 0 && (best < 0 || scores[i] > scores[best]) {
        best := i;
      }
    }
    if best < 0 {
      return GENERAL;
    }
    return categories[best].name;
  }

  // ---------------------------------------------------------------------
  // Counters

  /** One `Counter` entry: a key and its count. */
  datatype Counted = Counted(key: string, count: nat)

  /** The position of `key` in a counter, -1 when it is absent. */
  function IndexOf(c: seq<Counted>, key: string): (i: int)
    ensures -1 <= i < |c|
    ensures i >= 0 ==> c[i].key == key && forall k :: 0 <= k < i ==> c[k].key != key
    ensures i < 0 ==> forall k :: 0 <= k < |c| ==> c[k].key != key
  {
    if c == [] then -1
    else if c[0].key == key then 0
    else
      var k := IndexOf(c[1..], key);
      if k < 0 then -1 else k + 1
  }

  /** `counter[key]`: 0 for a missing key. */
  function Lookup(c: seq<Counted>, key: string): nat {
    var i := IndexOf(c, key);
    if i < 0 then 0 else c[i].count
  }

  /** `counter[key] = n`: overwrite in place, or append a new key. */
  function Assign(c: seq<Counted>, key: string, n: nat): seq<Counted> {
    var i := IndexOf(c, key);
    if i < 0 then c + [Counted(key, n)] else c[i := Counted(key, n)]
  }

  /** `counter[key] += 1` */
  function Bump(c: seq<Counted>, key: string): seq<Counted> {
    Assign(c, key, Lookup(c, key) + 1)
  }

  /** Bumping every key of `keys` in turn. */
  function Tallied(c: seq<Counted>, keys: seq<string>): seq<Counted>
    decreases |keys|
  {
    if keys == [] then c
    else Bump(Tallied(c, keys[..|keys| - 1]), keys[|keys| - 1])
  }

  /** `sorted(..., key=count, reverse=True)` places an entry before the
      first one whose count is not larger (the sort is stable). */
  function InsertByCount(e: Counted, sorted: seq<Counted>): seq<Counted> {
    if sorted == [] then [e]
    else if e.count >= sorted[0].count then [e] + sorted
    else [sorted[0]] + InsertByCount(e, sorted[1..])
  }

  predicate NonIncreasing(s: seq<Counted>) {
    forall i, j :: 0 <= i < j < |s| ==> s[i].count >= s[j].count
  }

  /** The entries by non-increasing count, ties in insertion order. */
  function SortByCount(c: seq<Counted>): seq<Counted> {
    if c == [] then [] else InsertByCount(c[0], SortByCount(c[1..]))
  }

  /** `counter.most_common(n)` */
  function MostCommon(c: seq<Counted>, n: nat): seq<Counted> {
    var sorted := SortByCount(c);
    if |sorted| <= n then sorted else sorted[..n]
  }

  // ---------------------------------------------------------------------
  // extract_topics

  /** `" ".join(queries + answers).lower()` */
  function AllText(queries: seq<string>, answers: seq<string>): string {
    Lower(Join(" ", queries + answers))
  }

  /** The first loop of `extract_topics`: every term that occurs gets its
      occurrence count. */
  function TermCounts(text: string, terms: seq<string>): seq<Counted>
    decreases |terms|
  {
    if terms == [] then []
    else
      var c := TermCounts(text, terms[..|terms| - 1]);
      var term := terms[|terms| - 1];
      if Count(text, term) > 0 then Assign(c, term, Count(text, term)) else c
  }

  /** The words of one split query that count as topics. */
  function KeptWords(words: seq<string>, stop: seq<string>): seq<string>
    decreases |words|
  {
    if words == [] then []
    else
      var word := words[|words| - 1];
      KeptWords(words[..|words| - 1], stop) + (if |word| > 5 && word !in stop then [word] else [])
  }

  /** The topic words of all queries, query by query. */
  function TopicWords(queries: seq<string>, stop: seq<string>): seq<string>
    decreases |queries|
  {
    if queries == [] then []
    else TopicWords(queries[..|queries| - 1], stop) + KeptWords(Words(Lower(queries[|queries| - 1])), stop)
  }

  /** `topic_counts` when both loops are done. */
  function TopicTally(queries: seq<string>, answers: seq<string>, terms: seq<string>, stop: seq<string>): seq<Counted> {
    Tallied(TermCounts(AllText(queries, answers), terms), TopicWords(queries, stop))
  }

  /** What `extract_topics` answers, for given term and stop-word lists. */
  function TopicsOf(queries: seq<string>, answers: seq<string>, terms: seq<string>, stop: seq<string>): seq<Counted> {
    MostCommon(TopicTally(queries, answers, terms, stop), TOP_TOPICS)
  }

  /** `extract_topics(queries, answers)` */
  method ExtractTopics(queries: seq<string>, answers: seq<string>) returns (topics: seq<Counted>)
    ensures topics == TopicsOf(queries, answers, BUSINESS_TERMS, STOP_WORDS)
  {
    var allText := Lower(Join(" ", queries + answers));
    var counts: seq<Counted> := [];
    for k := 0 to |BUSINESS_TERMS|
      invariant counts == TermCounts(allText, BUSINESS_TERMS[..k])
    {
      assert BUSINESS_TERMS[..k + 1][..k] == BUSINESS_TERMS[..k];
      var term := BUSINESS_TERMS[k];
      var count := Count(allText, term);
      if count > 0 {
        counts := Assign(counts, term, count);
      }
    }
    assert BUSINESS_TERMS[..|BUSINESS_TERMS|] == BUSINESS_TERMS;
    ghost var termCounts := counts;
    for q := 0 to |queries|
      invariant counts == Tallied(termCounts, TopicWords(queries[..q], STOP_WORDS))
    {
      assert queries[..q + 1][..q] == queries[..q];
      counts := CountQueryWords(counts, queries[q], termCounts, TopicWords(queries[..q], STOP_WORDS));
    }
    assert queries[..|queries|] == queries;
    topics := MostCommon(counts, TOP_TOPICS);
  }

  /** The word loop of `extract_topics` for one query. */
  method CountQueryWords(counts: seq<Counted>, query: string, ghost base: seq<Counted>, ghost done: seq<string>)
    returns (updated: seq<Counted>)
    requires counts == Tallied(base, done)
    ensures updated == Tallied(base, done + KeptWords(Words(Lower(query)), STOP_WORDS))
  {
    var words := Words(Lower(query));
    updated := counts;
    assert done + KeptWords(words[..0], STOP_WORDS) == done;
    for i := 0 to |words|
      invariant updated == Tallied(base, done + KeptWords(words[..i], STOP_WORDS))
    {
      assert words[..i + 1][..i] == words[..i];
      var word := words[i];
      if |word| > 5 && word !in STOP_WORDS {
        assert done + KeptWords(words[..i + 1], STOP_WORDS) == (done + KeptWords(words[..i], STOP_WORDS)) + [word];
        updated := Bump(updated, word);
      } else {
        assert done + KeptWords(words[..i + 1], STOP_WORDS) == done + KeptWords(words[..i], STOP_WORDS);
      }
    }
    assert words[..|words|] == words;
  }

  // ---------------------------------------------------------------------
  // extract_business_metrics

  /** The keys of `METRIC_PATTERNS`. */
  datatype MetricKind = RevenueMetric | GrowthMetric | ProfitMetric | CustomersMetric | EmployeesMetric

  /** The dictionary `extract_business_metrics` returns. */
  datatype BusinessMetrics = BusinessMetrics(revenueMentions: nat, growthMentions: nat, profitMentions: nat,
                                             customerMentions: nat, employeeMentions: nat,
                                             keyNumbers: seq<string>)

  /** How many answers the pattern of `kind` finds a match in. */
  function MentionCount(answers: seq<string>, kind: MetricKind, search: (MetricKind, string) -> bool): (n: nat)
    ensures n <= |answers|
    decreases |answers|
  {
    if answers == [] then 0
    else
      MentionCount(answers[..|answers| - 1], kind, search)
      + (if search(kind, Lower(answers[|answers| - 1])) then 1 else 0)
  }

  /** What `extract_business_metrics` answers. */
  function MetricsOf(answers: seq<string>, search: (MetricKind, string) -> bool,
                     findPercents: string -> seq<string>): BusinessMetrics
  {
    var numbers := findPercents(Join(" ", answers));
    BusinessMetrics(MentionCount(answers, RevenueMetric, search), MentionCount(answers, GrowthMetric, search),
                    MentionCount(answers, ProfitMetric, search), MentionCount(answers, CustomersMetric, search),
                    MentionCount(answers, EmployeesMetric, search),
                    if |numbers| <= TOP_NUMBERS then numbers else numbers[..TOP_NUMBERS])
  }

  /** `extract_business_metrics(answers)` */
  method ExtractBusinessMetrics(answers: seq<string>, search: (MetricKind, string) -> bool,
                                findPercents: string -> seq<string>)
    returns (metrics: BusinessMetrics)
    ensures metrics == MetricsOf(answers, search, findPercents)
  {
    metrics := BusinessMetrics(0, 0, 0, 0, 0, []);
    var combined := Join(" ", answers);
    for a := 0 to |answers|
      invariant metrics.revenueMentions == MentionCount(answers[..a], RevenueMetric, search)
      invariant metrics.growthMentions == MentionCount(answers[..a], GrowthMetric, search)
      invariant metrics.profitMentions == MentionCount(answers[..a], ProfitMetric, search)
      invariant metrics.customerMentions == MentionCount(answers[..a], CustomersMetric, search)
      invariant metrics.employeeMentions == MentionCount(answers[..a], EmployeesMetric, search)
      invariant metrics.keyNumbers == []
    {
      assert answers[..a + 1][..a] == answers[..a];
      var answerLower := Lower(answers[a]);
      if search(RevenueMetric, answerLower) {
        metrics := metrics.(revenueMentions := metrics.revenueMentions + 1);
      }
      if search(GrowthMetric, answerLower) {
        metrics := metrics.(growthMentions := metrics.growthMentions + 1);
      }
      if search(ProfitMetric, answerLower) {
        metrics := metrics.(profitMentions := metrics.profitMentions + 1);
      }
      if search(CustomersMetric, answerLower) {
        metrics := metrics.(customerMentions := metrics.customerMentions + 1);
      }
      if search(EmployeesMetric, answerLower) {
        metrics := metrics.(employeeMentions := metrics.employeeMentions + 1);
      }
    }
    assert answers[..|answers|] == answers;
    var numbers := findPercents(combined);
    metrics := metrics.(keyNumbers := if |numbers| <= TOP_NUMBERS then numbers else numbers[..TOP_NUMBERS]);
  }

  // ---------------------------------------------------------------------
  // get_query_categories

  /** The category of each query, in order. */
  function CategoriesOf(queryTexts: seq<string>, categories: seq<Category>): (r: seq<string>)
    ensures |r| == |queryTexts|
  {
    seq(|queryTexts|, i requires 0 <= i < |queryTexts| => CategoryOf(queryTexts[i], categories))
  }

  /** What `get_query_categories` answers, with `fetched` the successful
      query texts of the period and `None` standing for a failed query. */
  function QueryCategories(fetched: Option<seq<string>>, categories: seq<Category>): seq<Counted> {
    match fetched
    case None => []
    case Some(queryTexts) => SortByCount(Tallied([], CategoriesOf(queryTexts, categories)))
  }

  /** `get_query_categories(days)` once the database has answered. */
  method GetQueryCategories(fetched: Option<seq<string>>, categories: seq<Category>) returns (r: seq<Counted>)
    ensures r == QueryCategories(fetched, categories)
  {
    if fetched.None? {
      return [];
    }
    var queryTexts := fetched.value;
    var counts: seq<Counted> := [];
    for q := 0 to |queryTexts|
      invariant counts == Tallied([], CategoriesOf(queryTexts, categories)[..q])
    {
      var category := CategorizeQuery(queryTexts[q], categories);
      assert CategoriesOf(queryTexts, categories)[..q + 1] == CategoriesOf(queryTexts, categories)[..q] + [category];
      counts := Bump(counts, category);
    }
    assert CategoriesOf(queryTexts, categories)[..|queryTexts|] == CategoriesOf(queryTexts, categories);
    r := SortByCount(counts);
  }

  // ---------------------------------------------------------------------
  // get_key_insights

  /** The fields of `get_analytics` the insights read (a missing key reads
      as 0). */
  datatype Analytics = Analytics(totalQueries: int, successRate: real)

  /** The `sum` over the documents' chunk counts; `None` when one of them is
      `None`, where `sum` raises. */
  function ChunkTotal(chunkCounts: seq<Option<int>>): Option<int>
    decreases |chunkCounts|
  {
    if chunkCounts == [] then Some(0)
    else match (ChunkTotal(chunkCounts[..|chunkCounts| - 1]), chunkCounts[|chunkCounts| - 1])
      case (Some(total), Some(n)) => Some(total + n)
      case _ => None
  }

  /** One insight `get_key_insights` may report, with the values its
      message is made from. */
  datatype Insight =
    | TotalQueries(total: int, days: int)
    | TopCategory(category: Counted)
    | GrowthMentions(growth: nat)
    | RevenueMentions(revenue: nat)
    | HighSuccessRate(rate: real)
    | KnowledgeBase(documents: nat, chunks: int)

  /** The f-string each insight is reported as; `fmtRate` renders `:.1f`. */
  function Text(insight: Insight, fmtRate: real -> string): string {
    match insight
    case TotalQueries(total, days) =>
      "Total of " + IntToString(total) + " queries analyzed in the last " + IntToString(days) + " days"
    case TopCategory(top) =>
      "Most analyzed category: " + top.key + " (" + IntToString(top.count) + " queries)"
    case GrowthMentions(growth) => "Growth metrics mentioned " + IntToString(growth) + " times in answers"
    case RevenueMentions(revenue) => "Revenue discussed in " + IntToString(revenue) + " responses"
    case HighSuccessRate(rate) => "High query success rate: " + fmtRate(rate) + "%"
    case KnowledgeBase(documents, chunks) =>
      "Knowledge base contains " + IntToString(documents) + " documents with " + IntToString(chunks) + " total chunks"
  }

  /** The messages of a list of insights, in order. */
  function Render(insights: seq<Insight>, fmtRate: real -> string): (r: seq<string>)
    ensures |r| == |insights|
  {
    seq(|insights|, i requires 0 <= i < |insights| => Text(insights[i], fmtRate))
  }

  /** `[insight]` when `cond` holds, else nothing: one guarded `append`. */
  function When(cond: bool, insight: Insight): seq<Insight> {
    if cond then [insight] else []
  }

  /** The growth and revenue counters of the summary, 0 when it came back
      as `{}`. */
  function Growth(metrics: Option<BusinessMetrics>): nat {
    if metrics.Some? then metrics.value.growthMentions else 0
  }

  function Revenue(metrics: Option<BusinessMetrics>): nat {
    if metrics.Some? then metrics.value.revenueMentions else 0
  }

  /** The chunk total of the documents line: `None` when there are no
      documents or when `sum` raises. */
  function DocumentsTotal(chunkCounts: seq<Option<int>>): Option<int> {
    if chunkCounts != [] then ChunkTotal(chunkCounts) else None
  }

  /** The insights about the queries: their number, the top category and
      the growth mentions. */
  function QueryInsights(days: int, analytics: Analytics, categories: seq<Counted>,
                         metrics: Option<BusinessMetrics>): seq<Insight>
  {
    When(analytics.totalQueries > 0, TotalQueries(analytics.totalQueries, days))
    + When(categories != [], TopCategory(if categories != [] then categories[0] else Counted("", 0)))
    + When(Growth(metrics) > 0, GrowthMentions(Growth(metrics)))
  }

  /** The insights after those: revenue mentions, success rate and the
      knowledge base. */
  function LaterInsights(analytics: Analytics, metrics: Option<BusinessMetrics>,
                         chunkCounts: seq<Option<int>>): seq<Insight>
  {
    When(Revenue(metrics) > 0, RevenueMentions(Revenue(metrics)))
    + When(analytics.successRate > 80.0, HighSuccessRate(analytics.successRate))
    + When(DocumentsTotal(chunkCounts).Some?,
           KnowledgeBase(|chunkCounts|, if DocumentsTotal(chunkCounts).Some? then DocumentsTotal(chunkCounts).value else 0))
  }

  /** Every insight `get_key_insights` builds, in order, before the cut to
      five. `metrics` is `None` when the summary came back as `{}`. */
  function AllInsights(days: int, analytics: Analytics, categories: seq<Counted>,
                       metrics: Option<BusinessMetrics>, chunkCounts: seq<Option<int>>): seq<Insight>
  {
    QueryInsights(days, analytics, categories, metrics) + LaterInsights(analytics, metrics, chunkCounts)
  }

  /** The insights `get_key_insights` reports: the first five. */
  function KeyInsights(days: int, analytics: Analytics, categories: seq<Counted>,
                       metrics: Option<BusinessMetrics>, chunkCounts: seq<Option<int>>): seq<Insight>
  {
    var all := AllInsights(days, analytics, categories, metrics, chunkCounts);
    if |all| <= TOP_INSIGHTS then all else all[..TOP_INSIGHTS]
  }

  /** `sum(d.get("chunks_count", 0) for d in documents)`, which raises on a
      `None` count. */
  method SumChunks(chunkCounts: seq<Option<int>>) returns (total: Option<int>)
    ensures total == ChunkTotal(chunkCounts)
  {
    total := Some(0);
    for d := 0 to |chunkCounts|
      invariant total == ChunkTotal(chunkCounts[..d])
    {
      assert chunkCounts[..d + 1][..d] == chunkCounts[..d];
      if total.None? || chunkCounts[d].None? {
        total := None;
      } else {
        total := Some(total.value + chunkCounts[d].value);
      }
    }
    assert chunkCounts[..|chunkCounts|] == chunkCounts;
  }

  /** `if cond: insights.append(...)` */
  method AppendWhen(insights: seq<Insight>, cond: bool, insight: Insight) returns (r: seq<Insight>)
    ensures r == insights + When(cond, insight)
  {
    r := insights;
    if cond {
      r := r + [insight];
    }
  }

  /** The first three `if` blocks of `get_key_insights`. */
  method AddQueryInsights(days: int, analytics: Analytics, categories: seq<Counted>,
                          metrics: Option<BusinessMetrics>)
    returns (insights: seq<Insight>)
    ensures insights == QueryInsights(days, analytics, categories, metrics)
  {
    insights := [];
    if analytics.totalQueries > 0 {
      insights := [TotalQueries(analytics.totalQueries, days)];
    }
    assert insights == When(analytics.totalQueries > 0, TotalQueries(analytics.totalQueries, days));
    insights := AppendWhen(insights, categories != [],
                           TopCategory(if categories != [] then categories[0] else Counted("", 0)));
    insights := AppendWhen(insights, Growth(metrics) > 0, GrowthMentions(Growth(metrics)));
  }

  /** The last three `if` blocks of `get_key_insights`. */
  method AddLaterInsights(insights: seq<Insight>, analytics: Analytics, metrics: Option<BusinessMetrics>,
                          chunkCounts: seq<Option<int>>)
    returns (r: seq<Insight>)
    ensures r == insights + LaterInsights(analytics, metrics, chunkCounts)
  {
    r := AppendWhen(insights, Revenue(metrics) > 0, RevenueMentions(Revenue(metrics)));
    r := AppendWhen(r, analytics.successRate > 80.0, HighSuccessRate(analytics.successRate));
    var total := None;
    if chunkCounts != [] {
      total := SumChunks(chunkCounts);
    }
    assert total == DocumentsTotal(chunkCounts);
    r := AppendWhen(r, total.Some?, KnowledgeBase(|chunkCounts|, if total.Some? then total.value else 0));
  }

  /** `get_key_insights(days)`, given what the analytics service, the
      category counts, the metrics summary and the document list return. */
  method GetKeyInsights(days: int, analytics: Analytics, categories: seq<Counted>,
                        metrics: Option<BusinessMetrics>, chunkCounts: seq<Option<int>>,
                        fmtRate: real -> string)
    returns (insights: seq<string>)
    ensures insights == Render(KeyInsights(days, analytics, categories, metrics, chunkCounts), fmtRate)
  {
    var all := AddQueryInsights(days, analytics, categories, metrics);
    all := AddLaterInsights(all, analytics, metrics, chunkCounts);
    var reported := if |all| <= TOP_INSIGHTS then all else all[..TOP_INSIGHTS];
    insights := Render(reported, fmtRate);
  }
}

/** What the business insights service promises, stated over the model. */
module BusinessInsightsFacts {
  import opened Wrappers
  import opened PyStr
  import opened BusinessInsights

  // ---------------------------------------------------------------------
  // categorize_query

  /** A category scores 0 exactly when none of its keywords occurs. */
  lemma {:induction false} HitsZeroIff(queryLower: string, keywords: seq<string>)
    ensures Hits(queryLower, keywords) == 0 <==>
              forall k :: 0 <= k < |keywords| ==> !Contains(queryLower, Lower(keywords[k]))
    decreases |keywords|
  {
    if keywords != [] {
      var init := keywords[..|keywords| - 1];
      HitsZeroIff(queryLower, init);
      assert forall k :: 0 <= k < |init| ==> init[k] == keywords[k];
    }
  }

  /** `max` over the positive scores: nothing when all are 0, otherwise a
      positive score no other beats, and the first such. */
  lemma {:induction false} BestSpec(scores: seq<nat>, n: nat)
    requires n <= |scores|
    ensures Best(scores, n) < 0 <==> forall i :: 0 <= i < n ==> scores[i] == 0
    ensures Best(scores, n) >= 0 ==>
              var b := Best(scores, n);
              && scores[b] > 0
              && (forall i :: 0 <= i < n ==> scores[i] <= scores[b])
              && (forall i :: 0 <= i < b ==> scores[i] < scores[b])
  {
    if n > 0 {
      BestSpec(scores, n - 1);
    }
  }

  /** `categorize_query` answers "General" exactly when no keyword of any
      category occurs in the lowercased query (no category of the table is
      itself called "General"). */
  lemma CategoryGeneralIff(queryText: string, categories: seq<Category>)
    requires forall i :: 0 <= i < |categories| ==> categories[i].name != GENERAL
    ensures CategoryOf(queryText, categories) == GENERAL <==>
              forall i, k :: 0 <= i < |categories| && 0 <= k < |categories[i].keywords| ==>
                !Contains(Lower(queryText), Lower(categories[i].keywords[k]))
  {
    var scores := Scores(queryText, categories);
    BestSpec(scores, |categories|);
    forall i | 0 <= i < |categories|
      ensures scores[i] == 0 <==>
                forall k :: 0 <= k < |categories[i].keywords| ==>
                  !Contains(Lower(queryText), Lower(categories[i].keywords[k]))
    {
      HitsZeroIff(Lower(queryText), categories[i].keywords);
    }
  }

  /** Otherwise it answers a category with the highest score, the first
      one in table order among equals, and a positive score. */
  lemma CategoryIsTopScorer(queryText: string, categories: seq<Category>)
    requires CategoryOf(queryText, categories) != GENERAL
    ensures var scores := Scores(queryText, categories);
            exists b :: 0 <= b < |categories| && CategoryOf(queryText, categories) == categories[b].name
                        && scores[b] > 0
                        && (forall i :: 0 <= i < |categories| ==> scores[i] <= scores[b])
                        && (forall i :: 0 <= i < b ==> scores[i] < scores[b])
  {
    BestSpec(Scores(queryText, categories), |categories|);
  }

  /** No category of `CATEGORY_KEYWORDS` is called "General". */
  lemma TableHasNoGeneral()
    ensures forall i :: 0 <= i < |CATEGORY_KEYWORDS| ==> CATEGORY_KEYWORDS[i].name != GENERAL
  {
  }

  // ---------------------------------------------------------------------
  // Counters

  predicate DistinctKeys(c: seq<Counted>) {
    forall i, j :: 0 <= i < j < |c| ==> c[i].key != c[j].key
  }

  predicate Positive(c: seq<Counted>) {
    forall i :: 0 <= i < |c| ==> c[i].count > 0
  }

  /** `counter[key] = n` sets that key and no other. */
  lemma AssignLookup(c: seq<Counted>, key: string, n: nat, other: string)
    ensures Lookup(Assign(c, key, n), other) == if other == key then n else Lookup(c, other)
  {
    var a := Assign(c, key, n);
    assert forall k :: 0 <= k < |c| ==> a[k].key == c[k].key;
    var i := IndexOf(c, other);
    var j := IndexOf(a, other);
    if other != key {
      if i >= 0 {
        assert j == i;
      } else {
        assert j < 0;
      }
    } else if i >= 0 {
      assert j == i;
    } else {
      assert a[|c|].key == key;
      assert j == |c|;
    }
  }

  /** It keeps keys distinct, and counts positive when `n` is. */
  lemma AssignKeeps(c: seq<Counted>, key: string, n: nat)
    requires DistinctKeys(c) && Positive(c) && n > 0
    ensures DistinctKeys(Assign(c, key, n)) && Positive(Assign(c, key, n))
  {
  }

  /** In a counter with distinct keys, an entry holds its key's count. */
  lemma EntryIsLookup(c: seq<Counted>, i: nat)
    requires DistinctKeys(c) && i < |c|
    ensures Lookup(c, c[i].key) == c[i].count
  {
    assert IndexOf(c, c[i].key) == i;
  }

  /** The first loop of `extract_topics`: a term's entry holds its
      occurrence count, and a word that is no term has none. */
  lemma {:induction false} TermCountsSpec(text: string, terms: seq<string>, t: string)
    ensures DistinctKeys(TermCounts(text, terms)) && Positive(TermCounts(text, terms))
    ensures Lookup(TermCounts(text, terms), t) == if t in terms then Count(text, t) else 0
    decreases |terms|
  {
    if terms != [] {
      var init := terms[..|terms| - 1];
      var term := terms[|terms| - 1];
      TermCountsSpec(text, init, t);
      assert terms == init + [term];
      var c := TermCounts(text, init);
      if Count(text, term) > 0 {
        AssignLookup(c, term, Count(text, term), t);
        AssignKeeps(c, term, Count(text, term));
      }
    }
  }

  /** Bumping a list of keys adds each key's number of occurrences in it. */
  lemma {:induction false} TalliedSpec(c: seq<Counted>, keys: seq<string>, t: string)
    requires DistinctKeys(c) && Positive(c)
    ensures DistinctKeys(Tallied(c, keys)) && Positive(Tallied(c, keys))
    ensures Lookup(Tallied(c, keys), t) == Lookup(c, t) + multiset(keys)[t]
    decreases |keys|
  {
    if keys != [] {
      var init := keys[..|keys| - 1];
      var key := keys[|keys| - 1];
      TalliedSpec(c, init, t);
      TalliedSpec(c, init, key);
      assert keys == init + [key];
      var before := Tallied(c, init);
      AssignLookup(before, key, Lookup(before, key) + 1, t);
      AssignKeeps(before, key, Lookup(before, key) + 1);
    }
  }

  // ---------------------------------------------------------------------
  // most_common

  /** Inserting keeps every entry and the order by count. */
  lemma {:induction false} InsertByCountSpec(e: Counted, sorted: seq<Counted>)
    ensures multiset(InsertByCount(e, sorted)) == multiset(sorted) + multiset{e}
    ensures NonIncreasing(sorted) ==> NonIncreasing(InsertByCount(e, sorted))
    decreases |sorted|
  {
    if sorted != [] && e.count < sorted[0].count {
      var head := sorted[0];
      var tail := sorted[1..];
      var rest := InsertByCount(e, tail);
      InsertByCountSpec(e, tail);
      assert sorted == [head] + tail;
      assert InsertByCount(e, sorted) == [head] + rest;
      if NonIncreasing(sorted) {
        forall j | 0 <= j < |rest| ensures rest[j].count <= head.count {
          BelowHead(e, head, tail, rest, j);
        }
        PrependNonIncreasing(head, rest);
      }
    }
  }

  /** An entry of `InsertByCount(e, tail)` is `e` or an entry of `tail`, so
      it counts no more than a head that outcounts both. */
  lemma BelowHead(e: Counted, head: Counted, tail: seq<Counted>, rest: seq<Counted>, j: nat)
    requires multiset(rest) == multiset(tail) + multiset{e}
    requires e.count < head.count && forall k :: 0 <= k < |tail| ==> tail[k].count <= head.count
    requires j < |rest|
    ensures rest[j].count <= head.count
  {
    assert rest[j] in multiset(rest);
    if rest[j] != e {
      assert rest[j] in multiset(tail);
    }
  }

  /** A head that outcounts a non-increasing list keeps it non-increasing. */
  lemma PrependNonIncreasing(head: Counted, rest: seq<Counted>)
    requires NonIncreasing(rest) && forall j :: 0 <= j < |rest| ==> rest[j].count <= head.count
    ensures NonIncreasing([head] + rest)
  {
    var r := [head] + rest;
    forall i, j | 0 <= i < j < |r| ensures r[i].count >= r[j].count {
      assert r[j] == rest[j - 1];
      if i > 0 {
        assert r[i] == rest[i - 1];
      }
    }
  }

  /** `sorted(..., reverse=True)` on counts: the same entries, by
      non-increasing count. */
  lemma {:induction false} SortByCountSpec(c: seq<Counted>)
    ensures multiset(SortByCount(c)) == multiset(c)
    ensures NonIncreasing(SortByCount(c))
    decreases |c|
  {
    if c != [] {
      var rest := SortByCount(c[1..]);
      SortByCountSpec(c[1..]);
      InsertByCountSpec(c[0], rest);
      assert SortByCount(c) == InsertByCount(c[0], rest);
      assert c == [c[0]] + c[1..];
      assert multiset(c) == multiset{c[0]} + multiset(c[1..]);
    }
  }

  /** `most_common(n)`: at most `n` entries of the counter, by
      non-increasing count, and any entry left out counts no more than the
      last one kept. */
  lemma MostCommonSpec(c: seq<Counted>, n: nat)
    ensures var r := MostCommon(c, n);
            && |r| <= n
            && NonIncreasing(r)
            && (forall i :: 0 <= i < |r| ==> r[i] in c)
            && (forall e :: e in c && e !in r ==> |r| == n && (n > 0 ==> e.count <= r[n - 1].count))
  {
    var sorted := SortByCount(c);
    SortByCountSpec(c);
    var r := MostCommon(c, n);
    forall i | 0 <= i < |r| ensures r[i] in c {
      assert r[i] == sorted[i];
      assert sorted[i] in multiset(sorted);
    }
    forall e | e in c && e !in r ensures |r| == n && (n > 0 ==> e.count <= r[n - 1].count) {
      assert e in multiset(c);
      assert e in multiset(sorted);
      LeftOut(sorted, n, e);
    }
  }

  /** An entry of a non-increasing list that is not among its first `n`
      comes after all of them. */
  lemma LeftOut(sorted: seq<Counted>, n: nat, e: Counted)
    requires NonIncreasing(sorted) && e in sorted
    requires e !in (if |sorted| <= n then sorted else sorted[..n])
    ensures |sorted| > n && (n > 0 ==> e.count <= sorted[n - 1].count)
  {
    var k :| 0 <= k < |sorted| && sorted[k] == e;
  }

  // ---------------------------------------------------------------------
  // extract_topics

  /** A topic's count by its two sources: the term's occurrences in the
      lowercased joined text when it is a business term, plus one for each
      time it is a kept word of a query. */
  function TopicCount(queries: seq<string>, answers: seq<string>, terms: seq<string>, stop: seq<string>,
                      topic: string): nat
  {
    (if topic in terms then Count(AllText(queries, answers), topic) else 0) + multiset(TopicWords(queries, stop))[topic]
  }

  /** `topic_counts` holds every topic with a positive count, and that
      count. */
  lemma TopicTallySpec(queries: seq<string>, answers: seq<string>, terms: seq<string>, stop: seq<string>, t: string)
    ensures var tally := TopicTally(queries, answers, terms, stop);
            && DistinctKeys(tally) && Positive(tally)
            && Lookup(tally, t) == TopicCount(queries, answers, terms, stop, t)
  {
    var text := AllText(queries, answers);
    TermCountsSpec(text, terms, t);
    TalliedSpec(TermCounts(text, terms), TopicWords(queries, stop), t);
  }

  /** `extract_topics` answers at most ten topics, by non-increasing count,
      each with its count from the two sources, which is positive; a topic
      with a positive count that is missing counts no more than the tenth. */
  lemma TopicsSpec(queries: seq<string>, answers: seq<string>, terms: seq<string>, stop: seq<string>)
    ensures var r := TopicsOf(queries, answers, terms, stop);
            && |r| <= TOP_TOPICS
            && NonIncreasing(r)
            && (forall i :: 0 <= i < |r| ==> 0 < r[i].count == TopicCount(queries, answers, terms, stop, r[i].key))
            && (forall t :: TopicCount(queries, answers, terms, stop, t) > 0 && (forall i :: 0 <= i < |r| ==> r[i].key != t)
                  ==> |r| == TOP_TOPICS && TopicCount(queries, answers, terms, stop, t) <= r[TOP_TOPICS - 1].count)
  {
    var tally := TopicTally(queries, answers, terms, stop);
    var r := TopicsOf(queries, answers, terms, stop);
    MostCommonSpec(tally, TOP_TOPICS);
    forall i | 0 <= i < |r| ensures 0 < r[i].count == TopicCount(queries, answers, terms, stop, r[i].key) {
      var k :| 0 <= k < |tally| && tally[k] == r[i];
      TopicTallySpec(queries, answers, terms, stop, r[i].key);
      EntryIsLookup(tally, k);
    }
    forall t | TopicCount(queries, answers, terms, stop, t) > 0 && (forall i :: 0 <= i < |r| ==> r[i].key != t)
      ensures |r| == TOP_TOPICS && TopicCount(queries, answers, terms, stop, t) <= r[TOP_TOPICS - 1].count
    {
      TopicTallySpec(queries, answers, terms, stop, t);
      var k := IndexOf(tally, t);
      assert k >= 0;
      assert tally[k] in tally;
      assert tally[k] !in r;
    }
  }

  // ---------------------------------------------------------------------
  // extract_business_metrics

  /** The answers the pattern of `kind` finds a match in, by position. */
  function MentionSet(answers: seq<string>, kind: MetricKind, search: (MetricKind, string) -> bool): set<nat> {
    set i: nat | i < |answers| && search(kind, Lower(answers[i]))
  }

  /** A mention counter is the number of answers its pattern matches. */
  lemma {:induction false} MentionCountIsCardinality(answers: seq<string>, kind: MetricKind,
                                                     search: (MetricKind, string) -> bool)
    ensures MentionCount(answers, kind, search) == |MentionSet(answers, kind, search)|
    decreases |answers|
  {
    if answers != [] {
      var init := answers[..|answers| - 1];
      var last := |answers| - 1;
      MentionCountIsCardinality(init, kind, search);
      assert forall i :: 0 <= i < |init| ==> init[i] == answers[i];
      if search(kind, Lower(answers[last])) {
        assert MentionSet(answers, kind, search) == MentionSet(init, kind, search) + {last};
      } else {
        assert MentionSet(answers, kind, search) == MentionSet(init, kind, search);
      }
    }
  }

  /** `extract_business_metrics`: each counter is the number of answers its
      pattern matches, so at most the number of answers, and `key_numbers`
      is the first ten percentages found, or all of them when fewer. */
  lemma MetricsOfSpec(answers: seq<string>, search: (MetricKind, string) -> bool,
                      findPercents: string -> seq<string>)
    ensures var m := MetricsOf(answers, search, findPercents);
            var found := findPercents(Join(" ", answers));
            && m.revenueMentions == |MentionSet(answers, RevenueMetric, search)| <= |answers|
            && m.growthMentions == |MentionSet(answers, GrowthMetric, search)| <= |answers|
            && m.profitMentions == |MentionSet(answers, ProfitMetric, search)| <= |answers|
            && m.customerMentions == |MentionSet(answers, CustomersMetric, search)| <= |answers|
            && m.employeeMentions == |MentionSet(answers, EmployeesMetric, search)| <= |answers|
            && |m.keyNumbers| <= TOP_NUMBERS
            && m.keyNumbers == found[..|m.keyNumbers|]
            && (|found| <= TOP_NUMBERS ==> m.keyNumbers == found)
  {
    MentionCountIsCardinality(answers, RevenueMetric, search);
    MentionCountIsCardinality(answers, GrowthMetric, search);
    MentionCountIsCardinality(answers, ProfitMetric, search);
    MentionCountIsCardinality(answers, CustomersMetric, search);
    MentionCountIsCardinality(answers, EmployeesMetric, search);
  }

  // ---------------------------------------------------------------------
  // get_query_categories

  /** An empty counter holds nothing. */
  lemma EmptyCounter(t: string)
    ensures Lookup([], t) == 0 && DistinctKeys([]) && Positive([])
  {
  }

  /** `get_query_categories` answers `[]` when the database fails;
      otherwise each category that some query falls in, with the number of
      queries that fall in it, by non-increasing count. */
  lemma QueryCategoriesSpec(fetched: Option<seq<string>>, categories: seq<Category>)
    ensures fetched.None? ==> QueryCategories(fetched, categories) == []
    ensures fetched.Some? ==>
              var r := QueryCategories(fetched, categories);
              var names := CategoriesOf(fetched.value, categories);
              && NonIncreasing(r)
              && (forall i :: 0 <= i < |r| ==> 0 < r[i].count == multiset(names)[r[i].key])
              && (forall j :: 0 <= j < |names| ==> exists i :: 0 <= i < |r| && r[i].key == names[j])
  {
    if fetched.Some? {
      var names := CategoriesOf(fetched.value, categories);
      var tally := Tallied([], names);
      var r := QueryCategories(fetched, categories);
      assert r == SortByCount(tally);
      SortByCountSpec(tally);
      forall i | 0 <= i < |r| ensures 0 < r[i].count == multiset(names)[r[i].key] {
        assert r[i] in multiset(tally);
        var k :| 0 <= k < |tally| && tally[k] == r[i];
        EmptyCounter(r[i].key);
        TalliedSpec([], names, r[i].key);
        EntryIsLookup(tally, k);
      }
      forall j | 0 <= j < |names| ensures exists i :: 0 <= i < |r| && r[i].key == names[j] {
        EmptyCounter(names[j]);
        TalliedSpec([], names, names[j]);
        assert names[j] in multiset(names);
        var k := IndexOf(tally, names[j]);
        assert tally[k] in multiset(r);
      }
    }
  }

  // ---------------------------------------------------------------------
  // get_key_insights

  /** `sum` over the chunk counts raises exactly when one of them is
      `None`. */
  lemma {:induction false} ChunkTotalSpec(chunkCounts: seq<Option<int>>)
    ensures ChunkTotal(chunkCounts).Some? <==> forall d :: 0 <= d < |chunkCounts| ==> chunkCounts[d].Some?
    decreases |chunkCounts|
  {
    if chunkCounts != [] {
      var init := chunkCounts[..|chunkCounts| - 1];
      ChunkTotalSpec(init);
      assert forall d :: 0 <= d < |init| ==> init[d] == chunkCounts[d];
    }
  }

  /** A guarded append adds its insight and nothing else. */
  lemma WhenMembers(cond: bool, insight: Insight)
    ensures forall x :: x in When(cond, insight) <==> cond && x == insight
  {
  }

  /** `get_key_insights` reports at most five insights, the first ones
      built, and all of them when there are no more than five. */
  lemma KeyInsightsCapped(days: int, analytics: Analytics, categories: seq<Counted>,
                          metrics: Option<BusinessMetrics>, chunkCounts: seq<Option<int>>)
    ensures var r := KeyInsights(days, analytics, categories, metrics, chunkCounts);
            var all := AllInsights(days, analytics, categories, metrics, chunkCounts);
            && |r| <= TOP_INSIGHTS
            && r == all[..|r|]
            && (|all| <= TOP_INSIGHTS ==> r == all)
            && (|r| > 0 <==> |all| > 0)
  {
  }

  /** The report opens with the query total exactly when there were
      queries. */
  lemma OpensWithTotal(days: int, analytics: Analytics, categories: seq<Counted>,
                       metrics: Option<BusinessMetrics>, chunkCounts: seq<Option<int>>)
    ensures var r := KeyInsights(days, analytics, categories, metrics, chunkCounts);
            (|r| > 0 && r[0].TotalQueries?) <==> analytics.totalQueries > 0
  {
    var r := KeyInsights(days, analytics, categories, metrics, chunkCounts);
    var all := AllInsights(days, analytics, categories, metrics, chunkCounts);
    KeyInsightsCapped(days, analytics, categories, metrics, chunkCounts);
    TotalOnlyFirst(days, analytics, categories, metrics, chunkCounts);
    if analytics.totalQueries > 0 {
      TotalFirst(days, analytics, categories, metrics, chunkCounts);
      assert r[0] == all[0];
    } else if |r| > 0 {
      assert r[0] == all[0];
      assert all[0] in all;
    }
  }

  /** With queries, the first insight built is their total. */
  lemma TotalFirst(days: int, analytics: Analytics, categories: seq<Counted>,
                   metrics: Option<BusinessMetrics>, chunkCounts: seq<Option<int>>)
    requires analytics.totalQueries > 0
    ensures var all := AllInsights(days, analytics, categories, metrics, chunkCounts);
            |all| > 0 && all[0] == TotalQueries(analytics.totalQueries, days)
  {
    var first := When(analytics.totalQueries > 0, TotalQueries(analytics.totalQueries, days));
    var top := When(categories != [], TopCategory(if categories != [] then categories[0] else Counted("", 0)));
    var queryPart := QueryInsights(days, analytics, categories, metrics);
    assert (first + top)[0] == first[0];
    assert queryPart[0] == (first + top)[0];
  }

  /** Only the first `if` block reports a query total. */
  lemma TotalOnlyFirst(days: int, analytics: Analytics, categories: seq<Counted>,
                       metrics: Option<BusinessMetrics>, chunkCounts: seq<Option<int>>)
    ensures forall x :: x in AllInsights(days, analytics, categories, metrics, chunkCounts) && x.TotalQueries? ==>
              analytics.totalQueries > 0
  {
    WhenMembers(analytics.totalQueries > 0, TotalQueries(analytics.totalQueries, days));
    WhenMembers(categories != [], TopCategory(if categories != [] then categories[0] else Counted("", 0)));
    WhenMembers(Growth(metrics) > 0, GrowthMentions(Growth(metrics)));
    WhenMembers(Revenue(metrics) > 0, RevenueMentions(Revenue(metrics)));
    WhenMembers(analytics.successRate > 80.0, HighSuccessRate(analytics.successRate));
    var docs := DocumentsTotal(chunkCounts);
    WhenMembers(docs.Some?, KnowledgeBase(|chunkCounts|, if docs.Some? then docs.value else 0));
  }

  /** The knowledge-base insight is built exactly when there are documents
      and none of them lacks a chunk count. */
  lemma KnowledgeBaseIff(days: int, analytics: Analytics, categories: seq<Counted>,
                         metrics: Option<BusinessMetrics>, chunkCounts: seq<Option<int>>)
    ensures var all := AllInsights(days, analytics, categories, metrics, chunkCounts);
            (exists x :: x in all && x.KnowledgeBase?)
            <==> chunkCounts != [] && forall d :: 0 <= d < |chunkCounts| ==> chunkCounts[d].Some?
  {
    ChunkTotalSpec(chunkCounts);
    WhenMembers(analytics.totalQueries > 0, TotalQueries(analytics.totalQueries, days));
    WhenMembers(categories != [], TopCategory(if categories != [] then categories[0] else Counted("", 0)));
    WhenMembers(Growth(metrics) > 0, GrowthMentions(Growth(metrics)));
    WhenMembers(Revenue(metrics) > 0, RevenueMentions(Revenue(metrics)));
    WhenMembers(analytics.successRate > 80.0, HighSuccessRate(analytics.successRate));
    var docs := DocumentsTotal(chunkCounts);
    var kb := KnowledgeBase(|chunkCounts|, if docs.Some? then docs.value else 0);
    WhenMembers(docs.Some?, kb);
    if docs.Some? {
      assert kb in AllInsights(days, analytics, categories, metrics, chunkCounts);
    }
  }
}
