/**
 * The retrieval service (services/retrieval.py): the vector-store search,
 * widened when a reranker will narrow it again, the fail-open reranking
 * step, and the rendering of results into the context block handed to the
 * answer synthesiser.
 *
 * The reranker is an external model call; it enters as a function from the
 * results and the requested count to what it answered (`RerankRaised` when
 * it raised). `int()` of a string and the `:.3f` rendering of a score enter
 * as functions too.
 */
module Retrieval {
  import opened Wrappers
  import opened PyStr
  import opened VectorStore

  /** A constructed `RerankerService`. */
  datatype RerankerHandle = RerankerHandle

  /** What a call to `reranker.rerank` gave back. */
  datatype RerankOutcome = Reranked(results: seq<SearchResult>) | RerankRaised

  /** Python's `a or b` on two optional integers: `a` unless it is `None` or 0. */
  function OrInt(a: Option<int>, b: Option<int>): (r: Option<int>)
    ensures r == a || r == b
    ensures a.Some? && a.value != 0 ==> r == a
  {
    if a.Some? && a.value != 0 then a else b
  }

  /** The number of candidates asked of the vector store: `min(2 * top_k, 30)`
      while the reranker is on and `top_k` is given, `top_k` otherwise. */
  function CandidateK(useReranker: bool, topK: Option<int>): (k: Option<int>)
    ensures useReranker && topK.Some? ==> k.Some? && k.value <= 30 && k.value <= 2 * topK.value
    ensures useReranker && topK.Some? && 2 * topK.value <= 30 ==> k == Some(2 * topK.value)
    ensures !useReranker || topK.None? ==> k == topK
  {
    if useReranker && topK.Some? then Some(if topK.value * 2 <= 30 then topK.value * 2 else 30) else topK
  }

  /** What `retrieve` returns for the search answer `searched`: the reranked
      list when the reranker is on, the search found something and the
      reranker answered with a non-empty list; the search answer otherwise. */
  function AfterRerank(useReranker: bool, searched: seq<SearchResult>, rerankTopK: Option<int>, topK: Option<int>,
                       rerank: (seq<SearchResult>, Option<int>) -> RerankOutcome): seq<SearchResult>
  {
    if useReranker && |searched| > 0 then
      match rerank(searched, OrInt(rerankTopK, topK))
      case Reranked(r) => if |r| > 0 then r else searched
      case RerankRaised => searched
    else searched
  }

  /** The sentinel `format_context` returns instead of an empty context. */
  const NO_CONTEXT: string := "No relevant context found."

  /** Python truthiness of a metadata value. */
  predicate Truthy(v: MetaValue) {
    match v
    case MNull => false
    case MBool(b) => b
    case MInt(i) => i != 0
    case MReal(x) => x != 0.0
    case MStr(s) => s != ""
  }

  /** `meta.get(key)`, with a missing key read as `None`. */
  function Get(meta: Metadata, key: string): MetaValue {
    if key in meta then meta[key] else MNull
  }

  /** `int(x)` of a float: truncation toward zero. */
  function TruncateReal(x: real): (i: int)
    ensures x >= 0.0 ==> i as real <= x < i as real + 1.0
    ensures x < 0.0 ==> i as real - 1.0 < x <= i as real
  {
    if x >= 0.0 then x.Floor else -((-x).Floor)
  }

  /** `int(v)`, or `None` where it raises `ValueError`/`TypeError`. */
  function ToInt(v: MetaValue, parseInt: string -> Option<int>): Option<int> {
    match v
    case MNull => None
    case MBool(b) => Some(if b then 1 else 0)
    case MInt(i) => Some(i)
    case MReal(x) => Some(TruncateReal(x))
    case MStr(s) => parseInt(s)
  }

  /** `page or page_number or pageNumber`: the first truthy one, else the last. */
  function PageValue(meta: Metadata): MetaValue {
    if Truthy(Get(meta, "page")) then Get(meta, "page")
    else if Truthy(Get(meta, "page_number")) then Get(meta, "page_number")
    else Get(meta, "pageNumber")
  }

  /** The page number `format_context` extracts from a result's metadata. */
  function PageNumber(meta: Metadata, parseInt: string -> Option<int>): Option<int> {
    if meta == map[] then None else ToInt(PageValue(meta), parseInt)
  }

  /** `f" - Page {page_num}" if page_num else ""`. */
  function PageCitation(meta: Metadata, parseInt: string -> Option<int>): string {
    var p := PageNumber(meta, parseInt);
    if p.Some? && p.value != 0 then " - Page " + IntToString(p.value) else ""
  }

  /** The block for result number `i` (counted from 1). */
  function Block(i: nat, r: SearchResult, parseInt: string -> Option<int>, fmt3: real -> string): (b: string)
    ensures |b| > 0 && b[0] == '['
  {
    "[Context " + NatToString(i) + PageCitation(r.metadata, parseInt) + " (relevance: " + fmt3(r.score) + ")]\n"
      + r.text + "\n"
  }

  /** The blocks of the non-blank results, numbered by their position in the
      whole list, the first one being `first`. */
  function ContextParts(results: seq<SearchResult>, first: nat, parseInt: string -> Option<int>,
                        fmt3: real -> string): seq<string>
  {
    Numbered(results, first, (i: nat, r: SearchResult) => ContextPart(i, r, parseInt, fmt3))
  }

  /** `part(first + k, results[k])` for every position `k`, concatenated. */
  function Numbered(results: seq<SearchResult>, first: nat, part: (nat, SearchResult) -> seq<string>): seq<string>
  {
    if |results| == 0 then []
    else
      var n := |results| - 1;
      Numbered(results[..n], first, part) + part(first + n, results[n])
  }

  /** The block of one result, numbered `i`, or nothing when its text is blank. */
  function ContextPart(i: nat, r: SearchResult, parseInt: string -> Option<int>, fmt3: real -> string): (part: seq<string>)
    ensures |part| <= 1
  {
    if IsBlank(r.text) then [] else [Block(i, r, parseInt, fmt3)]
  }

  /** What `format_context(results)` returns. */
  function FormattedContext(results: seq<SearchResult>, parseInt: string -> Option<int>, fmt3: real -> string): string
  {
    if |results| == 0 then NO_CONTEXT
    else
      var formatted := Join("\n", ContextParts(results, 1, parseInt, fmt3));
      if IsBlank(formatted) then NO_CONTEXT else formatted
  }

  class RetrievalService {
    const store: VectorStoreService
    var reranker: Option<RerankerHandle>
    var useReranker: bool

    /** The reranker is only ever used when one exists. */
    ghost predicate Valid()
      reads this
    {
      useReranker ==> reranker.Some?
    }

    /** `__init__(vector_store, reranker, use_reranker)`: a reranker passed in
        is kept and `use_reranker` taken as given; otherwise one is built when
        asked for, and a failed construction (`constructOk` false) turns
        reranking off. */
    constructor (store: VectorStoreService, given: Option<RerankerHandle>, useReranker: bool, constructOk: bool)
      ensures Valid() && this.store == store
      ensures given.Some? ==> reranker == given && this.useReranker == useReranker
      ensures given.None? && useReranker && constructOk ==> reranker.Some? && this.useReranker
      ensures given.None? && !(useReranker && constructOk) ==> reranker.None? && !this.useReranker
    {
      this.store := store;
      if given.Some? {
        reranker := given;
        this.useReranker := useReranker;
      } else if useReranker && constructOk {
        reranker := Some(RerankerHandle);
        this.useReranker := true;
      } else {
        reranker := None;
        this.useReranker := false;
      }
    }

    /** `retrieve(query, top_k, threshold, rerank_top_k)`. The ghost
        `rerankedWith` is the `top_k` the reranker was called with, or `None`
        when it was not called. */
    method Retrieve(topK: Option<int>, threshold: Option<real>, rerankTopK: Option<int>,
                    queryEmbedding: Option<Vector>, nearest: (Vector, nat) -> seq<Hit>,
                    rerank: (seq<SearchResult>, Option<int>) -> RerankOutcome)
      returns (results: seq<SearchResult>, ghost rerankedWith: Option<Option<int>>)
      requires Valid()
      ensures var searched := SearchAnswer(store.index, store.chunks, store.metadataList,
                                           CandidateK(useReranker, topK), threshold, queryEmbedding, nearest);
              && results == AfterRerank(useReranker, searched, rerankTopK, topK, rerank)
              && (rerankedWith.Some? <==> useReranker && |searched| > 0)
              && (rerankedWith.Some? ==> rerankedWith.value == OrInt(rerankTopK, topK))
              && (|searched| > 0 ==> |results| > 0)
    {
      var initialTopK := if useReranker && topK.Some? then Some(if topK.value * 2 <= 30 then topK.value * 2 else 30)
                         else topK;
      results := store.Search(initialTopK, threshold, queryEmbedding, nearest);
      rerankedWith := None;
      if useReranker && |results| > 0 {
        rerankedWith := Some(OrInt(rerankTopK, topK));
        var outcome := rerank(results, OrInt(rerankTopK, topK));
        if outcome.Reranked? && |outcome.results| > 0 {
          results := outcome.results;
        }
      }
    }

    /** `format_context(results)`. */
    method FormatContext(results: seq<SearchResult>, parseInt: string -> Option<int>, fmt3: real -> string)
      returns (context: string)
      ensures context == FormattedContext(results, parseInt, fmt3)
      ensures !IsBlank(context)
    {
      if |results| == 0 {
        SentinelNotBlank();
        return NO_CONTEXT;
      }
      var parts: seq<string> := [];
      var i := 0;
      while i < |results|
        invariant 0 <= i <= |results|
        invariant parts == ContextParts(results[..i], 1, parseInt, fmt3)
      {
        var r := results[i];
        assert results[..i + 1][..i] == results[..i];
        if !IsBlank(r.text) {
          var page := PageNumber(r.metadata, parseInt);
          var citation := if page.Some? && page.value != 0 then " - Page " + IntToString(page.value) else "";
          parts := parts + ["[Context " + NatToString(i + 1) + citation + " (relevance: " + fmt3(r.score) + ")]\n"
                            + r.text + "\n"];
        }
        i := i + 1;
      }
      assert results[..|results|] == results;
      var formatted := Join("\n", parts);
      if IsBlank(formatted) {
        SentinelNotBlank();
        context := NO_CONTEXT;
      } else {
        context := formatted;
      }
    }
  }

  /** The sentinel is not blank. */
  lemma SentinelNotBlank()
    ensures !IsBlank(NO_CONTEXT)
  {
    NotBlankWith(NO_CONTEXT, 0);
  }
}

/** Properties of retrieval's specification functions. */
module RetrievalFacts {
  import Seqs
  import opened Wrappers
  import opened PyStr
  import opened VectorStore
  import opened Retrieval

  /** Reranking fails open: the answer is the search answer unless the reranker
      was on, had something to rerank and returned a non-empty list, which
      then replaces it. */
  lemma {:induction false} RerankFailsOpen(useReranker: bool, searched: seq<SearchResult>, rerankTopK: Option<int>,
                                           topK: Option<int>, rerank: (seq<SearchResult>, Option<int>) -> RerankOutcome)
    ensures var r := AfterRerank(useReranker, searched, rerankTopK, topK, rerank);
            r != searched ==> useReranker && |searched| > 0
                              && rerank(searched, OrInt(rerankTopK, topK)) == Reranked(r) && |r| > 0
    ensures !useReranker ==> AfterRerank(useReranker, searched, rerankTopK, topK, rerank) == searched
    ensures rerank(searched, OrInt(rerankTopK, topK)) == RerankRaised ==> AfterRerank(useReranker, searched, rerankTopK, topK, rerank) == searched
  {
  }

  /** Numbering keeps each result's place in the whole list: the parts of a
      concatenation are the parts of its halves, the second half numbered on
      from where the first ended. */
  lemma {:induction false} NumberedAppend(a: seq<SearchResult>, b: seq<SearchResult>, first: nat,
                                          part: (nat, SearchResult) -> seq<string>)
    ensures Numbered(a + b, first, part) == Numbered(a, first, part) + Numbered(b, first + |a|, part)
    decreases |b|
  {
    if |b| == 0 {
      assert a + b == a;
    } else {
      var n := |b| - 1;
      Seqs.SplitLast(a, b);
      assert (a + b)[..|a + b| - 1] == a + b[..n];
      NumberedAppend(a, b[..n], first, part);
      Seqs.AppendAssoc(Numbered(a, first, part), Numbered(b[..n], first + |a|, part), part(first + |a| + n, b[n]));
    }
  }

  /** The blocks of a concatenation are the blocks of its halves, the second
      half numbered on from where the first ended, skipped results included. */
  lemma ContextPartsAppend(a: seq<SearchResult>, b: seq<SearchResult>, first: nat,
                           parseInt: string -> Option<int>, fmt3: real -> string)
    ensures ContextParts(a + b, first, parseInt, fmt3)
            == ContextParts(a, first, parseInt, fmt3) + ContextParts(b, first + |a|, parseInt, fmt3)
  {
    NumberedAppend(a, b, first, (i: nat, r: SearchResult) => ContextPart(i, r, parseInt, fmt3));
  }

  /** One more result adds its block, numbered after the others. */
  lemma ContextPartsSnoc(s: seq<SearchResult>, x: SearchResult, first: nat, i: nat,
                         parseInt: string -> Option<int>, fmt3: real -> string)
    requires i == first + |s|
    ensures ContextParts(s + [x], first, parseInt, fmt3)
            == ContextParts(s, first, parseInt, fmt3) + ContextPart(i, x, parseInt, fmt3)
  {
    assert (s + [x])[..|s|] == s;
  }

  /** A single result gives its block, numbered `first`, unless its text is blank. */
  lemma ContextPartsOne(r: SearchResult, first: nat, parseInt: string -> Option<int>, fmt3: real -> string)
    ensures ContextParts([r], first, parseInt, fmt3) == if IsBlank(r.text) then [] else [Block(first, r, parseInt, fmt3)]
  {
    ContextPartsSnoc([], r, first, first, parseInt, fmt3);
    assert [] + [r] == [r];
  }

  /** Every block opens with its `[Context i` header. */
  lemma {:induction false} ContextPartsBracketed(results: seq<SearchResult>, first: nat,
                                                 parseInt: string -> Option<int>, fmt3: real -> string)
    ensures forall k :: 0 <= k < |ContextParts(results, first, parseInt, fmt3)| ==>
              |ContextParts(results, first, parseInt, fmt3)[k]| > 0 && ContextParts(results, first, parseInt, fmt3)[k][0] == '['
    decreases |results|
  {
    if |results| > 0 {
      var n := |results| - 1;
      ContextPartsBracketed(results[..n], first, parseInt, fmt3);
      ContextPartsSnoc(results[..n], results[n], first, first + n, parseInt, fmt3);
      assert results[..n] + [results[n]] == results;
    }
  }

  /** No block is produced exactly when every result's text is blank. */
  lemma {:induction false} NoPartsIffAllBlank(results: seq<SearchResult>, first: nat,
                                              parseInt: string -> Option<int>, fmt3: real -> string)
    ensures ContextParts(results, first, parseInt, fmt3) == [] <==> forall k :: 0 <= k < |results| ==> IsBlank(results[k].text)
    decreases |results|
  {
    if |results| > 0 {
      var n := |results| - 1;
      NoPartsIffAllBlank(results[..n], first, parseInt, fmt3);
      assert forall k :: 0 <= k < n ==> results[..n][k] == results[k];
    }
  }

  /** A join of parts whose first part starts with `c` starts with `c`. */
  lemma JoinStartsWith(sep: string, parts: seq<string>, c: char)
    requires |parts| > 0 && |parts[0]| > 0 && parts[0][0] == c
    ensures |Join(sep, parts)| > 0 && Join(sep, parts)[0] == c
  {
    if |parts| > 1 {
      assert Join(sep, parts) == parts[0] + (sep + Join(sep, parts[1..]));
    }
  }

  /** `format_context` answers with the sentinel exactly when there is no
      result whose text is not blank; otherwise it answers with the joined
      blocks. */
  lemma SentinelIffAllBlank(results: seq<SearchResult>, parseInt: string -> Option<int>, fmt3: real -> string)
    ensures FormattedContext(results, parseInt, fmt3) == NO_CONTEXT
            <==> forall k :: 0 <= k < |results| ==> IsBlank(results[k].text)
    ensures (exists k :: 0 <= k < |results| && !IsBlank(results[k].text)) ==>
              FormattedContext(results, parseInt, fmt3) == Join("\n", ContextParts(results, 1, parseInt, fmt3))
  {
    NoPartsIffAllBlank(results, 1, parseInt, fmt3);
    ContextPartsBracketed(results, 1, parseInt, fmt3);
    var parts := ContextParts(results, 1, parseInt, fmt3);
    if parts != [] {
      var formatted := Join("\n", parts);
      JoinStartsWith("\n", parts, '[');
      NotBlankWith(formatted, 0);
      assert NO_CONTEXT[0] == 'N';
    }
  }

  /** `page` wins whenever it is truthy, even when it coerces to 0: a page
      `"0"` hides a usable `page_number`. */
  lemma TruthyPageWins(parseInt: string -> Option<int>)
    requires parseInt("0") == Some(0)
    ensures PageCitation(map["page" := MStr("0"), "page_number" := MInt(3)], parseInt) == ""
    ensures PageCitation(map["page_number" := MInt(3)], parseInt) == " - Page 3"
  {
    var m0 := map["page" := MStr("0"), "page_number" := MInt(3)];
    assert "page" in m0 && m0 != map[];
    var m := map["page_number" := MInt(3)];
    assert "page_number" in m && m != map[];
    assert "page" != "page_number";
    assert Get(m, "page") == MNull;
    assert PageNumber(m, parseInt) == Some(3);
  }
}
