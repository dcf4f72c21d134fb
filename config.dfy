/**
 * Settings the retrieval and ingest paths read (core/config.py), and
 * `get_cors_origins`, which turns the comma-separated `CORS_ORIGINS`
 * setting into the list handed to the CORS middleware.
 */
module Config {
  import opened PyStr

  /** Default number of chunks a query retrieves. */
  const TOP_K_RESULTS: nat := 5
  /** Default minimum similarity `1 - d/2` a search result must reach. */
  const SIMILARITY_THRESHOLD: real := 0.5
  /** Width of the embedding vectors and of a freshly created index. */
  const EMBEDDING_DIMENSION: nat := 768
  /** Largest upload accepted, in megabytes of 1024 * 1024 bytes. */
  const MAX_FILE_SIZE_MB: nat := 50
  /** Default value of the `CORS_ORIGINS` setting. */
  const CORS_ORIGINS_DEFAULT: string := "*"

  /** An origin as the middleware receives it: non-empty, no surrounding
      whitespace and no comma. */
  predicate CleanOrigin(o: string) {
    o != "" && !IsSpace(o[0]) && !IsSpace(o[|o| - 1]) && ',' !in o
  }

  /** Every piece, stripped. */
  function StripAll(pieces: seq<string>): (r: seq<string>)
    ensures |r| == |pieces|
    ensures forall k :: 0 <= k < |r| ==> r[k] == Strip(pieces[k])
  {
    seq(|pieces|, k requires 0 <= k < |pieces| => Strip(pieces[k]))
  }

  /** The pieces that are not empty, in order. */
  function NonEmpty(pieces: seq<string>): (r: seq<string>)
    ensures |r| <= |pieces|
    ensures forall k :: 0 <= k < |r| ==> r[k] != "" && r[k] in pieces
  {
    if |pieces| == 0 then []
    else if pieces[0] == "" then NonEmpty(pieces[1..])
    else [pieces[0]] + NonEmpty(pieces[1..])
  }

  /** `get_cors_origins()` applied to the setting's value `s`: the list
      comprehension `[p.strip() for p in s.split(",") if p.strip()]` keeps
      the stripped pieces that are not empty. */
  function GetCorsOrigins(s: string): (origins: seq<string>)
    ensures s == "*" ==> origins == ["*"]
    ensures s != "*" ==> |origins| <= |Split(s, ',')|
    ensures forall k :: 0 <= k < |origins| ==> origins[k] != ""
  {
    if s == "*" then ["*"] else NonEmpty(StripAll(Split(s, ',')))
  }

  /** The filter works piece by piece and keeps the order: filtering a
      concatenation is concatenating the filtered parts. */
  lemma {:induction false} NonEmptyAppend(a: seq<string>, b: seq<string>)
    ensures NonEmpty(a + b) == NonEmpty(a) + NonEmpty(b)
    decreases |a|
  {
    if |a| > 0 {
      NonEmptyAppend(a[1..], b);
      assert (a + b)[1..] == a[1..] + b;
    } else {
      assert a + b == b;
    }
  }

  /** Every non-empty piece survives the filter. */
  lemma {:induction false} NonEmptyKeeps(pieces: seq<string>, k: nat)
    requires k < |pieces| && pieces[k] != ""
    ensures pieces[k] in NonEmpty(pieces)
    decreases k
  {
    if k > 0 {
      NonEmptyKeeps(pieces[1..], k - 1);
    }
  }

  /** A list without empty pieces passes the filter unchanged. */
  lemma {:induction false} NonEmptyIdentity(pieces: seq<string>)
    requires forall k :: 0 <= k < |pieces| ==> pieces[k] != ""
    ensures NonEmpty(pieces) == pieces
    decreases |pieces|
  {
    if |pieces| > 0 {
      NonEmptyIdentity(pieces[1..]);
    }
  }

  /** `strip` leaves a string without surrounding whitespace alone. */
  lemma StripTrimmed(o: string)
    requires o != "" && !IsSpace(o[0]) && !IsSpace(o[|o| - 1])
    ensures Strip(o) == o
  {
    assert LStrip(o) == o;
  }

  /** Stripping a comma-free piece that is not blank gives a clean origin. */
  lemma StripPieceClean(p: string)
    requires ',' !in p && Strip(p) != ""
    ensures CleanOrigin(Strip(p))
  {
    StripSpec(p);
    var a, b :| 0 <= a <= b <= |p| && Strip(p) == p[a..b];
  }

  /** Every origin returned is clean, and the wildcard answer `["*"]` comes
      out for the setting `"*"`. */
  lemma CorsOriginsClean(s: string)
    ensures forall k :: 0 <= k < |GetCorsOrigins(s)| ==> CleanOrigin(GetCorsOrigins(s)[k])
    ensures s == "*" ==> GetCorsOrigins(s) == ["*"]
  {
    if s != "*" {
      var pieces := Split(s, ',');
      SplitPiecesLackSep(s, ',');
      forall k | 0 <= k < |GetCorsOrigins(s)| ensures CleanOrigin(GetCorsOrigins(s)[k]) {
        var o := GetCorsOrigins(s)[k];
        var j :| 0 <= j < |pieces| && StripAll(pieces)[j] == o;
        StripPieceClean(pieces[j]);
      }
    }
  }

  /** The wildcard shortcut needs the whole setting to be `"*"`: `"*,a"`
      is split like any other list; blank pieces vanish. */
  lemma WildcardNeedsExactStar()
    ensures GetCorsOrigins("*,a") == ["*", "a"]
  {
    assert Join(",", ["*", "a"]) == "*,a";
    CorsRoundTrip(["*", "a"]);
  }

  /** An empty setting allows no origin at all. */
  lemma EmptySettingAllowsNothing()
    ensures GetCorsOrigins("") == []
  {
    assert StripAll([""]) == [""];
  }

  /** Clean origins are their own stripped forms. */
  lemma StripAllClean(origins: seq<string>)
    requires forall k :: 0 <= k < |origins| ==> CleanOrigin(origins[k])
    ensures StripAll(origins) == origins
  {
    forall k | 0 <= k < |origins| ensures StripAll(origins)[k] == origins[k] {
      StripTrimmed(origins[k]);
    }
  }

  /** Writing a list of clean origins comma-separated and reading it back
      gives the same list. */
  lemma CorsRoundTrip(origins: seq<string>)
    requires forall k :: 0 <= k < |origins| ==> CleanOrigin(origins[k])
    ensures GetCorsOrigins(Join(",", origins)) == origins
  {
    if |origins| == 0 {
      assert StripAll([""]) == [""];
    } else {
      SplitJoin(origins, ',');
      StripAllClean(origins);
      NonEmptyIdentity(origins);
      if Join(",", origins) == "*" {
        assert Split("*", ',') == ["*"];
      }
    }
  }
}
