/** Sequence helpers several modules share: collecting the present values
    of a list of options, and facts that proofs by induction on the last
    element need. */
module Seqs {
  import opened Wrappers

  /** The values of the present options, in order. */
  function Present<T>(opts: seq<Option<T>>): seq<T> {
    if |opts| == 0 then []
    else
      var n := |opts| - 1;
      Present(opts[..n]) + (if opts[n].Some? then [opts[n].value] else [])
  }

  /** A non-empty `b` is its prefix followed by its last element, and so is
      `a + b`. */
  lemma SplitLast<T>(a: seq<T>, b: seq<T>)
    requires |b| > 0
    ensures b == b[..|b| - 1] + [b[|b| - 1]]
    ensures a + b == (a + b[..|b| - 1]) + [b[|b| - 1]]
  {
  }

  /** Concatenation is associative. */
  lemma AppendAssoc<T>(p: seq<T>, q: seq<T>, t: seq<T>)
    ensures (p + q) + t == p + (q + t)
  {
  }

  /** Collecting the present values of two lists is collecting each in turn. */
  lemma {:induction false} PresentAppend<T>(a: seq<Option<T>>, b: seq<Option<T>>)
    ensures Present(a + b) == Present(a) + Present(b)
    decreases |b|
  {
    if |b| == 0 {
      assert a + b == a;
    } else {
      var n := |b| - 1;
      SplitLast(a, b);
      assert (a + b)[..|a + b| - 1] == a + b[..n];
      PresentAppend(a, b[..n]);
      AppendAssoc(Present(a), Present(b[..n]), if b[n].Some? then [b[n].value] else []);
    }
  }

  /** Each present value comes from an option at some position. */
  lemma {:induction false} PresentFrom<T>(opts: seq<Option<T>>, k: nat)
    requires k < |Present(opts)|
    ensures exists i :: 0 <= i < |opts| && opts[i] == Some(Present(opts)[k])
    decreases |opts|
  {
    var n := |opts| - 1;
    PresentAtMost(opts[..n]);
    if k < |Present(opts[..n])| {
      PresentFrom(opts[..n], k);
      var i :| 0 <= i < n && opts[..n][i] == Some(Present(opts[..n])[k]);
      assert opts[i] == opts[..n][i];
    } else {
      assert opts[n] == Some(Present(opts)[k]);
    }
  }

  /** No more present values than options. */
  lemma {:induction false} PresentAtMost<T>(opts: seq<Option<T>>)
    ensures |Present(opts)| <= |opts|
    decreases |opts|
  {
    if |opts| > 0 {
      PresentAtMost(opts[..|opts| - 1]);
    }
  }
}
