/**
 * The few Python `str` operations the services rely on, written out over
 * `seq<char>`: whitespace as `str.isspace` sees it, `strip`, ASCII case
 * mapping, substring search and counting, `split` and `join`, and decimal
 * rendering of integers.
 */
module PyStr {

  /** `c.isspace()`: the characters CPython treats as whitespace. */
  predicate IsSpace(c: char) {
    c == ' ' || ('\t' <= c <= '\r') || ('\U{1c}' <= c <= '\U{1f}')
    || c == '\U{85}' || c == '\U{a0}' || c == '\U{1680}'
    || ('\U{2000}' <= c <= '\U{200a}') || c == '\U{2028}' || c == '\U{2029}'
    || c == '\U{202f}' || c == '\U{205f}' || c == '\U{3000}'
  }

  /** `s.lstrip()` */
  function LStrip(s: string): (r: string)
    ensures |r| <= |s| && r == s[|s| - |r|..]
    ensures r == [] || !IsSpace(r[0])
    ensures forall i :: 0 <= i < |s| - |r| ==> IsSpace(s[i])
  {
    if |s| > 0 && IsSpace(s[0]) then LStrip(s[1..]) else s
  }

  /** `s.rstrip()` */
  function RStrip(s: string): (r: string)
    ensures |r| <= |s| && r == s[..|r|]
    ensures r == [] || !IsSpace(r[|r| - 1])
    ensures forall i :: |r| <= i < |s| ==> IsSpace(s[i])
  {
    if |s| > 0 && IsSpace(s[|s| - 1]) then RStrip(s[..|s| - 1]) else s
  }

  /** `s.strip()`: `s` without its leading and trailing whitespace. */
  function Strip(s: string): (r: string)
  {
    RStrip(LStrip(s))
  }

  /** `s` is empty or all whitespace, which is when `len(s.strip()) == 0`
      (lemma BlankIffStripEmpty). */
  predicate IsBlank(s: string) {
    forall i :: 0 <= i < |s| ==> IsSpace(s[i])
  }

  /** What `strip` keeps is a slice of the input that neither starts nor ends
      with whitespace, and everything it drops is whitespace. */
  lemma StripSpec(s: string)
    ensures exists a, b :: (0 <= a <= b <= |s| && Strip(s) == s[a..b]
                            && (forall i :: 0 <= i < a ==> IsSpace(s[i]))
                            && (forall i :: b <= i < |s| ==> IsSpace(s[i])))
  {
    var l := LStrip(s);
    var a := |s| - |l|;
    var r := RStrip(l);
    var b := a + |r|;
    assert r == s[a..b];
    forall i | b <= i < |s| ensures IsSpace(s[i]) {
      assert s[i] == l[i - a];
    }
  }

  /** What `strip` keeps neither starts nor ends with whitespace. */
  lemma StripEnds(s: string)
    ensures Strip(s) == [] || (!IsSpace(Strip(s)[0]) && !IsSpace(Strip(s)[|Strip(s)| - 1]))
  {
    var l := LStrip(s);
    var r := RStrip(l);
    if r != [] {
      assert r[0] == l[0];
    }
  }

  /** `strip` leaves nothing exactly when every character is whitespace. */
  lemma BlankIffStripEmpty(s: string)
    ensures IsBlank(s) <==> Strip(s) == ""
  {
    var l := LStrip(s);
    if Strip(s) == "" {
      forall i | |s| - |l| <= i < |s| ensures IsSpace(s[i]) {
        assert s[i] == l[i - (|s| - |l|)];
      }
    }
  }

  /** A string holding a non-whitespace character is not blank. */
  lemma NotBlankWith(s: string, i: int)
    requires 0 <= i < |s| && !IsSpace(s[i])
    ensures !IsBlank(s)
  {
  }

  /** `c.lower()` restricted to ASCII letters. */
  function LowerChar(c: char): char {
    if 'A' <= c <= 'Z' then (c as int + 32) as char else c
  }

  /** `c.upper()` restricted to ASCII letters. */
  function UpperChar(c: char): char {
    if 'a' <= c <= 'z' then (c as int - 32) as char else c
  }

  /** `s.lower()` on ASCII letters; every other character is kept. */
  function Lower(s: string): (r: string)
    ensures |r| == |s|
    ensures forall i :: 0 <= i < |s| ==> r[i] == LowerChar(s[i])
  {
    seq(|s|, i requires 0 <= i < |s| => LowerChar(s[i]))
  }

  /** `s.upper()` on ASCII letters; every other character is kept. */
  function Upper(s: string): (r: string)
    ensures |r| == |s|
    ensures forall i :: 0 <= i < |s| ==> r[i] == UpperChar(s[i])
  {
    seq(|s|, i requires 0 <= i < |s| => UpperChar(s[i]))
  }

  predicate StartsWith(s: string, prefix: string) {
    |prefix| <= |s| && s[..|prefix|] == prefix
  }

  /** `needle in s` */
  predicate Contains(s: string, needle: string)
    decreases |s|
  {
    StartsWith(s, needle) || (|s| > 0 && Contains(s[1..], needle))
  }

  /** `needle in s` holds as soon as `needle` occurs at some position. */
  lemma {:induction false} ContainsAt(s: string, needle: string, i: nat)
    requires i + |needle| <= |s| && s[i..i + |needle|] == needle
    ensures Contains(s, needle)
    decreases i
  {
    if i > 0 {
      assert s[1..][i - 1..i - 1 + |needle|] == needle;
      ContainsAt(s[1..], needle, i - 1);
    }
  }

  /** And only then. */
  lemma {:induction false} ContainsWitness(s: string, needle: string) returns (i: nat)
    requires Contains(s, needle)
    ensures i + |needle| <= |s| && s[i..i + |needle|] == needle
    decreases |s|
  {
    if StartsWith(s, needle) {
      i := 0;
    } else {
      var j := ContainsWitness(s[1..], needle);
      i := j + 1;
      assert s[i..i + |needle|] == s[1..][j..j + |needle|];
    }
  }

  /** Every character of an occurring needle occurs in `s`. */
  lemma ContainsHasChars(s: string, needle: string, k: nat)
    requires Contains(s, needle) && k < |needle|
    ensures needle[k] in s
  {
    var i := ContainsWitness(s, needle);
    assert s[i + k] == s[i..i + |needle|][k];
  }

  /** A piece of an occurring needle occurs too. */
  lemma ContainsPiece(s: string, needle: string, a: nat, b: nat)
    requires Contains(s, needle) && a <= b <= |needle|
    ensures Contains(s, needle[a..b])
  {
    var i := ContainsWitness(s, needle);
    forall k | 0 <= k < b - a
      ensures s[i + a..i + b][k] == needle[a..b][k]
    {
      assert s[i + a + k] == s[i..i + |needle|][a + k];
    }
    assert s[i + a..i + b] == needle[a..b];
    ContainsAt(s, needle[a..b], i + a);
  }

  /** A character occurs as a one-character substring exactly when it is an element. */
  lemma ContainsChar(s: string, c: char)
    ensures Contains(s, [c]) <==> c in s
  {
    if c in s {
      var i :| 0 <= i < |s| && s[i] == c;
      ContainsAt(s, [c], i);
    }
    if Contains(s, [c]) {
      var i := ContainsWitness(s, [c]);
      assert s[i] == s[i..i + 1][0];
    }
  }

  /** `s.count(sub)`: non-overlapping occurrences, scanning from the left. */
  function Count(s: string, sub: string): nat
    decreases |s|
  {
    if |sub| == 0 then |s| + 1
    else if |s| < |sub| then 0
    else if s[..|sub|] == sub then 1 + Count(s[|sub|..], sub)
    else Count(s[1..], sub)
  }

  /** A non-empty substring is counted at least once exactly when it occurs. */
  lemma {:induction false} CountPositiveIffContains(s: string, sub: string)
    requires |sub| > 0
    ensures Count(s, sub) > 0 <==> Contains(s, sub)
    decreases |s|
  {
    if |s| < |sub| {
      if Contains(s, sub) {
        var i := ContainsWitness(s, sub);
      }
    } else if s[..|sub|] == sub {
      assert StartsWith(s, sub);
    } else {
      CountPositiveIffContains(s[1..], sub);
      assert !StartsWith(s, sub);
    }
  }

  /** `s.split(sep)` for a one-character separator: every piece, empty ones included. */
  function Split(s: string, sep: char): (r: seq<string>)
    ensures |r| >= 1
    decreases |s|
  {
    if |s| == 0 then [""]
    else
      var rest := Split(s[1..], sep);
      if s[0] == sep then [""] + rest else [[s[0]] + rest[0]] + rest[1..]
  }

  /** No piece of a split holds the separator. */
  lemma {:induction false} SplitPiecesLackSep(s: string, sep: char)
    ensures forall i :: 0 <= i < |Split(s, sep)| ==> sep !in Split(s, sep)[i]
    decreases |s|
  {
    if |s| > 0 {
      SplitPiecesLackSep(s[1..], sep);
    }
  }

  /** `sep.join(parts)` */
  function Join(sep: string, parts: seq<string>): string
  {
    if |parts| == 0 then ""
    else if |parts| == 1 then parts[0]
    else parts[0] + sep + Join(sep, parts[1..])
  }

  /** Splitting on a separator and joining again with it gives the input back. */
  lemma {:induction false} JoinSplit(s: string, sep: char)
    ensures Join([sep], Split(s, sep)) == s
    decreases |s|
  {
    if |s| > 0 {
      JoinSplit(s[1..], sep);
      var rest := Split(s[1..], sep);
      if s[0] != sep && |rest| > 1 {
        assert Split(s, sep)[1..] == rest[1..];
      }
    }
  }

  /** Joining pieces that lack the separator and splitting again gives the pieces back. */
  lemma {:induction false} SplitJoin(parts: seq<string>, sep: char)
    requires |parts| >= 1
    requires forall i :: 0 <= i < |parts| ==> sep !in parts[i]
    ensures Split(Join([sep], parts), sep) == parts
    decreases |parts|, |parts[0]|
  {
    if |parts[0]| == 0 {
      if |parts| > 1 {
        SplitJoin(parts[1..], sep);
        assert Join([sep], parts) == [sep] + Join([sep], parts[1..]);
        assert Join([sep], parts)[1..] == Join([sep], parts[1..]);
      }
    } else {
      var c := parts[0][0];
      var shorter := [parts[0][1..]] + parts[1..];
      SplitJoin(shorter, sep);
      var j := Join([sep], parts);
      if |parts| > 1 {
        assert j == [c] + Join([sep], shorter);
      } else {
        assert j == [c] + parts[0][1..];
      }
      assert j[1..] == Join([sep], shorter);
      assert j[0] == c && c != sep;
      assert parts[0] == [c] + shorter[0];
      assert parts == [parts[0]] + shorter[1..];
    }
  }

  /** Every character of a part occurs in the joined string. */
  lemma {:induction false} JoinKeepsPart(sep: string, parts: seq<string>, k: nat, i: nat)
    requires k < |parts| && i < |parts[k]|
    ensures parts[k][i] in Join(sep, parts)
    decreases k
  {
    if |parts| > 1 {
      if k == 0 {
        assert Join(sep, parts)[i] == parts[0][i];
      } else {
        JoinKeepsPart(sep, parts[1..], k - 1, i);
        var tail := Join(sep, parts[1..]);
        assert Join(sep, parts) == (parts[0] + sep) + tail;
      }
    }
  }

  /** `s.replace(c, repl)` for a one-character `c`: every `c` becomes `repl`. */
  function Replace(s: string, c: char, repl: string): (r: string)
    ensures |s| == 0 ==> r == ""
    decreases |s|
  {
    if |s| == 0 then ""
    else (if s[0] == c then repl else [s[0]]) + Replace(s[1..], c, repl)
  }

  /** After `replace`, every character comes from `s` (and is not `c`) or from
      `repl`; so `c` is gone unless `repl` brings it back. */
  lemma {:induction false} ReplaceChars(s: string, c: char, repl: string)
    ensures forall x :: x in Replace(s, c, repl) ==> (x in s && x != c) || x in repl
    ensures c !in repl ==> c !in Replace(s, c, repl)
    decreases |s|
  {
    if |s| > 0 {
      ReplaceChars(s[1..], c, repl);
      var head := if s[0] == c then repl else [s[0]];
      assert Replace(s, c, repl) == head + Replace(s[1..], c, repl);
      assert s == [s[0]] + s[1..];
      forall x | x in Replace(s, c, repl)
        ensures (x in s && x != c) || x in repl
      {
        if x !in head {
          assert x in Replace(s[1..], c, repl);
        }
      }
    }
  }

  /** `replace` works character by character, so it distributes over `+`. */
  lemma {:induction false} ReplaceAppend(a: string, b: string, c: char, repl: string)
    ensures Replace(a + b, c, repl) == Replace(a, c, repl) + Replace(b, c, repl)
    decreases |a|
  {
    if |a| == 0 {
      assert a + b == b;
    } else {
      ReplaceAppend(a[1..], b, c, repl);
      assert (a + b)[1..] == a[1..] + b;
    }
  }

  /** Replacing a character that does not occur changes nothing. */
  lemma {:induction false} ReplaceAbsent(s: string, c: char, repl: string)
    requires c !in s
    ensures Replace(s, c, repl) == s
    decreases |s|
  {
    if |s| > 0 {
      ReplaceAbsent(s[1..], c, repl);
    }
  }

  /** Length of the leading run of non-whitespace characters. */
  function WordLength(s: string): (n: nat)
    ensures n <= |s|
    ensures forall i :: 0 <= i < n ==> !IsSpace(s[i])
    ensures n == |s| || IsSpace(s[n])
  {
    if |s| == 0 || IsSpace(s[0]) then 0 else 1 + WordLength(s[1..])
  }

  /** `s.split()`: the maximal runs of non-whitespace characters, in order. */
  function Words(s: string): (r: seq<string>)
    ensures forall k :: 0 <= k < |r| ==> r[k] != "" && forall i :: 0 <= i < |r[k]| ==> !IsSpace(r[k][i])
    decreases |s|
  {
    if |s| == 0 then []
    else if IsSpace(s[0]) then Words(s[1..])
    else
      var n := WordLength(s);
      [s[..n]] + Words(s[n..])
  }

  /** Decimal digits of a natural number. */
  function NatToString(n: nat): (r: string)
    ensures |r| >= 1
    ensures forall i :: 0 <= i < |r| ==> '0' <= r[i] <= '9'
  {
    if n < 10 then [('0' as int + n) as char]
    else NatToString(n / 10) + [('0' as int + n % 10) as char]
  }

  /** `str(i)` for an integer. */
  function IntToString(i: int): string {
    if i < 0 then "-" + NatToString(-i) else NatToString(i)
  }
}
