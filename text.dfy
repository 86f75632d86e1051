/**
 * The string primitives the stores rely on, with JavaScript's meaning:
 * `trim` and the regular-expression class `\s`, `startsWith`, `endsWith`,
 * `includes`, `split('\n')`, and the "strip a leading run and a trailing run"
 * shape of the `replace(/^[..]+|[..]+$/g, '')` calls.
 */
module Text {

  /** The characters of JavaScript's WhiteSpace and LineTerminator productions:
      what `\s` matches and what `String.prototype.trim` removes. */
  predicate IsSpace(c: char) {
    || c == ' ' || c == '\t' || c == '\n' || c == '\r'
    || c == '\U{B}' || c == '\U{C}' || c == '\U{A0}' || c == '\U{1680}'
    || ('\U{2000}' <= c <= '\U{200A}')
    || c == '\U{2028}' || c == '\U{2029}' || c == '\U{202F}' || c == '\U{205F}'
    || c == '\U{3000}' || c == '\U{FEFF}'
  }

  predicate StartsWith(s: string, prefix: string) {
    |prefix| <= |s| && s[..|prefix|] == prefix
  }

  /** A string starting with `p` starts with every prefix of `p`. */
  lemma StartsWithPrefix(s: string, p: string, q: string)
    ensures StartsWith(s, p) && StartsWith(p, q) ==> StartsWith(s, q)
  {
    if StartsWith(s, p) && StartsWith(p, q) {
      assert s[..|q|] == s[..|p|][..|q|];
    }
  }

  predicate EndsWith(s: string, suffix: string) {
    |suffix| <= |s| && s[|s| - |suffix|..] == suffix
  }

  /** `s.includes(sub)`. */
  predicate Contains(s: string, sub: string)
    decreases |s|
  {
    if |s| < |sub| then false
    else StartsWith(s, sub) || Contains(s[1..], sub)
  }

  lemma {:induction false} ContainsAt(s: string, sub: string, i: nat)
    requires i + |sub| <= |s| && s[i..i + |sub|] == sub
    ensures Contains(s, sub)
    decreases i
  {
    if i > 0 {
      assert s[1..][i - 1..i - 1 + |sub|] == s[i..i + |sub|];
      ContainsAt(s[1..], sub, i - 1);
    }
  }

  lemma {:induction false} ContainsWitness(s: string, sub: string) returns (i: nat)
    requires Contains(s, sub)
    ensures i + |sub| <= |s| && s[i..i + |sub|] == sub
    decreases |s|
  {
    if StartsWith(s, sub) {
      i := 0;
    } else {
      var j := ContainsWitness(s[1..], sub);
      i := j + 1;
      assert s[1..][j..j + |sub|] == s[i..i + |sub|];
    }
  }

  /** Length of the longest prefix of `s` whose characters all satisfy `p`. */
  function LeadLen(s: string, p: char -> bool): (n: nat)
    ensures n <= |s|
    ensures forall i :: 0 <= i < n ==> p(s[i])
    ensures n < |s| ==> !p(s[n])
    decreases |s|
  {
    if |s| == 0 || !p(s[0]) then 0 else 1 + LeadLen(s[1..], p)
  }

  /** Length of the longest suffix of `s` whose characters all satisfy `p`. */
  function TrailLen(s: string, p: char -> bool): (n: nat)
    ensures n <= |s|
    ensures forall i :: |s| - n <= i < |s| ==> p(s[i])
    ensures n < |s| ==> !p(s[|s| - n - 1])
    decreases |s|
  {
    if |s| == 0 || !p(s[|s| - 1]) then 0 else 1 + TrailLen(s[..|s| - 1], p)
  }

  /**
   * `s.replace(/^[L]+|[T]+$/g, '')`: the global replace first removes the
   * maximal leading run of `lead` characters, then, scanning on from there,
   * the first position from which every remaining character is a `trail`
   * character starts the second (and last) match.
   */
  function StripEnds(s: string, lead: char -> bool, trail: char -> bool): (r: string)
  {
    var t := s[LeadLen(s, lead)..];
    t[..|t| - TrailLen(t, trail)]
  }

  /** Stripping the same characters from both ends leaves nothing exactly when
      every character is one of them. */
  lemma StripEndsAll(s: string, p: char -> bool)
    ensures StripEnds(s, p, p) == "" <==> forall i :: 0 <= i < |s| ==> p(s[i])
  {
    var n := LeadLen(s, p);
    if n < |s| {
      var t := s[n..];
      assert t[0] == s[n];
      assert TrailLen(t, p) < |t|;
    }
  }

  /** What is left is a contiguous piece of the input that neither starts with a
      `lead` character nor ends with a `trail` character. */
  lemma StripEndsShape(s: string, lead: char -> bool, trail: char -> bool)
    ensures var r := StripEnds(s, lead, trail);
      && Contains(s, r)
      && (|r| > 0 ==> !lead(r[0]) && !trail(r[|r| - 1]))
  {
    var p := LeadLen(s, lead);
    var t := s[p..];
    var q := TrailLen(t, trail);
    var r := StripEnds(s, lead, trail);
    assert s[p..p + |r|] == r;
    ContainsAt(s, r, p);
  }

  /** Where the kept piece sits: after the maximal `lead` run and before the
      maximal `trail` run that follows it. */
  lemma StripEndsBounds(s: string, lead: char -> bool, trail: char -> bool) returns (p: nat, q: nat)
    ensures p <= q <= |s| && StripEnds(s, lead, trail) == s[p..q]
    ensures forall i :: 0 <= i < p ==> lead(s[i])
    ensures p < |s| ==> !lead(s[p])
    ensures forall i :: q <= i < |s| ==> trail(s[i])
    ensures p < q ==> !trail(s[q - 1])
  {
    p := LeadLen(s, lead);
    var t := s[p..];
    var n := TrailLen(t, trail);
    q := p + |t| - n;
    TrailRunShifted(s, p, n, trail);
  }

  /** The trailing run of a suffix `s[p..]` is a trailing run of `s`. */
  lemma TrailRunShifted(s: string, p: nat, n: nat, trail: char -> bool)
    requires p <= |s| && n <= |s| - p
    requires forall j :: |s| - p - n <= j < |s| - p ==> trail(s[p..][j])
    requires n < |s| - p ==> !trail(s[p..][|s| - p - n - 1])
    ensures forall i :: |s| - n <= i < |s| ==> trail(s[i])
    ensures n < |s| - p ==> !trail(s[|s| - n - 1])
  {
    forall i | |s| - n <= i < |s| ensures trail(s[i]) {
      assert s[p..][i - p] == s[i];
    }
    if n < |s| - p {
      assert s[p..][|s| - p - n - 1] == s[|s| - n - 1];
    }
  }

  lemma {:induction false} StripEndsIdempotent(s: string, lead: char -> bool, trail: char -> bool)
    ensures StripEnds(StripEnds(s, lead, trail), lead, trail) == StripEnds(s, lead, trail)
  {
    var r := StripEnds(s, lead, trail);
    StripEndsShape(s, lead, trail);
    if |r| > 0 {
      assert LeadLen(r, lead) == 0;
      assert r[0..] == r;
      assert TrailLen(r, trail) == 0;
    }
  }

  /** `s.trim()`. */
  function Trim(s: string): (r: string)
  {
    StripEnds(s, IsSpace, IsSpace)
  }

  /** A string that already starts and ends with non-space characters is its own trim. */
  lemma TrimOfTrimmed(s: string)
    requires |s| > 0 ==> !IsSpace(s[0]) && !IsSpace(s[|s| - 1])
    ensures Trim(s) == s
  {
    if |s| > 0 {
      assert LeadLen(s, IsSpace) == 0;
      assert s[0..] == s;
      assert TrailLen(s, IsSpace) == 0;
    }
  }

  /** Trimming ignores whitespace added in front. */
  lemma {:induction false} TrimSkipsLeadingSpace(w: string, s: string)
    requires forall i :: 0 <= i < |w| ==> IsSpace(w[i])
    ensures Trim(w + s) == Trim(s)
    decreases |w|
  {
    if |w| > 0 {
      var ws := w + s;
      assert ws[1..] == w[1..] + s;
      assert LeadLen(ws, IsSpace) == 1 + LeadLen(ws[1..], IsSpace);
      assert ws[LeadLen(ws, IsSpace)..] == ws[1..][LeadLen(ws[1..], IsSpace)..];
      TrimSkipsLeadingSpace(w[1..], s);
    } else {
      assert w + s == s;
    }
  }

  /** Lower-cases the ASCII letters `A`-`Z` and leaves every other character alone. */
  function LowerAscii(c: char): char {
    if 'A' <= c <= 'Z' then (c as int + 32) as char else c
  }

  function ToLowerAscii(s: string): (r: string)
    ensures |r| == |s| && forall i :: 0 <= i < |s| ==> r[i] == LowerAscii(s[i])
  {
    seq(|s|, i requires 0 <= i < |s| => LowerAscii(s[i]))
  }

  /** `s.split('\n')`, built from the last character backwards. */
  function Split(s: string): (parts: seq<string>)
    ensures |parts| >= 1
    decreases |s|
  {
    if |s| == 0 then [""]
    else
      var init := Split(s[..|s| - 1]);
      var c := s[|s| - 1];
      if c == '\n' then init + [""]
      else init[..|init| - 1] + [init[|init| - 1] + [c]]
  }

  /** `parts.join('\n')`. */
  function Join(parts: seq<string>): (s: string)
    requires |parts| >= 1
    decreases |parts|
  {
    if |parts| == 1 then parts[0]
    else Join(parts[..|parts| - 1]) + "\n" + parts[|parts| - 1]
  }

  lemma {:induction false} JoinReplaceLast(parts: seq<string>, c: char)
    requires |parts| >= 1
    ensures Join(parts[..|parts| - 1] + [parts[|parts| - 1] + [c]]) == Join(parts) + [c]
  {
    var ps := parts[..|parts| - 1] + [parts[|parts| - 1] + [c]];
    if |parts| > 1 {
      assert ps[..|ps| - 1] == parts[..|parts| - 1];
    }
  }

  /** Splitting loses nothing: joining the parts back with `\n` gives the input. */
  lemma {:induction false} JoinSplit(s: string)
    ensures Join(Split(s)) == s
    decreases |s|
  {
    if |s| > 0 {
      var init := Split(s[..|s| - 1]);
      JoinSplit(s[..|s| - 1]);
      var c := s[|s| - 1];
      if c == '\n' {
        assert (init + [""])[..|init|] == init;
      } else {
        JoinReplaceLast(init, c);
      }
      assert s[..|s| - 1] + [c] == s;
    }
  }

  /** No part of a split contains the separator. */
  lemma {:induction false} SplitPartsHaveNoNewline(s: string)
    ensures forall k :: 0 <= k < |Split(s)| ==> '\n' !in Split(s)[k]
    decreases |s|
  {
    if |s| > 0 {
      SplitPartsHaveNoNewline(s[..|s| - 1]);
    }
  }
}
