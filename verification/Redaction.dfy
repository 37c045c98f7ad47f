/** redaction.py: four substitutions in order, and why one call reaches a fixed point. */
module Redaction {
  import opened Basics
  import opened Patterns

  datatype RedactionResult = RedactionResult(text: string, redactions: nat)

  ghost predicate NoMatchStarts(p: Pattern, s: string, lo: nat, hi: nat) {
    forall k: nat, j: nat | lo <= k < hi :: !MatchAt(p, s, k, j)
  }

  ghost predicate LongestMatch(p: Pattern, s: string, i: nat, j: nat) {
    MatchAt(p, s, i, j) && forall k: nat :: MatchAt(p, s, i, k) ==> k <= j
  }

  lemma {:induction false} MatchStep(p: Pattern, s: string, i: nat)
    requires i <= |s|
    ensures match MatchFrom(p, s, i)
            case Some(j) => i < j <= |s| && LongestMatch(p, s, i, j)
            case None => NoMatchStarts(p, s, i, i + 1)
  {
    MatchFromIsLongest(p, s, i);
  }

  /** `pattern.subn(replacement, s)` on the part of s from i on. */
  function Subn(p: Pattern, s: string, i: nat): RedactionResult
    requires i <= |s|
    decreases |s| - i
  {
    if i == |s| then RedactionResult("", 0)
    else
      MatchStep(p, s, i);
      match MatchFrom(p, s, i)
      case Some(j) => var r := Subn(p, s, j); RedactionResult(Replacement(p) + r.text, r.redactions + 1)
      case None => var r := Subn(p, s, i + 1); RedactionResult([s[i]] + r.text, r.redactions)
  }

  /** The substitutions of PATTERNS from the n-th on, adding up the counts. */
  function RedactFrom(n: nat, r: RedactionResult): RedactionResult
    requires n <= |PATTERNS|
    decreases |PATTERNS| - n
  {
    if n == |PATTERNS| then r
    else
      var next := Subn(PATTERNS[n], r.text, 0);
      RedactFrom(n + 1, RedactionResult(next.text, r.redactions + next.redactions))
  }

  function Redact(text: string): RedactionResult { RedactFrom(0, RedactionResult(text, 0)) }

  method RedactPii(text: string) returns (r: RedactionResult)
    ensures r == Redact(text)
    ensures forall p: Pattern :: Free(p, r.text)
    ensures r.redactions == 0 <==> forall p: Pattern :: Free(p, text)
    ensures r.redactions == 0 ==> r.text == text
  {
    hide Subn, Free, MatchAt;
    var total: nat, result := 0, text;
    for n: nat := 0 to |PATTERNS|
      invariant Redact(text) == RedactFrom(n, RedactionResult(result, total))
    {
      var next := Subn(PATTERNS[n], result, 0);
      result, total := next.text, total + next.redactions;
    }
    RedactClears(text);
    RedactCount(text);
    r := RedactionResult(result, total);
  }

  // ----- One call reaches a fixed point -----

  ghost predicate Clean(s: string) { forall p: Pattern :: Free(p, s) }

  ghost predicate ClearedUpTo(n: nat, s: string)
    requires n <= |PATTERNS|
  {
    forall m | 0 <= m < n :: Free(PATTERNS[m], s)
  }

  lemma {:induction false} AllPatterns(s: string)
    ensures ClearedUpTo(|PATTERNS|, s) <==> Clean(s)
  {
    hide MatchAt;
    if ClearedUpTo(|PATTERNS|, s) {
      forall p: Pattern ensures Free(p, s) {
        var m := match p case SsnHyphen => 0 case SsnSpace => 1 case Account => 2 case Iban => 3;
        assert PATTERNS[m] == p;
      }
    }
  }

  lemma {:induction false} RedactFromClears(n: nat, r: RedactionResult)
    requires n <= |PATTERNS| && ClearedUpTo(n, r.text)
    ensures ClearedUpTo(|PATTERNS|, RedactFrom(n, r).text)
    decreases |PATTERNS| - n
  {
    hide MatchAt, Subn;
    if n < |PATTERNS| {
      var next := Subn(PATTERNS[n], r.text, 0);
      forall m | 0 <= m < n + 1 ensures Free(PATTERNS[m], next.text) {
        SubnKeepsFree(PATTERNS[n], PATTERNS[m], r.text);
      }
      RedactFromClears(n + 1, RedactionResult(next.text, r.redactions + next.redactions));
    }
  }

  /** No pattern matches anywhere in a redacted text. */
  lemma {:induction false} RedactClears(text: string)
    ensures Clean(Redact(text).text)
  {
    RedactFromClears(0, RedactionResult(text, 0));
    AllPatterns(Redact(text).text);
  }

  lemma {:induction false} RedactFromCount(n: nat, r: RedactionResult)
    requires n <= |PATTERNS| && ClearedUpTo(n, r.text)
    ensures RedactFrom(n, r).redactions >= r.redactions
    ensures RedactFrom(n, r).redactions == r.redactions <==> ClearedUpTo(|PATTERNS|, r.text)
    ensures ClearedUpTo(|PATTERNS|, r.text) ==> RedactFrom(n, r) == r
    decreases |PATTERNS| - n
  {
    hide MatchAt, Subn;
    if n < |PATTERNS| {
      var next := Subn(PATTERNS[n], r.text, 0);
      SubnCount(PATTERNS[n], r.text);
      forall m | 0 <= m < n + 1 ensures Free(PATTERNS[m], next.text) {
        SubnKeepsFree(PATTERNS[n], PATTERNS[m], r.text);
      }
      if next.redactions == 0 { SubnOfFree(PATTERNS[n], r.text, 0); }
      RedactFromCount(n + 1, RedactionResult(next.text, r.redactions + next.redactions));
    }
  }

  /** The count is zero exactly for a text without matches, which is then returned unchanged. */
  lemma {:induction false} RedactCount(text: string)
    ensures Redact(text).redactions == 0 <==> Clean(text)
    ensures Clean(text) ==> Redact(text).text == text
  {
    AllPatterns(text);
    RedactFromCount(0, RedactionResult(text, 0));
  }

  /** Redacting a second time changes nothing and reports nothing. */
  lemma {:induction false} RedactTwice(text: string)
    ensures Redact(Redact(text).text) == RedactionResult(Redact(text).text, 0)
  {
    RedactClears(text);
    RedactCount(Redact(text).text);
  }

  // ----- Cutting before and after redaction -----

  const EXCERPT := 8000

  /** A successful extraction's audit texts: cut, then redacted. */
  function AuditExcerpt(text: string): string { Redact(Cut(text, EXCERPT)).text }

  /** A failed extraction's audit text: redacted, then cut. */
  function DegradedExcerpt(text: string): string { Cut(Redact(text).text, EXCERPT) }

  /** The cut falls inside a word of the redacted text, and what precedes it reads as
      an identifier that the longer word was not. */
  ghost predicate CutExposes(redacted: string) {
    && |redacted| > EXCERPT
    && IsWord(redacted[EXCERPT - 1]) && IsWord(redacted[EXCERPT])
    && exists p: Pattern, a: nat | a < EXCERPT :: Boundary(redacted, a) && Shape(p, redacted[a..EXCERPT])
  }

  /** Cutting after redaction leaves a match exactly when the cut splits such a word. */
  lemma {:induction false} DegradedExcerptClean(text: string)
    ensures Clean(DegradedExcerpt(text)) <==> !CutExposes(Redact(text).text)
  {
    RedactClears(text);
    CutClean(Redact(text).text);
  }

  lemma {:induction false} CutClean(r: string)
    requires Clean(r)
    ensures Clean(Cut(r, EXCERPT)) <==> !CutExposes(r)
  {
    hide Shape;
    var c := Cut(r, EXCERPT);
    if CutExposes(r) {
      var p: Pattern, a: nat :| a < EXCERPT && Boundary(r, a) && Shape(p, r[a..EXCERPT]);
      assert c[a..EXCERPT] == r[a..EXCERPT];
      assert MatchAt(p, c, a, EXCERPT) && !Free(p, c);
    } else {
      forall p: Pattern, a: nat, b: nat ensures !MatchAt(p, c, a, b) {
        if MatchAt(p, c, a, b) { CutMatch(p, r, a, b); }
      }
    }
  }

  lemma {:induction false} CutMatch(p: Pattern, r: string, a: nat, b: nat)
    requires Free(p, r) && MatchAt(p, Cut(r, EXCERPT), a, b)
    ensures CutExposes(r)
  {
    var c := Cut(r, EXCERPT);
    ShapeContent(p, c[a..b]);
    hide Shape;
    assert c[a..b] == r[a..b] && a < b;
    assert Boundary(r, a);
    assert !MatchAt(p, r, a, b);
    assert b == EXCERPT;
  }

  // ----- What one substitution replaces -----

  datatype Span = Span(from: nat, to: nat)

  /** Read from i on, the spans are the leftmost matches, each the longest at its
      place, and nothing between or after them starts a match. */
  ghost predicate LeftmostLongest(p: Pattern, s: string, i: nat, spans: seq<Span>)
    decreases spans
  {
    if spans == [] then NoMatchStarts(p, s, i, |s|)
    else
      var m := spans[0];
      && i <= m.from < m.to
      && NoMatchStarts(p, s, i, m.from)
      && LongestMatch(p, s, m.from, m.to)
      && LeftmostLongest(p, s, m.to, spans[1..])
  }

  /** s from i on, with every span replaced and everything else kept. */
  ghost function Splice(s: string, i: nat, spans: seq<Span>, replacement: string): string
    requires i <= |s|
    decreases spans
  {
    if spans == [] then s[i..]
    else if i <= spans[0].from <= spans[0].to <= |s| then
      s[i..spans[0].from] + replacement + Splice(s, spans[0].to, spans[1..], replacement)
    else ""
  }

  ghost function Spans(p: Pattern, s: string, i: nat): seq<Span>
    requires i <= |s|
    decreases |s| - i
  {
    if i == |s| then []
    else
      MatchStep(p, s, i);
      match MatchFrom(p, s, i)
      case Some(j) => [Span(i, j)] + Spans(p, s, j)
      case None => Spans(p, s, i + 1)
  }

  lemma {:induction false} SubnReplacesLeftmostLongest(p: Pattern, s: string, i: nat)
    requires i <= |s|
    ensures LeftmostLongest(p, s, i, Spans(p, s, i))
    ensures Subn(p, s, i) == RedactionResult(Splice(s, i, Spans(p, s, i), Replacement(p)), |Spans(p, s, i)|)
    decreases |s| - i
  {
    hide MatchFrom, MatchAt, LongestMatch;
    if i == |s| {
      assert NoMatchStarts(p, s, i, |s|);
      assert s[i..] == "";
    } else {
      MatchStep(p, s, i);
      match MatchFrom(p, s, i)
      case Some(j) =>
        SubnReplacesLeftmostLongest(p, s, j);
        PutMatchFirst(p, s, i, j, Spans(p, s, j));
      case None =>
        SubnReplacesLeftmostLongest(p, s, i + 1);
        LeftmostLongestExtend(p, s, i, Spans(p, s, i + 1));
        SpliceExtend(s, i, Spans(p, s, i + 1), Replacement(p));
    }
  }

  lemma {:induction false} PutMatchFirst(p: Pattern, s: string, i: nat, j: nat, spans: seq<Span>)
    requires i < j <= |s| && LongestMatch(p, s, i, j) && LeftmostLongest(p, s, j, spans)
    ensures LeftmostLongest(p, s, i, [Span(i, j)] + spans)
    ensures Splice(s, i, [Span(i, j)] + spans, Replacement(p)) == Replacement(p) + Splice(s, j, spans, Replacement(p))
  {
    hide MatchAt, LongestMatch, Replacement;
    assert ([Span(i, j)] + spans)[1..] == spans;
    assert s[i..i] + Replacement(p) == Replacement(p);
  }

  lemma {:induction false} NoMatchStartsExtend(p: Pattern, s: string, lo: nat, hi: nat)
    requires lo < hi && NoMatchStarts(p, s, lo, lo + 1) && NoMatchStarts(p, s, lo + 1, hi)
    ensures NoMatchStarts(p, s, lo, hi)
  {
    forall k: nat, j: nat | lo <= k < hi ensures !MatchAt(p, s, k, j) {}
  }

  lemma {:induction false} LeftmostLongestExtend(p: Pattern, s: string, i: nat, spans: seq<Span>)
    requires i < |s| && NoMatchStarts(p, s, i, i + 1) && LeftmostLongest(p, s, i + 1, spans)
    ensures LeftmostLongest(p, s, i, spans)
  {
    NoMatchStartsExtend(p, s, i, if spans == [] then |s| else spans[0].from);
  }

  lemma {:induction false} SpliceExtend(s: string, i: nat, spans: seq<Span>, r: string)
    requires i < |s| && (spans != [] ==> i + 1 <= spans[0].from <= spans[0].to <= |s|)
    ensures Splice(s, i, spans, r) == [s[i]] + Splice(s, i + 1, spans, r)
  {
    if spans == [] {
      assert s[i..] == [s[i]] + s[i + 1..];
    } else {
      var m := spans[0];
      var rest := Splice(s, m.to, spans[1..], r);
      assert s[i..m.from] == [s[i]] + s[i + 1..m.from];
      assert [s[i]] + (s[i + 1..m.from] + r + rest) == s[i..m.from] + r + rest;
    }
  }

  // ----- A pattern-free text is left alone -----

  lemma {:induction false} SubnOfFree(p: Pattern, s: string, i: nat)
    requires i <= |s| && Subn(p, s, i).redactions == 0
    ensures Subn(p, s, i).text == s[i..]
    decreases |s| - i
  {
    hide MatchFrom, MatchAt;
    if i < |s| {
      MatchStep(p, s, i);
      SubnOfFree(p, s, i + 1);
      assert s[i..] == [s[i]] + s[i + 1..];
    }
  }

  lemma {:induction false} SubnCountFrom(p: Pattern, s: string, i: nat)
    requires i <= |s|
    ensures Subn(p, s, i).redactions == 0 <==> NoMatchStarts(p, s, i, |s|)
    decreases |s| - i
  {
    hide MatchFrom, MatchAt;
    if i < |s| {
      MatchStep(p, s, i);
      match MatchFrom(p, s, i)
      case Some(j) => assert MatchAt(p, s, i, j);
      case None =>
        SubnCountFrom(p, s, i + 1);
        if NoMatchStarts(p, s, i + 1, |s|) { NoMatchStartsExtend(p, s, i, |s|); }
    }
  }

  lemma {:induction false} SubnCount(p: Pattern, s: string)
    ensures Subn(p, s, 0).redactions == 0 <==> Free(p, s)
  {
    SubnCountFrom(p, s, 0);
    forall i: nat, j: nat | MatchAt(p, s, i, j) ensures i < |s| { ShapeContent(p, s[i..j]); }
  }

  // ----- One substitution opens no new match -----

  /** For every character of the substituted text: its position in s, or -1 inside a replacement. */
  ghost function Origin(p: Pattern, s: string, i: nat): seq<int>
    requires i <= |s|
    decreases |s| - i
  {
    if i == |s| then []
    else
      MatchStep(p, s, i);
      match MatchFrom(p, s, i)
      case Some(j) => seq(|Replacement(p)|, _ => -1) + Origin(p, s, j)
      case None => [i] + Origin(p, s, i + 1)
  }

  /** A kept character is the original one and starts no match. */
  ghost predicate Kept(p: Pattern, s: string, c: char, o: int) {
    o >= 0 ==> o < |s| && c == s[o] && forall j: nat :: !MatchAt(p, s, o, j)
  }

  /** Two neighbours: kept ones are neighbours in s, and a replacement opens with `[`,
      closes with `]` and stands where s has word boundaries. */
  ghost predicate Neighbours(s: string, c: char, o: int, d: char, q: int) {
    && (o >= 0 && q >= 0 ==> q == o + 1)
    && (o >= 0 && q < 0 ==> d == '[' && o < |s| && Boundary(s, o + 1))
    && (o < 0 && q >= 0 ==> c == ']' && q <= |s| && Boundary(s, q))
  }

  ghost predicate NeighboursAt(s: string, out: string, origin: seq<int>, t: nat)
    requires |out| == |origin|
  {
    t + 1 < |out| ==> Neighbours(s, out[t], origin[t], out[t + 1], origin[t + 1])
  }

  ghost predicate Originates(p: Pattern, s: string, i: nat, out: string, origin: seq<int>)
    requires i <= |s|
  {
    && |out| == |origin|
    && (forall t | 0 <= t < |out| :: Kept(p, s, out[t], origin[t]))
    && (forall t | 0 <= t < |out| :: origin[t] < 0 ==> !IsDigit(out[t]))
    && (forall t: nat :: NeighboursAt(s, out, origin, t))
    && (out == "" ==> i == |s|)
    && (out != "" ==> if origin[0] >= 0 then origin[0] == i else out[0] == '[' && Boundary(s, i))
    && (out != "" && origin[|out| - 1] >= 0 ==> origin[|out| - 1] == |s| - 1)
  }

  lemma {:induction false} ReplacementContent(p: Pattern)
    ensures var r := Replacement(p);
            |r| > 1 && r[0] == '[' && r[|r| - 1] == ']' && forall t | 0 <= t < |r| :: !IsDigit(r[t])
  {
  }

  lemma {:induction false} SubnTraced(p: Pattern, s: string, i: nat)
    requires i <= |s|
    ensures Originates(p, s, i, Subn(p, s, i).text, Origin(p, s, i))
    decreases |s| - i
  {
    hide MatchFrom, MatchAt;
    if i < |s| {
      MatchStep(p, s, i);
      match MatchFrom(p, s, i)
      case Some(j) =>
        SubnTraced(p, s, j);
        TracedAfterMatch(p, s, i, j, Subn(p, s, j).text, Origin(p, s, j));
      case None =>
        SubnTraced(p, s, i + 1);
        TracedAfterKept(p, s, i, Subn(p, s, i + 1).text, Origin(p, s, i + 1));
    }
  }

  lemma {:induction false} TracedAfterKept(p: Pattern, s: string, i: nat, out: string, origin: seq<int>)
    requires i < |s| && Originates(p, s, i + 1, out, origin)
    requires forall j: nat :: !MatchAt(p, s, i, j)
    ensures Originates(p, s, i, [s[i]] + out, [i] + origin)
  {
    var out', origin' := [s[i]] + out, [i] + origin;
    assert Kept(p, s, out'[0], origin'[0]);
    forall t: nat ensures NeighboursAt(s, out', origin', t) {
      if t > 0 { assert NeighboursAt(s, out, origin, t - 1); }
    }
  }

  lemma {:induction false} TracedAfterMatch(p: Pattern, s: string, i: nat, j: nat, out: string, origin: seq<int>)
    requires i <= j <= |s| && MatchAt(p, s, i, j) && Originates(p, s, j, out, origin)
    ensures Originates(p, s, i, Replacement(p) + out, seq(|Replacement(p)|, _ => -1) + origin)
  {
    var r := Replacement(p);
    var out', origin' := r + out, seq(|r|, _ => -1) + origin;
    ReplacementContent(p);
    forall t: nat ensures NeighboursAt(s, out', origin', t) {
      if t >= |r| { assert NeighboursAt(s, out, origin, t - |r|); }
    }
    forall t | 0 <= t < |out'|
      ensures Kept(p, s, out'[t], origin'[t]) && (origin'[t] < 0 ==> !IsDigit(out'[t]))
    {
      if t >= |r| { assert Kept(p, s, out[t - |r|], origin[t - |r|]); }
    }
  }

  /** A bracket-free stretch with one kept character consists of neighbours in s. */
  lemma {:induction false} StretchKept(p: Pattern, s: string, out: string, origin: seq<int>, a: nat, b: nat, d: nat)
    requires Originates(p, s, 0, out, origin) && a <= d < b <= |out|
    requires forall t | a <= t < b :: out[t] != '[' && out[t] != ']'
    requires origin[d] >= 0
    ensures forall t | a <= t < b :: 0 <= origin[t] == origin[d] + (t - d)
  {
    StretchKeptRight(p, s, out, origin, b, d);
    StretchKeptLeft(p, s, out, origin, a, d);
  }

  lemma {:induction false} StretchKeptRight(p: Pattern, s: string, out: string, origin: seq<int>, b: nat, d: nat)
    requires Originates(p, s, 0, out, origin) && d < b <= |out|
    requires forall t | d <= t < b :: out[t] != '[' && out[t] != ']'
    requires origin[d] >= 0
    ensures forall t | d <= t < b :: origin[t] == origin[d] + (t - d)
    decreases b - d
  {
    if d + 1 < b {
      assert NeighboursAt(s, out, origin, d);
      StretchKeptRight(p, s, out, origin, b, d + 1);
    }
  }

  lemma {:induction false} StretchKeptLeft(p: Pattern, s: string, out: string, origin: seq<int>, a: nat, d: nat)
    requires Originates(p, s, 0, out, origin) && a <= d < |out|
    requires forall t | a <= t <= d :: out[t] != '[' && out[t] != ']'
    requires origin[d] >= 0
    ensures forall t | a <= t <= d :: 0 <= origin[t] == origin[d] + (t - d)
    decreases d - a
  {
    if a < d {
      assert NeighboursAt(s, out, origin, d - 1);
      StretchKeptLeft(p, s, out, origin, a, d - 1);
    }
  }

  /** Any match in the substituted text is a match of the original text, at a place the substitution passed over. */
  lemma {:induction false} MatchComesFromOriginal(p: Pattern, q: Pattern, s: string, a: nat, b: nat) returns (k: nat)
    requires MatchAt(q, Subn(p, s, 0).text, a, b)
    ensures MatchAt(q, s, k, k + (b - a))
    ensures forall j: nat :: !MatchAt(p, s, k, j)
  {
    hide Shape, Subn, Origin;
    var out, origin := Subn(p, s, 0).text, Origin(p, s, 0);
    SubnTraced(p, s, 0);
    MatchIsKept(p, q, s, out, origin, a, b);
    k := origin[a];
    OriginalWindow(p, s, out, origin, a, b);
  }

  lemma {:induction false} MatchIsKept(p: Pattern, q: Pattern, s: string, out: string, origin: seq<int>, a: nat, b: nat)
    requires Originates(p, s, 0, out, origin) && MatchAt(q, out, a, b)
    ensures a < b && origin[a] >= 0 && forall u | a <= u < b :: origin[u] == origin[a] + (u - a)
  {
    var w := out[a..b];
    ShapeContent(q, w);
    var t :| 0 <= t < |w| && IsDigit(w[t]);
    assert out[a + t] == w[t];
    forall u | a <= u < b ensures out[u] != '[' && out[u] != ']' { assert w[u - a] == out[u]; assert out[u] in w; }
    StretchKept(p, s, out, origin, a, b, a + t);
    assert Kept(p, s, out[a + t], origin[a + t]);
  }

  lemma {:induction false} WindowText(p: Pattern, s: string, out: string, origin: seq<int>, a: nat, b: nat)
    requires Originates(p, s, 0, out, origin) && a < b <= |out| && origin[a] >= 0
    requires forall u | a <= u < b :: origin[u] == origin[a] + (u - a)
    ensures var k := origin[a]; k + (b - a) <= |s| && s[k..k + (b - a)] == out[a..b]
  {
    hide MatchAt, NeighboursAt;
    var k := origin[a];
    assert Kept(p, s, out[b - 1], origin[b - 1]);
    forall u | 0 <= u < b - a ensures s[k + u] == out[a..b][u] { assert Kept(p, s, out[a + u], origin[a + u]); }
  }

  /** A boundary before a kept character is one before the original character. */
  lemma {:induction false} BoundaryBefore(p: Pattern, s: string, out: string, origin: seq<int>, a: nat)
    requires Originates(p, s, 0, out, origin) && a < |out| && origin[a] >= 0 && Boundary(out, a)
    ensures origin[a] < |s| && Boundary(s, origin[a])
  {
    hide MatchAt;
    assert Kept(p, s, out[a], origin[a]);
    if a > 0 { assert NeighboursAt(s, out, origin, a - 1) && Kept(p, s, out[a - 1], origin[a - 1]); }
  }

  /** A boundary after a kept character is one after the original character. */
  lemma {:induction false} BoundaryAfter(p: Pattern, s: string, out: string, origin: seq<int>, a: nat)
    requires Originates(p, s, 0, out, origin) && a < |out| && origin[a] >= 0 && Boundary(out, a + 1)
    ensures origin[a] < |s| && Boundary(s, origin[a] + 1)
  {
    hide MatchAt;
    assert Kept(p, s, out[a], origin[a]);
    if a + 1 < |out| { assert NeighboursAt(s, out, origin, a) && Kept(p, s, out[a + 1], origin[a + 1]); }
  }

  lemma {:induction false} OriginalWindow(p: Pattern, s: string, out: string, origin: seq<int>, a: nat, b: nat)
    requires Originates(p, s, 0, out, origin) && a < b <= |out| && origin[a] >= 0
    requires forall u | a <= u < b :: origin[u] == origin[a] + (u - a)
    requires Boundary(out, a) && Boundary(out, b)
    ensures var k := origin[a];
            && k + (b - a) <= |s| && s[k..k + (b - a)] == out[a..b]
            && Boundary(s, k) && Boundary(s, k + (b - a))
            && forall j: nat :: !MatchAt(p, s, k, j)
  {
    assert Kept(p, s, out[a], origin[a]);
    hide MatchAt, Boundary, NeighboursAt;
    WindowText(p, s, out, origin, a, b);
    BoundaryBefore(p, s, out, origin, a);
    BoundaryAfter(p, s, out, origin, b - 1);
  }

  /** A substitution clears its own pattern and keeps every cleared one clear. */
  lemma {:induction false} SubnKeepsFree(p: Pattern, q: Pattern, s: string)
    requires p == q || Free(q, s)
    ensures Free(q, Subn(p, s, 0).text)
  {
    forall a: nat, b: nat ensures !MatchAt(q, Subn(p, s, 0).text, a, b) {
      if MatchAt(q, Subn(p, s, 0).text, a, b) {
        var k := MatchComesFromOriginal(p, q, s, a, b);
      }
    }
  }
}
