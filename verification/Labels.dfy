/** What stands in place of an identifier: a lone one becomes its label, and parts of a text
    that a foreign character keeps apart are redacted as if each stood alone. */
module Labels {
  import opened Basics
  import opened Patterns
  import opened Redaction
  import opened CleanTexts
  import opened CleanPieces

  predicate Numeral(c: char) { '0' <= c <= '9' }

  predicate Capital(c: char) { 'A' <= c <= 'Z' }

  /** What `\s` takes, by its ASCII code. */
  predicate WhiteSpace(c: char) { 9 <= c as int <= 13 || 28 <= c as int <= 32 }

  // ----- The identifiers, character by character -----

  predicate NineDigits(w: string) { |w| == 11 && forall t | 0 <= t < 11 && t != 3 && t != 6 :: Numeral(w[t]) }

  predicate HyphenSsn(w: string) { NineDigits(w) && w[3] == '-' && w[6] == '-' }

  predicate SpaceSsn(w: string) { NineDigits(w) && WhiteSpace(w[3]) && WhiteSpace(w[6]) }

  /** 13 to 19 digits, a space or hyphen after any of them. */
  ghost predicate AccountNumber(w: string) {
    && w != "" && Numeral(w[0]) && 13 <= |Numerals(w)| <= 19
    && (forall t | 0 <= t < |w| :: Numeral(w[t]) || w[t] == ' ' || w[t] == '-')
    && (forall t | 0 <= t < |w| - 1 :: Numeral(w[t]) || Numeral(w[t + 1]))
  }

  ghost function Numerals(w: string): set<int> { set t | 0 <= t < |w| && Numeral(w[t]) }

  predicate IbanNumber(w: string) {
    && 15 <= |w| <= 34 && Capital(w[0]) && Capital(w[1]) && Numeral(w[2]) && Numeral(w[3])
    && forall t | 4 <= t < |w| :: Capital(w[t]) || Numeral(w[t])
  }

  lemma {:induction false} ClassesAre(c: char)
    ensures InClass(c, Digit) <==> Numeral(c)
    ensures InClass(c, Upper) <==> Capital(c)
    ensures InClass(c, UpperOrDigit) <==> Capital(c) || Numeral(c)
    ensures InClass(c, Space) <==> WhiteSpace(c)
    ensures InClass(c, Separator) <==> c == ' ' || c == '-'
    ensures InClass(c, Hyphen) <==> c == '-'
  {
  }

  lemma {:induction false} SsnExactly(w: string)
    ensures Shape(SsnHyphen, w) <==> HyphenSsn(w)
    ensures Shape(SsnSpace, w) <==> SpaceSsn(w)
  {
    forall c ensures InClass(c, Digit) <==> Numeral(c) { ClassesAre(c); }
    SsnMatches(w, Hyphen);
    SsnMatches(w, Space);
    if |w| == 11 {
      ClassesAre(w[3]);
      ClassesAre(w[6]);
    }
    hide InClass, Numeral, WhiteSpace, Matches;
  }

  lemma {:induction false} SsnMatches(w: string, sep: Class)
    ensures Matches(w, SsnClasses(sep)) <==> NineDigits(w) && InClass(w[3], sep) && InClass(w[6], sep)
  {
    var ks := SsnClasses(sep);
    forall c ensures InClass(c, Digit) <==> Numeral(c) { ClassesAre(c); }
    hide InClass, Numeral;
    if Matches(w, ks) {
      forall t | 0 <= t < 11 && t != 3 && t != 6 ensures Numeral(w[t]) { assert InClass(w[t], ks[t]); }
      assert InClass(w[3], ks[3]) && InClass(w[6], ks[6]);
    }
  }

  lemma {:induction false} IbanExactly(w: string)
    ensures Shape(Iban, w) <==> IbanNumber(w)
  {
    forall c ensures (InClass(c, Digit) <==> Numeral(c)) && (InClass(c, Upper) <==> Capital(c))
      ensures InClass(c, UpperOrDigit) <==> Capital(c) || Numeral(c) { ClassesAre(c); }
    hide InClass, Numeral, Capital;
    if 15 <= |w| <= 34 {
      FrontIs(w);
      assert AllIn(w[4..], UpperOrDigit) <==> forall t | 4 <= t < |w| :: InClass(w[t], UpperOrDigit) by {
        assert forall t | 4 <= t < |w| :: w[t] == w[4..][t - 4] && w[t] in w[4..];
        assert forall t | 0 <= t < |w| - 4 :: w[4..][t] == w[t + 4];
      }
    }
  }

  lemma {:induction false} FrontIs(w: string)
    requires |w| >= 4
    ensures Matches(w[..4], [Upper, Upper, Digit, Digit])
       <==> InClass(w[0], Upper) && InClass(w[1], Upper) && InClass(w[2], Digit) && InClass(w[3], Digit)
  {
    hide InClass;
    var head, ks := w[..4], [Upper, Upper, Digit, Digit];
    if Matches(head, ks) {
      assert InClass(head[0], ks[0]) && InClass(head[1], ks[1]) && InClass(head[2], ks[2]) && InClass(head[3], ks[3]);
    }
  }

  lemma {:induction false} CountLast(w: string)
    requires w != ""
    ensures DigitCount(w) == DigitCount(w[..|w| - 1]) + if IsDigit(w[|w| - 1]) then 1 else 0
  {
    if |w| > 1 {
      CountLast(w[1..]);
      assert w[1..][..|w| - 2] == w[..|w| - 1][1..];
    }
  }

  lemma {:induction false} CountIs(w: string)
    ensures |Numerals(w)| == DigitCount(w)
  {
    if w == "" {
      assert Numerals(w) == {};
    } else {
      var n := |w| - 1;
      CountIs(w[..n]);
      CountLast(w);
      assert forall t | 0 <= t < n :: w[..n][t] == w[t];
      assert Numerals(w) == Numerals(w[..n]) + if Numeral(w[n]) then {n} else {};
    }
  }

  lemma {:induction false} AccountExactly(w: string)
    ensures Shape(Account, w) <==> AccountNumber(w)
  {
    CountIs(w);
    forall c ensures (IsDigit(c) <==> Numeral(c)) && (InClass(c, Separator) <==> c == ' ' || c == '-') { ClassesAre(c); }
    hide InClass, Numeral, Numerals, DigitCount, Grouped;
    GroupedIs(w);
  }

  lemma {:induction false} GroupedIs(w: string)
    ensures Grouped(w) <==>
              && (w != "" ==> IsDigit(w[0]))
              && (forall t | 0 <= t < |w| :: IsDigit(w[t]) || InClass(w[t], Separator))
              && (forall t | 0 <= t < |w| - 1 :: IsDigit(w[t]) || IsDigit(w[t + 1]))
  {
    hide InClass, IsDigit;
    assert forall t | 0 <= t < |w| :: w[t] in w;
    if Grouped(w) {
      forall t | 0 <= t < |w| - 1 ensures IsDigit(w[t]) || IsDigit(w[t + 1]) { assert DigitNear(w, t); }
    }
  }

  // ----- One identifier alone -----

  lemma {:induction false} FreeStep(p: Pattern, w: string)
    requires Free(p, w)
    ensures Subn(p, w, 0) == RedactionResult(w, 0)
  {
    SubnCount(p, w);
    SubnOfFree(p, w, 0);
    hide Subn, Free;
    assert w[0..] == w;
  }

  lemma {:induction false} Found(p: Pattern, s: string, i: nat, j: nat)
    requires i <= |s| && MatchAt(p, s, i, j)
    ensures MatchFrom(p, s, i).Some? && j <= MatchFrom(p, s, i).value
  {
    hide MatchFrom, MatchAt;
    MatchStep(p, s, i);
  }

  lemma {:induction false} FoundIs(p: Pattern, s: string, i: nat)
    requires i <= |s| && MatchFrom(p, s, i).Some?
    ensures i < MatchFrom(p, s, i).value <= |s| && MatchAt(p, s, i, MatchFrom(p, s, i).value)
  {
    hide MatchFrom, MatchAt;
    MatchStep(p, s, i);
  }

  lemma {:induction false} WholeStep(p: Pattern, w: string)
    requires w != "" && MatchAt(p, w, 0, |w|)
    ensures Subn(p, w, 0) == RedactionResult(Replacement(p), 1)
  {
    hide MatchAt, MatchFrom, Replacement;
    Found(p, w, 0, |w|);
    FoundIs(p, w, 0);
    assert Subn(p, w, |w|) == RedactionResult("", 0);
    assert Replacement(p) + "" == Replacement(p);
  }

  lemma {:induction false} MatchHasDigit(p: Pattern, s: string, i: nat, j: nat)
    requires MatchAt(p, s, i, j)
    ensures exists t | 0 <= t < |s| :: IsDigit(s[t]) && s[t] in s
  {
    ShapeContent(p, s[i..j]);
    var t :| 0 <= t < j - i && IsDigit(s[i..j][t]);
    assert IsDigit(s[i + t]) && s[i + t] in s;
  }

  lemma {:induction false} NoDigitsClean(s: string)
    requires forall c | c in s :: !IsDigit(c)
    ensures Clean(s)
  {
    hide MatchAt, IsDigit;
    forall p: Pattern, i: nat, j: nat ensures !MatchAt(p, s, i, j) {
      if MatchAt(p, s, i, j) { MatchHasDigit(p, s, i, j); }
    }
  }

  lemma {:induction false} LabelClean(p: Pattern)
    ensures Clean(Replacement(p))
  {
    ReplacementContent(p);
    hide Clean;
    NoDigitsClean(Replacement(p));
  }

  lemma {:induction false} LoneMatch(k: nat, n: nat, w: string)
    requires k <= n < |PATTERNS| && ClearedUpTo(n, w) && w != "" && MatchAt(PATTERNS[n], w, 0, |w|)
    ensures RedactFrom(k, RedactionResult(w, 0)) == RedactionResult(Replacement(PATTERNS[n]), 1)
    decreases n - k
  {
    hide MatchAt, Subn, Free, Replacement;
    if k < n {
      FreeStep(PATTERNS[k], w);
      LoneMatch(k + 1, n, w);
    } else {
      var p := PATTERNS[n];
      WholeStep(p, w);
      LabelClean(p);
      AllPatterns(Replacement(p));
      RedactFromCount(n + 1, RedactionResult(Replacement(p), 1));
    }
  }

  lemma {:induction false} NoSsnIn(w: string, i: nat, j: nat)
    requires MatchAt(SsnHyphen, w, i, j) || MatchAt(SsnSpace, w, i, j)
    ensures SsnAt(w, i) && j == i + 11
  {
    SsnExactly(w[i..j]);
    hide Shape;
    var v := w[i..j];
    assert Numeral(v[0]) && Numeral(v[10]) && v[0] == w[i] && v[10] == w[i + 10];
  }

  /** A social security number at t, with no digit right before or after it. */
  predicate SsnAt(w: string, t: nat) {
    && t + 11 <= |w| && (HyphenSsn(w[t..t + 11]) || SpaceSsn(w[t..t + 11]))
    && (t > 0 ==> !Numeral(w[t - 1])) && (t + 11 < |w| ==> !Numeral(w[t + 11]))
  }

  lemma {:induction false} WholeWord(p: Pattern, w: string)
    requires Shape(p, w) && w != "" && IsWord(w[0]) && IsWord(w[|w| - 1])
    ensures MatchAt(p, w, 0, |w|)
  {
    hide Shape;
    assert w[0..|w|] == w;
  }

  lemma {:induction false} HyphensThroughout(w: string, i: nat, j: nat)
    requires |w| == 11 && MatchAt(SsnHyphen, w, i, j)
    ensures HyphenSsn(w)
  {
    SsnExactly(w[i..j]);
    hide Shape;
    assert w[0..11] == w;
  }

  lemma {:induction false} LoneSsn(w: string)
    requires HyphenSsn(w) || SpaceSsn(w)
    ensures Redact(w) == RedactionResult("[SSN_REDACTED]", 1)
  {
    SsnExactly(w);
    var n := if HyphenSsn(w) then 0 else 1;
    assert Numeral(w[0]) && Numeral(w[10]) && Shape(PATTERNS[n], w);
    WholeWord(PATTERNS[n], w);
    hide Shape, MatchAt, HyphenSsn;
    if n == 1 {
      forall i: nat, j: nat ensures !MatchAt(SsnHyphen, w, i, j) {
        if MatchAt(SsnHyphen, w, i, j) { HyphensThroughout(w, i, j); }
      }
    }
    assert Replacement(PATTERNS[n]) == "[SSN_REDACTED]";
    assert ClearedUpTo(n, w);
    LoneMatch(0, n, w);
  }

  lemma {:induction false} LoneAccount(w: string)
    requires AccountNumber(w) && Numeral(w[|w| - 1]) && forall t: nat :: !SsnAt(w, t)
    ensures Redact(w) == RedactionResult("[ACCOUNT_NUMBER_REDACTED]", 1)
  {
    AccountExactly(w);
    hide AccountNumber, SsnAt;
    forall i: nat, j: nat ensures !MatchAt(SsnHyphen, w, i, j) && !MatchAt(SsnSpace, w, i, j) {
      if MatchAt(SsnHyphen, w, i, j) || MatchAt(SsnSpace, w, i, j) { NoSsnIn(w, i, j); }
    }
    assert w != "" && IsDigit(w[0]) && IsDigit(w[|w| - 1]);
    WholeWord(Account, w);
    hide Shape, MatchAt;
    assert PATTERNS[2] == Account && PATTERNS[0] == SsnHyphen && PATTERNS[1] == SsnSpace;
    assert ClearedUpTo(2, w);
    LoneMatch(0, 2, w);
  }

  lemma {:induction false} OneWordBoundary(w: string, i: nat)
    requires (forall c | c in w :: IsWord(c)) && i <= |w| && Boundary(w, i)
    ensures i == 0 || i == |w|
  {
    hide IsWord;
    assert forall t | 0 <= t < |w| :: w[t] in w;
  }

  lemma {:induction false} OneWordMatch(p: Pattern, w: string, i: nat, j: nat)
    requires (forall c | c in w :: IsWord(c)) && MatchAt(p, w, i, j)
    ensures Shape(p, w)
  {
    MatchHolds(p, w, i, j);
    OneWordBoundary(w, i);
    OneWordBoundary(w, j);
    hide Shape, IsWord;
    assert w[0..|w|] == w;
  }

  lemma {:induction false} LoneIban(w: string)
    requires IbanNumber(w)
    ensures Redact(w) == RedactionResult("[IBAN_REDACTED]", 1)
  {
    IbanExactly(w);
    forall c | c in w ensures IsWord(c) {
      var t :| 0 <= t < |w| && w[t] == c;
      assert t >= 4 ==> Capital(w[t]) || Numeral(w[t]);
    }
    SsnExactly(w);
    AccountExactly(w);
    assert !Numeral(w[0]) && w[0] in w && w[|w| - 1] in w;
    assert !Shape(SsnHyphen, w) && !Shape(SsnSpace, w) && !Shape(Account, w);
    WholeWord(Iban, w);
    hide Shape, MatchAt, IbanNumber, AccountNumber, IsWord;
    forall p: Pattern, i: nat, j: nat | p != Iban ensures !MatchAt(p, w, i, j) {
      if MatchAt(p, w, i, j) { OneWordMatch(p, w, i, j); }
    }
    assert PATTERNS[3] == Iban;
    assert ClearedUpTo(3, w);
    LoneMatch(0, 3, w);
  }

  /** A lone identifier becomes its label, counted once. An account number must not hold a
      social security number, which would be found first. */
  lemma {:induction false} LoneIdentifier(w: string)
    ensures HyphenSsn(w) || SpaceSsn(w) ==> Redact(w) == RedactionResult("[SSN_REDACTED]", 1)
    ensures AccountNumber(w) && Numeral(w[|w| - 1]) && (forall t: nat :: !SsnAt(w, t)) ==>
              Redact(w) == RedactionResult("[ACCOUNT_NUMBER_REDACTED]", 1)
    ensures IbanNumber(w) ==> Redact(w) == RedactionResult("[IBAN_REDACTED]", 1)
  {
    hide Redact, SsnAt, Numerals, IbanNumber, HyphenSsn, SpaceSsn;
    if HyphenSsn(w) || SpaceSsn(w) { LoneSsn(w); }
    if AccountNumber(w) && Numeral(w[|w| - 1]) && (forall t: nat :: !SsnAt(w, t)) { LoneAccount(w); }
    if IbanNumber(w) { LoneIban(w); }
  }

  // ----- Parts of a text -----

  /** Neither letter, digit, underscore, white space nor hyphen. */
  predicate Apart(c: char) {
    !('a' <= c <= 'z') && !Capital(c) && !Numeral(c) && c != '_' && !WhiteSpace(c) && c != '-'
  }

  lemma {:induction false} ApartIsParting(c: char)
    ensures Apart(c) <==> Parting(c)
  {
  }

  lemma {:induction false} MatchEnds(p: Pattern, a: string, c: char, b: string, i: nat, j: nat)
    requires Parting(c) && i <= |a| && MatchAt(p, a + [c] + b, i, j)
    ensures i < j <= |a|
  {
    var s := a + [c] + b;
    MatchHolds(p, s, i, j);
    assert s[|a|] == c;
    assert !IsCode(c) && !InIdentifier(c);
  }

  lemma {:induction false} SameFromLeft(p: Pattern, a: string, c: char, b: string, i: nat)
    requires Parting(c) && i < |a|
    ensures MatchFrom(p, a + [c] + b, i) == MatchFrom(p, a, i)
  {
    hide MatchFrom, MatchAt, Parting, IsWord, Apart;
    var s := a + [c] + b;
    ApartIsParting(c);
    NotInWord(c);
    if MatchFrom(p, a, i).Some? {
      var j := MatchFrom(p, a, i).value;
      FoundIs(p, a, i);
      MatchOnLeft(p, a, c, b, i, j);
      Found(p, s, i, j);
    }
    if MatchFrom(p, s, i).Some? {
      var j := MatchFrom(p, s, i).value;
      FoundIs(p, s, i);
      MatchEnds(p, a, c, b, i, j);
      MatchOnLeft(p, a, c, b, i, j);
      Found(p, a, i, j);
    }
  }

  lemma {:induction false} NotInWord(c: char)
    requires Apart(c)
    ensures !IsWord(c)
  {
  }

  lemma {:induction false} SameFromRight(p: Pattern, a: string, c: char, b: string, i: nat)
    requires Parting(c) && i < |b|
    ensures MatchFrom(p, a + [c] + b, |a| + 1 + i).None? <==> MatchFrom(p, b, i).None?
    ensures MatchFrom(p, b, i).Some? ==> MatchFrom(p, a + [c] + b, |a| + 1 + i) == Some(|a| + 1 + MatchFrom(p, b, i).value)
  {
    hide MatchFrom, MatchAt, Parting, IsWord, Apart;
    var s, n := a + [c] + b, |a| + 1;
    ApartIsParting(c);
    NotInWord(c);
    if MatchFrom(p, b, i).Some? {
      var j := MatchFrom(p, b, i).value;
      FoundIs(p, b, i);
      MatchOnRight(p, a, c, b, i, j);
      Found(p, s, n + i, n + j);
    }
    if MatchFrom(p, s, n + i).Some? {
      var j := MatchFrom(p, s, n + i).value;
      FoundIs(p, s, n + i);
      MatchOnRight(p, a, c, b, i, j - n);
      Found(p, b, i, j - n);
    }
  }

  lemma {:induction false} SubnRight(p: Pattern, a: string, c: char, b: string, i: nat)
    requires Parting(c) && i <= |b|
    ensures Subn(p, a + [c] + b, |a| + 1 + i) == Subn(p, b, i)
    decreases |b| - i
  {
    hide MatchFrom, Parting, Replacement;
    var s := a + [c] + b;
    if i < |b| {
      SameFromRight(p, a, c, b, i);
      MatchStep(p, b, i);
      match MatchFrom(p, b, i)
      case Some(j) => SubnRight(p, a, c, b, j);
      case None =>
        SubnRight(p, a, c, b, i + 1);
        assert s[|a| + 1 + i] == b[i];
    }
  }

  lemma {:induction false} NoneAtPart(p: Pattern, a: string, c: char, b: string)
    requires Parting(c)
    ensures MatchFrom(p, a + [c] + b, |a|) == None
  {
    var s := a + [c] + b;
    hide MatchFrom, MatchAt, Parting;
    if MatchFrom(p, s, |a|).Some? {
      FoundIs(p, s, |a|);
      MatchEnds(p, a, c, b, |a|, MatchFrom(p, s, |a|).value);
    }
  }

  lemma {:induction false} SubnAtPart(p: Pattern, a: string, c: char, b: string)
    requires Parting(c)
    ensures Subn(p, a + [c] + b, |a|) == RedactionResult([c] + Subn(p, b, 0).text, Subn(p, b, 0).redactions)
  {
    var s := a + [c] + b;
    NoneAtPart(p, a, c, b);
    SubnRight(p, a, c, b, 0);
    hide MatchFrom, MatchAt, Parting, Replacement;
    assert s[|a|] == c;
  }

  lemma {:induction false} SubnLeft(p: Pattern, a: string, c: char, b: string, i: nat)
    requires Parting(c) && i <= |a|
    ensures var left, right := Subn(p, a, i), Subn(p, b, 0);
            Subn(p, a + [c] + b, i) == RedactionResult(left.text + [c] + right.text, left.redactions + right.redactions)
    decreases |a| - i
  {
    hide MatchFrom, Parting, Replacement;
    var s, right := a + [c] + b, Subn(p, b, 0);
    if i == |a| {
      SubnAtPart(p, a, c, b);
      assert "" + [c] + right.text == [c] + right.text;
    } else {
      SameFromLeft(p, a, c, b, i);
      MatchStep(p, a, i);
      match MatchFrom(p, a, i)
      case Some(j) =>
        SubnLeft(p, a, c, b, j);
        Together(Replacement(p), Subn(p, a, j).text, [c], right.text);
      case None =>
        SubnLeft(p, a, c, b, i + 1);
        assert s[i] == a[i];
        Together([a[i]], Subn(p, a, i + 1).text, [c], right.text);
    }
  }

  lemma {:induction false} Together(x: string, y: string, c: string, z: string)
    ensures x + (y + c + z) == x + y + c + z
  {
  }

  lemma {:induction false} RedactFromParted(n: nat, a: string, x: nat, c: char, b: string, y: nat)
    requires n <= |PATTERNS| && Parting(c)
    ensures var left, right := RedactFrom(n, RedactionResult(a, x)), RedactFrom(n, RedactionResult(b, y));
            RedactFrom(n, RedactionResult(a + [c] + b, x + y))
            == RedactionResult(left.text + [c] + right.text, left.redactions + right.redactions)
    decreases |PATTERNS| - n
  {
    hide Subn, Parting;
    if n < |PATTERNS| {
      SubnLeft(PATTERNS[n], a, c, b, 0);
      var left, right := Subn(PATTERNS[n], a, 0), Subn(PATTERNS[n], b, 0);
      RedactFromParted(n + 1, left.text, x + left.redactions, c, right.text, y + right.redactions);
    }
  }

  /** At a character foreign to words and identifiers a text may be cut, and its parts
      redacted alone. */
  lemma {:induction false} PartsApart(a: string, c: char, b: string)
    requires Apart(c)
    ensures Redact(a + [c] + b) == RedactionResult(Redact(a).text + [c] + Redact(b).text, Redact(a).redactions + Redact(b).redactions)
  {
    ApartIsParting(c);
    RedactFromParted(0, a, 0, c, b, 0);
    hide RedactFrom;
  }
}
