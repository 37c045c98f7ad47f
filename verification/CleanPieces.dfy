/** Texts made of pieces: at a character no identifier holds, a text is clean exactly when
    both sides are. Paths and anomaly records are such texts. */
module CleanPieces {
  import opened Basics
  import opened Patterns
  import opened Redaction
  import opened Facts
  import opened ObjectStore
  import opened Reconcile
  import opened Json
  import opened Nodes
  import opened CleanTexts

  predicate InIdentifier(c: char) { IsDigit(c) || IsUpper(c) || IsSpace(c) || c == '-' }

  /** Neither part of a word nor of an identifier. */
  predicate Parting(c: char) { !IsWord(c) && !InIdentifier(c) }

  lemma {:induction false} ShapeChars(p: Pattern, w: string)
    requires Shape(p, w)
    ensures w != "" && IsCode(w[0]) && forall c | c in w :: InIdentifier(c)
  {
    match p
    case SsnHyphen => SsnChars(w, Hyphen);
    case SsnSpace => SsnChars(w, Space);
    case Account => assert DigitCount("") == 0;
    case Iban => IbanChars(w);
  }

  lemma {:induction false} SsnChars(w: string, sep: Class)
    requires Matches(w, SsnClasses(sep)) && (sep == Hyphen || sep == Space)
    ensures w != "" && IsCode(w[0]) && forall c | c in w :: InIdentifier(c)
  {
    var ks := SsnClasses(sep);
    assert InClass(w[0], ks[0]);
    forall c | c in w ensures InIdentifier(c) {
      var t :| 0 <= t < |w| && w[t] == c;
      assert InClass(w[t], ks[t]) && ks[t] in {Digit, sep};
    }
  }

  lemma {:induction false} IbanChars(w: string)
    requires Shape(Iban, w)
    ensures w != "" && IsCode(w[0]) && forall c | c in w :: InIdentifier(c)
  {
    var head, ks := w[..4], [Upper, Upper, Digit, Digit];
    assert w == head + w[4..] && InClass(head[0], ks[0]);
    forall c | c in head ensures InIdentifier(c) {
      var t :| 0 <= t < 4 && head[t] == c;
      assert InClass(head[t], ks[t]) && ks[t] in {Upper, Digit};
    }
  }

  // ----- One character in the middle -----

  lemma {:induction false} BoundaryOnLeft(a: string, c: char, b: string, i: nat)
    requires !IsWord(c) && i <= |a|
    ensures Boundary(a + [c] + b, i) == Boundary(a, i)
  {
    var s := a + [c] + b;
    assert i > 0 ==> s[i - 1] == a[i - 1];
    assert s[i] == if i < |a| then a[i] else c;
  }

  lemma {:induction false} BoundaryOnRight(a: string, c: char, b: string, i: nat)
    requires !IsWord(c) && i <= |b|
    ensures Boundary(a + [c] + b, |a| + 1 + i) == Boundary(b, i)
  {
    var s, n := a + [c] + b, |a| + 1 + i;
    assert s[n - 1] == if i > 0 then b[i - 1] else c;
    assert i < |b| ==> s[n] == b[i];
  }

  lemma {:induction false} MatchOnLeft(p: Pattern, a: string, c: char, b: string, i: nat, j: nat)
    requires !IsWord(c) && j <= |a|
    ensures MatchAt(p, a + [c] + b, i, j) <==> MatchAt(p, a, i, j)
  {
    if i <= j {
      BoundaryOnLeft(a, c, b, i);
      BoundaryOnLeft(a, c, b, j);
      hide Shape, Boundary;
      assert (a + [c] + b)[i..j] == a[i..j];
    }
  }

  lemma {:induction false} MatchOnRight(p: Pattern, a: string, c: char, b: string, i: nat, j: nat)
    requires !IsWord(c) && i <= j <= |b|
    ensures MatchAt(p, a + [c] + b, |a| + 1 + i, |a| + 1 + j) <==> MatchAt(p, b, i, j)
  {
    BoundaryOnRight(a, c, b, i);
    BoundaryOnRight(a, c, b, j);
    hide Shape, Boundary;
    assert (a + [c] + b)[|a| + 1 + i..|a| + 1 + j] == b[i..j];
  }

  lemma {:induction false} NoFit(p: Pattern, s: string, i: nat, j: nat)
    requires !(i <= j <= |s|)
    ensures !MatchAt(p, s, i, j)
  {
  }

  /** A match opens with a digit or capital and holds nothing foreign to identifiers. */
  lemma {:induction false} MatchHolds(p: Pattern, s: string, i: nat, j: nat)
    requires MatchAt(p, s, i, j)
    ensures i < j <= |s| && IsCode(s[i]) && forall t | i <= t < j :: InIdentifier(s[t])
  {
    var w := s[i..j];
    ShapeChars(p, w);
    hide Shape, Boundary;
    forall t | i <= t < j ensures InIdentifier(s[t]) {
      assert s[t] == w[t - i];
      assert w[t - i] in w;
    }
  }

  lemma {:induction false} CleanOnLeft(a: string, c: char, b: string)
    requires !IsWord(c) && Clean(a + [c] + b)
    ensures Clean(a)
  {
    hide MatchAt;
    forall p: Pattern, i: nat, j: nat ensures !MatchAt(p, a, i, j) {
      if i <= j <= |a| {
        assert Free(p, a + [c] + b);
        MatchOnLeft(p, a, c, b, i, j);
      } else {
        NoFit(p, a, i, j);
      }
    }
  }

  lemma {:induction false} CleanOnRight(a: string, c: char, b: string)
    requires !IsWord(c) && Clean(a + [c] + b)
    ensures Clean(b)
  {
    hide MatchAt;
    forall p: Pattern, i: nat, j: nat ensures !MatchAt(p, b, i, j) {
      if i <= j <= |b| {
        assert Free(p, a + [c] + b);
        MatchOnRight(p, a, c, b, i, j);
      } else {
        NoFit(p, b, i, j);
      }
    }
  }

  /** No match reaches over a parting character. */
  lemma {:induction false} NoneAcross(p: Pattern, a: string, c: char, b: string, i: nat, j: nat)
    requires Parting(c) && i <= |a| < j
    ensures !MatchAt(p, a + [c] + b, i, j)
  {
    var s := a + [c] + b;
    assert s[|a|] == c;
    if MatchAt(p, s, i, j) { MatchHolds(p, s, i, j); }
  }

  /** No match is empty. */
  lemma {:induction false} NoneEmpty(p: Pattern, s: string, i: nat, j: nat)
    requires i >= j
    ensures !MatchAt(p, s, i, j)
  {
    if MatchAt(p, s, i, j) { MatchHolds(p, s, i, j); }
  }

  lemma {:induction false} BothClean(a: string, c: char, b: string)
    requires Parting(c) && Clean(a) && Clean(b)
    ensures Clean(a + [c] + b)
  {
    var s := a + [c] + b;
    assert !IsWord(c);
    hide MatchAt, Parting;
    forall p: Pattern, i: nat, j: nat ensures !MatchAt(p, s, i, j) {
      if i >= j {
        NoneEmpty(p, s, i, j);
      } else if j <= |a| {
        assert Free(p, a);
        MatchOnLeft(p, a, c, b, i, j);
      } else if i <= |a| {
        NoneAcross(p, a, c, b, i, j);
      } else if j <= |s| {
        assert Free(p, b);
        MatchOnRight(p, a, c, b, i - |a| - 1, j - |a| - 1);
      } else {
        NoFit(p, s, i, j);
      }
    }
  }

  /** At a parting character a text is clean exactly when both sides are. */
  lemma {:induction false} PartedClean(a: string, c: char, b: string)
    requires Parting(c)
    ensures Clean(a + [c] + b) <==> Clean(a) && Clean(b)
  {
    assert !IsWord(c);
    hide Clean, Parting;
    if Clean(a + [c] + b) {
      CleanOnLeft(a, c, b);
      CleanOnRight(a, c, b);
    } else if Clean(a) && Clean(b) {
      BothClean(a, c, b);
    }
  }

  lemma {:induction false} NoneAtLead(p: Pattern, c: char, b: string, j: nat)
    requires !IsWord(c)
    ensures !MatchAt(p, [c] + b, 0, j)
  {
    if MatchAt(p, [c] + b, 0, j) { MatchHolds(p, [c] + b, 0, j); }
  }

  lemma {:induction false} StillClean(c: char, b: string)
    requires !IsWord(c) && Clean(b)
    ensures Clean([c] + b)
  {
    hide MatchAt;
    assert "" + [c] + b == [c] + b;
    forall p: Pattern, i: nat, j: nat ensures !MatchAt(p, [c] + b, i, j) {
      if i == 0 {
        NoneAtLead(p, c, b, j);
      } else if i <= j <= |b| + 1 {
        assert Free(p, b);
        MatchOnRight(p, "", c, b, i - 1, j - 1);
      } else {
        NoFit(p, [c] + b, i, j);
      }
    }
  }

  /** A character outside words in front changes nothing: identifiers begin in a word. */
  lemma {:induction false} LedClean(c: char, b: string)
    requires !IsWord(c)
    ensures Clean([c] + b) <==> Clean(b)
  {
    hide Clean;
    assert "" + [c] + b == [c] + b;
    if Clean([c] + b) { CleanOnRight("", c, b); } else if Clean(b) { StillClean(c, b); }
  }

  lemma {:induction false} BracketClean(c: char, s: string, d: char)
    requires Parting(c) && Parting(d)
    ensures Clean([c] + s + [d]) <==> Clean(s)
  {
    hide Clean;
    NothingClean();
    PartedClean([c] + s, d, "");
    PartedClean("", c, s);
    assert [c] + s + [d] + "" == [c] + s + [d] && "" + [c] + s == [c] + s;
  }

  lemma {:induction false} NothingClean()
    ensures Clean("")
  {
    FewCodesClean("");
  }

  lemma {:induction false} NoCodesClean(s: string)
    requires forall c | c in s :: !IsCode(c)
    ensures Clean(s)
  {
    hide Clean;
    CodesNone(s);
    FewCodesClean(s);
  }

  // ----- Paths -----

  /** A path is clean exactly when each of its segments is. */
  lemma {:induction false} SlashedClean(location: Location)
    ensures Clean(Slashed(location)) <==> forall segment | segment in location :: Clean(segment)
  {
    hide Clean;
    if location == [] {
      NothingClean();
    } else {
      var n := |location| - 1;
      SlashedClean(location[..n]);
      PartedClean(Slashed(location[..n]), '/', location[n]);
      assert location == location[..n] + [location[n]];
      assert "/" == ['/'];
    }
  }

  lemma {:induction false} MissingFrontClean()
    ensures Clean("Stored file missing " + "on disk")
  {
    hide Codes, Clean;
    OneThenNone('S', "tored file missing ");
    assert ['S'] + "tored file missing " == "Stored file missing ";
    CodesNone("on disk");
    CodesAppend("Stored file missing ", "on disk");
    FewCodesClean("Stored file missing " + "on disk");
  }

  lemma {:induction false} ReportClean(front: string, text: string)
    requires Clean(front)
    ensures Clean(front + ": " + text) <==> Clean(text)
  {
    hide Clean;
    PartedClean(front, ':', [' '] + text);
    LedClean(' ', text);
    assert front + ": " + text == front + [':'] + ([' '] + text);
  }

  lemma {:induction false} MissingFileClean(location: Location)
    ensures Clean(MISSING_FILE + PathText(location)) <==> forall segment | segment in location :: Clean(segment)
  {
    MissingFrontClean();
    hide Clean;
    ReportClean("Stored file missing " + "on disk", PathText(location));
    if location == [] { NoCodesClean("/"); } else { SlashedClean(location); }
  }

  lemma {:induction false} RemoteCodes()
    ensures Codes("Document is remotely hosted ") <= 1
  {
    hide Codes;
    OneThenNone('D', "ocument is remotely hosted ");
    assert ['D'] + "ocument is remotely hosted " == "Document is remotely hosted ";
  }

  lemma {:induction false} UntrustedClean()
    ensures Clean(UNTRUSTED_PATH)
  {
    hide Codes, Clean;
    var a, b, c, d, e := "Document is remotely hosted ", "or its storage path is ", "untrusted; fetch ", "not supported in ", "MVP.";
    RemoteCodes();
    CodesNone(b);
    CodesNone(c);
    CodesNone(d);
    CodesAtMost(e);
    CodesAppend(a, b);
    CodesAppend(a + b, c);
    CodesAppend(a + b + c, d);
    CodesAppend(a + b + c + d, e);
    FewCodesClean(UNTRUSTED_PATH);
  }

  lemma {:induction false} CodesAtMost(s: string)
    ensures Codes(s) <= |s|
  {
    if s != "" { CodesAtMost(s[1..]); }
  }

  // ----- Anomaly records -----

  ghost predicate ValueClean(py: Python, v: Value) {
    match v
    case Null => true
    case Num(r) => Clean(py.showFloat(r))
    case Text(s) => Clean(Escaped(s))
  }

  ghost predicate VarianceClean(py: Python, variance: Option<real>) {
    variance.Some? ==> Clean(py.showFloat(py.round2(variance.value * 100.0)))
  }

  lemma {:induction false} QuotedClean(s: string)
    ensures Clean(Quoted(s)) <==> Clean(Escaped(s))
  {
    hide Clean, Escaped;
    BracketClean('"', Escaped(s), '"');
    assert "\"" == ['"'];
  }

  lemma {:induction false} NullClean()
    ensures Clean("null")
  {
    NoCodesClean("null");
  }

  lemma {:induction false} ValueTextClean(py: Python, v: Value)
    ensures Clean(ValueText(py, v)) <==> ValueClean(py, v)
  {
    hide Clean, Escaped, Quoted;
    NullClean();
    if v.Text? { QuotedClean(v.s); }
  }

  lemma {:induction false} VarianceTextClean(py: Python, variance: Option<real>)
    ensures Clean(VarianceText(py, variance)) <==> VarianceClean(py, variance)
  {
    hide Clean;
    NullClean();
  }

  lemma {:induction false} MemberClean(name: string, value: string)
    requires forall c | c in name :: !IsCode(c)
    ensures Clean(Member(name, value)) <==> Clean(value)
  {
    hide Clean;
    var front := "\"" + name + "\"";
    NoCodesClean(front);
    PartedClean(front, ':', [' '] + value);
    LedClean(' ', value);
    assert Member(name, value) == front + [':'] + ([' '] + value);
  }

  lemma {:induction false} CommaClean(a: string, b: string)
    ensures Clean(a + ", " + b) <==> Clean(a) && Clean(b)
  {
    hide Clean;
    PartedClean(a, ',', [' '] + b);
    LedClean(' ', b);
    assert a + ", " + b == a + [','] + ([' '] + b);
  }

  /** The record of an anomaly on a known key is clean exactly when its two values, its
      document's identifier and its variance are. */
  lemma {:induction false} AnomalyTextClean(py: Python, anomaly: Anomaly)
    requires anomaly.key in KNOWN_FACT_KEYS && IsUuidText(anomaly.documentId)
    ensures Clean(AnomalyText(py, anomaly))
       <==> ValueClean(py, anomaly.stated) && ValueClean(py, anomaly.documented)
            && Clean(anomaly.documentId) && VarianceClean(py, anomaly.variance)
  {
    hide Clean, ValueText, VarianceText, Quoted, Member, Escaped, ValueClean, VarianceClean;
    var k, s, d, i, v := Quoted(anomaly.key), ValueText(py, anomaly.stated), ValueText(py, anomaly.documented),
                         Quoted(anomaly.documentId), VarianceText(py, anomaly.variance);
    KnownKeyClean(anomaly.key);
    ValueTextClean(py, anomaly.stated);
    ValueTextClean(py, anomaly.documented);
    QuotedClean(anomaly.documentId);
    PlainStays(anomaly.documentId);
    VarianceTextClean(py, anomaly.variance);
    NamesClean(k, s, d, i, v);
    var m4 := Member("document_id", i) + ", " + Member("variance_pct", v);
    var m3 := Member("document_value", d) + ", " + m4;
    var m2 := Member("stated_value", s) + ", " + m3;
    CommaClean(Member("document_id", i), Member("variance_pct", v));
    CommaClean(Member("document_value", d), m4);
    CommaClean(Member("stated_value", s), m3);
    CommaClean(Member("key", k), m2);
    BracketClean('{', Member("key", k) + ", " + m2, '}');
    assert "{" == ['{'] && "}" == ['}'];
  }

  lemma {:induction false} NamesClean(k: string, s: string, d: string, i: string, v: string)
    ensures Clean(Member("key", k)) <==> Clean(k)
    ensures Clean(Member("stated_value", s)) <==> Clean(s)
    ensures Clean(Member("document_value", d)) <==> Clean(d)
    ensures Clean(Member("document_id", i)) <==> Clean(i)
    ensures Clean(Member("variance_pct", v)) <==> Clean(v)
  {
    hide Clean, Member;
    MemberClean("key", k);
    MemberClean("stated_value", s);
    MemberClean("document_value", d);
    MemberClean("document_id", i);
    MemberClean("variance_pct", v);
  }

  lemma {:induction false} KnownKeyClean(key: string)
    requires key in KNOWN_FACT_KEYS
    ensures Clean(Quoted(key))
  {
    hide Clean, Escaped;
    assert forall c | c in key :: IsPlain(c) && !IsCode(c);
    PlainStays(key);
    QuotedClean(key);
    NoCodesClean(key);
  }
}
