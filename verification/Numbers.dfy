/** How numbers may be written: spaces around, dollars in front and commas between digits
    change nothing about what is read, stored or reported, as far as that is so. */
module Numbers {
  import opened Basics
  import opened Facts
  import opened Tables
  import opened Reconcile
  import Casing

  /** What `str.strip` takes for white space, by its ASCII code. */
  predicate Blank(c: char) { 9 <= c as int <= 13 || 28 <= c as int <= 32 }

  predicate AllBlank(s: string) { forall c | c in s :: Blank(c) }

  // ----- Stripping -----

  lemma {:induction false} StripsLeft(l: string, s: string)
    requires AllBlank(l)
    ensures LStrip(l + s) == LStrip(s)
  {
    if l == "" {
      assert l + s == s;
    } else {
      assert l[0] in l && (l + s)[1..] == l[1..] + s;
      StripsLeft(l[1..], s);
    }
  }

  lemma {:induction false} StripsRight(s: string, r: string)
    requires AllBlank(r)
    ensures RStrip(s + r) == RStrip(s)
  {
    if r == "" {
      assert s + r == s;
    } else {
      var n := |r| - 1;
      assert r[n] in r && (s + r)[..|s + r| - 1] == s + r[..n];
      StripsRight(s, r[..n]);
    }
  }

  /** A text that begins and ends in something else than white space, or is empty. */
  predicate Trimmed(s: string) { s == "" || (!Blank(s[0]) && !Blank(s[|s| - 1])) }

  lemma {:induction false} StripsBlank(l: string, r: string)
    requires AllBlank(l) && AllBlank(r)
    ensures Strip(l + r) == ""
  {
    StripsLeft(l, r);
    StripsLeft(r, "");
    hide Blank;
    assert r + "" == r;
  }

  /** Stripping takes white space off both ends, and nothing else. */
  lemma {:induction false} StripIs(l: string, s: string, r: string)
    requires AllBlank(l) && AllBlank(r) && Trimmed(s)
    ensures Strip(l + s + r) == s
  {
    if s == "" {
      StripsBlank(l, r);
      assert l + s + r == l + r;
    } else {
      StripsLeft(l, s + r);
      StripsRight(s, r);
      assert l + s + r == l + (s + r) && (s + r)[0] == s[0];
      StartStays(s + r);
      EndStays(s);
      hide LStrip, RStrip, Blank;
    }
  }

  lemma {:induction false} StartStays(s: string)
    requires s != "" && !Blank(s[0])
    ensures LStrip(s) == s
  {
  }

  lemma {:induction false} EndStays(s: string)
    requires s != "" && !Blank(s[|s| - 1])
    ensures RStrip(s) == s
  {
  }

  /** Every text is white space, a bare text and white space. */
  lemma {:induction false} Splits(s: string) returns (l: string, m: string, r: string)
    ensures s == l + m + r && AllBlank(l) && AllBlank(r) && Trimmed(m) && (AllBlank(s) <==> m == "") && (m == "" ==> r == "")
  {
    if s == "" {
      l, m, r := "", "", "";
    } else if Blank(s[0]) {
      l, m, r := Splits(s[1..]);
      l := [s[0]] + l;
      assert s == [s[0]] + s[1..];
    } else {
      l, m, r := "", s, "";
      while Blank(m[|m| - 1])
        invariant m != "" && m[0] == s[0] && s == m + r && AllBlank(r)
        decreases |m|
      {
        assert |m| > 1;
        r := [m[|m| - 1]] + r;
        m := m[..|m| - 1];
      }
      assert m[0] in s;
    }
  }

  // ----- Commas and dollars -----

  lemma {:induction false} CommasAppend(a: string, b: string)
    ensures WithoutCommas(a + b) == WithoutCommas(a) + WithoutCommas(b)
  {
    if a == "" {
      assert a + b == b;
    } else {
      assert (a + b)[1..] == a[1..] + b;
      CommasAppend(a[1..], b);
    }
  }

  lemma {:induction false} CommaGone(a: string, b: string)
    ensures WithoutCommas(a + "," + b) == WithoutCommas(a + b)
  {
    CommasAppend(a + ",", b);
    CommasAppend(a, ",");
    CommasAppend(a, b);
    assert WithoutCommas(",") == "" by { assert ","[1..] == ""; }
  }

  lemma {:induction false} NoCommas(s: string)
    requires ',' !in s
    ensures WithoutCommas(s) == s
  {
    if s != "" {
      assert s == [s[0]] + s[1..];
      NoCommas(s[1..]);
    }
  }

  lemma {:induction false} CommasShorten(s: string)
    ensures |WithoutCommas(s)| <= |s|
  {
    if s != "" { CommasShorten(s[1..]); }
  }

  lemma {:induction false} DollarsShorten(s: string)
    ensures |WithoutDollars(s)| <= |s|
  {
    if s != "" { DollarsShorten(s[1..]); }
  }

  // ----- Spelling a number -----

  /** g is the text with commas put in. */
  predicate WithCommas(g: string, text: string) {
    if g == "" then text == ""
    else if g[0] == ',' then WithCommas(g[1..], text)
    else text != "" && text[0] == g[0] && WithCommas(g[1..], text[1..])
  }

  lemma {:induction false} WithCommasReads(g: string, text: string)
    requires WithCommas(g, text)
    ensures WithoutCommas(g) == text
  {
    if g != "" {
      if g[0] == ',' {
        WithCommasReads(g[1..], text);
      } else {
        WithCommasReads(g[1..], text[1..]);
        assert text == [text[0]] + text[1..];
      }
    }
  }

  lemma {:induction false} DollarsGone(d: string, text: string)
    requires (forall c | c in d :: c == '$') && (text != "" ==> text[0] != '$')
    ensures WithoutDollars(d + text) == text
  {
    if d == "" {
      assert d + text == text;
    } else {
      assert (d + text)[1..] == d[1..] + text && d[0] in d;
      forall c | c in d[1..] ensures c in d {}
      DollarsGone(d[1..], text);
    }
  }

  /** White space, dollars, the text with commas put in, white space. */
  ghost predicate Spells(s: string, text: string) { exists l, d, g, r :: SpelledAs(s, text, l, d, g, r) }

  predicate SpelledAs(s: string, text: string, l: string, d: string, g: string, r: string) {
    && s == l + (d + g) + r && AllBlank(l) && AllBlank(r) && Trimmed(d + g) && (forall c | c in d :: c == '$')
    && WithCommas(g, text) && (text != "" ==> text[0] != '$')
  }

  /** However a number is spelled, its plain text is read. */
  lemma {:induction false} SpellingRead(py: Python, s: string, text: string)
    requires Spells(s, text)
    ensures AsNumber(py, Text(s)) == py.parseFloat(text)
  {
    var l, d, g, r :| SpelledAs(s, text, l, d, g, r);
    StripIs(l, d + g, r);
    assert ',' !in d;
    NoCommas(d);
    CommasAppend(d, g);
    WithCommasReads(g, text);
    DollarsGone(d, text);
  }

  lemma {:induction false} WithCommasItself(text: string)
    requires ',' !in text
    ensures WithCommas(text, text)
  {
    if text != "" {
      assert text == [text[0]] + text[1..];
      WithCommasItself(text[1..]);
    }
  }

  /** Plain texts are read as they are. */
  lemma {:induction false} PlainRead(py: Python, text: string)
    requires Trimmed(text) && ',' !in text && (text != "" ==> text[0] != '$')
    ensures AsNumber(py, Text(text)) == py.parseFloat(text)
  {
    WithCommasItself(text);
    assert "" + ("" + text) + "" == text && "" + text == text;
    assert SpelledAs(text, text, "", "", text, "");
    SpellingRead(py, text, text);
  }

  lemma {:induction false} OuterSpaceIgnored(py: Python, l: string, s: string, r: string)
    requires AllBlank(l) && AllBlank(r)
    ensures AsNumber(py, Text(l + s + r)) == AsNumber(py, Text(s))
  {
    var l', m, r' := Splits(s);
    assert l + s + r == (l + l') + m + (r' + r);
    StripIs(l + l', m, r' + r);
    StripIs(l', m, r');
  }

  // ----- When exactly one comma or one dollar is ignored -----

  /** A parser that reads this one text only. */
  function Only(text: string): Python {
    Python((s: string) => if s == text then Some(1.0) else None, (r: real) => "", (r: real) => r)
  }

  ghost predicate SameReading(s: string, t: string) { forall py: Python :: AsNumber(py, Text(s)) == AsNumber(py, Text(t)) }

  lemma {:induction false} SameReadingExactly(s: string, t: string)
    ensures SameReading(s, t) <==> NumberText(s) == NumberText(t)
  {
    hide NumberText;
    if SameReading(s, t) {
      var py := Only(NumberText(s));
      assert AsNumber(py, Text(s)) == AsNumber(py, Text(t));
      assert AsNumber(py, Text(s)) == Some(1.0);
    }
  }

  /** The comma stands between white space and the rest of the text, so that white space
      behind it is not at the end of the text. */
  predicate Guards(a: string, b: string) {
    || (AllBlank(a) && !AllBlank(b) && Blank(b[0]))
    || (AllBlank(b) && !AllBlank(a) && Blank(a[|a| - 1]))
  }

  lemma {:induction false} Edges(s: string, l: string, m: string, r: string)
    requires s == l + m + r && AllBlank(l) && AllBlank(r) && Trimmed(m) && m != ""
    ensures s != "" && !AllBlank(s) && (Blank(s[0]) <==> l != "") && (Blank(s[|s| - 1]) <==> r != "")
  {
    if l == "" { assert s[0] == m[0]; } else { assert s[0] == l[0] && l[0] in l; }
    if r == "" { assert s[|s| - 1] == m[|m| - 1]; } else { assert s[|s| - 1] == r[|r| - 1] && r[|r| - 1] in r; }
    assert s[|l|] == m[0] && s[|l|] in s;
  }

  lemma {:induction false} CommaAlone(a: string, b: string)
    requires AllBlank(a) && AllBlank(b)
    ensures NumberText(a + "," + b) == NumberText(a + b)
  {
    StripIs(a, ",", b);
    StripIs(a, "", b);
    assert a + "" + b == a + b && ","[1..] == "";
  }

  lemma {:induction false} CommaInFront(a: string, y: string, r: string)
    requires AllBlank(a) && AllBlank(r) && Trimmed(y) && y != ""
    ensures NumberText(a + "," + (y + r)) == NumberText(a + (y + r))
  {
    assert a + "," + (y + r) == a + ("," + y) + r && a + (y + r) == a + y + r;
    assert ("," + y)[|"," + y| - 1] == y[|y| - 1];
    StripIs(a, "," + y, r);
    StripIs(a, y, r);
    assert "" + "," + y == "," + y && "" + y == y;
    CommaGone("", y);
  }

  lemma {:induction false} CommaBehind(l: string, x: string, b: string)
    requires AllBlank(l) && AllBlank(b) && Trimmed(x) && x != ""
    ensures NumberText(l + x + "," + b) == NumberText(l + x + b)
  {
    assert l + x + "," + b == l + (x + ",") + b;
    StripIs(l, x + ",", b);
    StripIs(l, x, b);
    assert x + "," + "" == x + "," && x + "" == x;
    CommaGone(x, "");
  }

  lemma {:induction false} CommaInside(l: string, p: string, q: string, r: string)
    requires AllBlank(l) && AllBlank(r) && p != "" && q != "" && !Blank(p[0]) && !Blank(q[|q| - 1])
    ensures NumberText(l + p + "," + (q + r)) == NumberText(l + p + (q + r))
  {
    assert l + p + "," + (q + r) == l + (p + "," + q) + r && l + p + (q + r) == l + (p + q) + r;
    assert (p + "," + q)[|p + "," + q| - 1] == q[|q| - 1] == (p + q)[|p + q| - 1];
    StripIs(l, p + "," + q, r);
    StripIs(l, p + q, r);
    CommaGone(p, q);
  }

  lemma {:induction false} CommaBetween(a: string, b: string)
    requires !Guards(a, b)
    ensures NumberText(a + "," + b) == NumberText(a + b)
  {
    var l, x, r := Splits(a);
    var l', y, r' := Splits(b);
    hide NumberText;
    if x != "" { Edges(a, l, x, r); }
    if y != "" { Edges(b, l', y, r'); }
    if x == "" && y == "" {
      CommaAlone(a, b);
    } else if x == "" {
      assert b == y + r';
      CommaInFront(a, y, r');
    } else if y == "" {
      assert a == l + x;
      CommaBehind(l, x, b);
    } else {
      assert a == l + (x + r) && b == (l' + y) + r';
      assert (l' + y)[|l' + y| - 1] == y[|y| - 1];
      CommaInside(l, x + r, l' + y, r');
    }
  }

  lemma {:induction false} BlankStays(s: string)
    requires AllBlank(s)
    ensures WithoutCommas(s) == s && (forall t: string :: s != "" ==> WithoutDollars(s + t) == s + t)
  {
    if s != "" { assert s[0] in s; }
    assert ',' !in s;
    NoCommas(s);
  }

  lemma {:induction false} DollarsAppend(u: string, r: string)
    requires r != "" && r[0] != '$'
    ensures WithoutDollars(u + r) == WithoutDollars(u) + r
  {
    if u == "" {
      assert u + r == r;
    } else if u[0] == '$' {
      assert (u + r)[1..] == u[1..] + r;
      DollarsAppend(u[1..], r);
    }
  }

  lemma {:induction false} CommaRegroups(a: string, b: string, c: string, d: string, e: string)
    ensures a + b + (c + d + e) == a + (b + c + d) + e
    ensures a + (c + d + e) == (a + c) + d + e
  {
  }

  lemma {:induction false} ReadBehind(front: string, l: string, y: string)
    requires (front == "," || front == "$") && AllBlank(l) && l != ""
    ensures WithoutDollars(WithoutCommas(front + l + y)) == l + WithoutCommas(y)
  {
    CommasAppend(front + l, y);
    CommasAppend(front, l);
    assert front[1..] == "";
    BlankStays(l);
    assert WithoutCommas(front) == if front == "," then "" else "$";
    FrontGone(front, l, WithoutCommas(y));
  }

  lemma {:induction false} FrontGone(front: string, l: string, rest: string)
    requires (front == "," || front == "$") && AllBlank(l) && l != ""
    ensures WithoutDollars((if front == "," then "" else "$") + l + rest) == l + rest
  {
    BlankStays(l);
    var t := l + rest;
    assert WithoutDollars(l + rest) == l + rest;
    if front == "," {
      assert "" + l + rest == t;
    } else {
      assert "$" + l + rest == "$" + t && ("$" + t)[1..] == t;
    }
  }

  /** White space behind a leading comma or dollar is read. */
  lemma {:induction false} GuardedText(a: string, front: string, l: string, y: string, r: string)
    requires (front == "," || front == "$") && AllBlank(a) && AllBlank(l) && AllBlank(r) && l != "" && Trimmed(y) && y != ""
    ensures NumberText(a + (front + l + y) + r) == l + WithoutCommas(y)
    ensures NumberText((a + l) + y + r) != l + WithoutCommas(y)
  {
    var m := front + l + y;
    assert m[0] == front[0] && m[|m| - 1] == y[|y| - 1];
    StripIs(a, m, r);
    StripIs(a + l, y, r);
    ReadBehind(front, l, y);
    DollarsShorten(WithoutCommas(y));
    hide WithoutCommas, WithoutDollars, Strip;
  }

  lemma {:induction false} GuardedInFront(a: string, l: string, y: string, r: string)
    requires AllBlank(a) && AllBlank(l) && AllBlank(r) && l != "" && Trimmed(y) && y != ""
    ensures NumberText(a + "," + (l + y + r)) != NumberText(a + (l + y + r))
  {
    GuardedText(a, ",", l, y, r);
    hide NumberText;
    CommaRegroups(a, ",", l, y, r);
  }

  lemma {:induction false} GuardedBehind(l: string, x: string, r: string, b: string)
    requires AllBlank(l) && AllBlank(r) && AllBlank(b) && r != "" && Trimmed(x) && x != ""
    ensures NumberText(l + x + r + "," + b) != NumberText(l + x + r + b)
  {
    var m := x + r + ",";
    assert l + x + r + "," + b == l + m + b && l + x + r + b == l + x + (r + b);
    assert m[0] == x[0];
    StripIs(l, m, b);
    StripIs(l, x, r + b);
    CommasAppend(x + r, ",");
    CommasAppend(x, r);
    assert ","[1..] == "";
    BlankStays(r);
    assert WithoutCommas(m) == WithoutCommas(x) + r && r[0] in r;
    DollarsAppend(WithoutCommas(x), r);
  }

  /** A comma changes nothing for any parser, exactly unless it guards white space. */
  lemma {:induction false} CommaIgnoredExactly(a: string, b: string)
    ensures SameReading(a + "," + b, a + b) <==> !Guards(a, b)
  {
    hide NumberText, SameReading;
    SameReadingExactly(a + "," + b, a + b);
    if Guards(a, b) {
      var l, x, r := Splits(a);
      var l', y, r' := Splits(b);
      if x == "" {
        Edges(b, l', y, r');
        GuardedInFront(a, l', y, r');
      } else {
        Edges(a, l, x, r);
        GuardedBehind(l, x, r, b);
      }
    } else {
      CommaBetween(a, b);
    }
  }

  lemma {:induction false} DollarFirst(m: string)
    ensures WithoutDollars(WithoutCommas("$" + m)) == WithoutDollars(WithoutCommas(m))
  {
    CommasAppend("$", m);
    assert "$"[1..] == "" && WithoutCommas("$") == "$";
    assert ("$" + WithoutCommas(m))[1..] == WithoutCommas(m);
  }

  lemma {:induction false} DollarBeforeBlank(s: string)
    requires AllBlank(s)
    ensures NumberText("$" + s) == NumberText(s)
  {
    DollarFirst("");
    assert Trimmed("$") && Trimmed("");
    hide Strip, Blank, Trimmed, WithoutCommas, WithoutDollars;
    assert "$" + "" == "$" && "" + "$" + s == "$" + s && "" + "" + s == s;
    StripIs("", "$", s);
    StripIs("", "", s);
  }

  lemma {:induction false} DollarBeforeText(m: string, r: string)
    requires m != "" && Trimmed(m) && AllBlank(r)
    ensures NumberText("$" + (m + r)) == NumberText(m + r)
  {
    DollarFirst(m);
    assert ("$" + m)[|"$" + m| - 1] == m[|m| - 1] && ("$" + m)[0] == '$';
    assert Trimmed("$" + m);
    hide Strip, Blank, Trimmed, WithoutCommas, WithoutDollars;
    assert "" + ("$" + m) + r == "$" + (m + r) && "" + m + r == m + r;
    StripIs("", "$" + m, r);
    StripIs("", m, r);
  }

  lemma {:induction false} DollarBefore(s: string)
    requires s == "" || AllBlank(s) || !Blank(s[0])
    ensures NumberText("$" + s) == NumberText(s)
  {
    var l, m, r := Splits(s);
    hide NumberText;
    if m == "" {
      DollarBeforeBlank(s);
    } else {
      Edges(s, l, m, r);
      assert s == m + r;
      DollarBeforeText(m, r);
    }
  }

  lemma {:induction false} DollarGuards(l: string, m: string, r: string)
    requires AllBlank(l) && AllBlank(r) && l != "" && Trimmed(m) && m != ""
    ensures NumberText("$" + (l + m + r)) != NumberText(l + m + r)
  {
    GuardedText("", "$", l, m, r);
    hide NumberText;
    CommaRegroups("", "$", l, m, r);
    assert "" + "$" == "$" && "" + (l + m + r) == l + m + r;
  }

  /** A dollar in front changes nothing for any parser, exactly unless white space and
      then something else follow it. */
  lemma {:induction false} DollarIgnoredExactly(s: string)
    ensures SameReading("$" + s, s) <==> s == "" || AllBlank(s) || !Blank(s[0])
  {
    hide NumberText, SameReading;
    SameReadingExactly("$" + s, s);
    if s == "" || AllBlank(s) || !Blank(s[0]) {
      DollarBefore(s);
    } else {
      var l, m, r := Splits(s);
      Edges(s, l, m, r);
      DollarGuards(l, m, r);
    }
  }

  // ----- What is stored -----

  /** The key asks for a number to be stored. */
  ghost predicate NumberKey(key: string) {
    exists stem :: key == stem + "_income" || key == stem + "_amount" || key == stem + "_balance"
  }

  lemma {:induction false} NumberKeyExactly(key: string)
    ensures NumberKey(key) <==> EndsWith(key, "_income") || EndsWith(key, "_amount") || EndsWith(key, "_balance")
  {
    EndsExactly(key, "_income");
    EndsExactly(key, "_amount");
    EndsExactly(key, "_balance");
    hide EndsWith;
  }

  lemma {:induction false} EndsExactly(key: string, suffix: string)
    ensures EndsWith(key, suffix) <==> exists stem :: key == stem + suffix
  {
    if EndsWith(key, suffix) { assert key == key[..|key| - |suffix|] + suffix; }
  }

  /** Coercion turns a spelled number under such a key into the number its plain text
      reads as, and leaves every other value as it is. */
  lemma {:induction false} CoercedExactly(py: Python, key: string, v: Value)
    ensures v.Text? && NumberKey(key) ==> forall text | Spells(v.s, text) ::
              CoerceValue(py, key, v) == match py.parseFloat(text) case Some(r) => Num(r) case None => v
    ensures !v.Text? || !NumberKey(key) ==> CoerceValue(py, key, v) == v
  {
    NumberKeyExactly(key);
    hide NumberKey, EndsWith, NumberText, Spells;
    if v.Text? {
      forall text | Spells(v.s, text) ensures py.parseFloat(NumberText(v.s)) == py.parseFloat(text) { SpellingRead(py, v.s, text); }
    }
  }

  // ----- What is reported -----

  /** However a stated income is spelled, and whether or not it was coerced, it does not
      conflict with the documented number it reads as. */
  lemma {:induction false} SpelledNeverConflicts(py: Python, s: Fact, d: Fact, spelling: string, text: string, r: real)
    requires s.key == "monthly_income" || s.key == "annual_income"
    requires s.value == Text(spelling) || s.value == CoerceValue(py, s.key, Text(spelling))
    requires Spells(spelling, text) && py.parseFloat(text) == Some(r) && d.value == Num(r)
    ensures !Conflict(py, s, d)
  {
    SpellingRead(py, spelling, text);
    hide NumberText, Spells, EndsWith;
  }

  lemma {:induction false} Trims(s: string)
    requires Trimmed(s)
    ensures Strip(s) == s
  {
    StripIs("", s, "");
    assert "" + s + "" == s;
  }

  /** Facts that both read as numbers conflict when these are more than 5% of the
      documented one apart, whatever the key. */
  lemma {:induction false} NumbersConflictExactly(py: Python, s: Fact, d: Fact, x: real, y: real)
    requires s.key == d.key && s.documentId.None? && d.documentId.Some?
    requires AsNumber(py, s.value) == Some(x) && AsNumber(py, d.value) == Some(y)
    ensures Conflict(py, s, d)
       <==> var apart, size := if x < y then y - x else x - y, if y < 0.0 then -y else y;
            apart > 0.05 * (if size < 0.000000001 then 0.000000001 else size)
  {
    hide NumberText;
  }

  /** On an income a value that reads as no number is as good as none: two such values
      never conflict, and with a number they do unless that is shown as none. */
  lemma {:induction false} UnreadConflictExactly(py: Python, s: Fact, d: Fact)
    requires s.key == d.key && (s.key == "monthly_income" || s.key == "annual_income") && s.documentId.None? && d.documentId.Some?
    requires AsNumber(py, s.value).None? || AsNumber(py, d.value).None?
    ensures Conflict(py, s, d)
       <==> match (AsNumber(py, s.value), AsNumber(py, d.value))
            case (Some(x), _) => !Casing.UpToCase(Strip(py.showFloat(x)), "none")
            case (None, Some(y)) => !Casing.UpToCase(Strip(py.showFloat(y)), "none")
            case (None, None) => false
  {
    Trims("None");
    Casing.LowerExactly(Strip("None"), "none");
    var a, b := AsNumber(py, s.value), AsNumber(py, d.value);
    if a.Some? { Casing.LowerExactly(Strip(py.showFloat(a.value)), "none"); }
    if b.Some? { Casing.LowerExactly(Strip(py.showFloat(b.value)), "none"); }
    hide NumberText, Strip, Casing.UpToCase, Lower;
  }

  /** The text a value is shown as. */
  predicate Displays(py: Python, v: Value, text: string) {
    (v == Null ==> text == "None") && (v.Num? ==> text == py.showFloat(v.r)) && (v.Text? ==> text == v.s)
  }

  lemma {:induction false} ShownAs(py: Python, v: Value, l: string, x: string, r: string)
    requires Displays(py, v, l + x + r) && Trimmed(x) && AllBlank(l) && AllBlank(r)
    ensures Strip(Show(py, v)) == x
  {
    hide Trimmed, AllBlank, Strip;
    StripIs(l, x, r);
  }

  /** Under any other key, values that are not both numbers conflict exactly when they are
      shown differently, case and white space around them aside. */
  lemma {:induction false} ShownConflictExactly(py: Python, s: Fact, d: Fact, l: string, x: string, r: string, l': string, y: string, r': string)
    requires s.key == d.key && s.key != "monthly_income" && s.key != "annual_income" && s.documentId.None? && d.documentId.Some?
    requires AsNumber(py, s.value).None? || AsNumber(py, d.value).None?
    requires Displays(py, s.value, l + x + r) && Displays(py, d.value, l' + y + r') && Trimmed(x) && Trimmed(y)
    requires AllBlank(l) && AllBlank(r) && AllBlank(l') && AllBlank(r')
    ensures Conflict(py, s, d) <==> !Casing.UpToCase(x, y)
  {
    hide NumberText, Strip, Casing.UpToCase, Lower, Trimmed, AllBlank, Displays, Show;
    ShownAs(py, s.value, l, x, r);
    ShownAs(py, d.value, l', y, r');
    Casing.LowerExactly(x, y);
  }
}
