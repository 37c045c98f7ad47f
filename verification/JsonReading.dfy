/** Reading a stored anomaly record back: a reader of JSON objects with text and plain
    members finds its five members, each with the value the record was made of. */
module JsonReading {
  import opened Basics
  import opened Facts
  import opened Reconcile
  import opened Json

  // ----- Texts -----

  datatype TextAndRest = TextAndRest(text: string, rest: string)

  function HexValue(c: char): Option<nat> {
    if '0' <= c <= '9' then Some(c as int - '0' as int)
    else if 'a' <= c <= 'f' then Some(c as int - 'a' as int + 10)
    else None
  }

  /** The number four hexadecimal digits stand for. */
  function Unit(s: string): Option<nat> {
    if |s| < 4 || HexValue(s[0]).None? || HexValue(s[1]).None? || HexValue(s[2]).None? || HexValue(s[3]).None? then None
    else Some(HexValue(s[0]).value * 0x1000 + HexValue(s[1]).value * 0x100 + HexValue(s[2]).value * 16 + HexValue(s[3]).value)
  }

  /** The character after `\u`, and what follows it; two units make one above the basic plane. */
  function UnicodeRead(s: string): (r: Option<(char, string)>)
    ensures r.Some? ==> |r.value.1| < |s|
  {
    match Unit(s)
    case None => None
    case Some(n) =>
      if n < 0xD800 || 0xE000 <= n < 0x10000 then Some((n as char, s[4..]))
      else if n >= 0xDC00 || |s| < 10 || s[4] != '\\' || s[5] != 'u' then None
      else match Unit(s[6..])
        case None => None
        case Some(m) =>
          if 0xDC00 <= m < 0xE000 then Some((((n - 0xD800) * 0x400 + (m - 0xDC00) + 0x10000) as char, s[10..])) else None
  }

  function Short(c: char): Option<char> {
    if c == '"' || c == '\\' then Some(c)
    else if c == 'n' then Some('\n')
    else if c == 'r' then Some('\r')
    else if c == 't' then Some('\t')
    else if c == 'b' then Some(8 as char)
    else if c == 'f' then Some(12 as char)
    else None
  }

  /** One character of a text and what follows it. */
  function CharRead(s: string): (r: Option<(char, string)>)
    ensures r.Some? ==> |r.value.1| < |s|
  {
    if s == "" || s[0] == '"' then None
    else if s[0] != '\\' then Some((s[0], s[1..]))
    else if |s| == 1 then None
    else if s[1] == 'u' then UnicodeRead(s[2..])
    else match Short(s[1])
      case Some(c) => Some((c, s[2..]))
      case None => None
  }

  /** The rest of a text up to its closing quote. */
  function TextRead(s: string): Option<TextAndRest>
    decreases |s|
  {
    if s == "" then None
    else if s[0] == '"' then Some(TextAndRest("", s[1..]))
    else match CharRead(s)
      case None => None
      case Some(first) =>
        match TextRead(first.1)
        case None => None
        case Some(r) => Some(TextAndRest([first.0] + r.text, r.rest))
  }

  lemma {:induction false} HexRead(n: nat)
    requires n < 16
    ensures HexValue(HexDigit(n)) == Some(n)
  {
  }

  lemma {:induction false} UnitRead(n: nat, rest: string)
    requires n < 0x10000
    ensures Unit(Hex4(n) + rest) == Some(n)
  {
    HexRead(n / 0x1000);
    HexRead(n / 0x100 % 16);
    HexRead(n / 16 % 16);
    HexRead(n % 16);
    hide HexDigit, HexValue;
    Digits(n);
  }

  lemma {:induction false} Digits(n: nat)
    ensures n == n / 0x1000 * 0x1000 + n / 0x100 % 16 * 0x100 + n / 16 % 16 * 16 + n % 16
  {
    var a, b := n / 16, n / 0x100;
    assert a / 16 == b && b / 16 == n / 0x1000;
    assert n == a * 16 + n % 16 && a == b * 16 + a % 16 && b == b / 16 * 16 + b % 16;
  }

  lemma {:induction false} HexLength(n: nat)
    requires n < 0x10000
    ensures |Hex4(n)| == 4
  {
  }

  lemma {:induction false} OneUnit(n: nat, rest: string)
    requires n < 0xD800 || 0xE000 <= n < 0x10000
    ensures UnicodeRead(Hex4(n) + rest) == Some((n as char, rest))
  {
    UnitRead(n, rest);
    HexLength(n);
    hide Hex4, Unit;
    assert (Hex4(n) + rest)[4..] == rest;
  }

  lemma {:induction false} TwoUnits(h: nat, l: nat, rest: string)
    requires 0xD800 <= h < 0xDC00 && 0xDC00 <= l < 0xE000
    ensures UnicodeRead(Hex4(h) + ("\\u" + (Hex4(l) + rest)))
         == Some((((h - 0xD800) * 0x400 + (l - 0xDC00) + 0x10000) as char, rest))
  {
    var low := Hex4(l) + rest;
    UnitRead(h, "\\u" + low);
    UnitRead(l, rest);
    HexLength(h);
    HexLength(l);
    hide Hex4, Unit;
    var s := Hex4(h) + ("\\u" + low);
    assert s[4] == '\\' && s[5] == 'u' && s[6..] == low && s[10..] == rest && |s| >= 10;
  }

  lemma {:induction false} Halves(n: nat)
    requires 0x10000 <= n < 0x110000
    ensures var h, l := 0xD800 + (n - 0x10000) / 0x400, 0xDC00 + (n - 0x10000) % 0x400;
            0xD800 <= h < 0xDC00 && 0xDC00 <= l < 0xE000 && (h - 0xD800) * 0x400 + (l - 0xDC00) + 0x10000 == n
  {
  }

  lemma {:induction false} Slice(e: string, mark: string, tail: string)
    requires |mark| == 2 && e == mark + tail
    ensures |e| >= 2 && e[0] == mark[0] && e[1] == mark[1] && e[2..] == tail
  {
  }

  lemma {:induction false} NarrowReads(c: char, rest: string)
    requires (c as int) < 0x10000
    ensures |UnicodeEscape(c)| > 2 && UnicodeEscape(c)[0] == '\\' && UnicodeEscape(c)[1] == 'u'
    ensures UnicodeRead(UnicodeEscape(c)[2..] + rest) == Some((c, rest))
  {
    hide UnicodeRead;
    OneUnit(c as int, rest);
    HexLength(c as int);
    hide Hex4;
    Slice(UnicodeEscape(c), "\\u", Hex4(c as int));
  }

  lemma {:induction false} FourParts(a: string, x: string, b: string, y: string, rest: string)
    ensures a + x + b + y == a + (x + (b + y))
    ensures x + (b + y) + rest == x + (b + (y + rest))
  {
  }

  lemma {:induction false} WideIs(c: char, h: nat, l: nat, rest: string)
    requires (c as int) >= 0x10000 && h == 0xD800 + (c as int - 0x10000) / 0x400 && l == 0xDC00 + (c as int - 0x10000) % 0x400
    ensures h < 0xDC00 && l < 0xE000
    ensures UnicodeEscape(c) == "\\u" + (Hex4(h) + ("\\u" + Hex4(l)))
    ensures Hex4(h) + ("\\u" + Hex4(l)) + rest == Hex4(h) + ("\\u" + (Hex4(l) + rest))
  {
    Halves(c as int);
    hide Hex4;
    FourParts("\\u", Hex4(h), "\\u", Hex4(l), rest);
  }

  lemma {:induction false} WideReads(c: char, rest: string)
    requires (c as int) >= 0x10000
    ensures |UnicodeEscape(c)| > 2 && UnicodeEscape(c)[0] == '\\' && UnicodeEscape(c)[1] == 'u'
    ensures UnicodeRead(UnicodeEscape(c)[2..] + rest) == Some((c, rest))
  {
    var n := c as int;
    var h, l := 0xD800 + (n - 0x10000) / 0x400, 0xDC00 + (n - 0x10000) % 0x400;
    Halves(n);
    WideIs(c, h, l, rest);
    hide Hex4, UnicodeEscape, UnicodeRead;
    TwoUnits(h, l, rest);
    Slice(UnicodeEscape(c), "\\u", Hex4(h) + ("\\u" + Hex4(l)));
  }

  lemma {:induction false} UnicodeReads(c: char, rest: string)
    ensures |UnicodeEscape(c)| > 2 && UnicodeEscape(c)[0] == '\\' && UnicodeEscape(c)[1] == 'u'
    ensures UnicodeRead(UnicodeEscape(c)[2..] + rest) == Some((c, rest))
  {
    hide UnicodeEscape, UnicodeRead;
    if c as int < 0x10000 {
      NarrowReads(c, rest);
    } else {
      WideReads(c, rest);
    }
  }

  lemma {:induction false} ShortReads(c: char, rest: string)
    requires c == '"' || c == '\\' || c == '\n' || c == '\r' || c == '\t' || c == 8 as char || c == 12 as char
    ensures |EscapeChar(c)| == 2 && EscapeChar(c)[0] == '\\' && CharRead(EscapeChar(c) + rest) == Some((c, rest))
  {
    hide UnicodeEscape, UnicodeRead;
    var s := EscapeChar(c) + rest;
    assert |EscapeChar(c)| == 2;
    assert s[0] == '\\' && s[1] == EscapeChar(c)[1] && s[2..] == rest;
  }

  lemma {:induction false} LongReads(c: char, rest: string)
    requires EscapeChar(c) == UnicodeEscape(c)
    ensures EscapeChar(c) != "" && EscapeChar(c)[0] == '\\' && CharRead(EscapeChar(c) + rest) == Some((c, rest))
  {
    UnicodeReads(c, rest);
    hide UnicodeEscape, UnicodeRead, EscapeChar;
    var e, s := UnicodeEscape(c), UnicodeEscape(c) + rest;
    assert s[0] == '\\' && s[1] == 'u' && s[2..] == e[2..] + rest;
  }

  lemma {:induction false} CharReads(c: char, rest: string)
    ensures EscapeChar(c) != "" && EscapeChar(c)[0] != '"' && CharRead(EscapeChar(c) + rest) == Some((c, rest))
  {
    hide UnicodeEscape, UnicodeRead;
    if IsPlain(c) {
      var s := EscapeChar(c) + rest;
      assert s[0] == c && s[1..] == rest;
    } else if c == '"' || c == '\\' || c == '\n' || c == '\r' || c == '\t' || c == 8 as char || c == 12 as char {
      ShortReads(c, rest);
    } else {
      LongReads(c, rest);
    }
  }

  lemma {:induction false} CharStep(c: char, tail: string, text: string, rest: string)
    requires TextRead(tail) == Some(TextAndRest(text, rest))
    ensures TextRead(EscapeChar(c) + tail) == Some(TextAndRest([c] + text, rest))
  {
    CharReads(c, tail);
    hide EscapeChar, CharRead;
    assert (EscapeChar(c) + tail)[0] == EscapeChar(c)[0];
  }

  /** Reading an escaped text up to its closing quote gives the text. */
  lemma {:induction false} TextReads(s: string, rest: string)
    ensures TextRead(Escaped(s) + "\"" + rest) == Some(TextAndRest(s, rest))
  {
    if s == "" {
      assert Escaped(s) + "\"" + rest == "\"" + rest && ("\"" + rest)[1..] == rest;
    } else {
      var tail := Escaped(s[1..]) + "\"" + rest;
      TextReads(s[1..], rest);
      CharStep(s[0], tail, s[1..], rest);
      hide EscapeChar, TextRead;
      assert Escaped(s) + "\"" + rest == EscapeChar(s[0]) + tail;
      assert s == [s[0]] + s[1..];
    }
  }

  // ----- Members -----

  /** A text, or what is written without quotes. */
  datatype Told = TextTold(s: string) | PlainTold(s: string)

  datatype MemberRead = MemberRead(name: string, value: Told, rest: string)

  /** Up to the next comma or closing brace. */
  function UnquotedRead(s: string): TextAndRest {
    if s == "" || s[0] == ',' || s[0] == '}' then TextAndRest("", s)
    else
      var r := UnquotedRead(s[1..]);
      TextAndRest([s[0]] + r.text, r.rest)
  }

  function ValueRead(s: string): Option<(Told, string)> {
    if s != "" && s[0] == '"' then
      match TextRead(s[1..])
      case None => None
      case Some(r) => Some((TextTold(r.text), r.rest))
    else
      var r := UnquotedRead(s);
      Some((PlainTold(r.text), r.rest))
  }

  function OneMember(s: string): Option<MemberRead> {
    if s == "" || s[0] != '"' then None
    else
      match TextRead(s[1..])
      case None => None
      case Some(name) =>
        if !StartsWith(name.rest, ": ") then None
        else match ValueRead(name.rest[2..])
          case None => None
          case Some(value) => Some(MemberRead(name.text, value.0, value.1))
  }

  /** The first n members, each but the first after a comma and a space, and a closing brace. */
  function Members(s: string, n: nat): Option<seq<(string, Told)>>
    decreases n
  {
    if n == 0 then (if s == "}" then Some([]) else None)
    else
      match OneMember(s)
      case None => None
      case Some(m) =>
        var later := if n == 1 then Members(m.rest, 0)
                     else if StartsWith(m.rest, ", ") then Members(m.rest[2..], n - 1)
                     else None;
        if later.Some? then Some([(m.name, m.value)] + later.value) else None
  }

  function RecordRead(s: string): Option<seq<(string, Told)>> {
    if s == "" || s[0] != '{' then None else Members(s[1..], 5)
  }

  /** Numbers are written without quotes, commas and braces. */
  predicate Unquoted(s: string) { s != "" && s[0] != '"' && ',' !in s && '}' !in s }

  lemma {:induction false} UnquotedReads(s: string, rest: string)
    requires ',' !in s && '}' !in s && rest != "" && (rest[0] == ',' || rest[0] == '}')
    ensures UnquotedRead(s + rest) == TextAndRest(s, rest)
  {
    if s == "" {
      assert s + rest == rest;
    } else {
      assert (s + rest)[0] == s[0] && (s + rest)[1..] == s[1..] + rest && s[0] in s;
      UnquotedReads(s[1..], rest);
      assert s == [s[0]] + s[1..];
    }
  }

  /** The value is written as this text. */
  predicate Writes(text: string, told: Told) {
    match told
    case TextTold(s) => text == Quoted(s)
    case PlainTold(s) => text == s && Unquoted(s)
  }

  lemma {:induction false} ValueReads(text: string, told: Told, rest: string)
    requires Writes(text, told) && rest != "" && (rest[0] == ',' || rest[0] == '}')
    ensures ValueRead(text + rest) == Some((told, rest))
  {
    match told
    case TextTold(s) =>
      TextReads(s, rest);
      hide Escaped, TextRead;
      assert (text + rest)[1..] == Escaped(s) + "\"" + rest && (text + rest)[0] == '"';
    case PlainTold(s) =>
      UnquotedReads(s, rest);
      assert (text + rest)[0] == s[0];
  }

  lemma {:induction false} MemberIs(name: string, text: string, rest: string)
    ensures Member(name, text) + rest == "\"" + (name + "\"" + (": " + (text + rest)))
  {
    assert "\": " == "\"" + ": ";
    MemberRegroups("\"", name, ": ", text, rest);
  }

  lemma {:induction false} MemberRegroups(q: string, name: string, colon: string, text: string, rest: string)
    ensures q + name + (q + colon) + text + rest == q + (name + q + (colon + (text + rest)))
  {
  }

  lemma {:induction false} MemberReads(name: string, text: string, told: Told, rest: string)
    requires (forall c | c in name :: IsPlain(c)) && Writes(text, told) && rest != "" && (rest[0] == ',' || rest[0] == '}')
    ensures OneMember(Member(name, text) + rest) == Some(MemberRead(name, told, rest))
  {
    PlainStays(name);
    var after := ": " + (text + rest);
    TextReads(name, after);
    ValueReads(text, told, rest);
    MemberIs(name, text, rest);
    hide Escaped, TextRead, ValueRead, Writes, Member;
    var body := name + "\"" + after;
    assert ("\"" + body)[0] == '"' && ("\"" + body)[1..] == body;
    assert after[2..] == text + rest && StartsWith(after, ": ");
  }

  lemma {:induction false} MembersStep(name: string, text: string, told: Told, later: string, n: nat, members: seq<(string, Told)>)
    requires n > 0 && (forall c | c in name :: IsPlain(c)) && Writes(text, told) && Members(later, n) == Some(members)
    ensures Members(Member(name, text) + ", " + later, n + 1) == Some([(name, told)] + members)
  {
    MemberReads(name, text, told, ", " + later);
    hide OneMember, Member, Writes;
    assert Member(name, text) + ", " + later == Member(name, text) + (", " + later);
    assert (", " + later)[2..] == later;
  }

  lemma {:induction false} MembersLast(name: string, text: string, told: Told)
    requires (forall c | c in name :: IsPlain(c)) && Writes(text, told)
    ensures Members(Member(name, text) + "}", 1) == Some([(name, told)])
  {
    MemberReads(name, text, told, "}");
    hide OneMember, Member, Writes;
    assert Members("}", 0) == Some([]);
    assert [(name, told)] + [] == [(name, told)];
  }

  /** A member: its name, the written value and what it stands for. */
  datatype Part = Part(name: string, text: string, told: Told)

  predicate Fits(p: Part) { (forall c | c in p.name :: IsPlain(c)) && Writes(p.text, p.told) }

  function Piece(p: Part): string { Member(p.name, p.text) }

  function Pair(p: Part): (string, Told) { (p.name, p.told) }

  lemma {:induction false} PartStep(p: Part, later: string, n: nat, members: seq<(string, Told)>)
    requires n > 0 && Fits(p) && Members(later, n) == Some(members)
    ensures Members(Piece(p) + ", " + later, n + 1) == Some([Pair(p)] + members)
  {
    hide Members, Member, Writes;
    MembersStep(p.name, p.text, p.told, later, n, members);
  }

  lemma {:induction false} PartLast(p: Part)
    requires Fits(p)
    ensures Members(Piece(p) + "}", 1) == Some([Pair(p)])
  {
    hide Members, Member, Writes;
    MembersLast(p.name, p.text, p.told);
  }

  lemma {:induction false} FiveRead(a: Part, b: Part, c: Part, d: Part, e: Part)
    requires Fits(a) && Fits(b) && Fits(c) && Fits(d) && Fits(e)
    ensures Members(Piece(a) + ", " + (Piece(b) + ", " + (Piece(c) + ", " + (Piece(d) + ", " + (Piece(e) + "}")))), 5)
         == Some([Pair(a), Pair(b), Pair(c), Pair(d), Pair(e)])
  {
    hide Members, Fits, Piece, Pair;
    PartLast(e);
    var m4 := Piece(e) + "}";
    PartStep(d, m4, 1, [Pair(e)]);
    var m3 := Piece(d) + ", " + m4;
    PartStep(c, m3, 2, [Pair(d)] + [Pair(e)]);
    var m2 := Piece(c) + ", " + m3;
    PartStep(b, m2, 3, [Pair(c)] + ([Pair(d)] + [Pair(e)]));
    PartStep(a, Piece(b) + ", " + m2, 4, [Pair(b)] + ([Pair(c)] + ([Pair(d)] + [Pair(e)])));
    assert [Pair(a)] + ([Pair(b)] + ([Pair(c)] + ([Pair(d)] + [Pair(e)]))) == [Pair(a), Pair(b), Pair(c), Pair(d), Pair(e)];
  }

  // ----- The record -----

  function ToldOf(py: Python, v: Value): Told {
    match v
    case Null => PlainTold("null")
    case Num(r) => PlainTold(py.showFloat(r))
    case Text(s) => TextTold(s)
  }

  lemma {:induction false} ValueWrites(py: Python, v: Value)
    requires v.Num? ==> Unquoted(py.showFloat(v.r))
    ensures Writes(ValueText(py, v), ToldOf(py, v))
  {
    hide Quoted;
    assert Unquoted("null");
  }

  lemma {:induction false} VarianceWrites(py: Python, variance: Option<real>)
    requires variance.Some? ==> Unquoted(py.showFloat(py.round2(variance.value * 100.0)))
    ensures Writes(VarianceText(py, variance),
                   PlainTold(if variance.Some? then py.showFloat(py.round2(variance.value * 100.0)) else "null"))
  {
    assert Unquoted("null");
  }

  function Percent(py: Python, variance: Option<real>): Told {
    PlainTold(if variance.Some? then py.showFloat(py.round2(variance.value * 100.0)) else "null")
  }

  /** The stored record of an anomaly reads back as its key, the stated and the documented
      value, the document and the variance in percent, each under its name. */
  lemma {:induction false} RecordReadsBack(py: Python, anomaly: Anomaly)
    requires anomaly.stated.Num? ==> Unquoted(py.showFloat(anomaly.stated.r))
    requires anomaly.documented.Num? ==> Unquoted(py.showFloat(anomaly.documented.r))
    requires anomaly.variance.Some? ==> Unquoted(py.showFloat(py.round2(anomaly.variance.value * 100.0)))
    ensures RecordRead(AnomalyText(py, anomaly))
         == Some([("key", TextTold(anomaly.key)), ("stated_value", ToldOf(py, anomaly.stated)),
                  ("document_value", ToldOf(py, anomaly.documented)), ("document_id", TextTold(anomaly.documentId)),
                  ("variance_pct", Percent(py, anomaly.variance))])
  {
    ValueWrites(py, anomaly.stated);
    ValueWrites(py, anomaly.documented);
    VarianceWrites(py, anomaly.variance);
    TextWrites(anomaly.key);
    TextWrites(anomaly.documentId);
    NamesPlain();
    hide Writes, Quoted, ValueText, VarianceText, Member, Members, ToldOf, Unquoted, Percent, Json.IsPlain;
    var key := Part("key", Quoted(anomaly.key), TextTold(anomaly.key));
    var stated := Part("stated_value", ValueText(py, anomaly.stated), ToldOf(py, anomaly.stated));
    var documented := Part("document_value", ValueText(py, anomaly.documented), ToldOf(py, anomaly.documented));
    var document := Part("document_id", Quoted(anomaly.documentId), TextTold(anomaly.documentId));
    var variance := Part("variance_pct", VarianceText(py, anomaly.variance), Percent(py, anomaly.variance));
    FiveRead(key, stated, documented, document, variance);
    RecordIs(py, anomaly, Piece(key), Piece(stated), Piece(documented), Piece(document), Piece(variance));
    hide AnomalyText, Fits, Piece;
    var body := Piece(key) + ", " + (Piece(stated) + ", " + (Piece(documented) + ", " + (Piece(document) + ", " + (Piece(variance) + "}"))));
    assert ("{" + body)[1..] == body && ("{" + body)[0] == '{';
  }

  lemma {:induction false} TextWrites(s: string)
    ensures Writes(Quoted(s), TextTold(s))
  {
  }

  lemma {:induction false} NamesPlain()
    ensures (forall c | c in "key" :: IsPlain(c)) && (forall c | c in "stated_value" :: IsPlain(c))
    ensures (forall c | c in "document_value" :: IsPlain(c)) && (forall c | c in "document_id" :: IsPlain(c))
    ensures forall c | c in "variance_pct" :: IsPlain(c)
  {
  }

  lemma {:induction false} RecordIs(py: Python, anomaly: Anomaly, a: string, b: string, c: string, d: string, e: string)
    requires a == Member("key", Quoted(anomaly.key)) && b == Member("stated_value", ValueText(py, anomaly.stated))
    requires c == Member("document_value", ValueText(py, anomaly.documented)) && d == Member("document_id", Quoted(anomaly.documentId))
    requires e == Member("variance_pct", VarianceText(py, anomaly.variance))
    ensures AnomalyText(py, anomaly) == "{" + (a + ", " + (b + ", " + (c + ", " + (d + ", " + (e + "}")))))
  {
    hide Member, ValueText, VarianceText, Quoted;
    Nested(a, b, c, d, e);
  }

  lemma {:induction false} Nested(a: string, b: string, c: string, d: string, e: string)
    ensures "{" + (a + ", " + (b + ", " + (c + ", " + (d + ", " + e)))) + "}" == "{" + (a + ", " + (b + ", " + (c + ", " + (d + ", " + (e + "}")))))
  {
  }
}
