/** `json.dumps` of an anomaly record, as reconcile.py stores it. */
module Json {
  import opened Basics
  import opened Facts
  import opened Reconcile

  function HexDigit(n: nat): char
    requires n < 16
  {
    if n < 10 then '0' + n as char else 'a' + (n - 10) as char
  }

  function Hex4(n: nat): string
    requires n < 0x10000
  {
    [HexDigit(n / 0x1000), HexDigit(n / 0x100 % 16), HexDigit(n / 16 % 16), HexDigit(n % 16)]
  }

  /** Above the basic plane a character is escaped as two surrogates. */
  function UnicodeEscape(c: char): string {
    var n := c as int;
    if n < 0x10000 then "\\u" + Hex4(n)
    else "\\u" + Hex4(0xD800 + (n - 0x10000) / 0x400) + "\\u" + Hex4(0xDC00 + (n - 0x10000) % 0x400)
  }

  predicate IsPlain(c: char) { ' ' <= c <= '~' && c != '"' && c != '\\' }

  function EscapeChar(c: char): string {
    if IsPlain(c) then [c]
    else if c == '"' then "\\\""
    else if c == '\\' then "\\\\"
    else if c == '\n' then "\\n"
    else if c == '\r' then "\\r"
    else if c == '\t' then "\\t"
    else if c == 8 as char then "\\b"
    else if c == 12 as char then "\\f"
    else UnicodeEscape(c)
  }

  function Escaped(s: string): string {
    if s == "" then "" else EscapeChar(s[0]) + Escaped(s[1..])
  }

  function Quoted(s: string): string { "\"" + Escaped(s) + "\"" }

  function ValueText(py: Python, v: Value): string {
    match v
    case Null => "null"
    case Num(r) => py.showFloat(r)
    case Text(s) => Quoted(s)
  }

  function VarianceText(py: Python, variance: Option<real>): string {
    match variance
    case None => "null"
    case Some(v) => py.showFloat(py.round2(v * 100.0))
  }

  function Member(name: string, value: string): string { "\"" + name + "\": " + value }

  function AnomalyText(py: Python, anomaly: Anomaly): string {
    "{" + (Member("key", Quoted(anomaly.key)) + ", "
    + (Member("stated_value", ValueText(py, anomaly.stated)) + ", "
    + (Member("document_value", ValueText(py, anomaly.documented)) + ", "
    + (Member("document_id", Quoted(anomaly.documentId)) + ", "
    + Member("variance_pct", VarianceText(py, anomaly.variance)))))) + "}"
  }

  /** Printable ASCII without quotes and backslashes is shown as it is. */
  lemma {:induction false} PlainStays(s: string)
    requires forall c | c in s :: IsPlain(c)
    ensures Escaped(s) == s
  {
    if s != "" {
      assert s[0] in s && forall c | c in s[1..] :: c in s;
      PlainStays(s[1..]);
      assert s == [s[0]] + s[1..];
    }
  }
}
