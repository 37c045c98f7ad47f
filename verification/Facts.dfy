/** Extracted values and facts, and the number and text views Python takes of them. */
module Facts {
  import opened Basics

  /** A JSON scalar as the extractor returns it. Numbers are reals. */
  datatype Value = Null | Num(r: real) | Text(s: string)

  datatype Entity = Entity(key: string, value: Value, confidence: real, sourceQuote: Option<string>, documentId: Option<string>)

  datatype Fact = Fact(application: Uuid, key: string, value: Value, confidence: real,
                       documentId: Option<string>, sourceSnippet: string)

  /** `float(text)` (None for ValueError), `str(number)` and `round(number, 2)`. */
  datatype Python = Python(parseFloat: string -> Option<real>, showFloat: real -> string, round2: real -> real)

  const KNOWN_FACT_KEYS: set<string> :=
    {"monthly_income", "annual_income", "employer_name", "address", "government_id", "employment_status"}

  const REQUIRED_FACT_KEYS: seq<string> := ["government_id", "monthly_income", "address"]

  const NUMERIC_KEYS: set<string> := {"monthly_income", "annual_income"}

  function WithoutCommas(s: string): string {
    if s == "" then "" else (if s[0] == ',' then "" else [s[0]]) + WithoutCommas(s[1..])
  }

  function WithoutDollars(s: string): string {
    if s != "" && s[0] == '$' then WithoutDollars(s[1..]) else s
  }

  function NumberText(s: string): string { WithoutDollars(WithoutCommas(Strip(s))) }

  function AsNumber(py: Python, v: Value): Option<real> {
    match v
    case Null => None
    case Num(r) => Some(r)
    case Text(s) => py.parseFloat(NumberText(s))
  }

  function Show(py: Python, v: Value): string {
    match v
    case Null => "None"
    case Num(r) => py.showFloat(r)
    case Text(s) => s
  }

  function CoerceValue(py: Python, key: string, v: Value): Value {
    if v.Text? && (EndsWith(key, "_income") || EndsWith(key, "_amount") || EndsWith(key, "_balance")) then
      match py.parseFloat(NumberText(v.s))
      case Some(r) => Num(r)
      case None => v
    else v
  }
}
