/** Texts too poor in digits and capitals to hold any identifier; the chase messages are
    such texts. */
module CleanTexts {
  import opened Basics
  import opened Patterns
  import opened Redaction
  import opened Facts
  import opened Tables
  import opened Nodes
  import opened SerialRuns

  predicate IsCode(c: char) { IsDigit(c) || IsUpper(c) }

  /** How many digits and capitals a text holds. */
  function Codes(s: string): nat {
    if s == "" then 0 else (if IsCode(s[0]) then 1 else 0) + Codes(s[1..])
  }

  lemma {:induction false} CodesAppend(a: string, b: string)
    ensures Codes(a + b) == Codes(a) + Codes(b)
  {
    if a == "" {
      assert a + b == b;
    } else {
      assert (a + b)[1..] == a[1..] + b && (a + b)[0] == a[0];
      CodesAppend(a[1..], b);
    }
  }

  lemma {:induction false} CodesAll(s: string)
    requires forall c | c in s :: IsCode(c)
    ensures Codes(s) == |s|
  {
    if s != "" {
      assert s[0] in s && forall c | c in s[1..] :: c in s;
      CodesAll(s[1..]);
    }
  }

  lemma {:induction false} CodesNone(s: string)
    requires forall c | c in s :: !IsCode(c)
    ensures Codes(s) == 0
  {
    if s != "" {
      assert s[0] in s && forall c | c in s[1..] :: c in s;
      CodesNone(s[1..]);
    }
  }

  lemma {:induction false} CodesPart(s: string, i: nat, j: nat)
    requires i <= j <= |s|
    ensures Codes(s[i..j]) <= Codes(s)
  {
    CodesAppend(s[..i], s[i..]);
    CodesAppend(s[i..j], s[j..]);
    hide Codes;
    assert s == s[..i] + s[i..] && s[i..] == s[i..j] + s[j..];
  }

  lemma {:induction false} DigitsAreCodes(w: string)
    ensures DigitCount(w) <= Codes(w)
  {
    if w != "" { DigitsAreCodes(w[1..]); }
  }

  lemma {:induction false} SsnCodes(w: string, sep: Class)
    requires Matches(w, SsnClasses(sep))
    ensures Codes(w) >= 9
  {
    SsnDigits(w, sep);
    hide Matches;
    CodesAll(w[..3]);
    CodesAll(w[4..6]);
    CodesAll(w[7..]);
    CodesSplit(w, 3);
    CodesSplit(w[3..], 1);
    CodesSplit(w[4..], 2);
    CodesSplit(w[6..], 1);
    hide Codes;
    assert w[3..][1..] == w[4..] && w[4..][2..] == w[6..] && w[6..][1..] == w[7..] && w[4..][..2] == w[4..6];
  }

  lemma {:induction false} CodesSplit(w: string, i: nat)
    requires i <= |w|
    ensures Codes(w) == Codes(w[..i]) + Codes(w[i..])
  {
    CodesAppend(w[..i], w[i..]);
    hide Codes;
    assert w == w[..i] + w[i..];
  }

  lemma {:induction false} SsnDigits(w: string, sep: Class)
    requires Matches(w, SsnClasses(sep))
    ensures |w| == 11 && forall c | c in w[..3] || c in w[4..6] || c in w[7..] :: IsCode(c)
  {
    var ks := SsnClasses(sep);
    assert forall t | t in [0, 1, 2, 4, 5, 7, 8, 9, 10] :: ks[t] == Digit && IsDigit(w[t]);
  }

  lemma {:induction false} IbanCodes(w: string)
    requires Shape(Iban, w)
    ensures Codes(w) >= 15
  {
    var head, ks := w[..4], [Upper, Upper, Digit, Digit];
    assert forall t | 0 <= t < 4 :: InClass(head[t], ks[t]);
    CodesAll(head);
    CodesAll(w[4..]);
    CodesAppend(head, w[4..]);
    hide Codes;
    assert w == head + w[4..];
  }

  /** Fewer than nine digits and capitals: no pattern matches anywhere. */
  lemma {:induction false} FewCodesClean(s: string)
    requires Codes(s) < 9
    ensures Clean(s)
  {
    forall p: Pattern, i: nat, j: nat ensures !MatchAt(p, s, i, j) {
      if MatchAt(p, s, i, j) { MatchHasCodes(p, s, i, j); }
    }
  }

  lemma {:induction false} MatchHasCodes(p: Pattern, s: string, i: nat, j: nat)
    requires MatchAt(p, s, i, j)
    ensures Codes(s) >= 9
  {
    var w := s[i..j];
    CodesPart(s, i, j);
    hide Codes;
    match p
    case SsnHyphen => SsnCodes(w, Hyphen);
    case SsnSpace => SsnCodes(w, Space);
    case Account => DigitsAreCodes(w);
    case Iban => IbanCodes(w);
  }

  // ----- The chase messages -----

  function KeyCodes(key: string): nat { Codes(MissingText(key)) }

  /** One digit or capital, then none. */
  lemma {:induction false} OneThenNone(c: char, rest: string)
    requires forall d | d in rest :: !IsCode(d)
    ensures Codes([c] + rest) <= 1
  {
    CodesNone(rest);
    assert ([c] + rest)[1..] == rest;
  }

  /** Two digits or capitals, then none. */
  lemma {:induction false} TwoThenNone(c: char, d: char, rest: string)
    requires forall e | e in rest :: !IsCode(e)
    ensures Codes([c, d] + rest) <= 2
  {
    OneThenNone(d, rest);
    assert ([c, d] + rest)[1..] == [d] + rest;
  }

  lemma {:induction false} MissingCodes()
    ensures KeyCodes("government_id") <= 2 && KeyCodes("monthly_income") == 0 && KeyCodes("address") <= 2
  {
    IdCodes();
    IncomeCodes();
    AddressCodes();
    assert |"government_id"| == 13 && |"monthly_income"| == 14 && |"address"| == 7;
    hide Codes;
  }

  lemma {:induction false} PassportCodes()
    ensures Codes("ID (passport or ") <= 2
  {
    hide Codes;
    TwoThenNone('I', 'D', " (passport or ");
    assert ['I', 'D'] + " (passport or " == "ID (passport or ";
  }

  lemma {:induction false} IdCodes()
    ensures Codes("a government-issued photo " + "ID (passport or " + "driver's license)") <= 2
  {
    hide Codes;
    var a, b, c := "a government-issued photo ", "ID (passport or ", "driver's license)";
    CodesNone(a);
    PassportCodes();
    CodesNone(c);
    CodesAppend(a, b);
    CodesAppend(a + b, c);
  }

  lemma {:induction false} IncomeCodes()
    ensures Codes("proof of income (recent " + "payslip, bank statement, " + "or tax return)") == 0
  {
    hide Codes;
    CodesNone("proof of income (recent ");
    CodesNone("payslip, bank statement, ");
    CodesNone("or tax return)");
    CodesAppend("proof of income (recent ", "payslip, bank statement, ");
    CodesAppend("proof of income (recent " + "payslip, bank statement, ", "or tax return)");
  }

  lemma {:induction false} AddressCodes()
    ensures Codes("proof of address (utility bill, " + "lease agreement, or bank " + "statement dated within " + "90 days)") <= 2
  {
    hide Codes;
    var a, b, c, d := "proof of address (utility bill, ", "lease agreement, or bank ", "statement dated within ", "90 days)";
    CodesNone(a);
    CodesNone(b);
    CodesNone(c);
    TwoThenNone('9', '0', " days)");
    assert ['9', '0'] + " days)" == d;
    CodesAppend(a, b);
    CodesAppend(a + b, c);
    CodesAppend(a + b + c, d);
  }

  /** "Please reply with the ": both closings go on like this. */
  lemma {:induction false} PleaseCodes()
    ensures Codes("Please reply with the ") <= 1
  {
    hide Codes;
    OneThenNone('P', "lease reply with the ");
    assert ['P'] + "lease reply with the " == "Please reply with the ";
  }

  lemma {:induction false} OpeningCodes()
    ensures Codes(SMS_OPENING) <= 2
  {
    hide Codes;
    OneThenNone('H', "i! ");
    OneThenNone('W', "e still need: ");
    assert ['H'] + "i! " == "Hi! " && ['W'] + "e still need: " == "We still need: ";
    CodesAppend("Hi! ", "We still need: ");
  }

  lemma {:induction false} ClosingCodes()
    ensures Codes(SMS_CLOSING) <= 1
  {
    hide Codes;
    CodesNone(". ");
    PleaseCodes();
    CodesNone("requested information.");
    CodesAppend(". ", "Please reply with the ");
    CodesAppend(". " + "Please reply with the ", "requested information.");
  }

  lemma {:induction false} HelloCodes()
    ensures Codes("Hello,\n\n") <= 1
  {
    hide Codes;
    OneThenNone('H', "ello,\n\n");
    assert ['H'] + "ello,\n\n" == "Hello,\n\n";
  }

  lemma {:induction false} ThankCodes()
    ensures Codes("Thank you for starting ") <= 1
  {
    hide Codes;
    OneThenNone('T', "hank you for starting ");
    assert ['T'] + "hank you for starting " == "Thank you for starting ";
  }

  lemma {:induction false} FollowingCodes()
    ensures Codes("We're missing the following ") <= 1
  {
    hide Codes;
    OneThenNone('W', "e're missing the following ");
    assert ['W'] + "e're missing the following " == "We're missing the following ";
  }

  lemma {:induction false} EmailOpeningCodes()
    ensures Codes(EMAIL_OPENING) <= 3
  {
    hide Codes;
    var a, b, c, d, e := "Hello,\n\n", "Thank you for starting ", "your application. ", "We're missing the following ", "documents:\n";
    HelloCodes();
    ThankCodes();
    CodesNone(c);
    FollowingCodes();
    CodesNone(e);
    CodesAppend(a, b);
    CodesAppend(a + b, c);
    CodesAppend(a + b + c, d);
    CodesAppend(a + b + c + d, e);
  }

  lemma {:induction false} EmailClosingCodes()
    ensures Codes(EMAIL_CLOSING) <= 1
  {
    hide Codes;
    var a, b, c, d := "\n\n", "Please reply with the ", "requested documents at ", "your earliest convenience.";
    CodesNone(a);
    PleaseCodes();
    CodesNone(c);
    CodesNone(d);
    CodesAppend(a, b);
    CodesAppend(a + b, c);
    CodesAppend(a + b + c, d);
  }

  lemma {:induction false} RequiredCodes()
    ensures Codes("All required documents ") <= 1
  {
    hide Codes;
    OneThenNone('A', "ll required documents ");
    assert ['A'] + "ll required documents " == "All required documents ";
  }

  lemma {:induction false} YourCodes()
    ensures Codes("Your application is ") <= 1
  {
    hide Codes;
    OneThenNone('Y', "our application is ");
    assert ['Y'] + "our application is " == "Your application is ";
  }

  lemma {:induction false} ReadyCodes()
    ensures Codes(READY_TEXT) <= 2
  {
    hide Codes;
    var a, b, c, d := "All required documents ", "have been received. ", "Your application is ", "ready for review.";
    RequiredCodes();
    CodesNone(b);
    YourCodes();
    CodesNone(d);
    CodesAppend(a, b);
    CodesAppend(a + b, c);
    CodesAppend(a + b + c, d);
  }

  function AllKeyCodes(keys: seq<string>): nat {
    if keys == [] then 0 else KeyCodes(keys[0]) + AllKeyCodes(keys[1..])
  }

  lemma {:induction false} JoinedCodes(front: string, separator: string, keys: seq<string>)
    requires Codes(front) == 0 && Codes(separator) == 0
    ensures Codes(JoinTexts(front, separator, keys)) == AllKeyCodes(keys)
  {
    if keys != [] {
      JoinedCodes(front, separator, keys[1..]);
      var sep := if |keys| == 1 then "" else separator;
      var rest := JoinTexts(front, separator, keys[1..]);
      assert Codes(sep) == 0;
      hide Codes, MissingText;
      CodesAppend(front, MissingText(keys[0]));
      CodesAppend(front + MissingText(keys[0]), sep);
      CodesAppend(front + MissingText(keys[0]) + sep, rest);
    }
  }

  lemma {:induction false} AllKeyAppend(a: seq<string>, b: seq<string>)
    ensures AllKeyCodes(a + b) == AllKeyCodes(a) + AllKeyCodes(b)
  {
    hide KeyCodes;
    if a == [] {
      assert a + b == b;
    } else {
      assert (a + b)[1..] == a[1..] + b;
      AllKeyAppend(a[1..], b);
    }
  }

  lemma {:induction false} MissingByCodes(id: bool, income: bool, address: bool)
    ensures AllKeyCodes(MissingBy(id, income, address)) <= 4
  {
    hide KeyCodes;
    MissingCodes();
    var a := if id then ["government_id"] else [];
    var b := if income then ["monthly_income"] else [];
    var c := if address then ["address"] else [];
    AllKeyAppend(a, b);
    AllKeyAppend(a + b, c);
    if id { assert a[1..] == []; }
    if income { assert b[1..] == []; }
    if address { assert c[1..] == []; }
  }

  /** Whatever is missing, the text sent holds no identifier. */
  lemma {:induction false} ChaseTextClean(present: set<string>, channel: Channel)
    ensures Clean(ChaseContent(Missing(present, REQUIRED_FACT_KEYS), channel))
  {
    MissingIsSubset(present);
    hide Missing, Clean;
    var i, m, a := "government_id" !in present, "monthly_income" !in present, "address" !in present;
    var keys := MissingBy(i, m, a);
    hide MissingBy;
    if keys == [] {
      ReadyCodes();
    } else {
      MissingByCodes(i, m, a);
      ContentCodes(keys, channel);
    }
    hide Codes, ChaseContent;
    FewCodesClean(ChaseContent(keys, channel));
  }

  lemma {:induction false} ContentCodes(keys: seq<string>, channel: Channel)
    requires keys != [] && AllKeyCodes(keys) <= 4
    ensures Codes(ChaseContent(keys, channel)) < 9
  {
    hide AllKeyCodes, JoinTexts;
    if channel == Sms {
      OpeningCodes();
      ClosingCodes();
      CodesNone("");
      CodesNone(", ");
      JoinedCodes("", ", ", keys);
      Framed(SMS_OPENING, JoinTexts("", ", ", keys), SMS_CLOSING);
    } else {
      EmailOpeningCodes();
      EmailClosingCodes();
      CodesNone("\U{2022} ");
      CodesNone("\n");
      JoinedCodes("\U{2022} ", "\n", keys);
      Framed(EMAIL_OPENING, JoinTexts("\U{2022} ", "\n", keys), EMAIL_CLOSING);
    }
  }

  lemma {:induction false} Framed(a: string, b: string, c: string)
    ensures Codes(a + b + c) == Codes(a) + Codes(b) + Codes(c)
  {
    hide Codes;
    CodesAppend(a, b);
    CodesAppend(a + b, c);
  }
}
