/** What a chase message asks for: each missing requirement by its own phrase, no other
    one; in one line by SMS, one line each by email. */
module Asking {
  import opened Basics
  import opened Facts
  import opened Tables
  import opened Nodes
  import opened SerialRuns

  /** The text asks for exactly these of the three requirements. */
  predicate AsksFor(text: string, id: bool, income: bool, address: bool) {
    && (Substring("photo ID", text) <==> id)
    && (Substring("proof of income", text) <==> income)
    && (Substring("proof of address", text) <==> address)
  }

  // ----- Telling the phrases apart -----

  /** An `f` at i is not the end of the text, nor followed by a space and c or the end. */
  predicate GoesOn(s: string, i: nat, c: char) {
    i < |s| && s[i] == 'f' ==> i + 1 < |s| && (s[i + 1] != ' ' || (i + 2 < |s| && s[i + 2] != c))
  }

  /** No `f`, a space and then c. */
  ghost predicate NoPhrase(s: string, c: char) { forall i: nat :: GoesOn(s, i, c) }

  /** One line, without what gives away an identity document, a proof of income, a proof of address. */
  ghost predicate Lacks(s: string, id: bool, income: bool, address: bool) {
    && '\n' !in s && (id ==> 'I' !in s) && (income ==> NoPhrase(s, 'i')) && (address ==> NoPhrase(s, 'a'))
  }

  lemma {:induction false} NoPhraseAppend(a: string, b: string, c: char)
    requires NoPhrase(a, c) && NoPhrase(b, c)
    ensures NoPhrase(a + b, c)
  {
    forall i: nat ensures GoesOn(a + b, i, c) {
      if i < |a| {
        assert GoesOn(a, i, c);
      } else {
        assert GoesOn(b, i - |a|, c);
      }
    }
  }

  lemma {:induction false} LacksAppend(a: string, b: string, id: bool, income: bool, address: bool)
    requires Lacks(a, id, income, address) && Lacks(b, id, income, address)
    ensures Lacks(a + b, id, income, address)
  {
    if income { NoPhraseAppend(a, b, 'i'); }
    if address { NoPhraseAppend(a, b, 'a'); }
    hide NoPhrase;
  }

  lemma {:induction false} Plainly(s: string)
    requires forall c | c in s :: c != 'I' && c != 'f' && c != '\n'
    ensures Lacks(s, true, true, true)
  {
    forall i: nat | i < |s| ensures s[i] in s {}
  }

  lemma {:induction false} LacksLess(s: string, id: bool, income: bool, address: bool)
    requires Lacks(s, true, true, true)
    ensures Lacks(s, id, income, address)
  {
    hide NoPhrase;
  }

  lemma {:induction false} NotInside(u: string, s: string, t: nat)
    requires t < |u| && u[t] !in s
    ensures !Substring(u, s)
  {
    forall i | 0 <= i <= |s| - |u| ensures !OccursAt(u, s, i) { assert s[i..i + |u|][t] == s[i + t]; }
  }

  lemma {:induction false} PhraseHolds(u: string, s: string, t: nat, c: char)
    requires NoPhrase(s, c) && t + 2 < |u| && u[t] == 'f' && u[t + 1] == ' ' && u[t + 2] == c
    ensures !Substring(u, s)
  {
    forall i | 0 <= i <= |s| - |u| ensures !OccursAt(u, s, i) {
      var w := s[i..i + |u|];
      assert GoesOn(s, i + t, c);
      assert w[t] == s[i + t] && w[t + 1] == s[i + t + 1] && w[t + 2] == s[i + t + 2];
    }
  }

  lemma {:induction false} NoIncome(s: string)
    requires NoPhrase(s, 'i')
    ensures !Substring("proof of income", s)
  {
    hide NoPhrase, Substring;
    PhraseHolds("proof of income", s, 7, 'i');
  }

  lemma {:induction false} NoAddress(s: string)
    requires NoPhrase(s, 'a')
    ensures !Substring("proof of address", s)
  {
    hide NoPhrase, Substring;
    PhraseHolds("proof of address", s, 7, 'a');
  }

  lemma {:induction false} NoIdentity(s: string)
    requires 'I' !in s
    ensures !Substring("photo ID", s)
  {
    hide Substring;
    assert "photo ID"[6] == 'I';
    NotInside("photo ID", s, 6);
  }

  lemma {:induction false} LackingAsksNot(s: string, id: bool, income: bool, address: bool)
    requires Lacks(s, id, income, address)
    ensures id ==> !Substring("photo ID", s)
    ensures income ==> !Substring("proof of income", s)
    ensures address ==> !Substring("proof of address", s)
  {
    hide NoPhrase, Substring;
    if id { NoIdentity(s); }
    if income { NoIncome(s); }
    if address { NoAddress(s); }
  }

  // ----- The three requirements -----

  lemma {:induction false} KeyLengths()
    ensures |"government_id"| == 13 && |"monthly_income"| == 14 && |"address"| == 7
  {
  }

  lemma {:induction false} IdentityText()
    ensures MissingText("government_id") == "a government-issued photo " + "ID (passport or " + "driver's license)"
    ensures Lacks(MissingText("government_id"), false, true, true)
  {
    hide Lacks;
    var a, b, c := "a government-issued photo ", "ID (passport or ", "driver's license)";
    Plainly(a);
    Plainly(c);
    IdentityMiddle();
    LacksLess(a, false, true, true);
    LacksLess(c, false, true, true);
    LacksAppend(a, b, false, true, true);
    LacksAppend(a + b, c, false, true, true);
  }

  lemma {:induction false} IdentityMiddle()
    ensures Lacks("ID (passport or ", false, true, true)
  {
    assert forall c | c in "ID (passport or " :: c != 'f' && c != '\n';
  }

  lemma {:induction false} IdentityPhrase()
    ensures Substring("photo ID", "a government-issued photo " + "ID (passport or " + "driver's license)")
  {
    hide Substring;
    assert "a government-issued photo " == "a government-issued " + "photo " && "ID (passport or " == "ID" + " (passport or ";
    PhraseAcross("a government-issued ", "photo ", "ID", " (passport or ", "driver's license)");
    assert "photo " + "ID" == "photo ID";
  }

  lemma {:induction false} PhraseAcross(a: string, u: string, v: string, b: string, c: string)
    ensures Substring(u + v, (a + u) + (v + b) + c)
  {
    SubstringIntro(a, u + v, b + c);
    assert (a + u) + (v + b) + c == a + (u + v) + (b + c);
  }

  lemma {:induction false} IncomeFront()
    ensures Lacks("proof of income (recent ", true, false, true)
  {
  }

  lemma {:induction false} IncomeText()
    ensures MissingText("monthly_income") == "proof of income (recent " + "payslip, bank statement, " + "or tax return)"
    ensures Lacks(MissingText("monthly_income"), true, false, true)
  {
    KeyLengths();
    hide Lacks;
    var a, b, c := "proof of income (recent ", "payslip, bank statement, ", "or tax return)";
    IncomeFront();
    Plainly(b);
    Plainly(c);
    LacksLess(b, true, false, true);
    LacksLess(c, true, false, true);
    LacksAppend(a, b, true, false, true);
    LacksAppend(a + b, c, true, false, true);
  }

  lemma {:induction false} FrontPhrase(u: string, a: string, rest: string)
    ensures Substring(u, (u + a) + rest)
  {
    SubstringIntro("", u, a + rest);
    assert "" + u + (a + rest) == (u + a) + rest;
  }

  lemma {:induction false} IncomePhrase()
    ensures Substring("proof of income", "proof of income (recent " + "payslip, bank statement, " + "or tax return)")
  {
    hide Substring;
    assert "proof of income (recent " == "proof of income" + " (recent ";
    FrontPhrase("proof of income", " (recent ", "payslip, bank statement, " + "or tax return)");
    Assoc("proof of income (recent ", "payslip, bank statement, ", "or tax return)");
  }

  lemma {:induction false} AddressFront()
    ensures Lacks("proof of address (utility bill, ", true, true, false)
  {
  }

  lemma {:induction false} AddressText()
    ensures MissingText("address")
         == "proof of address (utility bill, " + "lease agreement, or bank " + "statement dated within " + "90 days)"
    ensures Lacks(MissingText("address"), true, true, false)
  {
    KeyLengths();
    hide Lacks;
    var a, b, c, d := "proof of address (utility bill, ", "lease agreement, or bank ", "statement dated within ", "90 days)";
    AddressFront();
    Plainly(b);
    Plainly(c);
    Plainly(d);
    LacksLess(b, true, true, false);
    LacksLess(c, true, true, false);
    LacksLess(d, true, true, false);
    LacksAppend(a, b, true, true, false);
    LacksAppend(a + b, c, true, true, false);
    LacksAppend(a + b + c, d, true, true, false);
  }

  lemma {:induction false} AddressPhrase()
    ensures Substring("proof of address",
                      "proof of address (utility bill, " + "lease agreement, or bank " + "statement dated within " + "90 days)")
  {
    hide Substring;
    var b, c, d := "lease agreement, or bank ", "statement dated within ", "90 days)";
    assert "proof of address (utility bill, " == "proof of address" + " (utility bill, ";
    FrontPhrase("proof of address", " (utility bill, ", b + c + d);
    Reassoc("proof of address (utility bill, ", b, c, d);
  }

  lemma {:induction false} Reassoc(a: string, b: string, c: string, d: string)
    ensures a + (b + c + d) == a + b + c + d
  {
  }

  predicate Required(key: string) { key == "government_id" || key == "monthly_income" || key == "address" }

  /** The text of a requirement asks for it alone, on one line. */
  lemma {:induction false} RequirementText(key: string)
    requires Required(key)
    ensures Lacks(MissingText(key), key != "government_id", key != "monthly_income", key != "address")
    ensures AsksFor(MissingText(key), key == "government_id", key == "monthly_income", key == "address")
  {
    KeyLengths();
    hide Lacks, Substring, MissingText;
    LackingOf(key);
    LackingAsksNot(MissingText(key), key != "government_id", key != "monthly_income", key != "address");
    if key == "government_id" {
      IdentityText();
      IdentityPhrase();
    } else if key == "monthly_income" {
      IncomeText();
      IncomePhrase();
    } else {
      AddressText();
      AddressPhrase();
    }
  }

  lemma {:induction false} LackingOf(key: string)
    requires Required(key)
    ensures Lacks(MissingText(key), key != "government_id", key != "monthly_income", key != "address")
  {
    KeyLengths();
    hide Lacks, MissingText;
    IdentityText();
    IncomeText();
    AddressText();
  }

  // ----- The frames around them -----

  lemma {:induction false} OpeningLacks()
    ensures Lacks(SMS_OPENING, true, true, true)
  {
    hide Lacks;
    Plainly("Hi! ");
    Plainly("We still need: ");
    LacksAppend("Hi! ", "We still need: ", true, true, true);
  }

  lemma {:induction false} InformationLacks()
    ensures Lacks("requested information.", true, true, true)
  {
  }

  lemma {:induction false} ClosingLacks()
    ensures Lacks(SMS_CLOSING, true, true, true)
  {
    hide Lacks;
    var a, b, c := ". ", "Please reply with the ", "requested information.";
    Plainly(a);
    Plainly(b);
    InformationLacks();
    LacksAppend(a, b, true, true, true);
    LacksAppend(a + b, c, true, true, true);
  }

  lemma {:induction false} SeparatorLacks()
    ensures Lacks(", ", true, true, true) && Lacks("", true, true, true)
  {
    Plainly(", ");
    Plainly("");
  }

  // ----- By SMS -----

  lemma {:induction false} JoinedLacks(keys: seq<string>, id: bool, income: bool, address: bool)
    requires forall key | key in keys :: Lacks(MissingText(key), id, income, address)
    ensures Lacks(JoinTexts("", ", ", keys), id, income, address)
  {
    SeparatorLacks();
    hide Lacks, MissingText;
    LacksLess("", id, income, address);
    LacksLess(", ", id, income, address);
    if keys != [] {
      assert keys[0] in keys && forall key | key in keys[1..] :: key in keys;
      JoinedLacks(keys[1..], id, income, address);
      var first, gap := MissingText(keys[0]), if |keys| == 1 then "" else ", ";
      LacksAppend("", first, id, income, address);
      LacksAppend("" + first, gap, id, income, address);
      LacksAppend("" + first + gap, JoinTexts("", ", ", keys[1..]), id, income, address);
    }
  }

  lemma {:induction false} JoinedHolds(front: string, separator: string, keys: seq<string>, key: string, phrase: string)
    requires key in keys && Substring(phrase, MissingText(key))
    ensures Substring(phrase, JoinTexts(front, separator, keys))
  {
    hide MissingText, Substring;
    var first, gap := MissingText(keys[0]), if |keys| == 1 then "" else separator;
    var rest := JoinTexts(front, separator, keys[1..]);
    if key == keys[0] {
      SubstringWiden(phrase, front, first, gap + rest);
      assert front + first + (gap + rest) == front + first + gap + rest;
    } else {
      JoinedHolds(front, separator, keys[1..], key, phrase);
      SubstringWiden(phrase, front + first + gap, rest, "");
      assert front + first + gap + rest + "" == front + first + gap + rest;
    }
  }

  lemma {:induction false} MissingKeysAre(id: bool, income: bool, address: bool)
    ensures var keys := MissingBy(id, income, address);
            && (forall key | key in keys :: Required(key))
            && ("government_id" in keys <==> id) && ("monthly_income" in keys <==> income) && ("address" in keys <==> address)
  {
    KeyLengths();
  }

  lemma {:induction false} AllLack(keys: seq<string>)
    requires forall key | key in keys :: Required(key)
    ensures forall key | key in keys ::
              Lacks(MissingText(key), "government_id" !in keys, "monthly_income" !in keys, "address" !in keys)
  {
    hide MissingText;
    forall key | key in keys
      ensures Lacks(MissingText(key), "government_id" !in keys, "monthly_income" !in keys, "address" !in keys)
    {
      RequirementText(key);
    }
  }

  lemma {:induction false} SmsText(id: bool, income: bool, address: bool)
    requires id || income || address
    ensures var text := ChaseContent(MissingBy(id, income, address), Sms);
            AsksFor(text, id, income, address) && '\n' !in text
  {
    var keys := MissingBy(id, income, address);
    MissingKeysAre(id, income, address);
    hide MissingBy;
    AllLack(keys);
    hide Lacks, MissingText, JoinTexts, SMS_OPENING, SMS_CLOSING, Substring, Required;
    var body := JoinTexts("", ", ", keys);
    assert ChaseContent(keys, Sms) == SMS_OPENING + body + SMS_CLOSING;
    OpeningLacks();
    ClosingLacks();
    LacksLess(SMS_OPENING, !id, !income, !address);
    LacksLess(SMS_CLOSING, !id, !income, !address);
    JoinedLacks(keys, !id, !income, !address);
    LacksAppend(SMS_OPENING, body, !id, !income, !address);
    LacksAppend(SMS_OPENING + body, SMS_CLOSING, !id, !income, !address);
    LackingAsksNot(ChaseContent(keys, Sms), !id, !income, !address);
    OneLine(ChaseContent(keys, Sms), !id, !income, !address);
    PhrasesHeld("", ", ", keys, SMS_OPENING, SMS_CLOSING);
  }

  lemma {:induction false} OneLine(s: string, id: bool, income: bool, address: bool)
    requires Lacks(s, id, income, address)
    ensures '\n' !in s
  {
  }

  lemma {:induction false} PhrasesHeld(front: string, separator: string, keys: seq<string>, opening: string, closing: string)
    ensures var text := opening + JoinTexts(front, separator, keys) + closing;
            && ("government_id" in keys ==> Substring("photo ID", text))
            && ("monthly_income" in keys ==> Substring("proof of income", text))
            && ("address" in keys ==> Substring("proof of address", text))
  {
    hide MissingText, JoinTexts, Substring;
    if "government_id" in keys {
      RequirementText("government_id");
      JoinedHolds(front, separator, keys, "government_id", "photo ID");
      SubstringWiden("photo ID", opening, JoinTexts(front, separator, keys), closing);
    }
    if "monthly_income" in keys {
      RequirementText("monthly_income");
      JoinedHolds(front, separator, keys, "monthly_income", "proof of income");
      SubstringWiden("proof of income", opening, JoinTexts(front, separator, keys), closing);
    }
    if "address" in keys {
      RequirementText("address");
      JoinedHolds(front, separator, keys, "address", "proof of address");
      SubstringWiden("proof of address", opening, JoinTexts(front, separator, keys), closing);
    }
  }

  // ----- By email -----

  /** The lines of a text. */
  function Lines(s: string): (lines: seq<string>)
    ensures lines != []
  {
    if s == "" then [""]
    else
      var rest := Lines(s[1..]);
      if s[0] == '\n' then [""] + rest else [[s[0]] + rest[0]] + rest[1..]
  }

  lemma {:induction false} LineEnds(a: string, b: string)
    requires '\n' !in a
    ensures Lines(a + "\n" + b) == [a] + Lines(b)
  {
    var s := a + "\n" + b;
    if a == "" {
      assert s == "\n" + b && s[1..] == b;
    } else {
      LineEnds(a[1..], b);
      assert s[1..] == a[1..] + "\n" + b && s[0] == a[0];
      assert a == [a[0]] + a[1..];
    }
  }

  lemma {:induction false} LastLine(a: string)
    requires '\n' !in a
    ensures Lines(a) == [a]
  {
    if a != "" {
      LastLine(a[1..]);
      assert a == [a[0]] + a[1..];
    }
  }

  /** One line for each key. */
  function Bullets(keys: seq<string>): seq<string> {
    if keys == [] then [] else ["\U{2022} " + MissingText(keys[0])] + Bullets(keys[1..])
  }

  lemma {:induction false} BulletsAre(keys: seq<string>)
    ensures |Bullets(keys)| == |keys| && forall i | 0 <= i < |keys| :: Bullets(keys)[i] == "\U{2022} " + MissingText(keys[i])
  {
    hide MissingText;
    if keys != [] { BulletsAre(keys[1..]); }
  }

  lemma {:induction false} BulletLacks()
    ensures Lacks("\U{2022} ", true, true, true)
  {
    Plainly("\U{2022} ");
  }

  lemma {:induction false} BulletOneLine(key: string)
    requires Required(key)
    ensures '\n' !in "\U{2022} " + MissingText(key)
  {
    hide MissingText;
    RequirementText(key);
    BulletLacks();
    OneLine(MissingText(key), key != "government_id", key != "monthly_income", key != "address");
    OneLine("\U{2022} ", true, true, true);
  }

  lemma {:induction false} ItemLines(keys: seq<string>, rest: string)
    requires keys != [] && forall key | key in keys :: Required(key)
    ensures Lines(JoinTexts("\U{2022} ", "\n", keys) + ("\n" + rest)) == Bullets(keys) + Lines(rest)
  {
    hide MissingText, Required, Lines;
    var front := "\U{2022} ";
    var first, later := front + MissingText(keys[0]), JoinTexts(front, "\n", keys[1..]);
    assert keys[0] in keys;
    BulletOneLine(keys[0]);
    if |keys| == 1 {
      assert keys[1..] == [] && later == "" && Bullets(keys[1..]) == [];
      assert first + "" + later + ("\n" + rest) == first + "\n" + rest;
      LineEnds(first, rest);
      assert Bullets(keys) == [first];
    } else {
      forall key | key in keys[1..] ensures key in keys {}
      ItemLines(keys[1..], rest);
      assert first + "\n" + later + ("\n" + rest) == first + "\n" + (later + ("\n" + rest));
      LineEnds(first, later + ("\n" + rest));
      assert [first] + (Bullets(keys[1..]) + Lines(rest)) == Bullets(keys) + Lines(rest);
    }
  }

  const GREETING := "Hello,"
  const INTRODUCTION := "Thank you for starting " + "your application. " + "We're missing the following " + "documents:"
  const REQUEST := "Please reply with the " + "requested documents at " + "your earliest convenience."

  lemma {:induction false} OpeningIs()
    ensures EMAIL_OPENING == GREETING + "\n" + ("" + "\n" + (INTRODUCTION + "\n"))
  {
    var a, b, c := "Thank you for starting ", "your application. ", "We're missing the following ";
    assert "Hello,\n\n" == "Hello," + "\n" + "\n" && "documents:\n" == "documents:" + "\n";
    OpeningRegroups("Hello,", a, b, c, "documents:");
  }

  lemma {:induction false} OpeningRegroups(g: string, a: string, b: string, c: string, d: string)
    ensures (g + "\n" + "\n") + a + b + c + (d + "\n") == g + "\n" + ("" + "\n" + ((a + b + c + d) + "\n"))
  {
  }

  lemma {:induction false} ClosingIs()
    ensures EMAIL_CLOSING == "\n" + ("" + "\n" + REQUEST)
  {
    assert "\n\n" == "\n" + "\n";
    ClosingRegroups("Please reply with the ", "requested documents at ", "your earliest convenience.");
  }

  lemma {:induction false} ClosingRegroups(a: string, b: string, c: string)
    ensures ("\n" + "\n") + a + b + c == "\n" + ("" + "\n" + (a + b + c))
  {
  }

  lemma {:induction false} IntroductionLacks()
    ensures Lacks("Thank you for starting ", true, true, true) && Lacks("We're missing the following ", true, true, true)
  {
    ThankLacks();
    FollowingLacks();
    hide Lacks;
  }

  lemma {:induction false} ThankLacks()
    ensures Lacks("Thank you for starting ", true, true, true)
  {
  }

  lemma {:induction false} FollowingLacks()
    ensures Lacks("We're missing the following ", true, true, true)
  {
  }

  lemma {:induction false} EmailFramesLack()
    ensures Lacks(GREETING, true, true, true) && Lacks(INTRODUCTION, true, true, true) && Lacks(REQUEST, true, true, true)
  {
    hide Lacks;
    var a, b, c, d := "Thank you for starting ", "your application. ", "We're missing the following ", "documents:";
    Plainly("Hello,");
    IntroductionLacks();
    Plainly(b);
    Plainly(d);
    LacksAppend(a, b, true, true, true);
    LacksAppend(a + b, c, true, true, true);
    LacksAppend(a + b + c, d, true, true, true);
    RequestLacks();
  }

  lemma {:induction false} RequestLacks()
    ensures Lacks(REQUEST, true, true, true)
  {
    hide Lacks;
    var a, b, c := "Please reply with the ", "requested documents at ", "your earliest convenience.";
    Plainly(a);
    Plainly(b);
    Plainly(c);
    LacksAppend(a, b, true, true, true);
    LacksAppend(a + b, c, true, true, true);
  }

  lemma {:induction false} EmailRegroups(g: string, i: string, body: string, r: string)
    ensures (g + "\n" + ("" + "\n" + (i + "\n"))) + body + ("\n" + ("" + "\n" + r))
         == g + "\n" + ("" + "\n" + (i + "\n" + (body + ("\n" + ("" + "\n" + r)))))
  {
    var tail := "\n" + ("" + "\n" + r);
    assert (i + "\n") + body + tail == i + "\n" + (body + tail);
  }

  lemma {:induction false} LinesOf(g: string, i: string, keys: seq<string>, r: string)
    requires keys != [] && '\n' !in g && '\n' !in i && '\n' !in r && forall key | key in keys :: Required(key)
    ensures Lines((g + "\n" + ("" + "\n" + (i + "\n"))) + JoinTexts("\U{2022} ", "\n", keys) + ("\n" + ("" + "\n" + r)))
         == [g, "", i] + Bullets(keys) + ["", r]
  {
    hide JoinTexts, Required, Lines, Bullets;
    var body, last := JoinTexts("\U{2022} ", "\n", keys), "" + "\n" + r;
    EmailRegroups(g, i, body, r);
    LineEnds(g, "" + "\n" + (i + "\n" + (body + ("\n" + last))));
    LineEnds("", i + "\n" + (body + ("\n" + last)));
    LineEnds(i, body + ("\n" + last));
    ItemLines(keys, last);
    LineEnds("", r);
    LastLine(r);
    var items := Bullets(keys);
    assert [g] + ([""] + ([i] + (items + ([""] + [r])))) == [g, "", i] + items + ["", r];
  }

  /** An email has a greeting, an introduction, one line for each missing key in its
      order, and a request, with empty lines after the greeting and before the request. */
  lemma {:induction false} EmailLines(keys: seq<string>)
    requires keys != [] && forall key | key in keys :: Required(key)
    ensures Lines(ChaseContent(keys, Email)) == [GREETING, "", INTRODUCTION] + Bullets(keys) + ["", REQUEST]
  {
    EmailFramesLack();
    hide GREETING, INTRODUCTION, REQUEST;
    OneLine(GREETING, true, true, true);
    OneLine(INTRODUCTION, true, true, true);
    OneLine(REQUEST, true, true, true);
    OpeningIs();
    ClosingIs();
    hide EMAIL_OPENING, EMAIL_CLOSING, Lacks, JoinTexts, Required, Lines, Bullets;
    LinesOf(GREETING, INTRODUCTION, keys, REQUEST);
  }

  // ----- A phrase is in the text exactly when it is in a line -----

  lemma {:induction false} FrontInLine(u: string, s: string)
    requires '\n' !in u && u <= s
    ensures u <= Lines(s)[0]
  {
    if u != "" {
      assert u[0] in u;
      forall c | c in u[1..] ensures c in u {}
      FrontInLine(u[1..], s[1..]);
      assert u == [u[0]] + u[1..];
    }
  }

  lemma {:induction false} OccursLater(u: string, s: string, i: nat)
    requires i > 0 && OccursAt(u, s, i)
    ensures OccursAt(u, s[1..], i - 1) && Substring(u, s[1..])
  {
    assert s[1..][i - 1..i - 1 + |u|] == s[i..i + |u|];
    var t, k := s[1..], i - 1;
    assert OccursAt(u, t, k) && k <= |t| - |u|;
  }

  lemma {:induction false} InSomeLine(u: string, s: string)
    requires '\n' !in u && u != "" && Substring(u, s)
    ensures exists line | line in Lines(s) :: Substring(u, line)
  {
    var i :| 0 <= i <= |s| - |u| && OccursAt(u, s, i);
    if i == 0 {
      assert u <= s;
      FrontInLine(u, s);
      var line := Lines(s)[0];
      assert OccursAt(u, line, 0);
      assert line in Lines(s) && Substring(u, line);
    } else {
      OccursLater(u, s, i);
      hide OccursAt, Substring;
      InSomeLine(u, s[1..]);
      InLaterLine(u, s);
    }
  }

  lemma {:induction false} InLaterLine(u: string, s: string)
    requires s != "" && exists line | line in Lines(s[1..]) :: Substring(u, line)
    ensures exists line | line in Lines(s) :: Substring(u, line)
  {
    hide Substring;
    var rest := Lines(s[1..]);
    var line :| line in rest && Substring(u, line);
    var k :| 0 <= k < |rest| && rest[k] == line;
    if s[0] == '\n' {
      assert Lines(s)[k + 1] == line;
    } else if k == 0 {
      SubstringWiden(u, [s[0]], line, "");
      assert [s[0]] + line + "" == Lines(s)[0];
    } else {
      assert Lines(s)[k] == line;
    }
  }

  lemma {:induction false} PhrasesOneLine()
    ensures '\n' !in "photo ID" && '\n' !in "proof of income" && '\n' !in "proof of address"
  {
  }

  lemma {:induction false} NoLineAsks(s: string, id: bool, income: bool, address: bool)
    requires forall line | line in Lines(s) :: Lacks(line, id, income, address)
    ensures id ==> !Substring("photo ID", s)
    ensures income ==> !Substring("proof of income", s)
    ensures address ==> !Substring("proof of address", s)
  {
    PhrasesOneLine();
    hide Lacks, Substring, Lines;
    forall line | line in Lines(s)
      ensures id ==> !Substring("photo ID", line)
      ensures income ==> !Substring("proof of income", line)
      ensures address ==> !Substring("proof of address", line)
    {
      LackingAsksNot(line, id, income, address);
    }
    if Substring("photo ID", s) { InSomeLine("photo ID", s); }
    if Substring("proof of income", s) { InSomeLine("proof of income", s); }
    if Substring("proof of address", s) { InSomeLine("proof of address", s); }
  }

  lemma {:induction false} BulletsLack(keys: seq<string>, id: bool, income: bool, address: bool)
    requires forall key | key in keys :: Required(key) && Lacks(MissingText(key), id, income, address)
    ensures forall line | line in Bullets(keys) :: Lacks(line, id, income, address)
  {
    BulletsAre(keys);
    BulletLacks();
    hide Lacks, Bullets, MissingText;
    LacksLess("\U{2022} ", id, income, address);
    forall line | line in Bullets(keys) ensures Lacks(line, id, income, address) {
      var i :| 0 <= i < |Bullets(keys)| && Bullets(keys)[i] == line;
      assert keys[i] in keys;
      LacksAppend("\U{2022} ", MissingText(keys[i]), id, income, address);
    }
  }

  /** A line asks for the requirement of its key and for nothing else. */
  lemma {:induction false} BulletAsks(key: string)
    requires Required(key)
    ensures AsksFor("\U{2022} " + MissingText(key), key == "government_id", key == "monthly_income", key == "address")
  {
    var id, income, address := key == "government_id", key == "monthly_income", key == "address";
    var front, text := "\U{2022} ", MissingText(key);
    RequirementText(key);
    BulletLacks();
    hide Lacks, MissingText, Substring;
    LacksLess(front, !id, !income, !address);
    LacksAppend(front, text, !id, !income, !address);
    LackingAsksNot(front + text, !id, !income, !address);
    assert front + text + "" == front + text;
    if id { SubstringWiden("photo ID", front, text, ""); }
    if income { SubstringWiden("proof of income", front, text, ""); }
    if address { SubstringWiden("proof of address", front, text, ""); }
  }

  lemma {:induction false} LinesLack(keys: seq<string>, id: bool, income: bool, address: bool)
    requires forall key | key in keys :: Required(key) && Lacks(MissingText(key), id, income, address)
    ensures forall line | line in [GREETING, "", INTRODUCTION] + Bullets(keys) + ["", REQUEST] :: Lacks(line, id, income, address)
  {
    EmailFramesLack();
    SeparatorLacks();
    hide Lacks, GREETING, INTRODUCTION, REQUEST, Bullets, MissingText, Required;
    BulletsLack(keys, id, income, address);
    LacksLess(GREETING, id, income, address);
    LacksLess(INTRODUCTION, id, income, address);
    LacksLess(REQUEST, id, income, address);
    LacksLess("", id, income, address);
    var items, all := Bullets(keys), [GREETING, "", INTRODUCTION] + Bullets(keys) + ["", REQUEST];
    forall line | line in all ensures Lacks(line, id, income, address) {
      assert line == GREETING || line == "" || line == INTRODUCTION || line in items || line == REQUEST;
    }
  }

  lemma {:induction false} EmailAsksNot(keys: seq<string>)
    requires keys != [] && forall key | key in keys :: Required(key)
    ensures var text := ChaseContent(keys, Email);
            && ("government_id" !in keys ==> !Substring("photo ID", text))
            && ("monthly_income" !in keys ==> !Substring("proof of income", text))
            && ("address" !in keys ==> !Substring("proof of address", text))
  {
    EmailLines(keys);
    AllLack(keys);
    hide Lacks, ChaseContent, GREETING, INTRODUCTION, REQUEST, Bullets, MissingText, Required, Lines, Substring;
    LinesLack(keys, "government_id" !in keys, "monthly_income" !in keys, "address" !in keys);
    NoLineAsks(ChaseContent(keys, Email), "government_id" !in keys, "monthly_income" !in keys, "address" !in keys);
  }

  lemma {:induction false} EmailAsks(keys: seq<string>)
    requires keys != []
    ensures var text := ChaseContent(keys, Email);
            && ("government_id" in keys ==> Substring("photo ID", text))
            && ("monthly_income" in keys ==> Substring("proof of income", text))
            && ("address" in keys ==> Substring("proof of address", text))
  {
    hide JoinTexts, EMAIL_OPENING, EMAIL_CLOSING, Substring;
    PhrasesHeld("\U{2022} ", "\n", keys, EMAIL_OPENING, EMAIL_CLOSING);
  }

  lemma {:induction false} EmailText(id: bool, income: bool, address: bool)
    requires id || income || address
    ensures var keys := MissingBy(id, income, address);
            var text := ChaseContent(keys, Email);
            AsksFor(text, id, income, address) && OneLineEach(text, keys)
  {
    var keys := MissingBy(id, income, address);
    MissingKeysAre(id, income, address);
    hide MissingBy;
    SomeKey(keys);
    EmailAsksNot(keys);
    EmailAsks(keys);
    EmailLines(keys);
    hide ChaseContent, Substring, Lines, OneLineEach, Bullets, GREETING, INTRODUCTION, REQUEST, Required;
    EachLine(ChaseContent(keys, Email), keys);
  }

  lemma {:induction false} SomeKey(keys: seq<string>)
    requires "government_id" in keys || "monthly_income" in keys || "address" in keys
    ensures keys != []
  {
  }

  /** Five lines around one for each key, in order, each asking for that key alone. */
  predicate OneLineEach(text: string, keys: seq<string>) {
    && |Lines(text)| == |keys| + 5
    && forall i | 0 <= i < |keys| ::
         AsksFor(Lines(text)[3 + i], keys[i] == "government_id", keys[i] == "monthly_income", keys[i] == "address")
  }

  lemma {:induction false} EachLine(text: string, keys: seq<string>)
    requires (forall key | key in keys :: Required(key))
    requires Lines(text) == [GREETING, "", INTRODUCTION] + Bullets(keys) + ["", REQUEST]
    ensures OneLineEach(text, keys)
  {
    BulletsAre(keys);
    hide Bullets, MissingText, GREETING, INTRODUCTION, REQUEST, AsksFor, Lines, Required;
    forall i | 0 <= i < |keys|
      ensures AsksFor(Lines(text)[3 + i], keys[i] == "government_id", keys[i] == "monthly_income", keys[i] == "address")
    {
      assert keys[i] in keys;
      BulletAsks(keys[i]);
      assert Lines(text)[3 + i] == Bullets(keys)[i];
    }
  }

  // ----- Every chase message -----

  lemma {:induction false} ReadyAsksNothing()
    ensures AsksFor(READY_TEXT, false, false, false)
  {
    hide Lacks, Substring;
    var a, b, c, d := "All required documents ", "have been received. ", "Your application is ", "ready for review.";
    Plainly(a);
    Plainly(b);
    Plainly(c);
    ReadyEndLacks();
    LacksAppend(a, b, true, true, true);
    LacksAppend(a + b, c, true, true, true);
    LacksAppend(a + b + c, d, true, true, true);
    LackingAsksNot(READY_TEXT, true, true, true);
  }

  lemma {:induction false} ReadyEndLacks()
    ensures Lacks("ready for review.", true, true, true)
  {
  }

  /** Whatever is present, the text asks for exactly what is missing; an SMS in one line,
      an email in one line each. */
  lemma {:induction false} AsksExactly(present: set<string>, channel: Channel)
    ensures var missing := Missing(present, REQUIRED_FACT_KEYS);
            var text := ChaseContent(missing, channel);
            && AsksFor(text, "government_id" !in present, "monthly_income" !in present, "address" !in present)
            && (missing != [] && channel == Sms ==> '\n' !in text)
            && (missing != [] && channel == Email ==> OneLineEach(text, missing))
  {
    MissingIsSubset(present);
    var i, m, a := "government_id" !in present, "monthly_income" !in present, "address" !in present;
    ReadyAsksNothing();
    MissingKeysAre(i, m, a);
    if i || m || a {
      SmsText(i, m, a);
      EmailText(i, m, a);
    } else {
      assert MissingBy(i, m, a) == [];
    }
    hide Missing, ChaseContent, AsksFor, OneLineEach, MissingBy;
  }

  /** The message a run decides on asks for exactly the requirements its application has no
      fact for. */
  lemma {:induction false} DecidedAsks(db: Db, a: Uuid, channel: Channel)
    ensures AsksFor(Decide(db, a, channel).content,
                    !HasFact(db, a, "government_id"), !HasFact(db, a, "monthly_income"), !HasFact(db, a, "address"))
  {
    AsksExactly(PresentKeys(db, a), channel);
    hide ChaseContent, AsksFor, Missing, OneLineEach;
    forall key ensures key in PresentKeys(db, a) <==> HasFact(db, a, key) {}
  }
}
