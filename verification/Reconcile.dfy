/** reconcile.py: group the facts of an application by key and report every stated
    value that disagrees with a documented one. */
module Reconcile {
  import opened Basics
  import opened Facts

  datatype Anomaly = Anomaly(key: string, stated: Value, documented: Value, documentId: string, variance: Option<real>)

  const TOLERANCE := 0.05
  const FLOOR := 0.000000001

  function Abs(x: real): real { if x < 0.0 then -x else x }

  function Scale(d: real): (r: real)
    ensures r >= FLOOR
  {
    if Abs(d) >= FLOOR then Abs(d) else FLOOR
  }

  /** The value a fact contributes: numeric keys are read as numbers first. */
  function Seen(py: Python, fact: Fact): Value {
    if fact.key in NUMERIC_KEYS then
      match AsNumber(py, fact.value)
      case Some(r) => Num(r)
      case None => Null
    else fact.value
  }

  function Compare(py: Python, key: string, stated: Value, documented: Value, documentId: string): Option<Anomaly> {
    match (AsNumber(py, stated), AsNumber(py, documented))
    case (Some(s), Some(d)) =>
      var variance := Abs(s - d) / Scale(d);
      if variance > TOLERANCE then Some(Anomaly(key, stated, documented, documentId, Some(variance))) else None
    case _ =>
      if Lower(Strip(Show(py, stated))) != Lower(Strip(Show(py, documented)))
      then Some(Anomaly(key, stated, documented, documentId, None)) else None
  }

  // ----- The specification: a cross product of facts -----

  /** Numbers more than 5% of the documented one apart, or different trimmed lowercase texts. */
  ghost predicate Disagree(py: Python, stated: Value, documented: Value) {
    match (AsNumber(py, stated), AsNumber(py, documented))
    case (Some(s), Some(d)) => Abs(s - d) > TOLERANCE * Scale(d)
    case _ => Lower(Strip(Show(py, stated))) != Lower(Strip(Show(py, documented)))
  }

  ghost predicate Conflict(py: Python, s: Fact, d: Fact) {
    s.documentId.None? && d.documentId.Some? && s.key == d.key && Disagree(py, Seen(py, s), Seen(py, d))
  }

  /** The report on one conflicting pair. */
  ghost function Report(py: Python, s: Fact, d: Fact): Anomaly
    requires d.documentId.Some?
  {
    var x, y := AsNumber(py, Seen(py, s)), AsNumber(py, Seen(py, d));
    Anomaly(s.key, Seen(py, s), Seen(py, d), d.documentId.value,
            if x.Some? && y.Some? then Some(Abs(x.value - y.value) / Scale(y.value)) else None)
  }

  ghost function ConflictsWith(py: Python, s: Fact, facts: seq<Fact>): multiset<Anomaly> {
    if facts == [] then multiset{}
    else
      var d := facts[|facts| - 1];
      ConflictsWith(py, s, facts[..|facts| - 1]) + (if Conflict(py, s, d) then multiset{Report(py, s, d)} else multiset{})
  }

  /** One report for every pair of an outer and an inner fact that conflict, outer keys in `keys`. */
  ghost function Conflicts(py: Python, keys: set<string>, outer: seq<Fact>, inner: seq<Fact>): multiset<Anomaly> {
    if outer == [] then multiset{}
    else
      var s := outer[|outer| - 1];
      Conflicts(py, keys, outer[..|outer| - 1], inner) + (if s.key in keys then ConflictsWith(py, s, inner) else multiset{})
  }

  ghost function KeysOf(facts: seq<Fact>): set<string> { set f | f in facts :: f.key }

  ghost function AllConflicts(py: Python, facts: seq<Fact>): multiset<Anomaly> {
    Conflicts(py, KeysOf(facts), facts, facts)
  }

  // ----- The grouping loops -----

  function StatedFor(py: Python, key: string, facts: seq<Fact>): seq<Value> {
    if facts == [] then []
    else
      var f := facts[|facts| - 1];
      StatedFor(py, key, facts[..|facts| - 1]) + (if f.key == key && f.documentId.None? then [Seen(py, f)] else [])
  }

  function DocumentedFor(py: Python, key: string, facts: seq<Fact>): seq<(Value, string)> {
    if facts == [] then []
    else
      var f := facts[|facts| - 1];
      DocumentedFor(py, key, facts[..|facts| - 1])
      + (if f.key == key && f.documentId.Some? then [(Seen(py, f), f.documentId.value)] else [])
  }

  function Lookup<T>(m: map<string, seq<T>>, key: string): seq<T> { if key in m then m[key] else [] }

  method Group(py: Python, facts: seq<Fact>)
    returns (stated: map<string, seq<Value>>, documented: map<string, seq<(Value, string)>>)
    ensures forall k :: Lookup(stated, k) == StatedFor(py, k, facts)
    ensures forall k :: Lookup(documented, k) == DocumentedFor(py, k, facts)
  {
    hide Seen, StatedFor, DocumentedFor;
    GroupNone(py);
    stated, documented := map[], map[];
    assert facts[..0] == [];
    for i := 0 to |facts|
      invariant forall k :: Lookup(stated, k) == StatedFor(py, k, facts[..i])
      invariant forall k :: Lookup(documented, k) == DocumentedFor(py, k, facts[..i])
    {
      var fact := facts[i];
      var value := Seen(py, fact);
      ghost var stated0, documented0 := stated, documented;
      if fact.documentId.None? {
        stated := stated[fact.key := Lookup(stated, fact.key) + [value]];
      } else {
        documented := documented[fact.key := Lookup(documented, fact.key) + [(value, fact.documentId.value)]];
      }
      forall k
        ensures Lookup(stated, k) == StatedFor(py, k, facts[..i + 1])
        ensures Lookup(documented, k) == DocumentedFor(py, k, facts[..i + 1])
      {
        GroupStep(py, k, facts, i);
        assert Lookup(stated0, k) == StatedFor(py, k, facts[..i]) && Lookup(documented0, k) == DocumentedFor(py, k, facts[..i]);
      }
    }
    assert facts[..|facts|] == facts;
  }

  lemma {:induction false} GroupNone(py: Python)
    ensures forall k :: StatedFor(py, k, []) == [] && DocumentedFor(py, k, []) == []
  {
  }

  lemma {:induction false} GroupStep(py: Python, key: string, facts: seq<Fact>, i: nat)
    requires i < |facts|
    ensures StatedFor(py, key, facts[..i + 1])
         == if facts[i].key == key && facts[i].documentId.None?
            then StatedFor(py, key, facts[..i]) + [Seen(py, facts[i])] else StatedFor(py, key, facts[..i])
    ensures DocumentedFor(py, key, facts[..i + 1])
         == if facts[i].key == key && facts[i].documentId.Some?
            then DocumentedFor(py, key, facts[..i]) + [(Seen(py, facts[i]), facts[i].documentId.value)]
            else DocumentedFor(py, key, facts[..i])
  {
    assert facts[..i + 1][..i] == facts[..i];
  }

  function CompareRow(py: Python, key: string, s: Value, ds: seq<(Value, string)>): seq<Anomaly> {
    if ds == [] then []
    else
      var d := ds[|ds| - 1];
      CompareRow(py, key, s, ds[..|ds| - 1])
      + Reported(Compare(py, key, s, d.0, d.1))
  }

  function Reported(anomaly: Option<Anomaly>): seq<Anomaly> {
    if anomaly.Some? then [anomaly.value] else []
  }

  function CompareAll(py: Python, key: string, ss: seq<Value>, ds: seq<(Value, string)>): seq<Anomaly> {
    if ss == [] then []
    else CompareAll(py, key, ss[..|ss| - 1], ds) + CompareRow(py, key, ss[|ss| - 1], ds)
  }

  method CompareKey(py: Python, key: string, ss: seq<Value>, ds: seq<(Value, string)>) returns (anomalies: seq<Anomaly>)
    ensures anomalies == CompareAll(py, key, ss, ds)
  {
    hide Compare, CompareRow;
    anomalies := [];
    for i := 0 to |ss|
      invariant anomalies == CompareAll(py, key, ss[..i], ds)
    {
      ghost var before := anomalies;
      CompareRowNone(py, key, ss[i]);
      for j := 0 to |ds|
        invariant anomalies == before + CompareRow(py, key, ss[i], ds[..j])
      {
        var anomaly := Compare(py, key, ss[i], ds[j].0, ds[j].1);
        CompareRowStep(py, key, ss[i], ds[..j], ds[j]);
        assert ds[..j + 1] == ds[..j] + [ds[j]];
        Assoc(before, CompareRow(py, key, ss[i], ds[..j]), Reported(anomaly));
        anomalies := anomalies + Reported(anomaly);
      }
      assert ds[..|ds|] == ds && ss[..i + 1][..i] == ss[..i];
    }
    assert ss[..|ss|] == ss;
  }

  lemma {:induction false} CompareRowNone(py: Python, key: string, s: Value)
    ensures CompareRow(py, key, s, []) == []
  {
  }

  /** The anomalies are exactly the reports on all conflicting pairs, each pair once. */
  method FindAnomalies(py: Python, facts: seq<Fact>) returns (anomalies: seq<Anomaly>)
    ensures multiset(anomalies) == AllConflicts(py, facts)
  {
    var stated, documented := Group(py, facts);
    anomalies := [];
    var todo := stated.Keys * documented.Keys;
    NoKeysNoConflicts(py, facts, facts);
    ghost var done: set<string> := {};
    while todo != {}
      invariant todo !! done && todo + done == stated.Keys * documented.Keys
      invariant multiset(anomalies) == Conflicts(py, done, facts, facts)
      decreases todo
    {
      var key :| key in todo;
      var found := CompareKey(py, key, stated[key], documented[key]);
      assert Lookup(stated, key) == stated[key] && Lookup(documented, key) == documented[key];
      KeyConflicts(py, key, facts, facts);
      ConflictsAdd(py, done, key, facts, facts);
      anomalies := anomalies + found;
      todo, done := todo - {key}, done + {key};
    }
    forall f | f in facts && f.documentId.None? && f.key !in done
      ensures forall d | d in facts :: !(d.documentId.Some? && d.key == f.key)
    {
      assert Lookup(stated, f.key) == StatedFor(py, f.key, facts);
      assert Lookup(documented, f.key) == DocumentedFor(py, f.key, facts);
      StatedPresent(py, f, facts);
      forall d | d in facts && d.documentId.Some? && d.key == f.key ensures false {
        DocumentedPresent(py, d, facts);
      }
    }
    ConflictsElsewhere(py, done, facts, facts);
  }

  // ----- Why grouping by key finds every pair -----

  lemma {:induction false} VarianceIsTolerance(s: real, d: real)
    ensures Abs(s - d) / Scale(d) > TOLERANCE <==> Abs(s - d) > TOLERANCE * Scale(d)
  {
    var q, m := Abs(s - d) / Scale(d), Scale(d);
    assert q * m == Abs(s - d);
    if q > TOLERANCE { assert (q - TOLERANCE) * m > 0.0; } else { assert (TOLERANCE - q) * m >= 0.0; }
  }

  lemma {:induction false} CompareIsReport(py: Python, s: Fact, d: Fact)
    requires s.documentId.None? && d.documentId.Some? && s.key == d.key
    ensures Compare(py, s.key, Seen(py, s), Seen(py, d), d.documentId.value)
         == if Conflict(py, s, d) then Some(Report(py, s, d)) else None
  {
    match (AsNumber(py, Seen(py, s)), AsNumber(py, Seen(py, d)))
    case (Some(x), Some(y)) => VarianceIsTolerance(x, y);
    case _ =>
  }

  lemma {:induction false} RowConflicts(py: Python, s: Fact, inner: seq<Fact>)
    requires s.documentId.None?
    ensures multiset(CompareRow(py, s.key, Seen(py, s), DocumentedFor(py, s.key, inner))) == ConflictsWith(py, s, inner)
  {
    hide Seen, Compare, Report, DocumentedFor, CompareRow;
    if inner == [] {
      RowNone(py, s);
    } else {
      var n := |inner| - 1;
      var rest, d := inner[..n], inner[n];
      RowConflicts(py, s, rest);
      assert inner[..n + 1] == inner;
      GroupStep(py, s.key, inner, n);
      if d.key == s.key && d.documentId.Some? {
        CompareIsReport(py, s, d);
        CompareRowStep(py, s.key, Seen(py, s), DocumentedFor(py, s.key, rest), (Seen(py, d), d.documentId.value));
      }
    }
  }

  lemma {:induction false} RowNone(py: Python, s: Fact)
    ensures CompareRow(py, s.key, Seen(py, s), DocumentedFor(py, s.key, [])) == []
  {
  }

  lemma {:induction false} CompareRowStep(py: Python, key: string, s: Value, ds: seq<(Value, string)>, d: (Value, string))
    ensures CompareRow(py, key, s, ds + [d]) == CompareRow(py, key, s, ds) + Reported(Compare(py, key, s, d.0, d.1))
  {
    assert (ds + [d])[..|ds|] == ds;
  }

  lemma {:induction false} ChatOnly(py: Python, s: Fact, inner: seq<Fact>)
    requires s.documentId.Some? || forall d | d in inner :: !(d.documentId.Some? && d.key == s.key)
    ensures ConflictsWith(py, s, inner) == multiset{}
  {
    if inner != [] { ChatOnly(py, s, inner[..|inner| - 1]); }
  }

  lemma {:induction false} NoKeysNoConflicts(py: Python, outer: seq<Fact>, inner: seq<Fact>)
    ensures Conflicts(py, {}, outer, inner) == multiset{}
  {
    if outer != [] { NoKeysNoConflicts(py, outer[..|outer| - 1], inner); }
  }

  lemma {:induction false} KeyConflicts(py: Python, key: string, outer: seq<Fact>, inner: seq<Fact>)
    ensures multiset(CompareAll(py, key, StatedFor(py, key, outer), DocumentedFor(py, key, inner)))
         == Conflicts(py, {key}, outer, inner)
  {
    if outer != [] {
      var rest, s := outer[..|outer| - 1], outer[|outer| - 1];
      KeyConflicts(py, key, rest, inner);
      if s.key == key && s.documentId.None? {
        RowConflicts(py, s, inner);
        var ss := StatedFor(py, key, rest);
        assert StatedFor(py, key, outer) == ss + [Seen(py, s)];
        assert (ss + [Seen(py, s)])[..|ss|] == ss;
      } else {
        assert StatedFor(py, key, outer) == StatedFor(py, key, rest);
        if s.key == key { ChatOnly(py, s, inner); }
      }
    }
  }

  lemma {:induction false} ConflictsAdd(py: Python, keys: set<string>, key: string, outer: seq<Fact>, inner: seq<Fact>)
    requires key !in keys
    ensures Conflicts(py, keys + {key}, outer, inner) == Conflicts(py, keys, outer, inner) + Conflicts(py, {key}, outer, inner)
  {
    if outer != [] { ConflictsAdd(py, keys, key, outer[..|outer| - 1], inner); }
  }

  /** Keys outside `keys` conflict with nothing, so leaving them out loses nothing. */
  lemma {:induction false} ConflictsElsewhere(py: Python, keys: set<string>, outer: seq<Fact>, inner: seq<Fact>)
    requires forall f | f in outer && f.documentId.None? && f.key !in keys ::
               forall d | d in inner :: !(d.documentId.Some? && d.key == f.key)
    ensures forall all: set<string> :: KeysOf(outer) <= all ==> Conflicts(py, keys, outer, inner) == Conflicts(py, all, outer, inner)
  {
    if outer != [] {
      var rest, s := outer[..|outer| - 1], outer[|outer| - 1];
      ConflictsElsewhere(py, keys, rest, inner);
      if s.key !in keys { ChatOnly(py, s, inner); }
      forall all: set<string> | KeysOf(outer) <= all
        ensures Conflicts(py, keys, outer, inner) == Conflicts(py, all, outer, inner)
      {
        assert KeysOf(rest) <= KeysOf(outer) && s.key in KeysOf(outer);
      }
    }
  }

  lemma {:induction false} StatedPresent(py: Python, f: Fact, facts: seq<Fact>)
    requires f in facts && f.documentId.None?
    ensures StatedFor(py, f.key, facts) != []
  {
    if f != facts[|facts| - 1] { StatedPresent(py, f, facts[..|facts| - 1]); }
  }

  lemma {:induction false} DocumentedPresent(py: Python, d: Fact, facts: seq<Fact>)
    requires d in facts && d.documentId.Some?
    ensures DocumentedFor(py, d.key, facts) != []
  {
    if d != facts[|facts| - 1] { DocumentedPresent(py, d, facts[..|facts| - 1]); }
  }

  // ----- What the tolerance means -----

  /** Two positive documented values that agree with one stated value are within a factor 21/19. */
  lemma {:induction false} AgreementBoundsFactor(py: Python, s: real, d1: real, d2: real)
    requires d1 >= FLOOR && d2 >= FLOOR
    requires !Disagree(py, Num(s), Num(d1)) && !Disagree(py, Num(s), Num(d2))
    ensures 19.0 * d1 <= 21.0 * d2 && 19.0 * d2 <= 21.0 * d1
  {
    assert AsNumber(py, Num(s)) == Some(s) && AsNumber(py, Num(d1)) == Some(d1) && AsNumber(py, Num(d2)) == Some(d2);
  }

  /** The factor is reached, so the bound cannot be lowered. */
  lemma {:induction false} FactorIsSharp(py: Python)
    ensures !Disagree(py, Num(19.95), Num(21.0)) && !Disagree(py, Num(19.95), Num(19.0))
  {
    assert AsNumber(py, Num(19.95)) == Some(19.95);
    assert AsNumber(py, Num(21.0)) == Some(21.0) && AsNumber(py, Num(19.0)) == Some(19.0);
  }

  /** Swapping stated and documented changes the verdict exactly when the gap lies between 5% of the smaller and 5% of the larger value. */
  lemma {:induction false} ToleranceIsOneSided(py: Python, s: real, d: real)
    requires s >= FLOOR && d >= FLOOR
    ensures Disagree(py, Num(s), Num(d)) == Disagree(py, Num(d), Num(s))
       <==> !(TOLERANCE * (if s < d then s else d) < Abs(s - d) <= TOLERANCE * (if s < d then d else s))
  {
    assert AsNumber(py, Num(s)) == Some(s) && AsNumber(py, Num(d)) == Some(d);
  }
}
