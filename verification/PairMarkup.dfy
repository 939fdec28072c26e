/**
 The FX markup per (fiat, side): validation of a dashboard entry (core/admin/pairMarkup.ts), the rules built from the
 stored rows (core/quotes/pairMarkupStore.ts) and the lookup a quote makes (core/quotes/pairMarkup.ts).
 */
module PairMarkup {
  import opened Wrappers
  import opened Text
  import DepositAmount
  import PairCheck

  // ---------- comma-separated lists ----------

  function Split(s: string): (parts: seq<string>)
    ensures parts != []
  {
    if s == "" then [""]
    else if s[0] == ',' then [""] + Split(s[1..])
    else
      var rest := Split(s[1..]);
      [[s[0]] + rest[0]] + rest[1..]
  }

  function Join(parts: seq<string>): string {
    if parts == [] then "" else if |parts| == 1 then parts[0] else parts[0] + "," + Join(parts[1..])
  }

  lemma {:induction false} SplitHead(p: string, rest: string)
    requires ',' !in p
    ensures Split(p) == [p]
    ensures Split(p + "," + rest) == [p] + Split(rest)
  {
    if p == "" {
      assert ("," + rest)[1..] == rest;
      assert p + "," + rest == "," + rest;
    } else {
      assert p == [p[0]] + p[1..];
      assert (p + "," + rest)[1..] == p[1..] + "," + rest;
      SplitHead(p[1..], rest);
    }
  }

  lemma {:induction false} SplitJoin(parts: seq<string>)
    requires parts != [] && forall i :: 0 <= i < |parts| ==> ',' !in parts[i]
    ensures Split(Join(parts)) == parts
  {
    if |parts| == 1 {
      SplitHead(parts[0], "");
    } else {
      SplitJoin(parts[1..]);
      SplitHead(parts[0], Join(parts[1..]));
      assert parts == [parts[0]] + parts[1..];
    }
  }

  /** Each part normalised, blank ones dropped. */
  function Names(parts: seq<string>): (names: seq<string>)
    ensures forall c :: c in names ==> c != ""
  {
    if parts == [] then []
    else if Norm(parts[0]) == "" then Names(parts[1..])
    else [Norm(parts[0])] + Names(parts[1..])
  }

  lemma {:induction false} NamesOfNormal(parts: seq<string>)
    requires forall i :: 0 <= i < |parts| ==> parts[i] != "" && Normal(parts[i])
    ensures Names(parts) == parts
  {
    if parts != [] {
      NormFixesNormal(parts[0]);
      NamesOfNormal(parts[1..]);
      assert parts == [parts[0]] + parts[1..];
    }
  }

  function SplitCryptos(cryptos: string): seq<string> {
    Names(Split(cryptos))
  }

  // ---------- rows and rules ----------

  datatype Side = Buy | Sell

  /** A stored row. A side text other than `buy` and `sell` is `None`. */
  datatype Setting = Setting(fiat: string, side: Option<Side>, cryptos: string, markupBps: real)

  datatype Rule = Rule(fiat: string, crypto: seq<string>, markup: real, sides: seq<Side>)

  predicate Usable(row: Setting) {
    row.side.Some? && SplitCryptos(row.cryptos) != [] && row.markupBps >= 0.0
  }

  function RuleOf(row: Setting): Rule
    requires Usable(row)
  {
    Rule(Norm(row.fiat), SplitCryptos(row.cryptos), row.markupBps / 10000.0, [row.side.value])
  }

  function RuleFrom(row: Setting): Option<Rule> {
    if Usable(row) then Some(RuleOf(row)) else None
  }

  function Present(rules: seq<Option<Rule>>): seq<Rule> {
    if rules == [] then []
    else
      var n := |rules| - 1;
      Present(rules[..n]) + if rules[n].Some? then [rules[n].value] else []
  }

  /** The rules of the usable rows, in the rows' order. */
  function RulesOf(rows: seq<Setting>): seq<Rule> {
    Present(seq(|rows|, i requires 0 <= i < |rows| => RuleFrom(rows[i])))
  }

  method RulesFromSettings(rows: seq<Setting>) returns (out: seq<Rule>)
    ensures out == RulesOf(rows)
  {
    ghost var all := seq(|rows|, i requires 0 <= i < |rows| => RuleFrom(rows[i]));
    out := [];
    for i := 0 to |rows|
      invariant out == Present(all[..i])
    {
      assert all[..i + 1][..i] == all[..i];
      var row := rows[i];
      if !Usable(row) { continue; }
      out := out + [RuleOf(row)];
    }
    assert all[..|rows|] == all;
  }

  // ---------- the lookup ----------

  datatype Match = Match(fiat: string, markup: real, side: Side)

  function NormAll(names: seq<string>): (r: seq<string>)
    ensures |r| == |names| && forall i :: 0 <= i < |names| ==> r[i] == Norm(names[i])
  {
    seq(|names|, i requires 0 <= i < |names| => Norm(names[i]))
  }

  /** Does the rule price the pair, and as which side? Buying is tried first. */
  function RuleMatch(rule: Rule, src: string, dst: string): Option<Match> {
    var fiat, crypto := Norm(rule.fiat), NormAll(rule.crypto);
    if src == fiat && dst in crypto && Buy in rule.sides then Some(Match(rule.fiat, rule.markup, Buy))
    else if src in crypto && dst == fiat && Sell in rule.sides then Some(Match(rule.fiat, rule.markup, Sell))
    else None
  }

  function FirstMatch(rules: seq<Rule>, src: string, dst: string): Option<Match> {
    if rules == [] then None
    else if RuleMatch(rules[0], src, dst).Some? then RuleMatch(rules[0], src, dst)
    else FirstMatch(rules[1..], src, dst)
  }

  const FIAT_TO_FIAT_MULTIPLIER := 2.0

  /** The lookup on names in normal form. */
  function Lookup(rules: seq<Rule>, src: string, dst: string, multiply: bool): Option<Match> {
    if src == "" || dst == "" then None
    else
      var base := FirstMatch(rules, src, dst);
      if base.None? || !multiply then base else Some(base.value.(markup := base.value.markup * FIAT_TO_FIAT_MULTIPLIER))
  }

  function FindPairMarkup(rules: seq<Rule>, fromCurrency: string, toCurrency: string, flow: string): Option<Match> {
    Lookup(rules, Norm(fromCurrency), Norm(toCurrency), PairCheck.IsFiatToFiat(flow))
  }

  // ---------- validation ----------

  const CRYPTOS := ["USD", "USDT", "USDC"]
  const MAX_BPS := 1000.0

  datatype CryptosInput = Unset | OneText(text: string) | List(names: seq<string>)

  datatype Invalid = BadFiat | BadSide | NoCryptos | BadCryptos | BadBps | TooPrecise

  datatype Validation = Accepted(row: Setting) | Rejected(why: Invalid)

  predicate IsFiatCode(s: string) {
    |s| == 3 && forall i :: 0 <= i < 3 ==> 'A' <= s[i] <= 'Z'
  }

  /** The allowed legs that are among `names`, in their fixed order. */
  function Ordered(names: seq<string>): seq<string> {
    (if "USD" in names then ["USD"] else []) + (if "USDT" in names then ["USDT"] else []) +
    (if "USDC" in names then ["USDC"] else [])
  }

  function RawCryptos(fiat: string, cryptos: CryptosInput): seq<string> {
    match cryptos
    case Unset => if fiat == "USD" then ["USDT", "USDC"] else CRYPTOS
    case OneText(text) => if text == "" then (if fiat == "USD" then ["USDT", "USDC"] else CRYPTOS) else Split(text)
    case List(names) => names
  }

  predicate ValidNames(fiat: string, names: seq<string>) {
    names != [] && forall i :: 0 <= i < |names| ==> names[i] in CRYPTOS && names[i] != fiat
  }

  /** The markup to two decimal places, if it has no more than those up to a millionth of the last one. */
  function Hundredths(bps: real): (r: Option<real>)
    ensures r.Some? && 0.0 <= bps <= MAX_BPS ==> 0.0 <= r.value <= MAX_BPS && DepositAmount.Abs(r.value - bps) <= 0.00000001
  {
    var n := DepositAmount.Round(bps * 100.0);
    if DepositAmount.Abs(bps * 100.0 - n as real) > 0.000001 then None else Some(n as real / 100.0)
  }

  /** `markupBps` is empty when the input is not a finite number. */
  function Normalize(fiatInput: string, side: Option<Side>, cryptos: CryptosInput, markupBps: Option<real>): Validation {
    var fiat := Norm(fiatInput);
    if !IsFiatCode(fiat) then Rejected(BadFiat)
    else if side.None? then Rejected(BadSide)
    else
      var names := Names(RawCryptos(fiat, cryptos));
      if names == [] then Rejected(NoCryptos)
      else if !ValidNames(fiat, names) then Rejected(BadCryptos)
      else if markupBps.None? || markupBps.value < 0.0 || markupBps.value > MAX_BPS then Rejected(BadBps)
      else if Hundredths(markupBps.value).None? then Rejected(TooPrecise)
      else Accepted(Setting(fiat, side, Join(Ordered(names)), Hundredths(markupBps.value).value))
  }

  // ---------- which entries are accepted ----------

  /** The legs an entry asks for: those it names, normalised, or when it names none at all every leg but the fiat itself. */
  predicate Asks(fiat: string, cryptos: CryptosInput, leg: string) {
    leg != "" &&
    match cryptos
    case Unset => leg in {"USD", "USDT", "USDC"} && leg != fiat
    case OneText(text) =>
      if text == "" then leg in {"USD", "USDT", "USDC"} && leg != fiat
      else exists i :: 0 <= i < |Split(text)| && Norm(Split(text)[i]) == leg
    case List(names) => exists i :: 0 <= i < |names| && Norm(names[i]) == leg
  }

  lemma {:induction false} NamesExactly(parts: seq<string>, c: string)
    ensures c in Names(parts) <==> c != "" && exists i :: 0 <= i < |parts| && Norm(parts[i]) == c
  {
    if parts != [] {
      NamesExactly(parts[1..], c);
      hide Norm;
      if i :| 0 <= i < |parts| && Norm(parts[i]) == c {
        if i > 0 { assert parts[1..][i - 1] == parts[i]; }
      }
      if i :| 0 <= i < |parts[1..]| && Norm(parts[1..][i]) == c { assert parts[i + 1] == parts[1..][i]; }
    }
  }

  lemma LegsAreNormal(leg: string)
    requires leg in {"USD", "USDT", "USDC"}
    ensures Norm(leg) == leg
  {
    TrimFixesClean(leg);
    assert Upper(leg) == leg;
  }

  lemma EveryLegByDefault(fiat: string, leg: string)
    requires |fiat| == 3
    ensures leg in Names(RawCryptos(fiat, Unset)) <==> leg in {"USD", "USDT", "USDC"} && leg != fiat
  {
    var raw := RawCryptos(fiat, Unset);
    NamesExactly(raw, leg);
    LegsAreNormal("USD");
    LegsAreNormal("USDT");
    LegsAreNormal("USDC");
    hide Norm, Names;
    assert |"USD"| == 3 && |"USDT"| == |"USDC"| == 4;
    if fiat == "USD" {
      assert raw == ["USDT", "USDC"];
      assert Norm(raw[0]) == "USDT" && Norm(raw[1]) == "USDC";
    } else {
      assert raw == ["USD", "USDT", "USDC"];
      assert Norm(raw[0]) == "USD" && Norm(raw[1]) == "USDT" && Norm(raw[2]) == "USDC";
    }
  }

  lemma NamesOfRaw(fiat: string, cryptos: CryptosInput, leg: string)
    requires |fiat| == 3
    ensures leg in Names(RawCryptos(fiat, cryptos)) <==> Asks(fiat, cryptos, leg)
  {
    if cryptos == Unset || cryptos == OneText("") {
      EveryLegByDefault(fiat, leg);
      assert RawCryptos(fiat, cryptos) == RawCryptos(fiat, Unset);
    } else {
      NamesExactly(RawCryptos(fiat, cryptos), leg);
    }
    hide Norm, Names;
  }

  /** A whole number of hundredths, up to a millionth of one. */
  predicate Near(bps: real, n: int) {
    -0.000001 <= bps * 100.0 - n as real <= 0.000001
  }

  lemma HundredthsExactly(bps: real)
    ensures Hundredths(bps).Some? <==> exists n :: Near(bps, n)
    ensures Hundredths(bps).Some? ==> exists n :: Near(bps, n) && Hundredths(bps).value == n as real / 100.0
  {
    var m := DepositAmount.Round(bps * 100.0);
    if n :| Near(bps, n) {
      assert n == m;
    }
    assert Hundredths(bps).Some? ==> Near(bps, m);
  }

  /** Three upper-case letters. */
  predicate ThreeLetters(s: string) {
    |s| == 3 && forall i :: 0 <= i < 3 ==> s[i] in "ABCDEFGHIJKLMNOPQRSTUVWXYZ"
  }

  lemma Letter(c: char)
    ensures 'A' <= c <= 'Z' <==> c in "ABCDEFGHIJKLMNOPQRSTUVWXYZ"
  {
  }

  lemma FiatCodeExactly(s: string)
    ensures IsFiatCode(s) <==> ThreeLetters(s)
  {
    forall c: char ensures 'A' <= c <= 'Z' <==> c in "ABCDEFGHIJKLMNOPQRSTUVWXYZ" { Letter(c); }
  }

  /**
   An entry is accepted exactly when its fiat is three letters, its side is one, it asks for legs and only for allowed
   ones, and its markup is between 0 and 1000 basis points with two decimals; each refusal for the first that fails.
   */
  lemma NormalizeExactly(fiatInput: string, side: Option<Side>, cryptos: CryptosInput, markupBps: Option<real>)
    ensures var r, fiat := Normalize(fiatInput, side, cryptos, markupBps), Norm(fiatInput);
            if !ThreeLetters(fiat) then r == Rejected(BadFiat)
            else if side.None? then r == Rejected(BadSide)
            else if forall leg :: !Asks(fiat, cryptos, leg) then r == Rejected(NoCryptos)
            else if exists leg :: Asks(fiat, cryptos, leg) && (leg !in {"USD", "USDT", "USDC"} || leg == fiat) then r == Rejected(BadCryptos)
            else if markupBps.None? || markupBps.value < 0.0 || markupBps.value > 1000.0 then r == Rejected(BadBps)
            else if !(exists n :: Near(markupBps.value, n)) then r == Rejected(TooPrecise)
            else r.Accepted?
  {
    var fiat := Norm(fiatInput);
    FiatCodeExactly(fiat);
    if IsFiatCode(fiat) {
      var names := Names(RawCryptos(fiat, cryptos));
      forall leg: string ensures leg in names <==> Asks(fiat, cryptos, leg) { NamesOfRaw(fiat, cryptos, leg); }
      ValidNamesExactly(fiat, names);
      if markupBps.Some? { HundredthsExactly(markupBps.value); }
      hide Names, RawCryptos, Asks, Norm, IsFiatCode, ThreeLetters, Near, Hundredths, Ordered, Join, ValidNames;
      assert names == [] <==> forall leg: string :: leg !in names by {
        if names != [] { assert names[0] in names; }
      }
    }
  }

  lemma ValidNamesExactly(fiat: string, names: seq<string>)
    ensures ValidNames(fiat, names) <==> names != [] && forall leg :: leg in names ==> leg in {"USD", "USDT", "USDC"} && leg != fiat
  {
    assert forall leg :: leg in CRYPTOS <==> leg in {"USD", "USDT", "USDC"};
    assert forall i :: 0 <= i < |names| ==> names[i] in names;
  }

  /** A lookup without two names finds nothing; with them it finds the first match, doubled in the fiat-to-fiat flow. */
  lemma FindExactly(rules: seq<Rule>, fromCurrency: string, toCurrency: string, flow: string)
    ensures var r, first := FindPairMarkup(rules, fromCurrency, toCurrency, flow), FirstMatch(rules, Norm(fromCurrency), Norm(toCurrency));
            && (r.None? <==> Norm(fromCurrency) == "" || Norm(toCurrency) == "" || first.None?)
            && (r.Some? ==> r.value.fiat == first.value.fiat && r.value.side == first.value.side &&
                            r.value.markup == if flow == "FIAT_TO_FIAT" then first.value.markup * 2.0 else first.value.markup)
  {
    hide Norm, FirstMatch;
  }

  lemma {:induction false} NoNames(parts: seq<string>)
    ensures Names(parts) == [] <==> forall i :: 0 <= i < |parts| ==> Norm(parts[i]) == ""
  {
    hide Norm;
    if parts != [] {
      NoNames(parts[1..]);
      assert forall i :: 1 <= i < |parts| ==> parts[i] == parts[1..][i - 1];
    }
  }

  /** A row is usable exactly when it has a side, a leg and no negative markup. */
  lemma UsableExactly(row: Setting)
    ensures Usable(row) <==>
              row.side.Some? && row.markupBps >= 0.0 &&
              exists i :: 0 <= i < |Split(row.cryptos)| && Norm(Split(row.cryptos)[i]) != ""
  {
    hide Norm, Names;
    var parts := Split(row.cryptos);
    NoNames(parts);
    if Names(parts) != [] {
      var i :| 0 <= i < |parts| && Norm(parts[i]) != "";
      assert Norm(Split(row.cryptos)[i]) != "";
    }
  }

  /** What a stored row looks like. */
  predicate ValidRow(row: Setting) {
    && IsFiatCode(row.fiat) && row.side.Some?
    && ValidNames(row.fiat, SplitCryptos(row.cryptos))
    && 0.0 <= row.markupBps <= MAX_BPS
  }

  // ---------- the lookup in well-formed rules ----------

  /** A rule whose names are in normal form, for one side; a leg is never the fiat, and a three-letter leg is USD. */
  predicate WellFormed(rule: Rule) {
    && Norm(rule.fiat) == rule.fiat && NormAll(rule.crypto) == rule.crypto
    && |rule.fiat| == 3 && |rule.sides| == 1
    && forall i :: 0 <= i < |rule.crypto| ==> LegFor(rule.fiat, rule.crypto[i])
  }

  predicate LegFor(fiat: string, c: string) {
    c != fiat && (|c| == 3 ==> c == CRYPTOS[0])
  }

  predicate Prices(rule: Rule, src: string, dst: string) {
    |rule.sides| == 1 &&
    match rule.sides[0]
    case Buy => src == rule.fiat && dst in rule.crypto
    case Sell => dst == rule.fiat && src in rule.crypto
  }

  function MatchOf(rule: Rule): Match
    requires |rule.sides| == 1
  {
    Match(rule.fiat, rule.markup, rule.sides[0])
  }

  lemma RuleMatchesExactly(rule: Rule, src: string, dst: string)
    requires WellFormed(rule)
    ensures RuleMatch(rule, src, dst) == if Prices(rule, src, dst) then Some(MatchOf(rule)) else None
  {
    var side := rule.sides[0];
    assert rule.sides == [side];
    assert src == rule.fiat && dst == rule.fiat ==> rule.fiat !in rule.crypto by {
      assert forall i :: 0 <= i < |rule.crypto| ==> LegFor(rule.fiat, rule.crypto[i]);
    }
  }

  /** No two well-formed rules with different keys price the same pair. */
  lemma AtMostOneRulePrices(a: Rule, b: Rule, src: string, dst: string)
    requires WellFormed(a) && WellFormed(b) && Prices(a, src, dst) && Prices(b, src, dst)
    ensures a.fiat == b.fiat && a.sides == b.sides
  {
    assert forall i :: 0 <= i < |a.crypto| ==> LegFor(a.fiat, a.crypto[i]);
    assert forall i :: 0 <= i < |b.crypto| ==> LegFor(b.fiat, b.crypto[i]);
  }

  predicate Table(rules: seq<Rule>) {
    (forall i :: 0 <= i < |rules| ==> WellFormed(rules[i])) &&
    (forall i, j :: 0 <= i < j < |rules| ==> rules[i].fiat != rules[j].fiat || rules[i].sides != rules[j].sides)
  }

  lemma {:induction false} FirstMatchIsARule(rules: seq<Rule>, src: string, dst: string)
    requires forall i :: 0 <= i < |rules| ==> WellFormed(rules[i])
    ensures var r := FirstMatch(rules, src, dst);
            (r.None? ==> forall i :: 0 <= i < |rules| ==> !Prices(rules[i], src, dst)) &&
            (r.Some? ==> exists i :: 0 <= i < |rules| && Prices(rules[i], src, dst) && r.value == MatchOf(rules[i]))
  {
    if rules != [] {
      RuleMatchesExactly(rules[0], src, dst);
      FirstMatchIsARule(rules[1..], src, dst);
      if RuleMatch(rules[0], src, dst).None? && FirstMatch(rules[1..], src, dst).Some? {
        var i :| 0 <= i < |rules[1..]| && Prices(rules[1..][i], src, dst) && FirstMatch(rules[1..], src, dst).value == MatchOf(rules[1..][i]);
        assert rules[i + 1] == rules[1..][i];
      }
    }
  }

  /** The scan returns a rule's match exactly when that rule prices the pair, wherever it stands. */
  lemma FirstMatchExactly(rules: seq<Rule>, src: string, dst: string, i: nat)
    requires Table(rules) && i < |rules|
    ensures FirstMatch(rules, src, dst) == Some(MatchOf(rules[i])) <==> Prices(rules[i], src, dst)
  {
    FirstMatchIsARule(rules, src, dst);
    var r := FirstMatch(rules, src, dst);
    if r.Some? {
      var j :| 0 <= j < |rules| && Prices(rules[j], src, dst) && r.value == MatchOf(rules[j]);
      if Prices(rules[i], src, dst) { AtMostOneRulePrices(rules[i], rules[j], src, dst); }
      if r.value == MatchOf(rules[i]) { SameMatchSameRule(rules, i, j); }
    }
  }

  lemma SameMatchSameRule(rules: seq<Rule>, i: nat, j: nat)
    requires Table(rules) && i < |rules| && j < |rules| && MatchOf(rules[i]) == MatchOf(rules[j])
    ensures i == j
  {
    assert WellFormed(rules[i]) && WellFormed(rules[j]);
  }

  lemma FirstMatchIgnoresOrder(rules: seq<Rule>, other: seq<Rule>, src: string, dst: string)
    requires Table(rules) && Table(other) && forall rule :: rule in rules <==> rule in other
    ensures FirstMatch(rules, src, dst) == FirstMatch(other, src, dst)
  {
    FirstMatchIsARule(rules, src, dst);
    FirstMatchIsARule(other, src, dst);
    var r, t := FirstMatch(rules, src, dst), FirstMatch(other, src, dst);
    if r.Some? {
      var i :| 0 <= i < |rules| && Prices(rules[i], src, dst) && r.value == MatchOf(rules[i]);
      assert rules[i] in other;
      var j :| 0 <= j < |other| && other[j] == rules[i];
      FirstMatchExactly(other, src, dst, j);
    } else {
      assert forall j :: 0 <= j < |other| ==> other[j] in rules;
    }
  }

  /** In rules with one entry per (fiat, side) the lookup does not depend on their order. */
  lemma LookupIgnoresOrder(rules: seq<Rule>, other: seq<Rule>, src: string, dst: string, multiply: bool)
    requires Table(rules) && Table(other) && forall rule :: rule in rules <==> rule in other
    ensures Lookup(rules, src, dst, multiply) == Lookup(other, src, dst, multiply)
  {
    FirstMatchIgnoresOrder(rules, other, src, dst);
  }

  // ---------- from the rows to the rules ----------

  lemma CryptosAreNormal()
    ensures forall c :: c in CRYPTOS ==> c != "" && Normal(c) && ',' !in c
  {
    forall c | c in CRYPTOS ensures Upper(c) == c {
      assert forall i :: 0 <= i < |c| ==> Upper(c)[i] == c[i];
    }
  }

  /** The stored list reads back as the legs that validation accepted. */
  lemma StoredCryptosReadBack(fiat: string, names: seq<string>)
    requires ValidNames(fiat, names)
    ensures var read := SplitCryptos(Join(Ordered(names)));
            read == Ordered(names) && read != [] && forall c :: c in read <==> c in names
  {
    CryptosAreNormal();
    var parts := Ordered(names);
    assert names[0] in names;
    assert forall i :: 0 <= i < |parts| ==> parts[i] in CRYPTOS;
    SplitJoin(parts);
    NamesOfNormal(parts);
  }

  /**
   Everything that validation accepts is a valid row, for the legs that were given (or the default
   ones), and the markup is the input's to a hundred-millionth of a basis point.
   */
  lemma AcceptedIsValid(fiat: string, side: Option<Side>, cryptos: CryptosInput, markupBps: Option<real>)
    requires Normalize(fiat, side, cryptos, markupBps).Accepted?
    ensures var row := Normalize(fiat, side, cryptos, markupBps).row;
            && ValidRow(row) && row.fiat == Norm(fiat) && row.side == side
            && (forall c :: c in SplitCryptos(row.cryptos) <==> c in Names(RawCryptos(row.fiat, cryptos)))
            && DepositAmount.Abs(row.markupBps - markupBps.value) <= 0.00000001
  {
    AcceptedForm(fiat, side, cryptos, markupBps);
    StoredCryptosReadBack(Norm(fiat), Names(RawCryptos(Norm(fiat), cryptos)));
    var legs := SplitCryptos(Normalize(fiat, side, cryptos, markupBps).row.cryptos);
    assert forall i :: 0 <= i < |legs| ==> legs[i] in legs;
  }

  lemma AcceptedForm(fiat: string, side: Option<Side>, cryptos: CryptosInput, markupBps: Option<real>)
    requires Normalize(fiat, side, cryptos, markupBps).Accepted?
    ensures var row := Normalize(fiat, side, cryptos, markupBps).row;
            var names := Names(RawCryptos(Norm(fiat), cryptos));
            && IsFiatCode(Norm(fiat)) && row.fiat == Norm(fiat) && row.side == side && side.Some?
            && ValidNames(row.fiat, names) && row.cryptos == Join(Ordered(names))
            && 0.0 <= row.markupBps <= MAX_BPS && DepositAmount.Abs(row.markupBps - markupBps.value) <= 0.00000001
  {
  }

  lemma FiatIsNormal(fiat: string)
    requires IsFiatCode(fiat)
    ensures Norm(fiat) == fiat
  {
    assert forall i :: 0 <= i < 3 ==> Upper(fiat)[i] == fiat[i];
    assert Upper(fiat) == fiat;
    NormFixesNormal(fiat);
  }

  /** A valid row's rule says what the row says. */
  lemma ValidRowGivesItsRule(row: Setting)
    requires ValidRow(row)
    ensures Usable(row) && WellFormed(RuleOf(row))
    ensures RuleOf(row) == Rule(row.fiat, SplitCryptos(row.cryptos), row.markupBps / 10000.0, [row.side.value])
  {
    FiatIsNormal(row.fiat);
    var legs := SplitCryptos(row.cryptos);
    CryptosAreNormal();
    forall i | 0 <= i < |legs| ensures LegFor(row.fiat, legs[i]) && Norm(legs[i]) == legs[i] { NormFixesNormal(legs[i]); }
    assert NormAll(legs) == legs;
  }

  predicate ValidTable(rows: seq<Setting>) {
    (forall i :: 0 <= i < |rows| ==> ValidRow(rows[i])) &&
    (forall i, j :: 0 <= i < j < |rows| ==> rows[i].fiat != rows[j].fiat || rows[i].side != rows[j].side)
  }

  lemma {:induction false} AllPresent(rules: seq<Option<Rule>>)
    requires forall i :: 0 <= i < |rules| ==> rules[i].Some?
    ensures |Present(rules)| == |rules| && forall i :: 0 <= i < |rules| ==> Present(rules)[i] == rules[i].value
  {
    if rules != [] { AllPresent(rules[..|rules| - 1]); }
  }

  lemma DifferentKeysDifferentRules(a: Setting, b: Setting)
    requires ValidRow(a) && ValidRow(b) && (a.fiat != b.fiat || a.side != b.side)
    ensures Usable(a) && Usable(b) && (RuleOf(a).fiat != RuleOf(b).fiat || RuleOf(a).sides != RuleOf(b).sides)
  {
    ValidRowGivesItsRule(a);
    ValidRowGivesItsRule(b);
  }

  /** No valid row is skipped: the rules are the rows' rules, one each. */
  lemma ValidTableGivesItsRules(rows: seq<Setting>)
    requires ValidTable(rows)
    ensures forall i :: 0 <= i < |rows| ==> Usable(rows[i])
    ensures |RulesOf(rows)| == |rows| && forall i :: 0 <= i < |rows| ==> RulesOf(rows)[i] == RuleOf(rows[i])
    ensures Table(RulesOf(rows))
  {
    forall i | 0 <= i < |rows| ensures Usable(rows[i]) && WellFormed(RuleOf(rows[i])) { ValidRowGivesItsRule(rows[i]); }
    AllPresent(seq(|rows|, i requires 0 <= i < |rows| => RuleFrom(rows[i])));
    forall i, j | 0 <= i < j < |rows|
      ensures RuleOf(rows[i]).fiat != RuleOf(rows[j]).fiat || RuleOf(rows[i]).sides != RuleOf(rows[j]).sides
    {
      DifferentKeysDifferentRules(rows[i], rows[j]);
    }
  }

  // ---------- saving ----------

  /** The unique key (fiat, side): replace the row in place, else add it. */
  function Upsert(rows: seq<Setting>, row: Setting): (r: seq<Setting>)
    ensures row in r
  {
    if rows == [] then [row]
    else if rows[0].fiat == row.fiat && rows[0].side == row.side then [row] + rows[1..]
    else [rows[0]] + Upsert(rows[1..], row)
  }

  lemma {:induction false} UpsertMembers(rows: seq<Setting>, row: Setting, other: Setting)
    requires ValidTable(rows)
    ensures other in Upsert(rows, row) <==>
              other == row || (other in rows && (other.fiat != row.fiat || other.side != row.side))
  {
    if rows != [] {
      var tail := rows[1..];
      assert rows == [rows[0]] + tail;
      assert ValidTable(tail);
      UpsertMembers(tail, row, other);
      assert forall i :: 0 <= i < |tail| ==> tail[i] == rows[i + 1];
    }
  }

  lemma {:induction false} UpsertKeepsValid(rows: seq<Setting>, row: Setting)
    requires ValidTable(rows) && ValidRow(row)
    ensures ValidTable(Upsert(rows, row))
  {
    if rows != [] {
      var tail := rows[1..];
      TailIsValid(rows);
      if rows[0].fiat == row.fiat && rows[0].side == row.side {
        HeadIsValid(row, tail);
      } else {
        UpsertKeepsValid(tail, row);
        var r := Upsert(tail, row);
        forall j | 0 <= j < |r| ensures rows[0].fiat != r[j].fiat || rows[0].side != r[j].side {
          UpsertMembers(tail, row, r[j]);
          assert r[j] in r;
        }
        HeadIsValid(rows[0], r);
      }
    }
  }

  // ---------- removing ----------

  /** The table without the row of this key. */
  function Without(rows: seq<Setting>, row: Setting): seq<Setting> {
    if rows == [] then []
    else if rows[0].fiat == row.fiat && rows[0].side == row.side then rows[1..]
    else [rows[0]] + Without(rows[1..], row)
  }

  lemma {:induction false} WithoutMembers(rows: seq<Setting>, row: Setting, other: Setting)
    requires ValidTable(rows)
    ensures other in Without(rows, row) <==> other in rows && (other.fiat != row.fiat || other.side != row.side)
  {
    if rows != [] {
      assert rows == [rows[0]] + rows[1..];
      TailIsValid(rows);
      WithoutMembers(rows[1..], row, other);
    }
  }

  lemma {:induction false} WithoutKeepsValid(rows: seq<Setting>, row: Setting)
    requires ValidTable(rows)
    ensures ValidTable(Without(rows, row))
  {
    if rows != [] {
      TailIsValid(rows);
      if rows[0].fiat != row.fiat || rows[0].side != row.side {
        WithoutKeepsValid(rows[1..], row);
        var r := Without(rows[1..], row);
        forall j | 0 <= j < |r| ensures rows[0].fiat != r[j].fiat || rows[0].side != r[j].side {
          WithoutMembers(rows[1..], row, r[j]);
          assert r[j] in r;
        }
        HeadIsValid(rows[0], r);
      }
    }
  }

  /** Remove, reload, look up: no pair of the removed row has a markup any more, and every other row is served as before. */
  lemma RemovedPairIsUnpriced(rows: seq<Setting>, row: Setting, src: string, dst: string, multiply: bool)
    requires ValidTable(rows) && row in rows && Usable(row) && Prices(RuleOf(row), src, dst)
    ensures ValidTable(Without(rows, row)) && Lookup(RulesOf(Without(rows, row)), src, dst, multiply) == None
    ensures forall other, x, y :: other in rows && other != row && Usable(other) && Prices(RuleOf(other), x, y) && x != "" && y != "" ==>
              Lookup(RulesOf(Without(rows, row)), x, y, multiply) == Lookup(RulesOf(rows), x, y, multiply)
  {
    var left := Without(rows, row);
    WithoutKeepsValid(rows, row);
    ValidTableGivesItsRules(rows);
    ValidTableGivesItsRules(left);
    FirstMatchIsARule(RulesOf(left), src, dst);
    forall i | 0 <= i < |left| ensures !Prices(RulesOf(left)[i], src, dst) { RemovedIsNotLeft(rows, row, i, src, dst); }
    forall other, x, y | other in rows && other != row && Usable(other) && Prices(RuleOf(other), x, y) && x != "" && y != ""
      ensures Lookup(RulesOf(left), x, y, multiply) == Lookup(RulesOf(rows), x, y, multiply)
    {
      KeysDiffer(rows, row, other);
      WithoutMembers(rows, row, other);
      RowIsServed(rows, other, x, y, multiply);
      RowIsServed(left, other, x, y, multiply);
    }
  }

  lemma KeysDiffer(rows: seq<Setting>, a: Setting, b: Setting)
    requires ValidTable(rows) && a in rows && b in rows && a != b
    ensures a.fiat != b.fiat || a.side != b.side
  {
  }

  lemma RemovedIsNotLeft(rows: seq<Setting>, row: Setting, i: nat, src: string, dst: string)
    requires ValidTable(rows) && row in rows && Usable(row) && Prices(RuleOf(row), src, dst)
    requires i < |Without(rows, row)| && ValidTable(Without(rows, row)) && i < |RulesOf(Without(rows, row))|
    requires Usable(Without(rows, row)[i]) && RulesOf(Without(rows, row))[i] == RuleOf(Without(rows, row)[i])
    ensures !Prices(RulesOf(Without(rows, row))[i], src, dst)
  {
    var other := Without(rows, row)[i];
    assert other in Without(rows, row);
    WithoutMembers(rows, row, other);
    DifferentKeysDifferentRules(row, other);
    ValidRowGivesItsRule(row);
    ValidRowGivesItsRule(other);
    if Prices(RuleOf(other), src, dst) { AtMostOneRulePrices(RuleOf(row), RuleOf(other), src, dst); }
  }

  lemma TailIsValid(rows: seq<Setting>)
    requires ValidTable(rows) && rows != []
    ensures ValidTable(rows[1..])
    ensures forall r :: r in rows[1..] ==> rows[0].fiat != r.fiat || rows[0].side != r.side
    ensures forall j :: 0 <= j < |rows| - 1 ==> rows[0].fiat != rows[1..][j].fiat || rows[0].side != rows[1..][j].side
  {
  }

  lemma HeadIsValid(head: Setting, tail: seq<Setting>)
    requires ValidRow(head) && ValidTable(tail)
    requires forall j :: 0 <= j < |tail| ==> head.fiat != tail[j].fiat || head.side != tail[j].side
    ensures ValidTable([head] + tail)
  {
  }

  /** A rule's match in the ordinary or the fiat-to-fiat flow. */
  function Served(rule: Rule, multiply: bool): Match
    requires |rule.sides| == 1
  {
    Match(rule.fiat, rule.markup * (if multiply then FIAT_TO_FIAT_MULTIPLIER else 1.0), rule.sides[0])
  }

  lemma TableServesItsRules(rules: seq<Rule>, k: nat, src: string, dst: string, multiply: bool)
    requires Table(rules) && k < |rules| && Prices(rules[k], src, dst) && src != "" && dst != ""
    ensures Lookup(rules, src, dst, multiply) == Some(Served(rules[k], multiply))
  {
    FirstMatchExactly(rules, src, dst, k);
  }

  lemma RowHasItsRule(rows: seq<Setting>, row: Setting) returns (k: nat)
    requires ValidTable(rows) && row in rows
    ensures Usable(row) && Table(RulesOf(rows)) && k < |RulesOf(rows)| && RulesOf(rows)[k] == RuleOf(row)
  {
    ValidTableGivesItsRules(rows);
    k :| 0 <= k < |rows| && rows[k] == row;
  }

  /** Every row of the table is served. */
  lemma RowIsServed(rows: seq<Setting>, row: Setting, src: string, dst: string, multiply: bool)
    requires ValidTable(rows) && row in rows && Usable(row) && Prices(RuleOf(row), src, dst) && src != "" && dst != ""
    ensures Lookup(RulesOf(rows), src, dst, multiply) == Some(Served(RuleOf(row), multiply))
  {
    var k := RowHasItsRule(rows, row);
    TableServesItsRules(RulesOf(rows), k, src, dst, multiply);
  }

  lemma ServedIsTheRow(row: Setting, multiply: bool)
    requires ValidRow(row)
    ensures Usable(row) && Served(RuleOf(row), multiply) ==
              Match(row.fiat, row.markupBps / 10000.0 * (if multiply then FIAT_TO_FIAT_MULTIPLIER else 1.0), row.side.value)
  {
    ValidRowGivesItsRule(row);
  }

  /**
   Save, reload, look up: each pair of the saved entry is priced at the saved markup, twice that in the fiat-to-fiat
   flow, and so is each pair of every other row at that row's markup, as before the save.
   */
  lemma SavedMarkupIsServed(rows: seq<Setting>, saved: Setting, row: Setting, src: string, dst: string, multiply: bool)
    requires ValidTable(rows) && ValidRow(saved)
    requires row == saved || (row in rows && (row.fiat != saved.fiat || row.side != saved.side))
    requires Usable(row) && Prices(RuleOf(row), src, dst) && src != "" && dst != ""
    ensures ValidTable(Upsert(rows, saved))
    ensures Lookup(RulesOf(Upsert(rows, saved)), src, dst, multiply) ==
              Some(Match(row.fiat, row.markupBps / 10000.0 * (if multiply then FIAT_TO_FIAT_MULTIPLIER else 1.0), row.side.value))
  {
    UpsertKeepsValid(rows, saved);
    UpsertMembers(rows, saved, row);
    RowIsServed(Upsert(rows, saved), row, src, dst, multiply);
    assert ValidRow(row);
    ServedIsTheRow(row, multiply);
  }

  /** The same for the names as a quote gives them. */
  lemma SavedPairIsFound(
    rows: seq<Setting>, saved: Setting, row: Setting, fromCurrency: string, toCurrency: string, flow: string)
    requires ValidTable(rows) && ValidRow(saved)
    requires row == saved || (row in rows && (row.fiat != saved.fiat || row.side != saved.side))
    requires Usable(row) && Prices(RuleOf(row), Norm(fromCurrency), Norm(toCurrency))
    requires Norm(fromCurrency) != "" && Norm(toCurrency) != ""
    ensures var times := if PairCheck.IsFiatToFiat(flow) then FIAT_TO_FIAT_MULTIPLIER else 1.0;
            FindPairMarkup(RulesOf(Upsert(rows, saved)), fromCurrency, toCurrency, flow) ==
              Some(Match(row.fiat, row.markupBps / 10000.0 * times, row.side.value))
  {
    SavedMarkupIsServed(rows, saved, row, Norm(fromCurrency), Norm(toCurrency), PairCheck.IsFiatToFiat(flow));
  }
}
