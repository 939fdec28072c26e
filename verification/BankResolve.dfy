/**
 The walk that finds the bank-account record in a provider's answer, wherever it is nested, also inside JSON that was
 sent as text (core/integrations/palremitBanks.ts).
 */
module BankResolve {
  import opened Wrappers
  import opened Json
  import Text

  /** Characters of text, plus one for every value and one for every place in an array or object. */
  function Weight(v: Json): nat {
    match v
    case Str(text) => |text| + 1
    case Arr(items) => 1 + ItemsWeight(items)
    case Obj(fields) => 1 + FieldsWeight(fields)
    case _ => 1
  }

  function ItemsWeight(items: seq<Json>): nat {
    if items == [] then 0 else Weight(items[0]) + 1 + ItemsWeight(items[1..])
  }

  function FieldsWeight(fields: seq<Field>): nat {
    if fields == [] then 0 else Weight(fields[0].value) + 1 + FieldsWeight(fields[1..])
  }

  /**
   `JSON.parse`, or nothing where it throws. A parsed value weighs no more than its text is long: an array of n items
   takes two brackets and n - 1 commas besides the items, a text value its two quotes.
   */
  type Parser = p: string -> Option<Json> | (forall t: string :: p(t).Some? ==> Weight(p(t).value) <= |t|)
    witness (_: string) => Option<Json>.None

  datatype Names = Names(bankCode: seq<string>, bankName: seq<string>, accountNumber: seq<string>, holder: seq<string>)

  /** What the walk is given: the parser, the text of a number, and the keys of the four fields. */
  datatype Host = Host(parse: Parser, numberText: real -> string, names: Names)

  /** A non-blank text, or a number as text. */
  function OwnText(host: Host, o: seq<Field>, key: string): string {
    if !Has(o, key) then "" else
      match Get(o, key)
      case Str(s) => Text.Trim(s)
      case Num(n) => host.numberText(n)
      case _ => ""
  }

  /** The text of the first of the keys that has one. */
  function FieldText(host: Host, o: seq<Field>, keys: seq<string>): string {
    if keys == [] then ""
    else if OwnText(host, o, keys[0]) != "" then OwnText(host, o, keys[0])
    else FieldText(host, o, keys[1..])
  }

  /** Under which keys the walk looks for a bank account's four fields. */
  const RESOLVE_NAMES := Names(
    ["bank_code", "bankCode"], ["bank_name", "bankName"], ["account_number", "accountNumber"],
    ["account_name", "accountName", "account_holder_name", "accountHolderName", "beneficiary_name", "beneficiaryName"])

  function Known(host: Host, o: seq<Field>, keys: seq<string>): nat {
    if FieldText(host, o, keys) != "" then 1 else 0
  }

  function Score(host: Host, o: seq<Field>, names: Names): nat {
    Known(host, o, names.bankCode) + Known(host, o, names.bankName) + Known(host, o, names.accountNumber) + Known(host, o, names.holder)
  }

  /** How many of the four fields the record has. */
  method ResolveFieldScore(host: Host, o: seq<Field>, names: Names) returns (s: nat)
    ensures s == Score(host, o, names)
  {
    s := 0;
    if FieldText(host, o, names.bankCode) != "" { s := s + 1; }
    if FieldText(host, o, names.bankName) != "" { s := s + 1; }
    if FieldText(host, o, names.accountNumber) != "" { s := s + 1; }
    if FieldText(host, o, names.holder) != "" { s := s + 1; }
  }

  predicate LooksLikeJson(t: string) {
    t != "" && ((t[0] == '{' && t[|t| - 1] == '}') || (t[0] == '[' && t[|t| - 1] == ']'))
  }

  /** The value inside a text member that is itself JSON. */
  function Inner(host: Host, v: Json): (r: Option<Json>)
    ensures r.Some? ==> Weight(r.value) < Weight(v)
  {
    if v.Str? && LooksLikeJson(Text.Trim(v.text)) then host.parse(Text.Trim(v.text)) else None
  }

  predicate Wrapped(t: string, left: string, inside: string, right: string) {
    t == left + inside + right
  }

  lemma LooksLikeJsonExactly(t: string)
    ensures LooksLikeJson(t) <==> exists inside :: Wrapped(t, "{", inside, "}") || Wrapped(t, "[", inside, "]")
  {
    if LooksLikeJson(t) {
      var inside := t[1..|t| - 1];
      assert t == [t[0]] + inside + [t[|t| - 1]];
      assert Wrapped(t, "{", inside, "}") || Wrapped(t, "[", inside, "]");
    }
  }

  /** Only a text in braces or brackets is walked as JSON, blanks around it aside, and only if it can be parsed. */
  lemma InnerExactly(host: Host, v: Json)
    ensures Inner(host, v).Some? <==>
              v.Str? && LooksLikeJson(Text.Trim(v.text)) && host.parse(Text.Trim(v.text)).Some?
    ensures Inner(host, v).Some? ==> Inner(host, v) == host.parse(Text.Trim(v.text))
  {
  }

  // ---------- the first maximum of a list ----------

  /** A visited object: whether it has a bank code and an account number, its score, its nesting depth. */
  datatype Visit = Visit(o: seq<Field>, candidate: bool, score: nat, depth: nat)

  /** By score, then by depth. */
  predicate Better(a: Visit, b: Visit) {
    a.score > b.score || (a.score == b.score && a.depth > b.depth)
  }

  /** `best` after one more visit. */
  function Improve(best: Option<Visit>, visit: Visit): Option<Visit> {
    if visit.candidate && (best.None? || Better(visit, best.value)) then Some(visit) else best
  }

  /** `best` after the visits, in order. */
  function Improved(best: Option<Visit>, visits: seq<Visit>): Option<Visit> {
    if visits == [] then best else Improve(Improved(best, visits[..|visits| - 1]), visits[|visits| - 1])
  }

  lemma {:induction false} ImprovedInTwo(best: Option<Visit>, xs: seq<Visit>, ys: seq<Visit>)
    ensures Improved(best, xs + ys) == Improved(Improved(best, xs), ys)
    decreases |ys|
  {
    if ys == [] {
      assert xs + ys == xs;
    } else {
      var n := |ys| - 1;
      assert xs + ys == (xs + ys[..n]) + [ys[n]];
      ImprovedInTwo(best, xs, ys[..n]);
    }
  }

  predicate NoCandidate(visits: seq<Visit>) {
    forall i :: 0 <= i < |visits| ==> !visits[i].candidate
  }

  /** Visit `i` is the first among the best of those that have both a bank code and an account number. */
  predicate FirstBest(visits: seq<Visit>, i: int) {
    0 <= i < |visits| && visits[i].candidate &&
    forall j :: 0 <= j < |visits| && visits[j].candidate ==>
      !Better(visits[j], visits[i]) && (j < i ==> Better(visits[i], visits[j]))
  }

  /** The running best is the first maximum, or nothing exactly when there is no candidate. */
  lemma {:induction false} ImprovedIsFirstBest(visits: seq<Visit>)
    ensures Improved(None, visits).None? <==> NoCandidate(visits)
    ensures Improved(None, visits).Some? ==>
              exists i :: FirstBest(visits, i) && visits[i] == Improved(None, visits).value
  {
    if visits != [] {
      var n := |visits| - 1;
      var first := visits[..n];
      ImprovedIsFirstBest(first);
      var best := Improved(None, first);
      if best.Some? {
        var i :| FirstBest(first, i) && first[i] == best.value;
        FirstBestGrows(visits, i);
      } else if visits[n].candidate {
        assert FirstBest(visits, n);
      }
    }
  }

  lemma FirstBestGrows(visits: seq<Visit>, i: nat)
    requires visits != [] && FirstBest(visits[..|visits| - 1], i)
    ensures var n := |visits| - 1;
            FirstBest(visits, if visits[n].candidate && Better(visits[n], visits[i]) then n else i)
  {
    var n := |visits| - 1;
    assert forall j :: 0 <= j < n ==> visits[..n][j] == visits[j];
  }

  // ---------- the objects in visit order ----------

  predicate Identifies(host: Host, o: seq<Field>, names: Names) {
    FieldText(host, o, names.bankCode) != "" && FieldText(host, o, names.accountNumber) != ""
  }

  function VisitOf(host: Host, o: seq<Field>, depth: nat): Visit {
    Visit(o, Identifies(host, o, host.names), Score(host, o, host.names), depth)
  }

  /** Every object of the tree, an object before what is inside it. */
  function Visits(host: Host, n: Json, depth: nat): seq<Visit>
    decreases Weight(n), 0
  {
    match n
    case Arr(items) => ItemVisits(host, items, depth + 1)
    case Obj(fields) => [VisitOf(host, fields, depth)] + FieldVisits(host, fields, depth + 1)
    case _ => []
  }

  function ItemVisits(host: Host, items: seq<Json>, depth: nat): seq<Visit>
    decreases ItemsWeight(items)
  {
    if items == [] then [] else Visits(host, items[0], depth) + ItemVisits(host, items[1..], depth)
  }

  function FieldVisits(host: Host, fields: seq<Field>, depth: nat): seq<Visit>
    decreases FieldsWeight(fields)
  {
    if fields == [] then [] else MemberVisits(host, fields[0].value, depth) + FieldVisits(host, fields[1..], depth)
  }

  /** A text member that is JSON is visited as the value it holds. */
  function MemberVisits(host: Host, v: Json, depth: nat): seq<Visit>
    decreases Weight(v), 1
  {
    (if Inner(host, v).Some? then Visits(host, Inner(host, v).value, depth) else []) + Visits(host, v, depth)
  }

  // ---------- what is visited: every object, wherever it is nested ----------

  /** One level down: an array item, an object member, or the JSON inside a text member. */
  datatype Hop = Item(i: nat) | Member(i: nat) | Inside(i: nat)

  function Down(host: Host, n: Json, hop: Hop): Option<Json> {
    match hop
    case Item(i) => if n.Arr? && i < |n.items| then Some(n.items[i]) else None
    case Member(i) => if n.Obj? && i < |n.fields| then Some(n.fields[i].value) else None
    case Inside(i) => if n.Obj? && i < |n.fields| then Inner(host, n.fields[i].value) else None
  }

  function At(host: Host, n: Json, path: seq<Hop>): Option<Json>
    decreases |path|
  {
    if path == [] then Some(n)
    else if Down(host, n, path[0]).None? then None
    else At(host, Down(host, n, path[0]).value, path[1..])
  }

  lemma {:induction false} ItemIsVisited(host: Host, items: seq<Json>, depth: nat, i: nat, v: Visit)
    requires i < |items| && v in Visits(host, items[i], depth)
    ensures v in ItemVisits(host, items, depth)
  {
    if i > 0 { ItemIsVisited(host, items[1..], depth, i - 1, v); }
  }

  lemma {:induction false} MemberIsVisited(host: Host, fields: seq<Field>, depth: nat, i: nat, v: Visit)
    requires i < |fields| && v in MemberVisits(host, fields[i].value, depth)
    ensures v in FieldVisits(host, fields, depth)
  {
    hide MemberVisits;
    if i > 0 { MemberIsVisited(host, fields[1..], depth, i - 1, v); }
  }

  /** What is visited one level down is visited. */
  lemma HopIsVisited(host: Host, n: Json, depth: nat, hop: Hop, v: Visit)
    requires Down(host, n, hop).Some? && v in Visits(host, Down(host, n, hop).value, depth + 1)
    ensures v in Visits(host, n, depth)
  {
    match hop
    case Item(i) => ItemIsVisited(host, n.items, depth + 1, i, v);
    case Member(i) =>
      assert v in MemberVisits(host, n.fields[i].value, depth + 1);
      MemberIsVisited(host, n.fields, depth + 1, i, v);
    case Inside(i) =>
      assert v in MemberVisits(host, n.fields[i].value, depth + 1);
      MemberIsVisited(host, n.fields, depth + 1, i, v);
  }

  /** Every object at the end of a path is visited, at the depth of the path. */
  lemma {:induction false} EveryObjectIsVisited(host: Host, n: Json, depth: nat, path: seq<Hop>, o: seq<Field>, v: Visit)
    requires At(host, n, path) == Some(Obj(o)) && v == VisitOf(host, o, depth + |path|)
    ensures v in Visits(host, n, depth)
    decreases |path|
  {
    if path == [] {
      RootIsVisited(host, o, depth);
    } else {
      var hop, rest := path[0], path[1..];
      EveryObjectIsVisited(host, Down(host, n, hop).value, depth + 1, rest, o, v);
      HopIsVisited(host, n, depth, hop, v);
    }
  }

  lemma RootIsVisited(host: Host, o: seq<Field>, depth: nat)
    ensures VisitOf(host, o, depth) in Visits(host, Obj(o), depth)
  {
    assert Visits(host, Obj(o), depth)[0] == VisitOf(host, o, depth);
  }

  lemma {:induction false} ItemOfVisit(host: Host, items: seq<Json>, depth: nat, v: Visit) returns (i: nat)
    requires v in ItemVisits(host, items, depth)
    ensures i < |items| && v in Visits(host, items[i], depth)
  {
    if v in Visits(host, items[0], depth) {
      i := 0;
    } else {
      var j := ItemOfVisit(host, items[1..], depth, v);
      i := j + 1;
    }
  }

  lemma {:induction false} MemberOfVisit(host: Host, fields: seq<Field>, depth: nat, v: Visit) returns (i: nat)
    requires v in FieldVisits(host, fields, depth)
    ensures i < |fields| && v in MemberVisits(host, fields[i].value, depth)
  {
    hide MemberVisits;
    var first, rest := MemberVisits(host, fields[0].value, depth), FieldVisits(host, fields[1..], depth);
    InEither(first, rest, v);
    if v in first {
      i := 0;
    } else {
      var j := MemberOfVisit(host, fields[1..], depth, v);
      i := j + 1;
    }
  }

  lemma InEither(xs: seq<Visit>, ys: seq<Visit>, v: Visit)
    ensures v in xs + ys <==> v in xs || v in ys
  {
  }

  /** What is visited inside a value is visited one level down, unless it is the value itself. */
  lemma HopOfVisit(host: Host, n: Json, depth: nat, v: Visit) returns (hop: Hop)
    requires v in Visits(host, n, depth) && !(n.Obj? && v == VisitOf(host, n.fields, depth))
    ensures Down(host, n, hop).Some? && Weight(Down(host, n, hop).value) < Weight(n)
    ensures v in Visits(host, Down(host, n, hop).value, depth + 1)
  {
    if n.Arr? {
      var i := ItemOfVisit(host, n.items, depth + 1, v);
      ItemsWeightSplits(n.items, i);
      hop := Item(i);
    } else {
      InEither([VisitOf(host, n.fields, depth)], FieldVisits(host, n.fields, depth + 1), v);
      var i := MemberOfVisit(host, n.fields, depth + 1, v);
      FieldsWeightSplits(n.fields, i);
      var inside := MemberOrInside(host, n.fields[i].value, depth + 1, v);
      hop := if inside then Inside(i) else Member(i);
    }
  }

  lemma MemberOrInside(host: Host, m: Json, depth: nat, v: Visit) returns (inside: bool)
    requires v in MemberVisits(host, m, depth)
    ensures inside ==> Inner(host, m).Some? && v in Visits(host, Inner(host, m).value, depth)
    ensures !inside ==> v in Visits(host, m, depth)
  {
    inside := v !in Visits(host, m, depth);
    InEither(if Inner(host, m).Some? then Visits(host, Inner(host, m).value, depth) else [], Visits(host, m, depth), v);
  }

  /** And nothing else is visited. */
  lemma {:induction false} EveryVisitHasItsPath(host: Host, n: Json, depth: nat, v: Visit) returns (path: seq<Hop>)
    requires v in Visits(host, n, depth)
    ensures At(host, n, path) == Some(Obj(v.o)) && v == VisitOf(host, v.o, depth + |path|)
    decreases Weight(n)
  {
    if n.Obj? && v == VisitOf(host, n.fields, depth) {
      path := [];
    } else {
      var hop := HopOfVisit(host, n, depth, v);
      var rest := EveryVisitHasItsPath(host, Down(host, n, hop).value, depth + 1, v);
      path := [hop] + rest;
      assert path[1..] == rest;
    }
  }

  // ---------- the walk ----------

  class Finder {
    const host: Host
    var best: Option<Visit>

    constructor (host: Host)
      ensures best == None && this.host == host
    {
      this.host := host;
      best := None;
    }

    method Walk(n: Json, depth: nat)
      modifies this
      ensures best == Improved(old(best), Visits(host, n, depth))
      decreases Weight(n), 0
    {
      match n
      case Arr(items) => WalkItems(items, depth + 1);
      case Obj(fields) =>
        Consider(fields, depth);
        ImprovedInTwo(old(best), [VisitOf(host, fields, depth)], FieldVisits(host, fields, depth + 1));
        WalkFields(fields, depth + 1);
      case _ =>
    }

    method WalkItems(items: seq<Json>, depth: nat)
      modifies this
      ensures best == Improved(old(best), ItemVisits(host, items, depth))
      decreases ItemsWeight(items), 1
    {
      var i := 0;
      while i < |items|
        invariant i <= |items|
        invariant Improved(old(best), ItemVisits(host, items, depth)) == Improved(best, ItemVisits(host, items[i..], depth))
      {
        ImprovedInTwo(best, Visits(host, items[i], depth), ItemVisits(host, items[i + 1..], depth));
        ItemsWeightSplits(items, i);
        Walk(items[i], depth);
        assert items[i..][1..] == items[i + 1..];
        i := i + 1;
      }
    }

    method WalkFields(fields: seq<Field>, depth: nat)
      modifies this
      ensures best == Improved(old(best), FieldVisits(host, fields, depth))
      decreases FieldsWeight(fields), 1
    {
      var i := 0;
      while i < |fields|
        invariant i <= |fields|
        invariant Improved(old(best), FieldVisits(host, fields, depth)) == Improved(best, FieldVisits(host, fields[i..], depth))
      {
        ImprovedInTwo(best, MemberVisits(host, fields[i].value, depth), FieldVisits(host, fields[i + 1..], depth));
        FieldsWeightSplits(fields, i);
        WalkMember(fields[i].value, depth);
        assert fields[i..][1..] == fields[i + 1..];
        i := i + 1;
      }
    }

    method WalkMember(v: Json, depth: nat)
      modifies this
      ensures best == Improved(old(best), MemberVisits(host, v, depth))
      decreases Weight(v), 1
    {
      var inner := Inner(host, v);
      ImprovedInTwo(best, if inner.Some? then Visits(host, inner.value, depth) else [], Visits(host, v, depth));
      if inner.Some? {
        Walk(inner.value, depth);
      }
      Walk(v, depth);
    }

    method Consider(o: seq<Field>, depth: nat)
      modifies this
      ensures best == Improved(old(best), [VisitOf(host, o, depth)])
    {
      if Identifies(host, o, host.names) {
        var score := ResolveFieldScore(host, o, host.names);
        if best.None? || score > best.value.score || (score == best.value.score && depth > best.value.depth) {
          best := Some(Visit(o, true, score, depth));
        }
      }
    }
  }

  lemma {:induction false} ItemsWeightSplits(items: seq<Json>, i: nat)
    requires i < |items|
    ensures Weight(items[i]) < ItemsWeight(items)
  {
    if i > 0 { ItemsWeightSplits(items[1..], i - 1); }
  }

  lemma {:induction false} FieldsWeightSplits(fields: seq<Field>, i: nat)
    requires i < |fields|
    ensures Weight(fields[i].value) < FieldsWeight(fields)
  {
    if i > 0 { FieldsWeightSplits(fields[1..], i - 1); }
  }

  // ---------- the record returned, by the texts it has ----------

  datatype BankText = Code | Name | Number | Holder

  /** Under which keys a record may have the text. */
  function KeysOf(text: BankText): set<string> {
    match text
    case Code => {"bank_code", "bankCode"}
    case Name => {"bank_name", "bankName"}
    case Number => {"account_number", "accountNumber"}
    case Holder =>
      {"account_name", "accountName", "account_holder_name", "accountHolderName", "beneficiary_name", "beneficiaryName"}
  }

  /** The member is a text that is not blank, or a number with a text. */
  predicate IsText(host: Host, o: seq<Field>, key: string) {
    Has(o, key) &&
    match Get(o, key)
    case Str(s) => Text.Trim(s) != ""
    case Num(n) => host.numberText(n) != ""
    case _ => false
  }

  predicate HasText(host: Host, o: seq<Field>, text: BankText) {
    exists key :: key in KeysOf(text) && IsText(host, o, key)
  }

  function One(b: bool): nat {
    if b then 1 else 0
  }

  /** How many of the four texts the record has. */
  function TextCount(host: Host, o: seq<Field>): nat {
    One(HasText(host, o, Code)) + One(HasText(host, o, Name)) + One(HasText(host, o, Number)) + One(HasText(host, o, Holder))
  }

  /** It has a bank code and an account number. */
  predicate IsRecord(host: Host, o: seq<Field>) {
    HasText(host, o, Code) && HasText(host, o, Number)
  }

  /** More texts, or as many and nested deeper. */
  predicate MoreComplete(host: Host, a: Visit, b: Visit) {
    TextCount(host, a.o) > TextCount(host, b.o) || (TextCount(host, a.o) == TextCount(host, b.o) && a.depth > b.depth)
  }

  /** The record at `i` is the most complete one, and the first of those that are. */
  predicate MostComplete(host: Host, visits: seq<Visit>, i: nat) {
    i < |visits| && IsRecord(host, visits[i].o) &&
    forall j :: 0 <= j < |visits| && IsRecord(host, visits[j].o) ==>
      !MoreComplete(host, visits[j], visits[i]) && (j < i ==> MoreComplete(host, visits[i], visits[j]))
  }

  /** The answer is the most complete record among all objects of the tree, or nothing if none of them is a record. */
  ghost predicate Finds(host: Host, n: Json, r: Option<seq<Field>>) {
    var visits := Visits(host, n, 0);
    if r.None? then forall v :: v in visits ==> !IsRecord(host, v.o)
    else exists i: nat :: MostComplete(host, visits, i) && visits[i].o == r.value
  }

  lemma OwnTextExactly(host: Host, o: seq<Field>, key: string)
    ensures OwnText(host, o, key) != "" <==> IsText(host, o, key)
  {
  }

  lemma {:induction false} FieldTextExactly(host: Host, o: seq<Field>, keys: seq<string>)
    ensures FieldText(host, o, keys) != "" <==> exists key :: key in keys && IsText(host, o, key)
  {
    if keys != [] {
      OwnTextExactly(host, o, keys[0]);
      FieldTextExactly(host, o, keys[1..]);
      hide OwnText, IsText;
      assert forall key :: key in keys <==> key == keys[0] || key in keys[1..];
    }
  }

  predicate SameKeys(keys: seq<string>, text: BankText) {
    (forall i :: 0 <= i < |keys| ==> keys[i] in KeysOf(text)) && forall key :: key in KeysOf(text) ==> key in keys
  }

  /** The keys that the walk is given are the four texts' own. */
  predicate Standard(names: Names) {
    SameKeys(names.bankCode, Code) && SameKeys(names.bankName, Name) && SameKeys(names.accountNumber, Number) &&
    SameKeys(names.holder, Holder)
  }

  lemma ResolveNamesAreStandard()
    ensures Standard(RESOLVE_NAMES)
  {
  }

  lemma KnownExactly(host: Host, o: seq<Field>, keys: seq<string>, text: BankText)
    requires SameKeys(keys, text)
    ensures Known(host, o, keys) == One(HasText(host, o, text))
    ensures FieldText(host, o, keys) != "" <==> HasText(host, o, text)
  {
    FieldTextExactly(host, o, keys);
    hide FieldText, IsText, KeysOf;
  }

  /** The score counts the texts, and the walk considers exactly the records. */
  lemma ScoreCountsTexts(host: Host, o: seq<Field>)
    requires Standard(host.names)
    ensures Score(host, o, host.names) == TextCount(host, o)
    ensures Identifies(host, o, host.names) <==> IsRecord(host, o)
  {
    hide Known, FieldText, HasText, IsText, SameKeys;
    KnownExactly(host, o, host.names.bankCode, Code);
    KnownExactly(host, o, host.names.bankName, Name);
    KnownExactly(host, o, host.names.accountNumber, Number);
    KnownExactly(host, o, host.names.holder, Holder);
  }

  lemma VisitCountsTexts(host: Host, n: Json, v: Visit)
    requires Standard(host.names) && v in Visits(host, n, 0)
    ensures v.score == TextCount(host, v.o) && (v.candidate <==> IsRecord(host, v.o))
  {
    hide TextCount, IsRecord, Score, Identifies, Standard;
    var path := EveryVisitHasItsPath(host, n, 0, v);
    ScoreCountsTexts(host, v.o);
  }

  /** The first best by score and depth is the first most complete record, and no candidate is no record. */
  lemma BestIsMostComplete(host: Host, n: Json)
    requires Standard(host.names)
    ensures forall i: nat :: FirstBest(Visits(host, n, 0), i) ==> MostComplete(host, Visits(host, n, 0), i)
    ensures NoCandidate(Visits(host, n, 0)) ==> forall v :: v in Visits(host, n, 0) ==> !IsRecord(host, v.o)
  {
    hide TextCount, IsRecord, Visits, Standard;
    var visits := Visits(host, n, 0);
    forall i | 0 <= i < |visits|
      ensures visits[i].score == TextCount(host, visits[i].o) && (visits[i].candidate <==> IsRecord(host, visits[i].o))
    {
      VisitCountsTexts(host, n, visits[i]);
    }
  }

  /** So the running best of all visits is what the walk must find. */
  lemma BestIsFound(host: Host, n: Json, best: Option<Visit>)
    requires Standard(host.names) && best == Improved(None, Visits(host, n, 0))
    ensures Finds(host, n, if best.None? then None else Some(best.value.o))
  {
    hide TextCount, IsRecord, Visits, MostComplete, Better, NoCandidate, Standard;
    ImprovedIsFirstBest(Visits(host, n, 0));
    BestIsMostComplete(host, n);
  }

  /** `findBankResolveCore`. */
  method FindBankResolveCore(parse: Parser, numberText: real -> string, body: Json) returns (r: Option<seq<Field>>)
    ensures Finds(Host(parse, numberText, RESOLVE_NAMES), body, r)
  {
    hide RESOLVE_NAMES, Finds, Visits, Improved, Standard;
    ResolveNamesAreStandard();
    var host := Host(parse, numberText, RESOLVE_NAMES);
    var finder := new Finder(host);
    finder.Walk(body, 0);
    BestIsFound(host, body, finder.best);
    r := if finder.best.None? then None else Some(finder.best.value.o);
  }
}
