/**
 Canonical JSON (utils/stableJson.ts) and the webhook key built on it (core/webhooks/buildWebhookDedupeKey.ts).
 */
module StableJson {
  import opened Json

  // ---------- sorting the keys ----------

  /** The order of `Array.prototype.sort` on strings: by code unit, a prefix first. */
  predicate Before(a: string, b: string) {
    a == "" || (b != "" && (a[0] < b[0] || (a[0] == b[0] && Before(a[1..], b[1..]))))
  }

  lemma BeforeIsTotal(a: string, b: string)
    ensures Before(a, b) || Before(b, a)
  {
  }

  lemma BeforeIsAntisymmetric(a: string, b: string)
    requires Before(a, b) && Before(b, a)
    ensures a == b
  {
    if a != "" {
      BeforeIsAntisymmetric(a[1..], b[1..]);
      assert a == [a[0]] + a[1..] && b == [b[0]] + b[1..];
    }
  }

  lemma BeforeIsTransitive(a: string, b: string, c: string)
    requires Before(a, b) && Before(b, c)
    ensures Before(a, c)
  {
  }

  predicate Sorted(keys: seq<string>) {
    forall i, j :: 0 <= i < j < |keys| ==> Before(keys[i], keys[j])
  }

  function Insert(key: string, sorted: seq<string>): (r: seq<string>)
    ensures multiset(r) == multiset(sorted) + multiset{key}
  {
    if sorted == [] then [key]
    else if Before(key, sorted[0]) then
      assert multiset([key] + sorted) == multiset(sorted) + multiset{key};
      [key] + sorted
    else
      assert sorted == [sorted[0]] + sorted[1..];
      [sorted[0]] + Insert(key, sorted[1..])
  }

  lemma HeadKeepsSorted(head: string, rest: seq<string>)
    requires Sorted(rest) && forall i :: 0 <= i < |rest| ==> Before(head, rest[i])
    ensures Sorted([head] + rest)
  {
  }

  lemma {:induction false} InsertKeepsSorted(key: string, sorted: seq<string>)
    requires Sorted(sorted)
    ensures Sorted(Insert(key, sorted))
  {
    if sorted != [] {
      if Before(key, sorted[0]) {
        forall i | 0 <= i < |sorted| ensures Before(key, sorted[i]) {
          if i > 0 { BeforeIsTransitive(key, sorted[0], sorted[i]); }
        }
        HeadKeepsSorted(key, sorted);
      } else {
        BeforeIsTotal(key, sorted[0]);
        InsertKeepsSorted(key, sorted[1..]);
        InsertedMembers(key, sorted[1..]);
        HeadKeepsSorted(sorted[0], Insert(key, sorted[1..]));
      }
    }
  }

  lemma InsertedMembers(key: string, sorted: seq<string>)
    ensures forall i :: 0 <= i < |Insert(key, sorted)| ==> Insert(key, sorted)[i] == key || Insert(key, sorted)[i] in sorted
  {
    var r := Insert(key, sorted);
    forall i | 0 <= i < |r| ensures r[i] == key || r[i] in sorted {
      assert r[i] in multiset(r);
    }
  }

  /** `Object.keys(obj).sort()`. */
  function SortKeys(keys: seq<string>): (r: seq<string>)
    ensures multiset(r) == multiset(keys)
  {
    if keys == [] then []
    else
      assert keys == keys[..|keys| - 1] + [keys[|keys| - 1]];
      Insert(keys[|keys| - 1], SortKeys(keys[..|keys| - 1]))
  }

  lemma {:induction false} SortKeysSorts(keys: seq<string>)
    ensures Sorted(SortKeys(keys))
  {
    if keys != [] {
      SortKeysSorts(keys[..|keys| - 1]);
      InsertKeepsSorted(keys[|keys| - 1], SortKeys(keys[..|keys| - 1]));
    }
  }

  /** A repetition-free sorted list is determined by its members. */
  lemma {:induction false} SortedListIsUnique(xs: seq<string>, ys: seq<string>)
    requires Sorted(xs) && Sorted(ys) && Distinct(xs) && Distinct(ys)
    requires forall k :: k in xs <==> k in ys
    ensures xs == ys
  {
    EmptyTogether(xs, ys);
    if xs != [] {
      assert xs[0] in ys && ys[0] in xs;
      BeforeIsAntisymmetricHeads(xs, ys);
      forall k | k in xs[1..] ensures k in ys[1..] { assert k in ys && k != ys[0]; }
      forall k | k in ys[1..] ensures k in xs[1..] { assert k in xs && k != xs[0]; }
      SortedListIsUnique(xs[1..], ys[1..]);
      assert xs == [xs[0]] + xs[1..] && ys == [ys[0]] + ys[1..];
    }
  }

  lemma EmptyTogether(xs: seq<string>, ys: seq<string>)
    requires forall k :: k in xs <==> k in ys
    ensures xs == [] <==> ys == []
  {
    assert xs != [] ==> xs[0] in ys;
    assert ys != [] ==> ys[0] in xs;
  }

  lemma BeforeIsAntisymmetricHeads(xs: seq<string>, ys: seq<string>)
    requires Sorted(xs) && Sorted(ys) && xs != [] && ys != [] && xs[0] in ys && ys[0] in xs
    ensures xs[0] == ys[0]
  {
    var i :| 0 <= i < |ys| && ys[i] == xs[0];
    var j :| 0 <= j < |xs| && xs[j] == ys[0];
    if i > 0 && j > 0 { BeforeIsAntisymmetric(xs[0], ys[0]); }
  }

  lemma SameMultisetDistinct(xs: seq<string>, ys: seq<string>)
    requires multiset(xs) == multiset(ys) && Distinct(xs)
    ensures Distinct(ys) && forall k :: k in xs <==> k in ys
  {
    forall k ensures k in xs <==> k in ys {
      assert k in xs <==> k in multiset(xs);
      assert k in ys <==> k in multiset(ys);
    }
    forall i, j | 0 <= i < j < |ys| ensures ys[i] != ys[j] {
      if ys[i] == ys[j] {
        assert ys == ys[..i] + [ys[i]] + ys[i + 1..j] + [ys[j]] + ys[j + 1..];
        assert multiset(xs)[ys[i]] >= 2;
        DistinctCountsOnce(xs, ys[i]);
      }
    }
  }

  lemma {:induction false} DistinctCountsOnce(xs: seq<string>, k: string)
    requires Distinct(xs)
    ensures multiset(xs)[k] <= 1
  {
    if xs != [] {
      assert xs == [xs[0]] + xs[1..];
      DistinctCountsOnce(xs[1..], k);
      if k == xs[0] { assert k !in xs[1..]; assert k !in multiset(xs[1..]); }
    }
  }

  // ---------- the canonical form ----------

  /** Assigning this key on a plain object sets its prototype and adds no member. */
  const PROTO := "__proto__"

  /** `out[key] = value`. */
  function Put(fields: seq<Field>, key: string, value: Json): seq<Field> {
    if key == PROTO then fields
    else if fields == [] then [Field(key, value)]
    else if fields[0].key == key then [Field(key, value)] + fields[1..]
    else [fields[0]] + Put(fields[1..], key, value)
  }

  lemma {:induction false} PutAppends(fields: seq<Field>, key: string, value: Json)
    requires key != PROTO && !Has(fields, key)
    ensures Put(fields, key, value) == fields + [Field(key, value)]
  {
    if fields != [] {
      assert fields[0].key != key;
      forall i | 0 <= i < |fields[1..]| ensures fields[1..][i].key != key { assert fields[i + 1].key != key; }
      PutAppends(fields[1..], key, value);
      assert fields == [fields[0]] + fields[1..];
    }
  }

  function Kept(keys: seq<string>): (r: seq<string>)
    ensures forall k :: k in r <==> k in keys && k != PROTO
  {
    if keys == [] then []
    else
      var n := |keys| - 1;
      assert keys == keys[..n] + [keys[n]];
      Kept(keys[..n]) + if keys[n] == PROTO then [] else [keys[n]]
  }

  /** The order in which `sortJsonDeep` adds an object's members. */
  function CanonicalKeys(fields: seq<Field>): (r: seq<string>)
    ensures forall k :: k in r <==> Has(fields, k) && k != PROTO
  {
    var keys := Keys(fields);
    SortedMembers(keys);
    forall k ensures k in keys <==> Has(fields, k) { HasIsKeyIn(fields, k); }
    Kept(SortKeys(keys))
  }

  lemma SortedMembers(keys: seq<string>)
    ensures forall k :: k in SortKeys(keys) <==> k in keys
  {
    forall k ensures k in SortKeys(keys) <==> k in keys {
      assert k in SortKeys(keys) <==> k in multiset(SortKeys(keys));
      assert k in keys <==> k in multiset(keys);
    }
  }

  function SortDeep(v: Json): Json {
    match v
    case Arr(items) => Arr(seq(|items|, i requires 0 <= i < |items| => SortDeep(items[i])))
    case Obj(fields) =>
      var keys := CanonicalKeys(fields);
      Obj(seq(|keys|, i requires 0 <= i < |keys| => Field(keys[i], SortDeep(Member(v, keys[i])))))
    case _ => v
  }

  /** A member's value, which is smaller than the object. */
  function Member(v: Json, key: string): (m: Json)
    requires v.Obj? && Has(v.fields, key)
    ensures m == Get(v.fields, key) && m < v
  {
    var m := Get(v.fields, key);
    var i :| 0 <= i < |v.fields| && v.fields[i] == Field(key, m);
    assert v.fields[i].value < v;
    m
  }

  // ---------- equality up to key order ----------

  /** Equal up to the order of object keys at every depth, and up to members named `__proto__`. */
  ghost predicate Equiv(a: Json, b: Json)
    decreases a
  {
    match (a, b)
    case (Arr(xs), Arr(ys)) => |xs| == |ys| && forall i :: 0 <= i < |xs| ==> Equiv(xs[i], ys[i])
    case (Obj(f), Obj(g)) =>
      forall k :: k != PROTO ==> (Has(f, k) <==> Has(g, k)) && (Has(f, k) && Has(g, k) ==> Equiv(Member(a, k), Member(b, k)))
    case _ => a == b
  }

  lemma CanonicalKeysAreSorted(fields: seq<Field>)
    requires Distinct(Keys(fields))
    ensures Sorted(CanonicalKeys(fields)) && Distinct(CanonicalKeys(fields))
  {
    var keys := Keys(fields);
    SortKeysSorts(keys);
    SameMultisetDistinct(keys, SortKeys(keys));
    KeptIsOrdered(SortKeys(keys));
  }

  lemma {:induction false} KeptIsOrdered(keys: seq<string>)
    requires Sorted(keys) && Distinct(keys)
    ensures Sorted(Kept(keys)) && Distinct(Kept(keys))
  {
    if keys != [] {
      var n := |keys| - 1;
      var rest := Kept(keys[..n]);
      KeptIsOrdered(keys[..n]);
      forall i | 0 <= i < |rest| ensures Before(rest[i], keys[n]) && rest[i] != keys[n] {
        assert rest[i] in keys[..n];
        var j :| 0 <= j < n && keys[j] == rest[i];
      }
    }
  }

  /**
   Canonicity: two well-formed values sort to the same value exactly when they are equal up to key order at every
   depth, members named `__proto__` aside.
   */
  lemma {:induction false} SortDeepIsCanonical(a: Json, b: Json)
    requires WellFormed(a) && WellFormed(b)
    ensures SortDeep(a) == SortDeep(b) <==> Equiv(a, b)
    decreases a
  {
    match (a, b)
    case (Arr(xs), Arr(ys)) =>
      forall i | 0 <= i < |xs| && i < |ys| ensures SortDeep(xs[i]) == SortDeep(ys[i]) <==> Equiv(xs[i], ys[i]) {
        SortDeepIsCanonical(xs[i], ys[i]);
      }
      ArraysAgree(a, b);
    case (Obj(f), Obj(g)) =>
      forall k | k != PROTO && Has(f, k) && Has(g, k)
        ensures SortDeep(Member(a, k)) == SortDeep(Member(b, k)) <==> Equiv(Member(a, k), Member(b, k))
      {
        MemberIsWellFormed(a, k);
        MemberIsWellFormed(b, k);
        SortDeepIsCanonical(Member(a, k), Member(b, k));
      }
      assert Equiv(a, b) <==> MembersAgree(a, b);
      if SortDeep(a) == SortDeep(b) { EqualObjectsAgree(a, b); }
      if MembersAgree(a, b) { AgreeingObjectsEqual(a, b); }
    case _ =>
  }

  lemma MemberIsWellFormed(v: Json, key: string)
    requires v.Obj? && Has(v.fields, key) && WellFormed(v)
    ensures WellFormed(Member(v, key))
  {
    var i :| 0 <= i < |v.fields| && v.fields[i] == Field(key, Member(v, key));
  }

  lemma ArraysAgree(a: Json, b: Json)
    requires a.Arr? && b.Arr?
    ensures SortDeep(a) == SortDeep(b) <==>
              |a.items| == |b.items| && forall i :: 0 <= i < |a.items| ==> SortDeep(a.items[i]) == SortDeep(b.items[i])
  {
    var r, t := SortDeep(a).items, SortDeep(b).items;
    assert forall i :: 0 <= i < |r| ==> r[i] == SortDeep(a.items[i]);
    assert forall i :: 0 <= i < |t| ==> t[i] == SortDeep(b.items[i]);
    assert |a.items| == |b.items| && (forall i :: 0 <= i < |r| ==> r[i] == t[i]) ==> r == t;
  }

  /** The objects have the same keys and their members have the same canonical forms. */
  ghost predicate MembersAgree(a: Json, b: Json)
    requires a.Obj? && b.Obj?
  {
    forall k :: k != PROTO ==>
      ((Has(a.fields, k) <==> Has(b.fields, k)) &&
       (Has(a.fields, k) && Has(b.fields, k) ==> SortDeep(Member(a, k)) == SortDeep(Member(b, k))))
  }

  lemma CanonicalField(v: Json, i: nat)
    requires v.Obj? && i < |CanonicalKeys(v.fields)|
    ensures var k := CanonicalKeys(v.fields)[i];
            i < |SortDeep(v).fields| && Has(v.fields, k) && SortDeep(v).fields[i] == Field(k, SortDeep(Member(v, k)))
  {
    assert CanonicalKeys(v.fields)[i] in CanonicalKeys(v.fields);
  }

  lemma EqualObjectsAgree(a: Json, b: Json)
    requires a.Obj? && b.Obj? && SortDeep(a) == SortDeep(b)
    ensures MembersAgree(a, b)
  {
    var ka, kb := CanonicalKeys(a.fields), CanonicalKeys(b.fields);
    forall i | 0 <= i < |ka| ensures ka[i] == kb[i] && SortDeep(Member(a, ka[i])) == SortDeep(Member(b, kb[i])) {
      CanonicalField(a, i);
      CanonicalField(b, i);
    }
    assert ka == kb;
    forall k | k != PROTO && Has(a.fields, k) && Has(b.fields, k) ensures SortDeep(Member(a, k)) == SortDeep(Member(b, k)) {
      assert k in ka;
      var i :| 0 <= i < |ka| && ka[i] == k;
    }
    forall k | k != PROTO ensures Has(a.fields, k) <==> Has(b.fields, k) {
      assert k in ka <==> k in kb;
    }
  }

  lemma AgreeingObjectsEqual(a: Json, b: Json)
    requires a.Obj? && b.Obj? && WellFormed(a) && WellFormed(b) && MembersAgree(a, b)
    ensures SortDeep(a) == SortDeep(b)
  {
    var ka, kb := CanonicalKeys(a.fields), CanonicalKeys(b.fields);
    CanonicalKeysAreSorted(a.fields);
    CanonicalKeysAreSorted(b.fields);
    SortedListIsUnique(ka, kb);
    forall i | 0 <= i < |ka| ensures SortDeep(a).fields[i] == SortDeep(b).fields[i] {
      CanonicalField(a, i);
      CanonicalField(b, i);
    }
    assert SortDeep(a).fields == SortDeep(b).fields;
  }

  lemma {:induction false} SortDeepIsWellFormed(v: Json)
    requires WellFormed(v)
    ensures WellFormed(SortDeep(v))
  {
    match v
    case Arr(items) => forall i | 0 <= i < |items| ensures WellFormed(SortDeep(items[i])) { SortDeepIsWellFormed(items[i]); }
    case Obj(fields) =>
      var keys := CanonicalKeys(fields);
      CanonicalKeysAreSorted(fields);
      assert Keys(SortDeep(v).fields) == keys;
      forall i | 0 <= i < |keys| ensures WellFormed(SortDeep(Member(v, keys[i]))) {
        MemberIsWellFormed(v, keys[i]);
        SortDeepIsWellFormed(Member(v, keys[i]));
      }
    case _ =>
  }

  /** The canonical object has the same keys, and each member's canonical form. */
  lemma CanonicalMember(v: Json, k: string)
    requires v.Obj? && WellFormed(v) && k != PROTO
    ensures Has(SortDeep(v).fields, k) <==> Has(v.fields, k)
    ensures Has(v.fields, k) ==> Member(SortDeep(v), k) == SortDeep(Member(v, k))
  {
    var s, keys := SortDeep(v), CanonicalKeys(v.fields);
    SortDeepIsWellFormed(v);
    HasIsKeyIn(s.fields, k);
    assert Keys(s.fields) == keys;
    if Has(v.fields, k) {
      var i :| 0 <= i < |keys| && keys[i] == k;
      CanonicalField(v, i);
      GetIsTheField(s.fields, i);
    }
  }

  /** Sorting changes nothing but key order, and dropped `__proto__` members. */
  lemma {:induction false} SortDeepIsEquivalent(v: Json)
    requires WellFormed(v)
    ensures Equiv(SortDeep(v), v)
    decreases v
  {
    match v
    case Arr(items) => forall i | 0 <= i < |items| ensures Equiv(SortDeep(items[i]), items[i]) { SortDeepIsEquivalent(items[i]); }
    case Obj(fields) =>
      forall k | k != PROTO
        ensures Has(SortDeep(v).fields, k) <==> Has(fields, k)
        ensures Has(fields, k) ==> Equiv(Member(SortDeep(v), k), Member(v, k))
      {
        CanonicalMember(v, k);
        if Has(fields, k) {
          MemberIsWellFormed(v, k);
          SortDeepIsEquivalent(Member(v, k));
        }
      }
    case _ =>
  }

  /** The canonical form is a fixed point. */
  lemma SortDeepIsIdempotent(v: Json)
    requires WellFormed(v)
    ensures SortDeep(SortDeep(v)) == SortDeep(v)
  {
    SortDeepIsWellFormed(v);
    SortDeepIsEquivalent(v);
    SortDeepIsCanonical(SortDeep(v), v);
  }

  // ---------- the one key that is not kept ----------

  /** Equal up to the order of object keys at every depth. */
  ghost predicate KeyOrderEqual(a: Json, b: Json)
    decreases a
  {
    match (a, b)
    case (Arr(xs), Arr(ys)) => |xs| == |ys| && forall i :: 0 <= i < |xs| ==> KeyOrderEqual(xs[i], ys[i])
    case (Obj(f), Obj(g)) =>
      forall k :: (Has(f, k) <==> Has(g, k)) && (Has(f, k) && Has(g, k) ==> KeyOrderEqual(Member(a, k), Member(b, k)))
    case _ => a == b
  }

  predicate ProtoFree(v: Json) {
    match v
    case Arr(items) => forall i :: 0 <= i < |items| ==> ProtoFree(items[i])
    case Obj(fields) => forall i :: 0 <= i < |fields| ==> fields[i].key != PROTO && ProtoFree(fields[i].value)
    case _ => true
  }

  lemma {:induction false} ProtoFreeMeansKeyOrder(a: Json, b: Json)
    requires ProtoFree(a) && ProtoFree(b)
    ensures Equiv(a, b) <==> KeyOrderEqual(a, b)
    decreases a
  {
    match (a, b)
    case (Arr(xs), Arr(ys)) =>
      forall i | 0 <= i < |xs| && i < |ys| ensures Equiv(xs[i], ys[i]) <==> KeyOrderEqual(xs[i], ys[i]) {
        ProtoFreeMeansKeyOrder(xs[i], ys[i]);
      }
    case (Obj(f), Obj(g)) =>
      forall k | Has(f, k) && Has(g, k) ensures k != PROTO && (Equiv(Member(a, k), Member(b, k)) <==> KeyOrderEqual(Member(a, k), Member(b, k))) {
        var i :| 0 <= i < |f| && f[i] == Field(k, Member(a, k));
        var j :| 0 <= j < |g| && g[j] == Field(k, Member(b, k));
        ProtoFreeMeansKeyOrder(Member(a, k), Member(b, k));
      }
    case _ =>
  }

  /** The promise of the source: equal after sorting exactly when equal up to key order. It holds without `__proto__`. */
  lemma SortDeepComparesUpToKeyOrder(a: Json, b: Json)
    requires WellFormed(a) && WellFormed(b) && ProtoFree(a) && ProtoFree(b)
    ensures SortDeep(a) == SortDeep(b) <==> KeyOrderEqual(a, b)
  {
    SortDeepIsCanonical(a, b);
    ProtoFreeMeansKeyOrder(a, b);
  }

  lemma {:induction false} SortDeepIsProtoFree(v: Json)
    ensures ProtoFree(SortDeep(v))
    decreases v
  {
    match v
    case Arr(items) => forall i | 0 <= i < |items| ensures ProtoFree(SortDeep(items[i])) { SortDeepIsProtoFree(items[i]); }
    case Obj(fields) =>
      var keys := CanonicalKeys(fields);
      forall i | 0 <= i < |keys| ensures keys[i] != PROTO && ProtoFree(SortDeep(Member(v, keys[i]))) {
        assert keys[i] in keys;
        SortDeepIsProtoFree(Member(v, keys[i]));
      }
    case _ =>
  }

  lemma {:induction false} KeyOrderKeepsProtoFree(a: Json, b: Json)
    requires KeyOrderEqual(a, b) && ProtoFree(a) && WellFormed(b)
    ensures ProtoFree(b)
    decreases b
  {
    match (a, b)
    case (Arr(xs), Arr(ys)) =>
      forall i | 0 <= i < |ys| ensures ProtoFree(ys[i]) { KeyOrderKeepsProtoFree(xs[i], ys[i]); }
    case (Obj(f), Obj(g)) =>
      forall i | 0 <= i < |g| ensures g[i].key != PROTO && ProtoFree(g[i].value) {
        var k := g[i].key;
        GetIsTheField(g, i);
        assert Has(f, k);
        var j :| 0 <= j < |f| && f[j] == Field(k, Member(a, k));
        KeyOrderKeepsProtoFree(Member(a, k), Member(b, k));
      }
    case _ =>
  }

  /** Sorting loses nothing but key order exactly when no object, at any depth, has such a member. */
  lemma NothingIsLostExactly(v: Json)
    requires WellFormed(v)
    ensures KeyOrderEqual(SortDeep(v), v) <==> ProtoFree(v)
  {
    SortDeepIsProtoFree(v);
    if ProtoFree(v) {
      SortDeepIsEquivalent(v);
      ProtoFreeMeansKeyOrder(SortDeep(v), v);
    } else if KeyOrderEqual(SortDeep(v), v) {
      KeyOrderKeepsProtoFree(SortDeep(v), v);
    }
  }

  /** Adding a `__proto__` member to any object that has none gives a different object with the same canonical form. */
  lemma ProtoMemberIsLost(fields: seq<Field>, v: Json)
    requires WellFormed(Obj(fields)) && WellFormed(v) && !Has(fields, PROTO)
    ensures var a, b := Obj(fields), Obj(fields + [Field(PROTO, v)]);
            WellFormed(b) && !KeyOrderEqual(a, b) && SortDeep(a) == SortDeep(b)
  {
    var a, b := Obj(fields), Obj(fields + [Field(PROTO, v)]);
    assert Keys(b.fields) == Keys(fields) + [PROTO];
    HasIsKeyIn(fields, PROTO);
    assert b.fields[|fields|].key == PROTO;
    forall k | k != PROTO
      ensures Has(b.fields, k) <==> Has(fields, k)
      ensures Has(fields, k) && Has(b.fields, k) ==> SortDeep(Member(a, k)) == SortDeep(Member(b, k))
    {
      if Has(fields, k) {
        var i :| 0 <= i < |fields| && fields[i].key == k;
        assert b.fields[i].key == k;
        GetIsTheField(fields, i);
        GetIsTheField(b.fields, i);
      }
    }
    AgreeingObjectsEqual(a, b);
  }

  // ---------- the source's recursion ----------

  /** `sortJsonDeep`: map over an array; fill a new object key by key in sorted order. */
  method SortJsonDeep(v: Json) returns (r: Json)
    requires WellFormed(v)
    ensures r == SortDeep(v)
    decreases v
  {
    match v
    case Arr(items) =>
      var mapped: seq<Json> := [];
      for i := 0 to |items|
        invariant |mapped| == i && forall j :: 0 <= j < i ==> mapped[j] == SortDeep(items[j])
      {
        var item := SortJsonDeep(items[i]);
        mapped := mapped + [item];
      }
      r := Arr(mapped);
    case Obj(fields) =>
      r := SortObject(v);
    case _ =>
      r := v;
  }

  method SortObject(v: Json) returns (r: Json)
    requires v.Obj? && WellFormed(v)
    ensures r == SortDeep(v)
    decreases v, 0
  {
    var sortedKeys := SortKeys(Keys(v.fields));
    SortedKeysAreTheKeys(v.fields);
    var out: seq<Field> := [];
    for i := 0 to |sortedKeys|
      invariant Filled(v, out, sortedKeys[..i])
    {
      var key := sortedKeys[i];
      assert key !in sortedKeys[..i];
      var value := SortJsonDeep(Member(v, key));
      PutFills(v, out, sortedKeys[..i], key);
      assert sortedKeys[..i + 1] == sortedKeys[..i] + [key];
      out := Put(out, key, value);
    }
    assert sortedKeys[..|sortedKeys|] == sortedKeys;
    FilledIsCanonical(v, out);
    r := Obj(out);
  }

  lemma SortedKeysAreTheKeys(fields: seq<Field>)
    requires Distinct(Keys(fields))
    ensures Distinct(SortKeys(Keys(fields)))
    ensures forall i :: 0 <= i < |SortKeys(Keys(fields))| ==> Has(fields, SortKeys(Keys(fields))[i])
  {
    var sortedKeys := SortKeys(Keys(fields));
    SortedMembers(Keys(fields));
    SameMultisetDistinct(Keys(fields), sortedKeys);
    forall i | 0 <= i < |sortedKeys| ensures Has(fields, sortedKeys[i]) {
      assert sortedKeys[i] in sortedKeys;
      HasIsKeyIn(fields, sortedKeys[i]);
    }
  }

  /** The new object holds the canonical members of the keys done so far. */
  ghost predicate Filled(v: Json, out: seq<Field>, keys: seq<string>)
    requires v.Obj?
  {
    Keys(out) == Kept(keys) &&
    forall j :: 0 <= j < |out| ==> Has(v.fields, out[j].key) && out[j].value == SortDeep(Member(v, out[j].key))
  }

  lemma PutFills(v: Json, out: seq<Field>, keys: seq<string>, key: string)
    requires v.Obj? && Filled(v, out, keys) && key !in keys && Has(v.fields, key)
    ensures Filled(v, Put(out, key, SortDeep(Member(v, key))), keys + [key])
  {
    KeptAppend(keys, key);
    if key != PROTO {
      HasIsKeyIn(out, key);
      PutAppends(out, key, SortDeep(Member(v, key)));
      AppendFills(v, out, Kept(keys), key);
    }
  }

  lemma KeptAppend(keys: seq<string>, key: string)
    ensures Kept(keys + [key]) == if key == PROTO then Kept(keys) else Kept(keys) + [key]
  {
    assert (keys + [key])[..|keys|] == keys;
  }

  lemma AppendFills(v: Json, out: seq<Field>, kept: seq<string>, key: string)
    requires v.Obj? && Has(v.fields, key) && Keys(out) == kept
    requires forall j :: 0 <= j < |out| ==> Has(v.fields, out[j].key) && out[j].value == SortDeep(Member(v, out[j].key))
    ensures var r := out + [Field(key, SortDeep(Member(v, key)))];
            Keys(r) == kept + [key] &&
            forall j :: 0 <= j < |r| ==> Has(v.fields, r[j].key) && r[j].value == SortDeep(Member(v, r[j].key))
  {
  }

  lemma FilledIsCanonical(v: Json, out: seq<Field>)
    requires v.Obj? && Filled(v, out, SortKeys(Keys(v.fields)))
    ensures Obj(out) == SortDeep(v)
  {
    assert Keys(out) == CanonicalKeys(v.fields);
    forall j | 0 <= j < |out| ensures out[j] == SortDeep(v).fields[j] {
      CanonicalField(v, j);
    }
    assert out == SortDeep(v).fields;
  }

  lemma HasIsKeyIn(fields: seq<Field>, key: string)
    ensures Has(fields, key) <==> key in Keys(fields)
  {
    if Has(fields, key) { var i :| 0 <= i < |fields| && fields[i].key == key; assert Keys(fields)[i] == key; }
    if key in Keys(fields) { var i :| 0 <= i < |fields| && Keys(fields)[i] == key; assert fields[i].key == key; }
  }
}
