/** The idempotency key of a webhook delivery (core/webhooks/buildWebhookDedupeKey.ts). */
module WebhookKey {
  import opened Json
  import opened StableJson
  import opened Text

  /** A trimmed text member of a nested object. */
  function NestedText(data: seq<Field>, outer: string, key: string): string {
    if Has(data, outer) && Get(data, outer).Obj? then TrimmedText(Get(data, outer).fields, key) else ""
  }

  function FirstNonEmpty(texts: seq<string>): string {
    if texts == [] then "" else if texts[0] != "" then texts[0] else FirstNonEmpty(texts[1..])
  }

  function ClientReference(data: seq<Field>): string {
    FirstNonEmpty([TrimmedText(data, "client_reference"), NestedText(data, "withdrawal", "client_reference"),
                   NestedText(data, "account", "client_reference"), TrimmedText(data, "txnRef")])
  }

  /** A text `id`, even a blank one, hides `_id`. */
  function TopId(data: seq<Field>): string {
    if Has(data, "id") && Get(data, "id").Str? then TrimmedText(data, "id") else TrimmedText(data, "_id")
  }

  function EntityId(data: seq<Field>): string {
    FirstNonEmpty([TopId(data), NestedText(data, "deposit", "id"), NestedText(data, "withdrawal", "id"), NestedText(data, "account", "id")])
  }

  // ---------- where the reference and the id come from ----------

  /** The member at the end of the path is a text that is not blank; `text` is that text, trimmed. */
  predicate Reads(data: seq<Field>, path: seq<string>, text: string)
    decreases |path|
  {
    path != [] && text != "" && Has(data, path[0]) &&
    if |path| == 1 then Get(data, path[0]).Str? && Trim(Get(data, path[0]).text) == text
    else Get(data, path[0]).Obj? && Reads(Get(data, path[0]).fields, path[1..], text)
  }

  /** `text` is read on the first of the paths on which one is read; it is blank if there is none. */
  ghost predicate FirstRead(data: seq<Field>, paths: seq<seq<string>>, text: string) {
    if text == "" then forall i, t :: 0 <= i < |paths| ==> !Reads(data, paths[i], t)
    else exists i :: 0 <= i < |paths| && Reads(data, paths[i], text) && forall j, t :: 0 <= j < i ==> !Reads(data, paths[j], t)
  }

  const REFERENCE_PATHS := [["client_reference"], ["withdrawal", "client_reference"], ["account", "client_reference"], ["txnRef"]]

  const NESTED_ID_PATHS := [["deposit", "id"], ["withdrawal", "id"], ["account", "id"]]

  /** The text is what the path reads. */
  ghost predicate IsRead(data: seq<Field>, path: seq<string>, text: string) {
    forall t :: Reads(data, path, t) <==> t != "" && text == t
  }

  ghost predicate AreRead(data: seq<Field>, paths: seq<seq<string>>, texts: seq<string>) {
    |texts| == |paths| && forall i :: 0 <= i < |paths| ==> IsRead(data, paths[i], texts[i])
  }

  lemma {:induction false} FirstNonEmptyIsRead(data: seq<Field>, paths: seq<seq<string>>, texts: seq<string>)
    requires AreRead(data, paths, texts)
    ensures FirstRead(data, paths, FirstNonEmpty(texts))
    decreases |texts|
  {
    if texts != [] {
      var text := FirstNonEmpty(texts);
      assert IsRead(data, paths[0], texts[0]);
      if texts[0] != "" {
        assert Reads(data, paths[0], text);
      } else {
        FirstNonEmptyIsRead(data, paths[1..], texts[1..]);
        if text != "" {
          var i :| 0 <= i < |paths[1..]| && Reads(data, paths[1..][i], text) && forall j, t :: 0 <= j < i ==> !Reads(data, paths[1..][j], t);
          hide Reads;
          forall j, t | 0 <= j < i + 1 ensures !Reads(data, paths[j], t) {
            if j > 0 { assert paths[j] == paths[1..][j - 1]; }
          }
          assert Reads(data, paths[i + 1], text);
        } else {
          hide Reads;
          forall i, t | 0 <= i < |paths| ensures !Reads(data, paths[i], t) {
            if i > 0 { assert paths[i] == paths[1..][i - 1]; }
          }
        }
      }
    }
  }

  lemma TopReads(data: seq<Field>, key: string)
    ensures IsRead(data, [key], TrimmedText(data, key))
  {
  }

  lemma NestedReads(data: seq<Field>, outer: string, key: string)
    ensures IsRead(data, [outer, key], NestedText(data, outer, key))
  {
    assert [outer, key][1..] == [key];
    if Has(data, outer) && Get(data, outer).Obj? { TopReads(Get(data, outer).fields, key); }
  }

  /** The reference is read at the top, in the withdrawal, in the account or as the older `txnRef`, in this order. */
  lemma ReferenceExactly(data: seq<Field>)
    ensures FirstRead(data, REFERENCE_PATHS, ClientReference(data))
  {
    TopReads(data, "client_reference");
    NestedReads(data, "withdrawal", "client_reference");
    NestedReads(data, "account", "client_reference");
    TopReads(data, "txnRef");
    hide IsRead, TrimmedText, NestedText, FirstRead;
    FirstNonEmptyIsRead(data, REFERENCE_PATHS,
      [TrimmedText(data, "client_reference"), NestedText(data, "withdrawal", "client_reference"),
       NestedText(data, "account", "client_reference"), TrimmedText(data, "txnRef")]);
  }

  /** The id is read at the top, where a text `id`, even a blank one, hides `_id`, and else in the nested objects, in this order. */
  lemma EntityIdExactly(data: seq<Field>)
    ensures FirstRead(data, [[if Has(data, "id") && Get(data, "id").Str? then "id" else "_id"]] + NESTED_ID_PATHS, EntityId(data))
  {
    var top := if Has(data, "id") && Get(data, "id").Str? then "id" else "_id";
    TopReads(data, top);
    NestedReads(data, "deposit", "id");
    NestedReads(data, "withdrawal", "id");
    NestedReads(data, "account", "id");
    hide IsRead, TrimmedText, NestedText, FirstRead;
    FirstNonEmptyIsRead(data, [[top]] + NESTED_ID_PATHS,
      [TopId(data), NestedText(data, "deposit", "id"), NestedText(data, "withdrawal", "id"), NestedText(data, "account", "id")]);
  }

  /** `hash` stands for the digest of the canonical form's text. */
  function DedupeKey(eventType: string, data: seq<Field>, hash: Json -> string): string {
    var txnRef, provId := ClientReference(data), EntityId(data);
    if txnRef != "" && provId != "" then "palremit:" + eventType + ":" + txnRef + ":" + provId
    else if txnRef != "" then "palremit:" + eventType + ":" + txnRef + ":" + hash(SortDeep(Obj(data)))
    else "palremit:" + eventType + ":notxn:" + hash(SortDeep(Obj(data)))
  }

  lemma SameText(a: seq<Field>, b: seq<Field>, key: string)
    requires key != PROTO && Equiv(Obj(a), Obj(b))
    ensures TrimmedText(a, key) == TrimmedText(b, key)
    ensures (Has(a, key) && Get(a, key).Str?) <==> (Has(b, key) && Get(b, key).Str?)
  {
    var oa, ob := Obj(a), Obj(b);
    assert Has(a, key) ==> Equiv(Member(oa, key), Member(ob, key));
  }

  lemma SameNestedText(a: seq<Field>, b: seq<Field>, outer: string, key: string)
    requires outer != PROTO && key != PROTO && Equiv(Obj(a), Obj(b))
    ensures NestedText(a, outer, key) == NestedText(b, outer, key)
  {
    var oa, ob := Obj(a), Obj(b);
    if Has(a, outer) {
      assert Equiv(Member(oa, outer), Member(ob, outer));
      if Get(a, outer).Obj? {
        SameText(Get(a, outer).fields, Get(b, outer).fields, key);
      }
    }
  }

  lemma SameReferences(a: seq<Field>, b: seq<Field>)
    requires Equiv(Obj(a), Obj(b))
    ensures ClientReference(a) == ClientReference(b) && EntityId(a) == EntityId(b)
  {
    SameText(a, b, "client_reference");
    SameNestedText(a, b, "withdrawal", "client_reference");
    SameNestedText(a, b, "account", "client_reference");
    SameText(a, b, "txnRef");
    SameText(a, b, "id");
    SameText(a, b, "_id");
    SameNestedText(a, b, "deposit", "id");
    SameNestedText(a, b, "withdrawal", "id");
    SameNestedText(a, b, "account", "id");
  }

  /** A redelivery that differs only in key order, at any depth, has the same key. */
  lemma RedeliveryKeepsItsKey(eventType: string, a: seq<Field>, b: seq<Field>, hash: Json -> string)
    requires WellFormed(Obj(a)) && WellFormed(Obj(b)) && Equiv(Obj(a), Obj(b))
    ensures DedupeKey(eventType, a, hash) == DedupeKey(eventType, b, hash)
  {
    SameReferences(a, b);
    SortDeepIsCanonical(Obj(a), Obj(b));
  }

  lemma SamePrefix(p: string, x: string, y: string)
    requires p + x == p + y
    ensures x == y
  {
    assert (p + x)[|p|..] == x && (p + y)[|p|..] == y;
  }

  // ---------- which deliveries share a key ----------

  /** The two parts of a key after the event type. */
  function Reference(data: seq<Field>): string {
    if ClientReference(data) == "" then "notxn" else ClientReference(data)
  }

  function Suffix(data: seq<Field>, hash: Json -> string): string {
    if ClientReference(data) != "" && EntityId(data) != "" then EntityId(data) else hash(SortDeep(Obj(data)))
  }

  lemma KeyParts(eventType: string, data: seq<Field>, hash: Json -> string)
    ensures DedupeKey(eventType, data, hash) == "palremit:" + eventType + ":" + (Reference(data) + ":" + Suffix(data, hash))
  {
    var p := "palremit:" + eventType + ":";
    var r, x := Reference(data), Suffix(data, hash);
    assert p + (r + ":" + x) == p + r + ":" + x;
    if ClientReference(data) == "" {
      assert "notxn:" == "notxn" + ":";
      assert p + "notxn:" + x == p + ("notxn" + ":" + x);
      assert "palremit:" + eventType + ":notxn:" + x == p + "notxn:" + x by {
        assert ":notxn:" == ":" + "notxn:";
      }
    }
  }

  /** `x` is `u`, a colon and something more. */
  predicate Extends(x: string, u: string) {
    |x| > |u| && x[..|u|] == u && x[|u|] == ':'
  }

  /** What follows the colon. */
  function More(x: string, u: string): string
    requires Extends(x, u)
  {
    x[|u| + 1..]
  }

  lemma ExtensionParts(x: string, u: string)
    requires Extends(x, u)
    ensures x == u + ":" + More(x, u)
  {
  }

  /** Two texts joined by a colon are equal exactly when their parts are, or when a colon inside one part makes up for it. */
  lemma JoinedExactly(x: string, y: string, u: string, v: string)
    ensures x + ":" + y == u + ":" + v <==>
              (x == u && y == v) || (Extends(x, u) && v == More(x, u) + ":" + y) || (Extends(u, x) && y == More(u, x) + ":" + v)
  {
    if Extends(x, u) && v == More(x, u) + ":" + y {
      ExtensionParts(x, u);
      assert u + ":" + (More(x, u) + ":" + y) == (u + ":" + More(x, u)) + ":" + y;
    }
    if Extends(u, x) && y == More(u, x) + ":" + v {
      ExtensionParts(u, x);
      assert x + ":" + (More(u, x) + ":" + v) == (x + ":" + More(u, x)) + ":" + v;
    }
    if x + ":" + y == u + ":" + v {
      if |x| == |u| {
        SameLengthParts(x, y, u, v);
      } else if |x| > |u| {
        LongerExtends(x, y, u, v);
      } else {
        LongerExtends(u, v, x, y);
      }
    }
  }

  lemma SameLengthParts(x: string, y: string, u: string, v: string)
    requires x + ":" + y == u + ":" + v && |x| == |u|
    ensures x == u && y == v
  {
    var s := x + ":" + y;
    assert s[..|x|] == x && s[..|x|] == u && s[|x| + 1..] == y && s[|x| + 1..] == v;
  }

  lemma LongerExtends(x: string, y: string, u: string, v: string)
    requires x + ":" + y == u + ":" + v && |x| > |u|
    ensures Extends(x, u) && v == More(x, u) + ":" + y
  {
    var s := x + ":" + y;
    assert s[..|u|] == x[..|u|] && s[..|u|] == u && s[|u|] == x[|u|] && s[|u|] == ':';
    assert s[|u| + 1..] == v && s[|u| + 1..] == More(x, u) + ":" + y;
  }

  /** Exactly which deliveries of one event type share a key, whatever their references, ids and bodies are. */
  lemma KeysMatchExactly(eventType: string, a: seq<Field>, b: seq<Field>, hash: Json -> string)
    ensures DedupeKey(eventType, a, hash) == DedupeKey(eventType, b, hash) <==>
              var x, y, u, v := Reference(a), Suffix(a, hash), Reference(b), Suffix(b, hash);
              (x == u && y == v) || (Extends(x, u) && v == More(x, u) + ":" + y) || (Extends(u, x) && y == More(u, x) + ":" + v)
  {
    KeyParts(eventType, a, hash);
    KeyParts(eventType, b, hash);
    if DedupeKey(eventType, a, hash) == DedupeKey(eventType, b, hash) {
      SamePrefix("palremit:" + eventType + ":", Reference(a) + ":" + Suffix(a, hash), Reference(b) + ":" + Suffix(b, hash));
    }
    JoinedExactly(Reference(a), Suffix(a, hash), Reference(b), Suffix(b, hash));
  }

  /**
   Two deliveries with references, neither of which extends the other by a colon, are one exactly when the references
   agree and so do the ids, or the digests that stand in for missing ids.
   */
  lemma ReferencedDeliveriesMatchExactly(eventType: string, a: seq<Field>, b: seq<Field>, hash: Json -> string)
    requires ClientReference(a) != "" && ClientReference(b) != ""
    requires !Extends(ClientReference(a), ClientReference(b)) && !Extends(ClientReference(b), ClientReference(a))
    ensures DedupeKey(eventType, a, hash) == DedupeKey(eventType, b, hash) <==>
              ClientReference(a) == ClientReference(b) && Suffix(a, hash) == Suffix(b, hash)
  {
    KeysMatchExactly(eventType, a, b, hash);
  }

  /** A delivery with a reference and an id, nothing else. */
  function Delivery(reference: string, id: string): seq<Field> {
    [Field("client_reference", Str(reference)), Field("id", Str(id))]
  }

  lemma DeliveryReads(reference: string, id: string)
    requires Clean(reference) && Clean(id) && reference != "" && id != ""
    ensures ClientReference(Delivery(reference, id)) == reference && EntityId(Delivery(reference, id)) == id
  {
    var d := Delivery(reference, id);
    TrimFixesClean(reference);
    TrimFixesClean(id);
    assert d[0] == Field("client_reference", Str(reference)) && d[1] == Field("id", Str(id));
    assert Get(d, "client_reference") == Str(reference);
    assert Distinct(Keys(d));
    GetIsTheField(d, 1);
    assert ClientReference(d) == FirstNonEmpty([TrimmedText(d, "client_reference"), NestedText(d, "withdrawal", "client_reference"),
                                                NestedText(d, "account", "client_reference"), TrimmedText(d, "txnRef")]);
  }

  /** A colon at which a reference can be cut: not in front, and with no blank beside it. */
  predicate CutsAt(r: string, k: nat) {
    0 < k < |r| && r[k] == ':' && !IsSpace(r[k - 1]) && (k + 1 < |r| ==> !IsSpace(r[k + 1]))
  }

  /** Another delivery with the same key, a shorter reference and an id. */
  predicate Collides(eventType: string, b: seq<Field>, r: string, y: string, hash: Json -> string) {
    ClientReference(b) != "" && EntityId(b) != "" && |ClientReference(b)| < |r| &&
    DedupeKey(eventType, b, hash) == DedupeKey(eventType, Delivery(r, y), hash)
  }

  lemma CleanFirst(texts: seq<string>)
    requires forall i :: 0 <= i < |texts| ==> Clean(texts[i])
    ensures Clean(FirstNonEmpty(texts))
  {
  }

  lemma PartsAreClean(data: seq<Field>)
    ensures Clean(ClientReference(data)) && Clean(EntityId(data))
  {
    CleanFirst([TrimmedText(data, "client_reference"), NestedText(data, "withdrawal", "client_reference"),
                NestedText(data, "account", "client_reference"), TrimmedText(data, "txnRef")]);
    CleanFirst([TopId(data), NestedText(data, "deposit", "id"), NestedText(data, "withdrawal", "id"), NestedText(data, "account", "id")]);
  }

  lemma CollidesAt(eventType: string, r: string, y: string, k: nat, hash: Json -> string)
    requires Clean(r) && Clean(y) && y != "" && CutsAt(r, k)
    ensures Collides(eventType, Delivery(r[..k], r[k + 1..] + ":" + y), r, y, hash)
  {
    var x, m := r[..k], r[k + 1..];
    var id := m + ":" + y;
    assert id[|id| - 1] == y[|y| - 1] && id[0] == (if m == "" then ':' else r[k + 1]);
    DeliveryReads(r, y);
    DeliveryReads(x, id);
    assert Extends(r, x) && More(r, x) == m;
    KeysMatchExactly(eventType, Delivery(r, y), Delivery(x, id), hash);
  }

  lemma CollisionCuts(eventType: string, b: seq<Field>, r: string, y: string, hash: Json -> string)
    requires Clean(r) && Clean(y) && r != "" && y != "" && Collides(eventType, b, r, y, hash)
    ensures CutsAt(r, |ClientReference(b)|)
  {
    var u, v := ClientReference(b), EntityId(b);
    DeliveryReads(r, y);
    PartsAreClean(b);
    KeysMatchExactly(eventType, Delivery(r, y), b, hash);
    assert Extends(r, u) && v == More(r, u) + ":" + y;
    assert r[|u| - 1] == u[|u| - 1];
    if |u| + 1 < |r| { assert v[0] == r[|u| + 1]; }
  }

  /**
   A delivery with a reference and an id has another one with a shorter reference under the same key, and the second of
   the two is dropped as a repetition, if and only if its reference can be cut at a colon.
   */
  lemma ColonsCollideExactly(eventType: string, r: string, y: string, hash: Json -> string)
    requires Clean(r) && Clean(y) && r != "" && y != ""
    ensures (exists b :: Collides(eventType, b, r, y, hash)) <==> (exists k :: CutsAt(r, k))
  {
    if k :| CutsAt(r, k) {
      CollidesAt(eventType, r, y, k, hash);
    }
    if b :| Collides(eventType, b, r, y, hash) {
      CollisionCuts(eventType, b, r, y, hash);
    }
  }

  /** Without a reference, exactly when the bodies are equal up to key order, for a digest that tells these two apart. */
  lemma UnreferencedDeliveriesMatchExactly(eventType: string, a: seq<Field>, b: seq<Field>, hash: Json -> string)
    requires WellFormed(Obj(a)) && WellFormed(Obj(b)) && ClientReference(a) == "" && ClientReference(b) == ""
    requires hash(SortDeep(Obj(a))) == hash(SortDeep(Obj(b))) ==> SortDeep(Obj(a)) == SortDeep(Obj(b))
    ensures DedupeKey(eventType, a, hash) == DedupeKey(eventType, b, hash) <==> Equiv(Obj(a), Obj(b))
  {
    SortDeepIsCanonical(Obj(a), Obj(b));
    if DedupeKey(eventType, a, hash) == DedupeKey(eventType, b, hash) {
      SamePrefix("palremit:" + eventType + ":notxn:", hash(SortDeep(Obj(a))), hash(SortDeep(Obj(b))));
    }
  }
}
