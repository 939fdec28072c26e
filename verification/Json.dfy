/** JSON values as the source sees them after `JSON.parse`: an object lists its members in insertion order. */
module Json {
  import opened Wrappers
  import Text

  datatype Json =
    | Null
    | Bool(flag: bool)
    | Num(number: real)
    | Str(text: string)
    | Arr(items: seq<Json>)
    | Obj(fields: seq<Field>)

  datatype Field = Field(key: string, value: Json)

  function Keys(fields: seq<Field>): (keys: seq<string>)
    ensures |keys| == |fields| && forall i :: 0 <= i < |fields| ==> keys[i] == fields[i].key
  {
    seq(|fields|, i requires 0 <= i < |fields| => fields[i].key)
  }

  predicate Distinct(keys: seq<string>) {
    forall i, j :: 0 <= i < j < |keys| ==> keys[i] != keys[j]
  }

  /** No object repeats a key: a parser keeps one member per key. */
  predicate WellFormed(v: Json) {
    match v
    case Arr(items) => forall i :: 0 <= i < |items| ==> WellFormed(items[i])
    case Obj(fields) =>
      Distinct(Keys(fields)) && forall i :: 0 <= i < |fields| ==> WellFormed(fields[i].value)
    case _ => true
  }

  /** The value at the end of a path of places in arrays and objects. */
  function At(v: Json, path: seq<nat>): Option<Json>
    decreases |path|
  {
    if path == [] then Some(v)
    else
      match v
      case Arr(items) => if path[0] < |items| then At(items[path[0]], path[1..]) else None
      case Obj(fields) => if path[0] < |fields| then At(fields[path[0]].value, path[1..]) else None
      case _ => None
  }

  ghost predicate RepeatsNoKey(v: Json) {
    forall path :: At(v, path).Some? && At(v, path).value.Obj? ==> Distinct(Keys(At(v, path).value.fields))
  }

  lemma InsideRepeatsNoKey(v: Json, i: nat, child: Json)
    requires RepeatsNoKey(v)
    requires (v.Arr? && i < |v.items| && v.items[i] == child) || (v.Obj? && i < |v.fields| && v.fields[i].value == child)
    ensures RepeatsNoKey(child)
  {
    forall path | At(child, path).Some? && At(child, path).value.Obj? ensures Distinct(Keys(At(child, path).value.fields)) {
      assert ([i] + path)[1..] == path;
      assert At(v, [i] + path) == At(child, path);
    }
  }

  lemma {:induction false} WellFormedAt(v: Json, path: seq<nat>)
    requires WellFormed(v) && At(v, path).Some?
    ensures WellFormed(At(v, path).value)
    decreases |path|
  {
    if path != [] {
      if v.Arr? { WellFormedAt(v.items[path[0]], path[1..]); } else { WellFormedAt(v.fields[path[0]].value, path[1..]); }
    }
  }

  /** Well-formed exactly when no object at the end of any path repeats a key. */
  lemma {:induction false} WellFormedExactly(v: Json)
    ensures WellFormed(v) <==> RepeatsNoKey(v)
    decreases v
  {
    if WellFormed(v) {
      forall path | At(v, path).Some? && At(v, path).value.Obj? ensures Distinct(Keys(At(v, path).value.fields)) {
        WellFormedAt(v, path);
      }
    } else if RepeatsNoKey(v) {
      match v
      case Arr(items) =>
        forall i | 0 <= i < |items| ensures WellFormed(items[i]) {
          InsideRepeatsNoKey(v, i, items[i]);
          WellFormedExactly(items[i]);
        }
      case Obj(fields) =>
        assert At(v, []) == Some(v);
        forall i | 0 <= i < |fields| ensures WellFormed(fields[i].value) {
          InsideRepeatsNoKey(v, i, fields[i].value);
          WellFormedExactly(fields[i].value);
        }
      case _ =>
    }
  }

  predicate Has(fields: seq<Field>, key: string) {
    exists i :: 0 <= i < |fields| && fields[i].key == key
  }

  /** `obj[key]`. */
  function Get(fields: seq<Field>, key: string): (v: Json)
    requires Has(fields, key)
    ensures exists i :: 0 <= i < |fields| && fields[i] == Field(key, v)
  {
    if fields[0].key == key then
      assert fields[0] == Field(key, fields[0].value);
      fields[0].value
    else
      var i :| 0 <= i < |fields| && fields[i].key == key;
      assert fields[1..][i - 1].key == key;
      var v := Get(fields[1..], key);
      var j :| 0 <= j < |fields[1..]| && fields[1..][j] == Field(key, v);
      assert fields[j + 1] == Field(key, v);
      v
  }

  lemma GetIsTheField(fields: seq<Field>, i: nat)
    requires i < |fields| && Distinct(Keys(fields))
    ensures Has(fields, fields[i].key) && Get(fields, fields[i].key) == fields[i].value
  {
    var key := fields[i].key;
    var v := Get(fields, key);
    var j :| 0 <= j < |fields| && fields[j] == Field(key, v);
    DistinctIndex(Keys(fields), i, j);
  }

  lemma DistinctIndex(keys: seq<string>, i: nat, j: nat)
    requires Distinct(keys) && i < |keys| && j < |keys| && keys[i] == keys[j]
    ensures i == j
  {
  }

  /** `typeof o[key] === 'string' ? o[key].trim() : ''`. */
  function TrimmedText(fields: seq<Field>, key: string): string {
    if Has(fields, key) && Get(fields, key).Str? then Text.Trim(Get(fields, key).text) else ""
  }
}
