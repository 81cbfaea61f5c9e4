/** JSON values as `JSON.parse` produces them. An object is its list of
    own properties in JavaScript property order: each key once, array-index
    keys first in ascending order, then the other keys in the order the JSON
    text first gives them. Property access on a missing key, or on a value
    that is not an object, is `undefined` (None). */
module Json {
  import opened Wrappers
  import opened Strings

  datatype Json =
    | JNull
    | JBool(b: bool)
    | JNum(n: real)
    | JStr(s: string)
    | JArr(items: seq<Json>)
    | JObj(fields: seq<(string, Json)>)

  /** A JavaScript number as `Number(...)`, `parseFloat(...)` and arithmetic
      produce it. */
  datatype Num = NaN | PosInf | NegInf | Finite(r: real)

  /** `Number.isFinite` */
  predicate IsFinite(n: Num) {
    n.Finite?
  }

  /** JavaScript truthiness of a number: NaN and zero are falsy. */
  predicate NumTruthy(n: Num) {
    !(n.NaN? || n == Finite(0.0))
  }

  /** `{}` */
  const Empty: Json := JObj([])

  /** The value bound to `k`: the first binding of that key (the only one in
      an object `JSON.parse` made, as `LookupUnique` shows). */
  function Lookup(fields: seq<(string, Json)>, k: string): (r: Option<Json>)
    ensures r.Some? <==> k in Keys(fields)
    ensures r.Some? ==> (k, r.value) in fields
  {
    if fields == [] then None
    else if fields[0].0 == k then Some(fields[0].1)
    else Lookup(fields[1..], k)
  }

  function Keys(fields: seq<(string, Json)>): (ks: seq<string>)
    ensures |ks| == |fields|
    ensures forall i :: 0 <= i < |fields| ==> ks[i] == fields[i].0
  {
    if fields == [] then [] else [fields[0].0] + Keys(fields[1..])
  }

  /** No key is bound twice. */
  predicate DistinctKeys(fields: seq<(string, Json)>) {
    forall i, j :: 0 <= i < j < |fields| ==> fields[i].0 != fields[j].0
  }

  predicate IsDigits(k: string) {
    forall i :: 0 <= i < |k| ==> '0' <= k[i] <= '9'
  }

  /** The number a string of decimal digits denotes. */
  function DigitsValue(k: string): nat
    requires IsDigits(k)
  {
    if k == [] then 0 else DigitsValue(k[..|k| - 1]) * 10 + (k[|k| - 1] as int - '0' as int)
  }

  /** An array-index key: the canonical decimal form of an integer below 2^32 - 1. */
  predicate IsIndexKey(k: string) {
    k != [] && IsDigits(k) && (k[0] == '0' ==> |k| == 1) && DigitsValue(k) < 4294967295
  }

  /** JavaScript's own-property order: array-index keys come first, in
      ascending numeric order. */
  predicate PropertyOrdered(fields: seq<(string, Json)>) {
    forall i, j :: 0 <= i < j < |fields| && IsIndexKey(fields[j].0) ==>
      IsIndexKey(fields[i].0) && DigitsValue(fields[i].0) < DigitsValue(fields[j].0)
  }

  /** A value `JSON.parse` can return: in every object, a repeated key keeps
      one property (its last value, at its first position) and the
      properties are in JavaScript order. */
  predicate Parsed(v: Json) {
    match v
    case JArr(items) => forall i :: 0 <= i < |items| ==> Parsed(items[i])
    case JObj(fields) =>
      && DistinctKeys(fields) && PropertyOrdered(fields)
      && forall i :: 0 <= i < |fields| ==> Parsed(fields[i].1)
    case _ => true
  }

  /** `JSON.parse`: None for a SyntaxError, otherwise a parsed value. */
  type Parser = f: string -> Option<Json> | forall s :: f(s).Some? ==> Parsed(f(s).value)
    witness (s: string) => None

  /** In an object without repeated keys, a key's lookup is its one binding. */
  lemma {:induction false} LookupUnique(fields: seq<(string, Json)>, k: string, v: Json)
    requires DistinctKeys(fields) && (k, v) in fields
    ensures Lookup(fields, k) == Some(v)
  {
    if fields[0] != (k, v) {
      assert fields[0].0 != k by {
        var j :| 0 <= j < |fields| && fields[j] == (k, v);
        assert j != 0;
      }
      assert DistinctKeys(fields[1..]) by {
        forall i, j | 0 <= i < j < |fields[1..]| ensures fields[1..][i].0 != fields[1..][j].0 {
          assert fields[1..][i] == fields[i + 1] && fields[1..][j] == fields[j + 1];
        }
      }
      LookupUnique(fields[1..], k, v);
    }
  }

  /** `v.k`: undefined (None) unless `v` is an object with that key. */
  function Prop(v: Json, k: string): (r: Option<Json>)
    ensures r.Some? ==> v.JObj?
  {
    if v.JObj? then Lookup(v.fields, k) else None
  }

  /** `x == null`: the value is `null` or `undefined`. */
  predicate Nullish(x: Option<Json>) {
    x.None? || x.value.JNull?
  }

  /** `a ?? b` */
  function Coalesce(a: Option<Json>, b: Option<Json>): (r: Option<Json>)
    ensures !Nullish(a) ==> r == a
    ensures Nullish(a) ==> r == b
  {
    if Nullish(a) then b else a
  }

  /** JavaScript truthiness of a JSON value (JSON has no NaN). */
  predicate Truthy(v: Json) {
    match v
    case JNull => false
    case JBool(b) => b
    case JNum(n) => n != 0.0
    case JStr(s) => s != []
    case _ => true
  }

  /** The own properties an object spread `{...v}` copies. Spreading an
      array or a string would copy index keys; that case is not modelled. */
  function SpreadFields(v: Json): seq<(string, Json)> {
    if v.JObj? then v.fields else []
  }

  /** `{...a, ...b}` on property lists: keys of `a` keep their position and
      take `b`'s value when `b` has the key; keys only in `b` follow, in `b`'s order. */
  function Assign(a: seq<(string, Json)>, b: seq<(string, Json)>): (r: seq<(string, Json)>)
    ensures forall k :: Lookup(r, k) == (if Lookup(b, k).Some? then Lookup(b, k) else Lookup(a, k))
  {
    AssignLookup(a, b);
    Overwrite(a, b) + Missing(b, a)
  }

  /** `a`'s bindings, each replaced by `b`'s value for that key when there is one. */
  function Overwrite(a: seq<(string, Json)>, b: seq<(string, Json)>): (r: seq<(string, Json)>)
    ensures Keys(r) == Keys(a)
  {
    if a == [] then []
    else [(a[0].0, Lookup(b, a[0].0).GetOr(a[0].1))] + Overwrite(a[1..], b)
  }

  /** The bindings of `b` whose key `a` lacks, in `b`'s order. */
  function Missing(b: seq<(string, Json)>, a: seq<(string, Json)>): (r: seq<(string, Json)>)
    ensures forall k :: k in Keys(r) ==> k !in Keys(a)
  {
    if b == [] then []
    else if b[0].0 in Keys(a) then Missing(b[1..], a)
    else [b[0]] + Missing(b[1..], a)
  }

  lemma {:induction false} LookupConcat(x: seq<(string, Json)>, y: seq<(string, Json)>, k: string)
    ensures Lookup(x + y, k) == if k in Keys(x) then Lookup(x, k) else Lookup(y, k)
  {
    if x != [] {
      assert (x + y)[1..] == x[1..] + y;
      LookupConcat(x[1..], y, k);
    } else {
      assert x + y == y;
    }
  }

  lemma {:induction false} OverwriteLookup(a: seq<(string, Json)>, b: seq<(string, Json)>, k: string)
    requires k in Keys(a)
    ensures Lookup(Overwrite(a, b), k) == (if Lookup(b, k).Some? then Lookup(b, k) else Lookup(a, k))
  {
    if a[0].0 != k {
      OverwriteLookup(a[1..], b, k);
    }
  }

  lemma {:induction false} MissingLookup(b: seq<(string, Json)>, a: seq<(string, Json)>, k: string)
    requires k !in Keys(a)
    ensures Lookup(Missing(b, a), k) == Lookup(b, k)
  {
    if b != [] {
      MissingLookup(b[1..], a, k);
    }
  }

  lemma AssignLookup(a: seq<(string, Json)>, b: seq<(string, Json)>)
    ensures forall k :: Lookup(Overwrite(a, b) + Missing(b, a), k)
                        == (if Lookup(b, k).Some? then Lookup(b, k) else Lookup(a, k))
  {
    forall k ensures Lookup(Overwrite(a, b) + Missing(b, a), k)
                     == (if Lookup(b, k).Some? then Lookup(b, k) else Lookup(a, k)) {
      LookupConcat(Overwrite(a, b), Missing(b, a), k);
      if k in Keys(a) {
        OverwriteLookup(a, b, k);
      } else {
        MissingLookup(b, a, k);
      }
    }
  }

  /** The object-rest pattern `const { k, ...rest } = obj`: every binding but `k`'s. */
  function Without(fields: seq<(string, Json)>, k: string): (r: seq<(string, Json)>)
    ensures k !in Keys(r)
    ensures forall k' :: k' != k ==> Lookup(r, k') == Lookup(fields, k')
  {
    if fields == [] then []
    else if fields[0].0 == k then Without(fields[1..], k)
    else [fields[0]] + Without(fields[1..], k)
  }

  /** `Object.entries(v)`: the (key, value) pairs a `forEach` over it visits.
      An array yields its indices as keys; `null`, numbers and booleans yield none
      (`Object.entries(null)` throws before visiting anything, which has the same
      effect on the caller's loop). A string would yield its characters; that
      case is not modelled and yields none. */
  function Entries(v: Json): (r: seq<(string, Json)>)
    ensures Parsed(v) ==> DistinctKeys(r)
    ensures v.JObj? ==> r == v.fields
    ensures v.JArr? ==> |r| == |v.items| && forall i :: 0 <= i < |r| ==> r[i] == (NatToString(i), v.items[i])
    ensures !v.JObj? && !v.JArr? ==> r == []
  {
    match v
    case JObj(fields) => fields
    case JArr(items) =>
      var r := seq(|items|, i requires 0 <= i < |items| => (NatToString(i), items[i]));
      assert DistinctKeys(r) by {
        forall i, j | 0 <= i < j < |r| ensures r[i].0 != r[j].0 {
          NatToStringInjective(i, j);
        }
      }
      r
    case _ => []
  }
}
