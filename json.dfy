/**
  JSON-like values as they reach the tools: what a JSON-RPC request carries
  in `arguments`, and what tool handlers return. Objects are ordered lists of
  fields, in the order `Object.entries` enumerates them.
*/
module Json {
  import opened Wrappers
  import Text

  datatype Json =
    | JNull
    | JBool(b: bool)
    | JNum(n: real)
    | JStr(s: string)
    | JArr(items: seq<Json>)
    | JObj(fields: seq<Field>)

  datatype Field = Field(key: string, value: Json)

  /** A list of strings as a JSON array's items. */
  function Strings(xs: seq<string>): seq<Json> {
    seq(|xs|, i requires 0 <= i < |xs| => JStr(xs[i]))
  }

  /** `obj[k]`: the value of the first field named `k`, if any. */
  function Get(fields: seq<Field>, k: string): (r: Option<Json>)
    ensures r.None? <==> forall i :: 0 <= i < |fields| ==> fields[i].key != k
    ensures r.Some? ==> exists i :: 0 <= i < |fields| && fields[i].key == k && fields[i].value == r.value
    decreases |fields|
  {
    if |fields| == 0 then None
    else if fields[0].key == k then Some(fields[0].value)
    else Get(fields[1..], k)
  }

  /** The first field of a key is the one `Get` finds. */
  lemma {:induction false} GetFirstAt(fs: seq<Field>, k: nat)
    requires k < |fs|
    requires forall i :: 0 <= i < k ==> fs[i].key != fs[k].key
    ensures Get(fs, fs[k].key) == Some(fs[k].value)
    decreases k
  {
    if k > 0 {
      GetFirstAt(fs[1..], k - 1);
    }
  }

  /** A field list of a real JavaScript object: no key appears twice. */
  predicate DistinctKeys(fields: seq<Field>) {
    forall i, j :: 0 <= i < j < |fields| ==> fields[i].key != fields[j].key
  }

  /** A property set to `undefined`, which `JSON.stringify` leaves out. */
  function OptionalField(key: string, v: Option<Json>): (r: seq<Field>)
    ensures v.None? ==> r == []
    ensures v.Some? ==> r == [Field(key, v.value)]
  {
    match v
    case None => []
    case Some(x) => [Field(key, x)]
  }

  /** `JSON.stringify(value, null, indent)`, whose exact layout the model leaves open. */
  type Stringify = (Json, nat) -> string

  /** JavaScript truthiness (ToBoolean) of a JSON value. */
  predicate Truthy(v: Json) {
    match v
    case JNull => false
    case JBool(b) => b
    case JNum(n) => n != 0.0
    case JStr(s) => s != ""
    case JArr(_) => true
    case JObj(_) => true
  }

  /** `typeof v === 'object' && v !== null`: arrays and objects. */
  predicate IsObjectLike(v: Json) {
    v.JArr? || v.JObj?
  }

  /** The key `Object.entries` gives the element at index `i` of an array or string. */
  function IndexKey(i: nat): string {
    Text.Decimal(i)
  }

  /**
    `Object.entries(v)` for a value that is not null: the fields of an object,
    the index/element pairs of an array, the index/character pairs of a
    string, and nothing for a number or a boolean.
  */
  function Entries(v: Json): (r: seq<Field>)
    ensures v.JObj? ==> r == v.fields
    ensures v.JArr? ==> |r| == |v.items| && forall i :: 0 <= i < |r| ==> r[i] == Field(IndexKey(i), v.items[i])
    ensures v.JStr? ==> |r| == |v.s| && forall i :: 0 <= i < |r| ==> r[i] == Field(IndexKey(i), JStr([v.s[i]]))
    ensures v.JNull? || v.JBool? || v.JNum? ==> r == []
  {
    match v
    case JObj(fs) => fs
    case JArr(items) => seq(|items|, i requires 0 <= i < |items| => Field(IndexKey(i), items[i]))
    case JStr(s) => seq(|s|, i requires 0 <= i < |s| => Field(IndexKey(i), JStr([s[i]])))
    case _ => []
  }

  /** The entries of an array or a string have pairwise distinct keys, like those of an object. */
  lemma EntriesDistinct(v: Json)
    requires !v.JObj?
    ensures DistinctKeys(Entries(v))
  {
    var r := Entries(v);
    forall i, j | 0 <= i < j < |r| ensures r[i].key != r[j].key {
      if r[i].key == r[j].key {
        Text.DecimalInjective(i, j);
      }
    }
  }
}
