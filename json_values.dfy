/**
  The JSON values the tabular converters read and build, with the JavaScript
  conversions they rely on: property reads, truthiness and string conversion.
 */
module JsonValues {
  import opened Wrappers
  import opened OrderedMaps

  /** A value `JSON.parse` can give. A number is held by its JavaScript rendering
      (`String(n)`, so zero is `"0"`); an object by its own properties in order,
      with distinct keys. */
  datatype Json =
    | JStr(s: string)
    | JNum(repr: string)
    | JBool(b: bool)
    | JNull
    | JArr(items: seq<Json>)
    | JObj(fields: seq<(string, Json)>)

  /** Reading property `key` of a value that is not `null` (`None` for `undefined`).
      Only objects have the properties the converters read. */
  function Get(v: Json, key: string): (r: Option<Json>)
    ensures !v.JObj? ==> r == None
  {
    if v.JObj? then Lookup(v.fields, key) else None
  }

  /** JavaScript truthiness of a JSON value. */
  predicate Truthy(v: Json)
  {
    match v
    case JStr(s) => s != ""
    case JNum(r) => r != "0"
    case JBool(b) => b
    case JNull => false
    case JArr(_) => true
    case JObj(_) => true
  }

  /** `String(v)`: an array is its elements' texts joined by `,` (with `null` as
      the empty text), an object is `[object Object]`. */
  function Text(v: Json): string
    decreases v
  {
    match v
    case JStr(s) => s
    case JNum(r) => r
    case JBool(b) => if b then "true" else "false"
    case JNull => "null"
    case JArr(items) => ItemsText(v, 0)
    case JObj(_) => "[object Object]"
  }

  /** The elements of array `v` from position `from` on, as `Array.prototype.join` writes them. */
  function ItemsText(v: Json, from: nat): string
    requires v.JArr? && from <= |v.items|
    decreases v, |v.items| - from
  {
    if from == |v.items| then ""
    else
      var item := v.items[from];
      var t := if item.JNull? then "" else Text(item);
      if from + 1 == |v.items| then t else t + "," + ItemsText(v, from + 1)
  }

  /** What assigning `v` to `textContent` leaves as the text: `null` clears it. */
  function TextContent(v: Json): string
  {
    if v.JNull? then "" else Text(v)
  }

  function Digit(d: nat): char
    requires d < 10
  {
    "0123456789"[d]
  }

  /** The decimal rendering of an index, as used for the keys of arrays and strings. */
  function NatText(n: nat): (r: string)
    ensures r != []
  {
    if n < 10 then [Digit(n)] else NatText(n / 10) + [Digit(n % 10)]
  }

  /** A key a JavaScript object lists before all others, in numeric order: the
      decimal rendering of an array index, below 2^32 - 1. */
  predicate ArrayIndexKey(k: string)
  {
    exists n: nat :: n < 0xFFFF_FFFF && NatText(n) == k
  }

  /** `Object.keys(v)` paired with each key's value; `None` where it throws (`null`).
      An array or a string lists its positions; a number or a boolean has no keys. */
  function Entries(v: Json): (r: Option<seq<(string, Json)>>)
    ensures r.None? <==> v.JNull?
    ensures v.JObj? ==> r == Some(v.fields)
  {
    match v
    case JObj(fields) => Some(fields)
    case JArr(items) => Some(seq(|items|, i requires 0 <= i < |items| => (NatText(i), items[i])))
    case JStr(s) => Some(seq(|s|, i requires 0 <= i < |s| => (NatText(i), JStr([s[i]]))))
    case JNull => None
    case JNum(_) => Some([])
    case JBool(_) => Some([])
  }

  /** A value whose text is itself: a string, a number or a boolean. */
  predicate Scalar(v: Json)
  {
    v.JStr? || v.JNum? || v.JBool?
  }

  // ---------------------------------------------------------------------------
  // Properties

  /** Distinct positions have distinct decimal renderings. */
  lemma {:induction false} NatTextInjective(m: nat, n: nat)
    requires NatText(m) == NatText(n)
    ensures m == n
  {
    if m < 10 && n < 10 {
      assert NatText(m)[0] == "0123456789"[m];
    } else if m < 10 {
      assert false;
    } else if n < 10 {
      assert false;
    } else {
      var a, b := NatText(m / 10), NatText(n / 10);
      assert NatText(m) == a + [Digit(m % 10)];
      assert NatText(n) == b + [Digit(n % 10)];
      assert a == NatText(m)[..|NatText(m)| - 1];
      assert b == NatText(n)[..|NatText(n)| - 1];
      assert "0123456789"[m % 10] == "0123456789"[n % 10];
      NatTextInjective(m / 10, n / 10);
    }
  }
}
