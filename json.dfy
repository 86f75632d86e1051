/**
 * The values `JSON.parse` produces, read the way the chat store reads them:
 * JavaScript truthiness, property access (`obj.content`), `Object.keys(v).length`
 * and the string a value turns into when it is concatenated (`String(v)`).
 * `JSON.parse` and `JSON.stringify` themselves are not defined here: a `Codec`
 * carries them as two given functions.
 */
module JsonValues {
  import opened Wrappers

  /** A parsed JSON value. Numbers are limited to integers. Object members keep
      their textual order, duplicates included. */
  datatype Json =
    | JNull
    | JBool(b: bool)
    | JNum(n: int)
    | JStr(s: string)
    | JArr(items: seq<Json>)
    | JObj(fields: seq<Field>)

  datatype Field = Field(key: string, value: Json)

  /** `JSON.parse` (None where it throws) and `JSON.stringify`. */
  datatype Codec = Codec(parse: string -> Option<Json>, stringify: Json -> string)

  /** `JSON.stringify` of a JSON value is never the empty string. */
  ghost predicate StringifyNonEmpty(o: Codec) {
    forall j :: o.stringify(j) != ""
  }

  /** JavaScript truthiness: `null`, `false`, `0` and `''` are falsy; every array
      and object, even an empty one, is truthy. */
  predicate Truthy(j: Json) {
    match j
    case JNull => false
    case JBool(b) => b
    case JNum(n) => n != 0
    case JStr(s) => s != ""
    case JArr(_) => true
    case JObj(_) => true
  }

  /** The value of member `key`; when the key is written more than once the last
      one wins, as with `JSON.parse`. */
  function Lookup(fields: seq<Field>, key: string): (r: Option<Json>)
    ensures r.None? <==> forall i :: 0 <= i < |fields| ==> fields[i].key != key
    ensures r.Some? ==> exists i :: 0 <= i < |fields| && fields[i] == Field(key, r.value)
    decreases |fields|
  {
    if |fields| == 0 then None
    else if fields[|fields| - 1].key == key then Some(fields[|fields| - 1].value)
    else Lookup(fields[..|fields| - 1], key)
  }

  /** `v[key]` on a non-null parsed value: only objects have the member names the
      store asks for (strings, numbers, booleans and arrays yield `undefined`). */
  function Get(j: Json, key: string): (r: Option<Json>)
    requires !j.JNull?
  {
    match j
    case JObj(fields) => Lookup(fields, key)
    case _ => None
  }

  /** `Object.keys(v).length > 0` on a non-null parsed value: a string has one key
      per character, an array one per element, numbers and booleans none. */
  predicate HasKeys(j: Json)
    requires !j.JNull?
  {
    match j
    case JObj(fields) => |fields| > 0
    case JArr(items) => |items| > 0
    case JStr(s) => |s| > 0
    case _ => false
  }

  function DigitChar(d: nat): char
    requires d < 10
  {
    "0123456789"[d]
  }

  /** The decimal form JavaScript prints for a non-negative integer. */
  function NatToString(n: nat): (s: string)
    ensures |s| > 0
    decreases n
  {
    if n < 10 then [DigitChar(n)] else NatToString(n / 10) + [DigitChar(n % 10)]
  }

  function DigitValue(c: char): nat {
    if '0' <= c <= '9' then c as int - '0' as int else 0
  }

  /** Reads a decimal numeral back. */
  function ParseDigits(s: string): nat
    decreases |s|
  {
    if |s| == 0 then 0 else 10 * ParseDigits(s[..|s| - 1]) + DigitValue(s[|s| - 1])
  }

  lemma {:induction false} NatToStringRoundTrip(n: nat)
    ensures ParseDigits(NatToString(n)) == n
    decreases n
  {
    var s := NatToString(n);
    if n >= 10 {
      NatToStringRoundTrip(n / 10);
      assert s[..|s| - 1] == NatToString(n / 10);
    }
  }

  function IntToString(n: int): string {
    if n < 0 then "-" + NatToString(-n) else NatToString(n)
  }

  /** `parts.join(',')`. */
  function JoinComma(parts: seq<string>): string
    decreases |parts|
  {
    if |parts| == 0 then ""
    else if |parts| == 1 then parts[0]
    else JoinComma(parts[..|parts| - 1]) + "," + parts[|parts| - 1]
  }

  /** `String(v)`: what `message.content += v` appends for a parsed value.
      Arrays join their elements with commas (a `null` element prints as
      nothing); every object prints as `[object Object]`. */
  function ToText(j: Json): string
    decreases j
  {
    match j
    case JNull => "null"
    case JBool(b) => if b then "true" else "false"
    case JNum(n) => IntToString(n)
    case JStr(s) => s
    case JArr(items) =>
      JoinComma(seq(|items|, i requires 0 <= i < |items| =>
        if items[i].JNull? then "" else ToText(items[i])))
    case JObj(_) => "[object Object]"
  }
}
