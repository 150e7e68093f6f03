/**
  The metadata a vector-store document carries: a map from keys to Java
  objects. The objects the core distinguishes are strings, numbers, UUIDs
  and lists; anything else is kept with the text its `toString` yields.
  A Spring AI document never holds a null metadata value, so a missing key
  is the only way `get` yields null.
*/
module Metadata {
  import opened Wrappers
  import opened JavaText
  import Uuids

  datatype Value =
    | Str(s: string)
      /** An `Integer` or a `Long`. */
    | IntNum(n: int)
      /** A `Double` (or `Float`), with the text `toString` writes for it. */
    | RealNum(r: real, text: string)
    | UuidVal(u: Uuids.Uuid)
      /** A `java.util.List`; its elements may be null. */
    | ListVal(items: seq<Option<Value>>)
      /** Any other object, by the text of its `toString`. */
    | Other(text: string)

  type Bag = map<string, Value>

  /** A Spring AI `Document`: its text and its metadata. */
  datatype VectorDocument = VectorDocument(text: string, metadata: Bag)

  /** `metadata.get(key)`: null (`None`) when the key is absent. */
  function Get(m: Bag, key: string): (r: Option<Value>)
    ensures r.Some? <==> key in m
    ensures r.Some? ==> r.value == m[key]
  {
    if key in m then Some(m[key]) else None
  }

  /** `metadata.getOrDefault(key, fallback)`. */
  function GetOrDefault(m: Bag, key: string, fallback: Value): (r: Value)
    ensures key in m ==> r == m[key]
    ensures key !in m ==> r == fallback
  {
    if key in m then m[key] else fallback
  }

  /** `value.toString()` (also what `StringBuilder.append(Object)` writes). */
  function Show(v: Value): string
    decreases v, 1
  {
    match v
    case Str(s) => s
    case IntNum(n) => IntToString(n)
    case RealNum(_, text) => text
    case UuidVal(u) => Uuids.ToString(u)
    case ListVal(items) => "[" + ShowItems(v, items) + "]"
    case Other(text) => text
  }

  /** The elements of a list joined by ", ", as `AbstractCollection.toString` does. */
  function ShowItems(owner: Value, items: seq<Option<Value>>): string
    requires forall i :: 0 <= i < |items| ==> items[i] < owner
    decreases owner, 0, |items|
  {
    if items == [] then ""
    else
      var first := ShowNullable(owner, items[0]);
      if |items| == 1 then first else first + ", " + ShowItems(owner, items[1..])
  }

  function ShowNullable(owner: Value, item: Option<Value>): string
    requires item < owner
    decreases owner, 0, 0
  {
    match item
    case None => "null"
    case Some(x) => Show(x)
  }

  /** `String.valueOf(object)`: "null" for null. */
  function ValueOf(v: Option<Value>): string {
    match v
    case None => "null"
    case Some(x) => Show(x)
  }

  predicate IsNumber(v: Value) {
    v.IntNum? || v.RealNum?
  }

  /** `Number.doubleValue()`. */
  function DoubleValue(v: Value): real
    requires IsNumber(v)
  {
    if v.IntNum? then v.n as real else v.r
  }

  /** `Number.intValue()`: a `Long` keeps its low 32 bits; a `Double` is
      truncated toward zero and saturated at the `int` bounds. */
  function IntValue(v: Value): (r: int)
    requires IsNumber(v)
    ensures InIntRange(r)
  {
    if v.IntNum? then WrapToInt(v.n) else TruncateToInt(v.r)
  }

  /** `Objects.equals(element, o)` for a list element and a string `o`:
      both null, or both strings with the same characters. */
  predicate ElementEquals(element: Option<Value>, o: Option<string>) {
    match o
    case None => element.None?
    case Some(s) => element == Some(Str(s))
  }

  /** `list.contains(o)` for a string `o`. */
  predicate ListContains(items: seq<Option<Value>>, o: Option<string>) {
    exists i :: 0 <= i < |items| && ElementEquals(items[i], o)
  }

  /** `list.containsAll(c)`. */
  predicate ListContainsAll(items: seq<Option<Value>>, c: seq<Option<string>>) {
    forall j :: 0 <= j < |c| ==> ListContains(items, c[j])
  }
}
