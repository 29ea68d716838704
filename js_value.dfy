/**
 * The JavaScript values a handler can meet after `JSON.parse`, and the three
 * language operations the handlers apply to them: reading a property,
 * converting to a string (the `+` of string concatenation), and the
 * `for...in` enumeration.
 */
module JsValue {
  import opened Wrappers
  import opened JsText

  /** The exceptions the handlers can raise: `JSON.parse` on malformed text, or a TypeError. */
  datatype JsError = SyntaxError | TypeError

  /**
   * A JavaScript value. `Num` carries the text JavaScript's Number-to-String gives it;
   * `Obj` carries its own enumerable properties, in `for...in` order.
   */
  datatype Value =
    | Undefined
    | Null
    | Bool(b: bool)
    | Num(text: string)
    | Str(s: string)
    | Arr(items: seq<Value>)
    | Obj(props: seq<(string, Value)>)

  /** The object has an own property named `key`. */
  predicate HasOwn(props: seq<(string, Value)>, key: string) {
    exists i :: 0 <= i < |props| && props[i].0 == key
  }

  /** The value of the own property `key`, if there is one (the first, should the list repeat a key). */
  function Lookup(props: seq<(string, Value)>, key: string): (r: Option<Value>)
    ensures r.Some? <==> HasOwn(props, key)
    ensures r.Some? ==> exists i :: 0 <= i < |props| && props[i] == (key, r.value)
  {
    if props == [] then None
    else if props[0].0 == key then Some(props[0].1)
    else
      var r := Lookup(props[1..], key);
      assert r.Some? ==> exists i :: 0 <= i < |props| - 1 && props[1..][i] == (key, r.value);
      r
  }

  /**
   * `v.key` (or `v[key]`) for a key that is neither an index nor a property any
   * prototype defines, which holds for every property name the handlers read:
   * a TypeError on `null` and `undefined`, the own property of an object, and
   * `undefined` otherwise.
   */
  function Get(v: Value, key: string): (r: Result<Value, JsError>)
    ensures r.Err? <==> v == Undefined || v == Null
    ensures r.Err? ==> r.error == TypeError
    ensures r.Ok? && r.value != Undefined ==> v.Obj? && HasOwn(v.props, key)
    ensures v.Obj? && HasOwn(v.props, key) ==> r == Ok(Lookup(v.props, key).value)
    ensures v.Obj? && !HasOwn(v.props, key) ==> r == Ok(Undefined)
    ensures !v.Obj? && v != Undefined && v != Null ==> r == Ok(Undefined)
  {
    match v
    case Undefined => Err(TypeError)
    case Null => Err(TypeError)
    case Obj(props) =>
      (match Lookup(props, key)
       case Some(x) => Ok(x)
       case None => Ok(Undefined))
    case _ => Ok(Undefined)
  }

  /** `typeof v === 'object'`. */
  predicate IsObjectType(v: Value) {
    v.Null? || v.Arr? || v.Obj?
  }

  /**
   * The string that `'' + v` produces. For an object the conversion tries
   * `valueOf`, which returns the object itself, then `toString`; an own
   * property named `toString` (never callable in parsed JSON) hides the
   * inherited one, so the conversion throws a TypeError. An array is joined
   * with commas, `null` and `undefined` elements becoming empty.
   */
  function ToStr(v: Value): (r: Result<string, JsError>)
    decreases v
    ensures !IsObjectType(v) ==> r.Ok?
    ensures r.Err? ==> r.error == TypeError
    ensures v.Obj? ==> (r.Err? <==> HasOwn(v.props, "toString"))
    ensures v == Undefined ==> r == Ok("undefined")
    ensures v == Null ==> r == Ok("null")
    ensures v.Bool? ==> r == Ok(if v.b then "true" else "false")
    ensures v.Num? ==> r == Ok(v.text)
    ensures v.Str? ==> r == Ok(v.s)
    ensures v.Arr? ==> r == JoinItems(v.items)
    ensures v.Obj? && !HasOwn(v.props, "toString") ==> r == Ok("[object Object]")
  {
    match v
    case Undefined => Ok("undefined")
    case Null => Ok("null")
    case Bool(b) => Ok(if b then "true" else "false")
    case Num(t) => Ok(t)
    case Str(s) => Ok(s)
    case Arr(items) => JoinItems(items)
    case Obj(props) => if HasOwn(props, "toString") then Err(TypeError) else Ok("[object Object]")
  }

  /** `Array.prototype.join(',')` over `items`. */
  function JoinItems(items: seq<Value>): (r: Result<string, JsError>)
    decreases items
    ensures r.Err? ==> r.error == TypeError
  {
    if items == [] then Ok("")
    else
      var head :- if items[0].Undefined? || items[0].Null? then Ok("") else ToStr(items[0]);
      if |items| == 1 then Ok(head)
      else
        var tail :- JoinItems(items[1..]);
        Ok(head + "," + tail)
  }

  /** The text of a value whose conversion cannot throw. */
  function PrimitiveText(v: Value): string
    requires !IsObjectType(v)
  {
    ToStr(v).value
  }

  /**
   * The (key, value) pairs `for (const key in v)` visits together with `v[key]`:
   * an object's own properties, the indices of an array or of a string, and
   * nothing for the other values.
   */
  function ForIn(v: Value): (es: seq<(string, Value)>)
    ensures v.Obj? ==> es == v.props
    ensures v.Arr? ==> |es| == |v.items| && forall i :: 0 <= i < |es| ==> es[i] == (NatToString(i), v.items[i])
    ensures v.Str? ==> |es| == |v.s| && forall i :: 0 <= i < |es| ==> es[i] == (NatToString(i), Str([v.s[i]]))
    ensures !(v.Obj? || v.Arr? || v.Str?) ==> es == []
    ensures v.Obj? ==> forall i :: 0 <= i < |es| ==> HasOwn(v.props, es[i].0)
    ensures v.Arr? || v.Str? ==> forall i, j :: 0 <= i < j < |es| ==> es[i].0 != es[j].0
  {
    match v
    case Obj(props) => props
    case Arr(items) =>
      IndexKeysDistinct(|items|);
      seq(|items|, i requires 0 <= i < |items| => (NatToString(i), items[i]))
    case Str(s) =>
      IndexKeysDistinct(|s|);
      seq(|s|, i requires 0 <= i < |s| => (NatToString(i), Str([s[i]])))
    case _ => []
  }

  /** The first `n` indices have pairwise distinct decimal texts. */
  lemma IndexKeysDistinct(n: nat)
    ensures forall i, j :: 0 <= i < j < n ==> NatToString(i) != NatToString(j)
  {
    forall i, j | 0 <= i < j < n ensures NatToString(i) != NatToString(j) {
      NatToStringInjective(i, j);
    }
  }
}
