/** The loosely-typed JSON values the console receives from its REST
    backend, and the JavaScript operators its normalisers apply to them:
    property access through `?.`, truthiness, `??`, `Number(x)` and
    `String(x)`. Numbers are integers here; see README for what that leaves
    out. */
module JsValue {
  import opened Text
  import opened Util

  datatype Value =
    | Undefined
    | Null
    | Bool(b: bool)
    | Num(n: int)
    | NaN
    | Str(s: string)
    | Arr(elems: seq<Value>)
    | Obj(fields: map<string, Value>)

  /** `v?.[key]`: a property of an object; `undefined` for anything else. */
  function Get(v: Value, key: string): Value {
    if v.Obj? && key in v.fields then v.fields[key] else Undefined
  }

  /** JavaScript truthiness. */
  predicate Truthy(v: Value) {
    match v
    case Undefined => false
    case Null => false
    case Bool(b) => b
    case Num(n) => n != 0
    case NaN => false
    case Str(s) => s != []
    case Arr(_) => true
    case Obj(_) => true
  }

  predicate IsNullish(v: Value) {
    v.Undefined? || v.Null?
  }

  /** `a ?? b` */
  function Coalesce(a: Value, b: Value): (r: Value)
    ensures IsNullish(a) ==> r == b
    ensures !IsNullish(a) ==> r == a
  {
    if IsNullish(a) then b else a
  }

  /** `Number(s)` for a string: blank is 0, a plain decimal digit run is its
      value, anything else is `NaN`. */
  function StrToNumber(s: string): (r: Value)
    ensures r.Num? || r.NaN?
    ensures IsBlank(s) ==> r == Num(0)
    ensures AllDigits(Trim(s)) && !IsBlank(s) ==> r == Num(DigitsValue(Trim(s)))
    ensures r.Num? ==> r.n >= 0
  {
    var t := Trim(s);
    if t == [] then Num(0)
    else if AllDigits(t) then Num(DigitsValue(t))
    else NaN
  }

  /** `Number(v)`. An array converts through its string form, so `[]` is
      0 and a one-element array is the number of its element's text. */
  function ToNumber(v: Value): (r: Value)
    ensures r.Num? || r.NaN?
    ensures v.Num? || v.NaN? ==> r == v
    ensures v.Arr? ==> r == StrToNumber(ToStr(v))
  {
    match v
    case Undefined => NaN
    case Null => Num(0)
    case Bool(b) => if b then Num(1) else Num(0)
    case Num(n) => v
    case NaN => NaN
    case Str(s) => StrToNumber(s)
    case Arr(_) => StrToNumber(ToStr(v))
    case Obj(_) => NaN
  }

  /** `(typeof raw === "number" ? raw : Number(raw)) || idx + 1`: the id a
      normaliser gives the element at position idx. */
  function PositionalId(raw: Value, idx: nat): (id: int)
    ensures id != 0
    ensures ToNumber(raw).Num? && ToNumber(raw).n != 0 ==> id == ToNumber(raw).n
    ensures !(ToNumber(raw).Num? && ToNumber(raw).n != 0) ==> id == idx + 1
  {
    var x := if raw.Num? || raw.NaN? then raw else ToNumber(raw);
    if Truthy(x) then x.n else idx + 1
  }

  /** The first of `keys` whose property on v is a string:
      `typeof v.k1 === "string" ? v.k1 : typeof v.k2 === "string" ? ...`. */
  function FirstString(v: Value, keys: seq<string>): (r: Option<string>)
    ensures r.None? <==> forall i :: 0 <= i < |keys| ==> !Get(v, keys[i]).Str?
    ensures r.Some? ==> exists i :: 0 <= i < |keys| && Get(v, keys[i]) == Str(r.value)
                                    && forall j :: 0 <= j < i ==> !Get(v, keys[j]).Str?
  {
    if keys == [] then None
    else if Get(v, keys[0]).Str? then Some(Get(v, keys[0]).s)
    else
      var rest := FirstString(v, keys[1..]);
      if rest.Some? then
        var i :| 0 <= i < |keys[1..]| && Get(v, keys[1..][i]) == Str(rest.value)
                 && forall j :: 0 <= j < i ==> !Get(v, keys[1..][j]).Str?;
        assert Get(v, keys[i + 1]) == Str(rest.value);
        rest
      else rest
  }

  function ElemCount(v: Value): nat {
    if v.Arr? then |v.elems| else 0
  }

  /** `String(v)` */
  function ToStr(v: Value): string
    decreases v, ElemCount(v) + 1
  {
    match v
    case Undefined => "undefined"
    case Null => "null"
    case Bool(b) => if b then "true" else "false"
    case Num(n) => IntToString(n)
    case NaN => "NaN"
    case Str(s) => s
    case Arr(elems) => JoinFrom(v, 0)
    case Obj(_) => "[object Object]"
  }

  /** The elements of array v from position i, each converted as
      `Array.prototype.join` does (`null`/`undefined` become ""), separated
      by ",". */
  function JoinFrom(v: Value, i: nat): string
    requires v.Arr? && i <= |v.elems|
    decreases v, |v.elems| - i
  {
    if i == |v.elems| then ""
    else
      var e := v.elems[i];
      var head := if IsNullish(e) then "" else ToStr(e);
      if i + 1 == |v.elems| then head else head + "," + JoinFrom(v, i + 1)
  }

  /** `values.join(sep)`: `null`/`undefined` elements become "". */
  function JoinValues(values: seq<Value>, sep: string): string {
    Join(Map(values, (e: Value) => if IsNullish(e) then "" else ToStr(e)), sep)
  }

  /** `Array.isArray(d) ? d : Array.isArray(d?.results) ? d.results : []`:
      the list a paginated or plain list response carries. */
  function ArrayOrResults(data: Value): (r: seq<Value>)
    ensures data.Arr? ==> r == data.elems
    ensures !data.Arr? && Get(data, "results").Arr? ==> r == Get(data, "results").elems
    ensures !data.Arr? && !Get(data, "results").Arr? ==> r == []
  {
    if data.Arr? then data.elems
    else if Get(data, "results").Arr? then Get(data, "results").elems
    else []
  }

  /** Unwrapping inverts both ways a list is sent: a plain array and an
      envelope holding it under `results`, whatever other fields it has,
      give back the same elements. Anything else gives no elements. */
  lemma ArrayOrResultsRoundTrip(xs: seq<Value>, envelope: map<string, Value>, scalar: Value)
    requires !scalar.Arr? && !scalar.Obj?
    ensures ArrayOrResults(Arr(xs)) == xs
    ensures ArrayOrResults(Obj(envelope["results" := Arr(xs)])) == xs
    ensures "results" !in envelope ==> ArrayOrResults(Obj(envelope)) == []
    ensures ArrayOrResults(scalar) == []
    ensures ArrayOrResults(Arr(ArrayOrResults(Obj(envelope)))) == ArrayOrResults(Obj(envelope))
  {
  }

  /** How an awaited backend call settled: the response body, or the value
      it was rejected with. */
  datatype Outcome = Resolved(data: Value) | Rejected(error: Value)

  /** `e?.message || fallback`, as the screens store it for display. */
  function MessageOr(e: Value, fallback: string): (r: string)
    ensures Truthy(Get(e, "message")) && Get(e, "message").Str? ==> r == Get(e, "message").s
    ensures !Truthy(Get(e, "message")) ==> r == fallback
  {
    var m := Get(e, "message");
    if Truthy(m) then ToStr(m) else fallback
  }

  /** The message of the `TypeError` JavaScript throws when property key
      is read from v, a `null` or `undefined` value. */
  function ReadPropertyError(v: Value, key: string): string {
    "Cannot read properties of " + ToStr(v) + " (reading '" + key + "')"
  }

  /** A thrown `Error` as a `catch` block sees it: an object whose
      `message` is the given text. */
  function Thrown(message: string): Value {
    Obj(map["message" := Str(message)])
  }

  /** The text shown for a thrown error is its own message, and the
      `TypeError` text names the value and the property read. */
  lemma ThrownMeaning(v: Value, key: string, fallback: string)
    requires IsNullish(v)
    ensures MessageOr(Thrown(ReadPropertyError(v, key)), fallback) == ReadPropertyError(v, key)
    ensures v.Null? ==> ReadPropertyError(v, key)
                        == "Cannot read properties of null (reading '" + key + "')"
    ensures v.Undefined? ==> ReadPropertyError(v, key)
                             == "Cannot read properties of undefined (reading '" + key + "')"
  {
  }

  /** The first `null` or `undefined` element of a list: the one a `map`
      over the list throws on. */
  function FirstNullish(xs: seq<Value>): (r: Option<Value>)
    ensures r.None? <==> forall i :: 0 <= i < |xs| ==> !IsNullish(xs[i])
    ensures r.Some? ==> exists i :: 0 <= i < |xs| && xs[i] == r.value && IsNullish(xs[i])
                                    && forall j :: 0 <= j < i ==> !IsNullish(xs[j])
  {
    if xs == [] then None
    else if IsNullish(xs[0]) then Some(xs[0])
    else
      var rest := FirstNullish(xs[1..]);
      if rest.Some? then
        var i :| 0 <= i < |xs[1..]| && xs[1..][i] == rest.value && IsNullish(xs[1..][i])
                 && forall j :: 0 <= j < i ==> !IsNullish(xs[1..][j]);
        assert xs[i + 1] == rest.value;
        rest
      else rest
  }
}
