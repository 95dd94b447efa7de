/** Untyped JavaScript values, as `JSON.parse` produces them and as the
    sanitisers receive them (`unknown`), with the few operations the source
    applies to them: property access, truthiness and `typeof` tests. */
module JsValues {
  import opened Text

  datatype JsValue =
    | Undefined
    | Null
    | Bool(b: bool)
    | Num(n: real)
    | NaN
    | Str(s: string)
    | Arr(items: seq<JsValue>)
    | Obj(fields: map<string, JsValue>)

  /** `v[key]`: the property of an object, `undefined` for anything else. */
  function Field(v: JsValue, key: string): (r: JsValue)
    ensures !v.Obj? ==> r == Undefined
    ensures v.Obj? && key in v.fields ==> r == v.fields[key]
  {
    if v.Obj? && key in v.fields then v.fields[key] else Undefined
  }

  /** JavaScript truthiness (`Boolean(v)`). */
  predicate Truthy(v: JsValue) {
    match v
    case Undefined => false
    case Null => false
    case Bool(b) => b
    case Num(n) => n != 0.0
    case NaN => false
    case Str(s) => s != ""
    case Arr(_) => true
    case Obj(_) => true
  }

  /** `typeof v === 'number'` (NaN included). */
  predicate IsNumber(v: JsValue) {
    v.Num? || v.NaN?
  }

  /** `typeof v === 'object' && v !== null`. */
  predicate IsObject(v: JsValue) {
    v.Arr? || v.Obj?
  }

  /** A JavaScript array of strings. */
  function StrArray(xs: seq<string>): (r: JsValue)
    ensures r.Arr? && |r.items| == |xs|
    ensures forall i {:trigger r.items[i]} :: 0 <= i < |xs| ==> r.items[i] == Str(xs[i])
  {
    Arr(seq(|xs|, i requires 0 <= i < |xs| => Str(xs[i])))
  }

  /** `Math.round`: halves round towards positive infinity. */
  function Round(x: real): (r: int)
    ensures x - 0.5 < r as real <= x + 0.5
  {
    (x + 0.5).Floor
  }

  /** `value ?? fallback`. */
  function Coalesce(v: JsValue, fallback: JsValue): JsValue {
    if v.Undefined? || v.Null? then fallback else v
  }

  /** `Number(v)`: a number as it is, `null` and a blank string as 0, a
      boolean as 0 or 1, a decimal numeral (white space around it allowed)
      as its value, anything else as NaN. */
  function ToNumber(v: JsValue): (r: JsValue)
    ensures r.Num? || r.NaN?
  {
    match v
    case Num(_) => v
    case NaN => v
    case Null => Num(0.0)
    case Bool(b) => Num(if b then 1.0 else 0.0)
    case Str(s) =>
      var t := Trim(s);
      if t == "" then Num(0.0) else if AllDigits(t) then Num(DigitsValue(t) as real) else NaN
    case _ => NaN
  }

  /** A whole number written out in decimal reads back as itself. */
  lemma NumberOfNumeral(n: nat)
    ensures ToNumber(Str(IntToString(n))) == Num(n as real)
  {
    var s := IntToString(n);
    DigitsOfIntToString(n);
    assert !IsWhitespace(s[0]) && !IsWhitespace(s[|s| - 1]);
    TrimOfTrimmed(s);
  }

  /** Different whole numbers have different decimal texts, and each text
      is all digits. */
  lemma IndexKeyFacts()
    ensures forall a: nat, b: nat :: IntToString(a) == IntToString(b) ==> a == b
    ensures forall n: nat :: AllDigits(IntToString(n))
  {
    forall a: nat, b: nat | IntToString(a) == IntToString(b)
      ensures a == b
    {
      DigitsOfIntToString(a);
      DigitsOfIntToString(b);
    }
    forall n: nat
      ensures AllDigits(IntToString(n))
    {
      DigitsOfIntToString(n);
    }
  }

  /** The properties of an array-like value: each element under its
      decimal index. */
  function IndexKeyed(values: seq<JsValue>): (r: map<string, JsValue>)
    ensures forall k: nat :: k < |values| ==> IntToString(k) in r && r[IntToString(k)] == values[k]
    ensures forall key :: key in r ==> AllDigits(key)
  {
    if values == [] then map[]
    else
      var last := |values| - 1;
      IndexKeyFacts();
      IndexKeyed(values[..last])[IntToString(last) := values[last]]
  }

  /** `{...v}`: the own enumerable properties of `v`. An object gives its
      fields, an array its elements and a string its characters, both
      under their decimal indices; other values give none. */
  function Spread(v: JsValue): (r: map<string, JsValue>)
    ensures v.Obj? ==> r == v.fields
    ensures v.Arr? ==> forall k: nat :: k < |v.items| ==> IntToString(k) in r && r[IntToString(k)] == v.items[k]
    ensures v.Str? ==> forall k: nat :: k < |v.s| ==> IntToString(k) in r && r[IntToString(k)] == Str([v.s[k]])
    ensures !v.Obj? ==> forall key :: key in r ==> AllDigits(key)
    ensures !(v.Obj? || v.Arr? || v.Str?) ==> r == map[]
  {
    match v
    case Obj(fields) => fields
    case Arr(items) => IndexKeyed(items)
    case Str(s) => IndexKeyed(seq(|s|, i requires 0 <= i < |s| => Str([s[i]])))
    case _ => map[]
  }

  /** `Math.min(x, y)` for a number `x` (possibly NaN) and a finite `y`. */
  function MinNumber(x: JsValue, y: real): (r: JsValue)
    requires x.Num? || x.NaN?
    ensures x.NaN? <==> r.NaN?
    ensures r.Num? ==> r.n <= y && r.n <= x.n && (r.n == y || r.n == x.n)
  {
    if x.NaN? then NaN else if x.n <= y then x else Num(y)
  }
}
