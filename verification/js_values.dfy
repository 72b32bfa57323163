/** JavaScript values as the TypeScript sources see them at run time: what `typeof`,
    truthiness, property lookup with `?.` and `Object.keys` do with them. */
module JsValues {
  import opened Wrappers

  /** An IEEE double reduced to what the sources test: finite, the two infinities, NaN. */
  datatype Number = Finite(value: real) | PosInfinity | NegInfinity | NaN

  datatype JsValue =
    | Undefined
    | Null
    | Bool(b: bool)
    | Num(n: Number)
    | Str(s: string)
    | Arr(items: seq<JsValue>)
    | Obj(props: seq<(string, JsValue)>)

  /** A thrown error: its constructor name and its message. */
  datatype JsError = JsError(name: string, message: string)

  /** `new Error(message)` */
  function Error(message: string): JsError {
    JsError("Error", message)
  }

  /** `${error}`: an error interpolated into a string reads `<name>: <message>`. */
  function ErrorString(e: JsError): string {
    e.name + ": " + e.message
  }

  const CannotConvertToObject := JsError("TypeError", "Cannot convert undefined or null to object")

  /** ToBoolean: `undefined`, `null`, `false`, `0`, `NaN` and `""` are falsy. */
  predicate Truthy(v: JsValue) {
    match v
    case Undefined => false
    case Null => false
    case Bool(b) => b
    case Num(n) => !n.NaN? && n != Finite(0.0)
    case Str(s) => s != ""
    case Arr(_) => true
    case Obj(_) => true
  }

  /** `typeof v === 'number' && !isNaN(v)`: the infinities pass. */
  predicate IsNumberNotNaN(v: JsValue) {
    v.Num? && !v.n.NaN?
  }

  function Digit(d: nat): (c: char)
    requires d < 10
    ensures '0' <= c <= '9'
    ensures c as int == '0' as int + d
  {
    ('0' as int + d) as char
  }

  /** The decimal spelling of a natural number (array indices, `Date.now()`). */
  function DecimalString(n: nat): (r: string)
    ensures |r| > 0
    ensures forall i :: 0 <= i < |r| ==> '0' <= r[i] <= '9'
  {
    if n < 10 then [Digit(n)] else DecimalString(n / 10) + [Digit(n % 10)]
  }

  /** Different numbers have different decimal spellings. */
  lemma {:induction false} DecimalStringInjective(a: nat, b: nat)
    requires DecimalString(a) == DecimalString(b)
    ensures a == b
  {
    if a >= 10 && b >= 10 {
      var sa, sb := DecimalString(a), DecimalString(b);
      var pa, pb := DecimalString(a / 10), DecimalString(b / 10);
      assert sa == pa + [Digit(a % 10)] && sb == pb + [Digit(b % 10)];
      assert |pa| == |pb|;
      assert pa == sa[..|pa|] && pb == sb[..|pb|];
      assert Digit(a % 10) == sa[|pa|];
      DecimalStringInjective(a / 10, b / 10);
    }
  }

  /** The keys `Object.keys` gives for an array or a string of length n. */
  function IndexKeys(n: nat): (keys: seq<string>)
    ensures |keys| == n
    ensures forall i :: 0 <= i < n ==> keys[i] == DecimalString(i)
  {
    seq(n, i requires 0 <= i < n => DecimalString(i))
  }

  /** The element of `xs` whose index is spelled `key`, searching from `from`. */
  function ElementAt<T>(xs: seq<T>, key: string, from: nat): (r: Option<T>)
    ensures r.Some? ==> r.value in xs
    decreases |xs| - from
  {
    if from >= |xs| then None
    else if DecimalString(from) == key then Some(xs[from])
    else ElementAt(xs, key, from + 1)
  }

  /** The value of the first own property named `key`, or `undefined`. */
  function Lookup(props: seq<(string, JsValue)>, key: string): JsValue {
    if props == [] then Undefined
    else if props[0].0 == key then props[0].1
    else Lookup(props[1..], key)
  }

  predicate HasKey(props: seq<(string, JsValue)>, key: string) {
    exists i :: 0 <= i < |props| && props[i].0 == key
  }

  /** `v?.[key]`: `undefined` on `undefined`, `null` and on a primitive without that property. */
  function Get(v: JsValue, key: string): JsValue {
    match v
    case Obj(props) => Lookup(props, key)
    case Arr(items) =>
      (match ElementAt(items, key, 0) case Some(x) => x case None => Undefined)
    case Str(s) =>
      (match ElementAt(s, key, 0) case Some(c) => Str([c]) case None => Undefined)
    case _ => Undefined
  }

  /** `v[key]` without optional chaining: reading a property of `undefined` or `null` throws. */
  function Member(v: JsValue, key: string): (r: Result<JsValue, JsError>)
    ensures r.Failure? <==> v.Undefined? || v.Null?
    ensures r.Success? ==> r.value == Get(v, key)
  {
    match v
    case Undefined => Failure(JsError("TypeError", "Cannot read properties of undefined (reading '" + key + "')"))
    case Null => Failure(JsError("TypeError", "Cannot read properties of null (reading '" + key + "')"))
    case _ => Success(Get(v, key))
  }

  /** `v?.[k0]?.[k1]...` */
  function GetPath(v: JsValue, path: seq<string>): JsValue
    decreases |path|
  {
    if path == [] then v else GetPath(Get(v, path[0]), path[1..])
  }

  /** `Object.keys(v)`: throws on `undefined` and `null`, is empty for other primitives. */
  function Keys(v: JsValue): (r: Result<seq<string>, JsError>)
    ensures r.Failure? <==> v.Undefined? || v.Null?
  {
    match v
    case Undefined => Failure(CannotConvertToObject)
    case Null => Failure(CannotConvertToObject)
    case Obj(props) => Success(seq(|props|, i requires 0 <= i < |props| => props[i].0))
    case Arr(items) => Success(IndexKeys(|items|))
    case Str(s) => Success(IndexKeys(|s|))
    case _ => Success([])
  }

  /** `delete obj[key]` */
  function Without(props: seq<(string, JsValue)>, key: string): (r: seq<(string, JsValue)>)
    ensures !HasKey(r, key)
    ensures forall k :: k != key ==> Lookup(r, k) == Lookup(props, k)
    ensures forall i :: 0 <= i < |r| ==> r[i] in props
  {
    if props == [] then []
    else if props[0].0 == key then Without(props[1..], key)
    else [props[0]] + Without(props[1..], key)
  }

  /** `obj[key] = v`: replaces the first property named `key`, or appends one. */
  function SetProp(props: seq<(string, JsValue)>, key: string, v: JsValue): (r: seq<(string, JsValue)>)
    ensures Lookup(r, key) == v
    ensures forall k :: k != key ==> Lookup(r, k) == Lookup(props, k)
  {
    if props == [] then [(key, v)]
    else if props[0].0 == key then [(key, v)] + props[1..]
    else [props[0]] + SetProp(props[1..], key, v)
  }
}
