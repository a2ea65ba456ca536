/**
 * A parsed JSON reply as the fastjson accessors see it: `Get` follows one
 * key, `Exists` asks whether it leads anywhere, and `GetInt`,
 * `GetStringBytes` and `GetArray` read the value found there, falling back
 * to 0, the empty string or the empty array when the key is absent or the
 * value has another type. `Set` stores a value under a key of an object. A nil document (the
 * result of a failed parse) behaves as `Null` under every one of them.
 */
module FastJson {
  import opened Wrappers
  import opened GoInt
  import opened Decimals

  datatype Value =
    | Null
    | Bool(b: bool)
    | Number(text: string)  // a number keeps the text it was written with
    | Str(s: string)        // a string, already unescaped
    | Array(items: seq<Value>)
    | Object(fields: map<string, Value>)

  /**
   * A decimal integer with an optional sign, as `strconv.Atoi` (sign `+` or
   * `-`) and fastjson's `ParseInt64` (sign `-` only) read it; text outside
   * the int64 range is an error.
   */
  function SignedDecimal(text: string, plusAllowed: bool): (r: Option<int>)
    ensures r.Some? ==> InInt64(r.value)
    ensures r.Some? ==> text != [] && (text[0] == '-' || (plusAllowed && text[0] == '+') || '0' <= text[0] <= '9')
  {
    var signed := text != [] && (text[0] == '-' || (plusAllowed && text[0] == '+'));
    var ds := if signed then text[1..] else text;
    if ds == [] || !AllDigits(ds) then None
    else
      var m: int := Decimal(ds);
      var n := if text[0] == '-' then -m else m;
      if InInt64(n) then Some(n) else None
  }

  /** `fmt.Sprintf("%d", n)`. */
  function IntText(n: int): (s: string)
    ensures s != [] && (s[0] == '-' <==> n < 0)
  {
    if n < 0 then "-" + DecimalText(-n) else DecimalText(n)
  }

  /** What `%d` writes, fastjson reads back as the same integer. */
  lemma ParseIntText(n: int)
    requires InInt64(n)
    ensures SignedDecimal(IntText(n), false) == Some(n)
  {
    var s := IntText(n);
    if n < 0 {
      assert s[1..] == DecimalText(-n);
      DecimalOfText(-n);
    } else {
      DecimalOfText(n);
    }
  }

  /** `Value.Get(key)`: an object member, or an array element when the key is an index. */
  function Get(v: Value, key: string): (r: Option<Value>)
    ensures r.Some? ==> v.Object? || v.Array?
    ensures v.Object? ==> (r.Some? <==> key in v.fields) && (key in v.fields ==> r.value == v.fields[key])
  {
    match v
    case Object(fields) => if key in fields then Some(fields[key]) else None
    case Array(items) =>
      (match SignedDecimal(key, true)
       case Some(n) => if 0 <= n < |items| then Some(items[n]) else None
       case None => None)
    case _ => None
  }

  predicate Exists(v: Value, key: string) {
    Get(v, key).Some?
  }

  /** `Value.GetInt(key)`: the integer found there, or 0. */
  function GetInt(v: Value, key: string): (r: int)
    ensures InInt64(r)
    ensures r != 0 ==> Get(v, key).Some? && Get(v, key).value.Number?
    ensures Get(v, key).Some? && Get(v, key).value.Number? && SignedDecimal(Get(v, key).value.text, false).Some? ==>
              r == SignedDecimal(Get(v, key).value.text, false).value
    ensures !Exists(v, key) ==> r == 0
  {
    match Get(v, key)
    case Some(Number(text)) =>
      (match SignedDecimal(text, false)
       case Some(n) => n
       case None => 0)
    case _ => 0
  }

  /** `Value.GetStringBytes(key)`: the string found there, or empty. */
  function GetStringBytes(v: Value, key: string): (r: string)
    ensures r != "" ==> Get(v, key) == Some(Str(r))
    ensures Get(v, key).Some? && Get(v, key).value.Str? ==> r == Get(v, key).value.s
  {
    match Get(v, key)
    case Some(Str(s)) => s
    case _ => ""
  }

  /** `Value.GetArray(key)`: the elements found there, or none. */
  function GetArray(v: Value, key: string): (r: seq<Value>)
    ensures r != [] ==> Get(v, key) == Some(Array(r))
    ensures Get(v, key).Some? && Get(v, key).value.Array? ==> r == Get(v, key).value.items
  {
    match Get(v, key)
    case Some(Array(items)) => items
    case _ => []
  }

  /** `fastjson.MustParse(fmt.Sprintf("%d", n))`. */
  function IntValue(n: int): Value {
    Number(IntText(n))
  }

  /**
   * `Value.Set(key, x)`: stores `x` under `key` in an object, replacing any
   * earlier value; on any other value, and on a nil document, it does nothing.
   */
  function Set(v: Value, key: string, x: Value): (r: Value)
    ensures v.Object? ==> r.Object? && Get(r, key) == Some(x)
    ensures !v.Object? ==> r == v
    ensures forall k :: k != key ==> Get(r, k) == Get(v, k)
  {
    match v
    case Object(fields) => Object(fields[key := x])
    case _ => v
  }

  /** Stores under two different keys do not interfere. */
  lemma SetsCommute(v: Value, k1: string, x1: Value, k2: string, x2: Value)
    requires k1 != k2
    ensures Set(Set(v, k1, x1), k2, x2) == Set(Set(v, k2, x2), k1, x1)
  {
    if v.Object? {
      assert v.fields[k1 := x1][k2 := x2] == v.fields[k2 := x2][k1 := x1];
    }
  }

  /** An integer stored with `IntValue` is what `GetInt` reads back. */
  lemma GetIntStored(v: Value, key: string, n: int)
    requires v.Object? && InInt64(n)
    ensures GetInt(Set(v, key, IntValue(n)), key) == n
  {
    ParseIntText(n);
  }
}
