/** JavaScript values and plain objects, as the "Changed" mixin reads them. */
module JsValues {

  datatype Option<+T> = None | Some(value: T)

  /** Failures that the mixin hands back, unchanged, to the save operation. */
  datatype Error =
    | StorageFailure(reason: string)
    | TypeError(reason: string)
    | CallbackFailure(reason: string)

  datatype Result<+T> = Ok(value: T) | Err(error: Error)

  /** What `next(err)` receives: nothing, or the error that aborts the operation. */
  datatype Outcome = Done | Failed(error: Error)

  /**
   * A property value. Numbers are integers; an object or array is known only
   * by its identity, so `===` on two values is Dafny's `==` on this datatype.
   */
  datatype Value =
    | Undefined
    | Null
    | Bool(b: bool)
    | Num(n: int)
    | Str(s: string)
    | Obj(ref: nat)

  /** JavaScript truthiness: what `if (v)` and `!v` test. */
  predicate Truthy(v: Value) {
    match v
    case Undefined => false
    case Null => false
    case Bool(b) => b
    case Num(n) => n != 0
    case Str(s) => s != ""
    case Obj(_) => true
  }

  predicate IsDigit(c: char) {
    '0' <= c <= '9'
  }

  function DigitChar(d: nat): (c: char)
    requires d < 10
    ensures IsDigit(c)
  {
    (('0' as int) + d) as char
  }

  /** The decimal numeral of a natural number, without leading zeros. */
  function Digits(n: nat): (s: string)
    ensures 1 <= |s|
    ensures 10 <= n ==> 2 <= |s|
    ensures forall i :: 0 <= i < |s| ==> IsDigit(s[i])
    decreases n
  {
    if n < 10 then [DigitChar(n)] else Digits(n / 10) + [DigitChar(n % 10)]
  }

  /**
   * The string a value becomes when it is used as an object key
   * (`changedProperties[itemId]`): JavaScript's ToPropertyKey.
   */
  function PropertyKey(v: Value): string {
    match v
    case Undefined => "undefined"
    case Null => "null"
    case Bool(b) => if b then "true" else "false"
    case Num(n) => if n < 0 then "-" + Digits(-n) else Digits(n)
    case Str(s) => s
    case Obj(_) => "[object Object]"
  }

  lemma {:induction false} DigitsInjective(n: nat, m: nat)
    requires Digits(n) == Digits(m)
    ensures n == m
    decreases n
  {
    if n < 10 && m < 10 {
      assert DigitChar(n) == Digits(n)[0] == Digits(m)[0] == DigitChar(m);
    } else if 10 <= n && 10 <= m {
      var dn, dm := Digits(n), Digits(m);
      assert dn[|dn| - 1] == DigitChar(n % 10);
      assert dm[|dm| - 1] == DigitChar(m % 10);
      assert dn[..|dn| - 1] == Digits(n / 10);
      assert dm[..|dm| - 1] == Digits(m / 10);
      DigitsInjective(n / 10, m / 10);
    }
  }

  /** Distinct numeric ids become distinct object keys. */
  lemma {:induction false} NumericKeysDistinct(n: int, m: int)
    requires n != m
    ensures PropertyKey(Num(n)) != PropertyKey(Num(m))
  {
    if n < 0 && m < 0 {
      if PropertyKey(Num(n)) == PropertyKey(Num(m)) {
        assert ("-" + Digits(-n))[1..] == Digits(-n);
        assert ("-" + Digits(-m))[1..] == Digits(-m);
        DigitsInjective(-n, -m);
      }
    } else if n >= 0 && m >= 0 {
      if Digits(n) == Digits(m) {
        DigitsInjective(n, m);
      }
    } else if n < 0 {
      assert PropertyKey(Num(n))[0] == '-';
      assert IsDigit(PropertyKey(Num(m))[0]);
    } else {
      assert PropertyKey(Num(m))[0] == '-';
      assert IsDigit(PropertyKey(Num(n))[0]);
    }
  }

  predicate Distinct(s: seq<string>) {
    forall i, j :: 0 <= i < j < |s| ==> s[i] != s[j]
  }

  /**
   * A plain object: its own enumerable keys in the order `Object.keys`
   * lists them (integer-like names first, ascending, then the others in
   * insertion order), and the value of each.
   */
  datatype ObjectData = ObjectData(keys: seq<string>, vals: map<string, Value>)

  predicate WellFormed(o: ObjectData) {
    && Distinct(o.keys)
    && o.vals.Keys == set k | k in o.keys
  }

  type JsObject = o: ObjectData | WellFormed(o) witness ObjectData([], map[])

  /** `o[k]`: a missing property reads as `undefined`. */
  function Get(o: JsObject, k: string): (v: Value)
    ensures k !in o.keys ==> v == Undefined
  {
    if k in o.vals then o.vals[k] else Undefined
  }
}
