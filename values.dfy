/** Python values as the handlers and the data layer see them: the scalar
    values of request bodies, claim sets and table rows, the dicts that hold
    them, the exceptions the code raises, and the `int()` and truthiness
    rules it relies on. */
module Values {

  /** A scalar Python value. `Num` is a non-integral number (a `Decimal` read
      from the store, a timestamp); integral numbers are `Int`. */
  datatype Value = Null | Bool(b: bool) | Int(i: int) | Num(r: real) | Str(s: string)

  /** A dict with string keys: a request body, a claim set, a table row. */
  type Item = map<string, Value>

  /** The exceptions the modelled code can raise. */
  datatype Error =
    | KeyError(key: string)   // `d[k]` with `k` absent
    | TypeError               // wrong argument type, or a call with a missing argument
    | ValueError              // a malformed literal given to `int()` or to a date parser
    | ClientError             // the table store refused the call
    | TokenRejected           // the identity provider did not vouch for the token

  datatype Result<T> = Ok(value: T) | Raise(error: Error)

  datatype Option<T> = None | Some(value: T)

  /** `d[k]`. */
  function Get(d: Item, k: string): Result<Value>
  {
    if k in d then Ok(d[k]) else Raise(KeyError(k))
  }

  /** Python's truth value of a scalar (`if v:`). */
  predicate Truthy(v: Value)
  {
    match v
    case Null => false
    case Bool(b) => b
    case Int(i) => i != 0
    case Num(r) => r != 0.0
    case Str(s) => s != ""
  }

  /** `int(v)`. */
  function ToInt(v: Value): (r: Result<int>)
    ensures v.Int? ==> r == Ok(v.i)
    ensures v.Null? ==> r == Raise(TypeError)
    ensures v.Str? ==> (r.Ok? <==> ParseInt(v.s).Some?)
  {
    match v
    case Null => Raise(TypeError)
    case Bool(b) => Ok(if b then 1 else 0)
    case Int(i) => Ok(i)
    case Num(x) => Ok(Truncate(x))
    case Str(s) => if ParseInt(s).Some? then Ok(ParseInt(s).value) else Raise(ValueError)
  }

  /** `int(x)` for a non-integral number: rounds toward zero. */
  function Truncate(x: real): (n: int)
    ensures x >= 0.0 ==> n as real <= x < n as real + 1.0
    ensures x < 0.0 ==> n as real - 1.0 < x <= n as real
  {
    if x >= 0.0 then x.Floor else -((-x).Floor)
  }

  predicate IsDigit(c: char)
  {
    '0' <= c <= '9'
  }

  predicate AllDigits(s: string)
  {
    forall i :: 0 <= i < |s| ==> IsDigit(s[i])
  }

  /** The number a string of decimal digits denotes. */
  function DigitsValue(s: string): nat
    requires AllDigits(s)
  {
    if |s| == 0 then 0 else DigitsValue(s[..|s| - 1]) * 10 + (s[|s| - 1] as int - '0' as int)
  }

  /** `int(s)` for a string: an optional sign followed by decimal digits. */
  function ParseInt(s: string): Option<int>
  {
    if |s| > 0 && (s[0] == '-' || s[0] == '+') then
      var digits := s[1..];
      if |digits| > 0 && AllDigits(digits) then
        Some(if s[0] == '-' then 0 - DigitsValue(digits) as int else DigitsValue(digits))
      else None
    else if |s| > 0 && AllDigits(s) then Some(DigitsValue(s))
    else None
  }

  /** `str(n)` for a non-negative integer. */
  function ShowNat(n: nat): (s: string)
    ensures |s| > 0 && AllDigits(s)
  {
    var last := [('0' as int + n % 10) as char];
    if n < 10 then last else ShowNat(n / 10) + last
  }

  /** `str(n)`. */
  function Show(n: int): string
  {
    if n < 0 then "-" + ShowNat(-n) else ShowNat(n)
  }

  lemma {:induction false} DigitsOfShowNat(n: nat)
    ensures DigitsValue(ShowNat(n)) == n
  {
    var s := ShowNat(n);
    if n >= 10 {
      DigitsOfShowNat(n / 10);
      assert s[..|s| - 1] == ShowNat(n / 10);
    }
  }

  /** `int(str(n)) == n`: parsing undoes printing. */
  lemma ParseShow(n: int)
    ensures ParseInt(Show(n)) == Some(n)
    ensures ToInt(Str(Show(n))) == Ok(n)
  {
    if n < 0 {
      DigitsOfShowNat(-n);
      assert Show(n)[1..] == ShowNat(-n);
    } else {
      DigitsOfShowNat(n);
    }
  }
}
