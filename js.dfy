/** The slice of JavaScript value semantics the core relies on: truthiness,
    `String(v)`, `String.prototype.trim`, ASCII `toLowerCase`, and property reads
    on plain JSON objects. Numbers are integers (see README, "Left out"). */
module Js {

  datatype Value =
    | Undefined
    | Null
    | Bool(b: bool)
    | Num(n: int)
    | Str(s: string)
    | Arr(elems: seq<Value>)
    | Obj(fields: map<string, Value>)

  /** `!!v` */
  predicate Truthy(v: Value)
  {
    match v
    case Undefined => false
    case Null => false
    case Bool(b) => b
    case Num(n) => n != 0
    case Str(s) => s != ""
    case Arr(_) => true
    case Obj(_) => true
  }

  /** `typeof v === 'object'` (which holds of `null` as well) */
  predicate IsObjectType(v: Value)
  {
    v.Null? || v.Arr? || v.Obj?
  }

  /** `v[key]` for a value that is not null or undefined: own properties of a
      plain object; nothing else the core reads has the keys it asks for. */
  function Get(v: Value, key: string): Value
  {
    if v.Obj? && key in v.fields then v.fields[key] else Undefined
  }

  /** `v === null || v === undefined` */
  predicate Nullish(v: Value)
  {
    v.Undefined? || v.Null?
  }

  /** The TypeError message of reading `key` from `null` or `undefined`. */
  function ReadError(v: Value, key: string): string
    requires Nullish(v)
  {
    "Cannot read properties of " + (if v.Null? then "null" else "undefined") + " (reading '" + key + "')"
  }

  /** `o[key]` on a plain object given by its own fields. */
  function Lookup(fields: map<string, Value>, key: string): Value
  {
    if key in fields then fields[key] else Undefined
  }

  predicate IsDigit(c: char)
  {
    '0' <= c <= '9'
  }

  function DigitChar(d: nat): char
    requires d < 10
  {
    ['0', '1', '2', '3', '4', '5', '6', '7', '8', '9'][d]
  }

  function DigitValue(c: char): nat
    requires IsDigit(c)
  {
    (c as int - '0' as int) as nat
  }

  /** Decimal rendering of a natural number, as template literals print it. */
  function NatToStr(n: nat): (r: string)
    ensures |r| >= 1
    ensures forall k :: 0 <= k < |r| ==> IsDigit(r[k])
    ensures n >= 10 ==> r[0] != '0'
  {
    if n < 10 then [DigitChar(n)] else NatToStr(n / 10) + [DigitChar(n % 10)]
  }

  function IntToStr(n: int): string
  {
    if n < 0 then "-" + NatToStr(-n) else NatToStr(n)
  }

  /** `Number(ds)` for a run of decimal digits. */
  function DigitsValue(ds: string): nat
    requires forall k :: 0 <= k < |ds| ==> IsDigit(ds[k])
  {
    if ds == [] then 0 else DigitsValue(ds[..|ds| - 1]) * 10 + DigitValue(ds[|ds| - 1])
  }

  /** Reading back what `NatToStr` printed gives the number again. */
  lemma {:induction false} DigitsValueOfNatToStr(n: nat)
    ensures DigitsValue(NatToStr(n)) == n
  {
    var r := NatToStr(n);
    if n >= 10 {
      DigitsValueOfNatToStr(n / 10);
      assert r[..|r| - 1] == NatToStr(n / 10);
    }
  }

  /** Distinct numbers print differently. */
  lemma NatToStrInjective()
    ensures forall m: nat, n: nat :: NatToStr(m) == NatToStr(n) ==> m == n
  {
    forall m: nat, n: nat | NatToStr(m) == NatToStr(n)
      ensures m == n
    {
      DigitsValueOfNatToStr(m);
      DigitsValueOfNatToStr(n);
    }
  }

  /** `a || b` */
  function OrElse(a: Value, b: Value): (r: Value)
    ensures Truthy(a) ==> r == a
    ensures !Truthy(a) ==> r == b
  {
    if Truthy(a) then a else b
  }

  /** `o && o[key]` */
  function AndGet(o: Value, key: string): (r: Value)
    ensures Truthy(o) ==> r == Get(o, key)
    ensures !Truthy(o) ==> !Truthy(r)
  {
    if Truthy(o) then Get(o, key) else o
  }

  /** An array literal of strings. */
  function Strs(ss: seq<string>): (r: Value)
    ensures r.Arr? && |r.elems| == |ss|
    ensures forall k :: 0 <= k < |ss| ==> r.elems[k] == Str(ss[k])
  {
    Arr(seq(|ss|, k requires 0 <= k < |ss| => Str(ss[k])))
  }

  /** `String(v)` */
  function ToStr(v: Value): string
    decreases v
  {
    match v
    case Undefined => "undefined"
    case Null => "null"
    case Bool(b) => if b then "true" else "false"
    case Num(n) => IntToStr(n)
    case Str(s) => s
    case Arr(es) => JoinComma(seq(|es|, k requires 0 <= k < |es| =>
                      if es[k].Undefined? || es[k].Null? then "" else ToStr(es[k])))
    case Obj(_) => "[object Object]"
  }

  /** `Array.prototype.join` with the default separator. */
  function JoinComma(parts: seq<string>): string
  {
    if parts == [] then "" else if |parts| == 1 then parts[0] else parts[0] + "," + JoinComma(parts[1..])
  }

  /** JavaScript's WhiteSpace and LineTerminator code points: what `trim` strips
      and what `\s` matches. */
  predicate IsSpace(c: char)
  {
    var n := c as int;
    (9 <= n <= 13) || n == 0x20 || n == 0xA0 || n == 0x1680 || (0x2000 <= n <= 0x200A)
    || n == 0x2028 || n == 0x2029 || n == 0x202F || n == 0x205F || n == 0x3000 || n == 0xFEFF
  }

  predicate AllSpace(s: string)
  {
    forall k :: 0 <= k < |s| ==> IsSpace(s[k])
  }

  function TrimStart(s: string): (r: string)
    ensures |r| <= |s| && r == s[|s| - |r|..]
    ensures AllSpace(s[..|s| - |r|])
    ensures r == [] || !IsSpace(r[0])
  {
    if |s| > 0 && IsSpace(s[0]) then TrimStart(s[1..]) else s
  }

  function TrimEnd(s: string): (r: string)
    ensures |r| <= |s| && r == s[..|r|]
    ensures AllSpace(s[|r|..])
    ensures r == [] || !IsSpace(r[|r| - 1])
  {
    if |s| > 0 && IsSpace(s[|s| - 1]) then
      var r := TrimEnd(s[..|s| - 1]);
      assert s[|r|..] == s[..|s| - 1][|r|..] + [s[|s| - 1]];
      r
    else s
  }

  /** `s.trim()` */
  function Trim(s: string): string
  {
    TrimEnd(TrimStart(s))
  }

  /** `trim` strips exactly the leading and trailing white space: what is left is a
      slice of the input that neither begins nor ends with white space, and it is
      empty exactly when the input is all white space. */
  lemma TrimIsSlice(s: string)
    ensures exists i, j :: (0 <= i <= j <= |s| && Trim(s) == s[i..j]
                            && AllSpace(s[..i]) && AllSpace(s[j..]))
    ensures Trim(s) == [] || (!IsSpace(Trim(s)[0]) && !IsSpace(Trim(s)[|Trim(s)| - 1]))
    ensures Trim(s) == [] <==> AllSpace(s)
  {
    var t := TrimStart(s);
    var i := |s| - |t|;
    var j := i + |TrimEnd(t)|;
    assert Trim(s) == s[i..j];
    assert s[j..] == t[|TrimEnd(t)|..];
    if Trim(s) == [] {
      assert t == [] && s[..i] == s;
    }
  }

  /** A text with no white space at either end is its own trim. */
  lemma TrimUnpadded(s: string)
    requires s != [] && !IsSpace(s[0]) && !IsSpace(s[|s| - 1])
    ensures Trim(s) == s
  {
    assert TrimStart(s) == s;
  }

  /** Trimming twice changes nothing more. */
  lemma TrimIdempotent(s: string)
    ensures Trim(Trim(s)) == Trim(s)
  {
    TrimIsSlice(s);
  }

  /** `!v || !String(v).trim()`: missing, falsy or white space only. */
  predicate IsBlank(v: Value)
  {
    !Truthy(v) || Trim(ToStr(v)) == ""
  }

  function LowerChar(c: char): char
  {
    if 'A' <= c <= 'Z' then (c as int + 32) as char else c
  }

  /** `s.toLowerCase()` on the ASCII letters (see README, "Left out"). */
  function Lower(s: string): (r: string)
    ensures |r| == |s|
    ensures forall k :: 0 <= k < |s| ==> r[k] == LowerChar(s[k])
  {
    seq(|s|, k requires 0 <= k < |s| => LowerChar(s[k]))
  }
}
