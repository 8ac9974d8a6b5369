/** The fragment of JavaScript value semantics that the DOI core relies on:
    the primitives a form property can hold, `typeof`, truthiness, the
    loose comparisons `v == n`, `v != 0` and `v < 0`, and the string-to-number
    conversion those comparisons perform.  Numbers are mathematical reals
    (no rounding, no NaN or Infinity values). */
module JsValues {

  /** A JavaScript primitive as the core stores it. */
  datatype Value = VNull | VStr(str: string) | VNum(num: real) | VBool(b: bool)

  /** A JSON document as the core emits it. */
  datatype Json = JVal(v: Value) | JArr(items: seq<Json>) | JObj(fields: map<string, Json>)

  /** `typeof v` (null is an "object"). */
  function TypeOf(v: Value): (t: string)
    ensures t == "object" <==> v.VNull?
    ensures t == "string" <==> v.VStr?
  {
    match v
    case VNull => "object"
    case VStr(_) => "string"
    case VNum(_) => "number"
    case VBool(_) => "boolean"
  }

  /** ToBoolean: null, false, 0 and "" are falsy, everything else truthy. */
  predicate Truthy(v: Value) {
    match v
    case VNull => false
    case VStr(s) => s != ""
    case VNum(r) => r != 0.0
    case VBool(b) => b
  }

  /** `o[k]`: the member, or nothing for `undefined`. */
  function Member(o: map<string, Json>, k: string): (r: Option<Json>)
    ensures r.Some? <==> k in o
  {
    if k in o then Some(o[k]) else None
  }

  /** Truthiness of a possibly missing object member (undefined is falsy). */
  predicate TruthyMember(o: map<string, Json>, k: string) {
    k in o && (match o[k] case JVal(v) => Truthy(v) case _ => true)
  }

  // ---------------------------------------------------------------------
  // ToNumber applied to a string (StringToNumber of ECMA-262, section 7.1.4.1.1)
  // ---------------------------------------------------------------------

  /** The result of ToNumber, with finite values kept exact. */
  datatype Number = NaN | PosInf | NegInf | Finite(r: real)

  /** WhiteSpace and LineTerminator code points, which StringToNumber trims. */
  predicate IsJsSpace(c: char) {
    c in {'\t', '\n', '\U{000B}', '\U{000C}', '\r', ' ', '\U{00A0}', '\U{1680}',
          '\U{2000}', '\U{2001}', '\U{2002}', '\U{2003}', '\U{2004}', '\U{2005}',
          '\U{2006}', '\U{2007}', '\U{2008}', '\U{2009}', '\U{200A}', '\U{2028}',
          '\U{2029}', '\U{202F}', '\U{205F}', '\U{3000}', '\U{FEFF}'}
  }

  /** Every character is white space. */
  predicate AllJsSpace(s: string) {
    forall i :: 0 <= i < |s| ==> IsJsSpace(s[i])
  }

  /** The string without its leading white space: a suffix of s whose first
      character is not white space (TrimStartDropsOnlySpace: every dropped
      character is). */
  function TrimStart(s: string): (t: string)
    ensures |t| <= |s|
    ensures t == s[|s| - |t|..]
    ensures t == [] || !IsJsSpace(t[0])
  {
    if s != [] && IsJsSpace(s[0]) then TrimStart(s[1..]) else s
  }

  /** The string without its trailing white space: a prefix of s whose last
      character is not white space (TrimEndDropsOnlySpace: every dropped
      character is). */
  function TrimEnd(s: string): (t: string)
    ensures |t| <= |s|
    ensures t == s[..|t|]
    ensures t == [] || !IsJsSpace(t[|t| - 1])
  {
    if s != [] && IsJsSpace(s[|s| - 1]) then TrimEnd(s[..|s| - 1]) else s
  }

  /** Every character TrimStart drops is white space. */
  lemma {:induction false} TrimStartDropsOnlySpace(s: string)
    ensures AllJsSpace(s[..|s| - |TrimStart(s)|])
  {
    if s != [] && IsJsSpace(s[0]) {
      TrimStartDropsOnlySpace(s[1..]);
      var d := s[1..][..|s[1..]| - |TrimStart(s[1..])|];
      assert s[..|s| - |TrimStart(s)|] == [s[0]] + d;
    }
  }

  /** Every character TrimEnd drops is white space. */
  lemma {:induction false} TrimEndDropsOnlySpace(s: string)
    ensures AllJsSpace(s[|TrimEnd(s)|..])
  {
    if s != [] && IsJsSpace(s[|s| - 1]) {
      var p := s[..|s| - 1];
      TrimEndDropsOnlySpace(p);
      assert s[|TrimEnd(s)|..] == p[|TrimEnd(p)|..] + [s[|s| - 1]];
    }
  }

  function Trim(s: string): string {
    TrimEnd(TrimStart(s))
  }

  /** A string's `.length`: JavaScript strings are UTF-16, so a character
      above U+FFFF counts as two code units (a surrogate pair). */
  function Utf16Length(s: string): (n: nat)
    ensures |s| <= n <= 2 * |s|
  {
    if s == [] then 0
    else Utf16Length(s[..|s| - 1]) + if s[|s| - 1] as int <= 0xFFFF then 1 else 2
  }

  /** The length counts one unit per character exactly when no character
      lies above U+FFFF. */
  lemma {:induction false} Utf16LengthOneUnitEach(s: string)
    ensures Utf16Length(s) == |s| <==> forall i :: 0 <= i < |s| ==> s[i] as int <= 0xFFFF
  {
    if s != [] {
      var p := s[..|s| - 1];
      Utf16LengthOneUnitEach(p);
      assert forall i :: 0 <= i < |p| ==> p[i] == s[i];
    }
  }

  /** A string of decimal digits has one code unit per character. */
  lemma DigitsAreOneUnitEach(s: string)
    requires AllDecimalDigits(s)
    ensures Utf16Length(s) == |s|
  {
    Utf16LengthOneUnitEach(s);
  }

  predicate IsDecimalDigit(c: char) { '0' <= c <= '9' }

  predicate AllDecimalDigits(s: string) {
    forall i :: 0 <= i < |s| ==> IsDecimalDigit(s[i])
  }

  /** The value of a digit character in bases up to 16, or 16 when it is not one. */
  function DigitValue(c: char): nat {
    if '0' <= c <= '9' then (c as int) - ('0' as int)
    else if 'a' <= c <= 'f' then (c as int) - ('a' as int) + 10
    else if 'A' <= c <= 'F' then (c as int) - ('A' as int) + 10
    else 16
  }

  predicate AllDigitsIn(s: string, base: nat) {
    forall i :: 0 <= i < |s| ==> DigitValue(s[i]) < base
  }

  /** The natural number the digit string `s` denotes in `base`. */
  function DigitsValue(s: string, base: nat): nat
    requires AllDigitsIn(s, base)
  {
    if s == [] then 0 else DigitsValue(s[..|s| - 1], base) * base + DigitValue(s[|s| - 1])
  }

  /** An array index (section 6.1.7 of ECMA-262): the canonical decimal
      text of an integer in [0, 2^32 - 1), with no leading zero.  An object
      enumerates such keys first, in ascending order, before its other
      string keys in insertion order. */
  predicate ArrayIndex(key: string) {
    key != [] && AllDigitsIn(key, 10) && (|key| > 1 ==> key[0] != '0') && DigitsValue(key, 10) < 0xFFFF_FFFF
  }

  function TenTo(n: nat): nat {
    if n == 0 then 1 else 10 * TenTo(n - 1)
  }

  /** A digit string without a leading zero is at least 10^(|s|-1). */
  lemma {:induction false} LeadingDigitBound(s: string)
    requires s != [] && AllDigitsIn(s, 10) && s[0] != '0'
    ensures DigitsValue(s, 10) >= TenTo(|s| - 1)
  {
    if |s| > 1 {
      var p := s[..|s| - 1];
      assert p[0] == s[0];
      assert AllDigitsIn(p, 10) by {
        forall i | 0 <= i < |p|
          ensures DigitValue(p[i]) < 10
        {
          assert p[i] == s[i];
        }
      }
      LeadingDigitBound(p);
    }
  }

  lemma {:induction false} TenToGrows(a: nat, b: nat)
    requires a <= b
    ensures TenTo(a) <= TenTo(b)
  {
    if a < b {
      TenToGrows(a, b - 1);
    }
  }

  /** An array index has at most ten digits, so no key of eleven or more
      UTF-16 code units, such as a CPF or a CNPJ, is one. */
  lemma LongKeyNotArrayIndex(key: string)
    requires Utf16Length(key) > 10
    ensures !ArrayIndex(key)
  {
    if ArrayIndex(key) {
      assert AllDecimalDigits(key) by {
        forall i | 0 <= i < |key|
          ensures IsDecimalDigit(key[i])
        {
          assert DigitValue(key[i]) < 10;
        }
      }
      assert TenTo(10) == 10000000000;
      DigitsAreOneUnitEach(key);
      TenToGrows(10, |key| - 1);
      LeadingDigitBound(key);
    }
  }

  function Pow10(n: nat): (p: real)
    ensures p >= 1.0
  {
    if n == 0 then 1.0 else 10.0 * Pow10(n - 1)
  }

  /** First index of `c` in `s`, or |s|. */
  function IndexOf(s: string, c: char): (k: nat)
    ensures k <= |s|
    ensures forall i :: 0 <= i < k ==> s[i] != c
    ensures k < |s| ==> s[k] == c
  {
    if s == [] then 0 else if s[0] == c then 0 else 1 + IndexOf(s[1..], c)
  }

  /** SignedInteger of an ExponentPart. */
  function ParseExponent(e: string): Option<int> {
    if e != [] && (e[0] == '+' || e[0] == '-') then
      (if e[1..] != [] && AllDecimalDigits(e[1..]) then
         Some(if e[0] == '-' then -(DigitsValue(e[1..], 10) as int) else DigitsValue(e[1..], 10) as int)
       else None)
    else if e != [] && AllDecimalDigits(e) then Some(DigitsValue(e, 10) as int)
    else None
  }

  function Scale(m: real, exp: int): real {
    if exp >= 0 then m * Pow10(exp) else m / Pow10(-exp)
  }

  /** StrUnsignedDecimalLiteral: "Infinity", or digits with an optional point
      and an optional exponent, with at least one mantissa digit. */
  function ParseUnsignedDecimal(u: string): Number {
    if u == "Infinity" then PosInf
    else
      var ke := if IndexOf(u, 'e') < IndexOf(u, 'E') then IndexOf(u, 'e') else IndexOf(u, 'E');
      var mantissa := u[..ke];
      var exp := if ke < |u| then ParseExponent(u[ke + 1..]) else Some(0);
      var kd := IndexOf(mantissa, '.');
      var whole := mantissa[..kd];
      var frac := if kd < |mantissa| then mantissa[kd + 1..] else [];
      if exp.None? || !AllDecimalDigits(whole) || !AllDecimalDigits(frac) || |whole| + |frac| == 0 then NaN
      else Finite(Scale((DigitsValue(whole + frac, 10) as real) / Pow10(|frac|), exp.value))
  }

  /** NonDecimalIntegerLiteral: 0b, 0o or 0x followed by at least one digit. */
  function ParseNonDecimal(t: string): Option<nat> {
    if |t| >= 3 && t[0] == '0' then
      var base := if t[1] in {'b', 'B'} then 2 else if t[1] in {'o', 'O'} then 8
                  else if t[1] in {'x', 'X'} then 16 else 0;
      if base != 0 && AllDigitsIn(t[2..], base) then Some(DigitsValue(t[2..], base)) else None
    else None
  }

  function Negate(n: Number): Number {
    match n
    case NaN => NaN
    case PosInf => NegInf
    case NegInf => PosInf
    case Finite(r) => Finite(-r)
  }

  /** ToNumber(s) for a string s. */
  function StringToNumber(s: string): Number {
    var t := Trim(s);
    if t == [] then Finite(0.0)
    else if ParseNonDecimal(t).Some? then Finite(ParseNonDecimal(t).value as real)
    else if t[0] == '+' then ParseUnsignedDecimal(t[1..])
    else if t[0] == '-' then Negate(ParseUnsignedDecimal(t[1..]))
    else ParseUnsignedDecimal(t)
  }

  /** ToNumber of a primitive. */
  function ToNumber(v: Value): Number {
    match v
    case VNull => Finite(0.0)
    case VStr(s) => StringToNumber(s)
    case VNum(r) => Finite(r)
    case VBool(b) => Finite(if b then 1.0 else 0.0)
  }

  /** Abstract equality `a == b` (IsLooselyEqual) between two primitives. */
  predicate LooseEq(a: Value, b: Value) {
    if a.VNull? || b.VNull? then a.VNull? && b.VNull?
    else if TypeOf(a) == TypeOf(b) then a == b
    else ToNumber(a) == ToNumber(b) && ToNumber(a).Finite?
  }

  /** `v == 0`, as written in the flattener's `value != 0` filter. */
  predicate LooseEqZero(v: Value) {
    LooseEq(v, VNum(0.0))
  }

  /** `v < 0` (IsLessThan against the number 0). */
  predicate LessThanZero(v: Value) {
    match ToNumber(v)
    case Finite(r) => r < 0.0
    case NegInf => true
    case _ => false
  }

  datatype Option<T> = None | Some(value: T)

  /** The names a plain object `{}` inherits from `Object.prototype`: looking
      one of them up on an object that never stored it still yields a truthy
      value (a function, or the prototype itself for `__proto__`). */
  predicate ObjectPrototypeKey(k: string) {
    k == "constructor" || k == "__defineGetter__" || k == "__defineSetter__" || k == "hasOwnProperty" ||
    k == "__lookupGetter__" || k == "__lookupSetter__" || k == "isPrototypeOf" || k == "propertyIsEnumerable" ||
    k == "toString" || k == "valueOf" || k == "__proto__" || k == "toLocaleString"
  }

  // ---------------------------------------------------------------------
  // Facts about the comparisons
  // ---------------------------------------------------------------------

  /** For null, booleans and numbers `v == 0` is exactly "falsy but not null";
      strings differ: "" and "0" are both loosely zero, though "0" is truthy. */
  lemma LooseZeroVersusFalsy(v: Value)
    ensures v.VNull? ==> !LooseEqZero(v) && !Truthy(v)
    ensures v.VBool? || v.VNum? ==> (LooseEqZero(v) <==> !Truthy(v))
    ensures v.VStr? && v.str == "" ==> LooseEqZero(v) && !Truthy(v)
  {
    if v.VStr? && v.str == "" {
      assert Trim("") == "";
    }
  }

  /** The string "0" is truthy yet `"0" == 0`. */
  lemma ZeroStringIsTruthyAndLooselyZero()
    ensures Truthy(VStr("0")) && LooseEqZero(VStr("0"))
  {
    assert TrimStart("0") == "0";
    assert TrimEnd("0") == "0";
    assert IndexOf("0", 'e') == 1 && IndexOf("0", 'E') == 1;
    assert IndexOf("0", '.') == 1;
    assert DigitsValue("0", 10) == 0;
    assert ParseUnsignedDecimal("0") == Finite(0.0);
  }

  /** A string of blanks is truthy yet loosely equal to 0. */
  lemma BlankStringIsTruthyAndLooselyZero()
    ensures Truthy(VStr("  ")) && LooseEqZero(VStr("  "))
  {
    assert TrimStart(" ") == "";
    assert TrimStart("  ") == "";
  }

  /** A hexadecimal zero is truthy yet loosely equal to 0. */
  lemma HexZeroIsTruthyAndLooselyZero()
    ensures Truthy(VStr("0x0")) && LooseEqZero(VStr("0x0"))
  {
    assert !IsJsSpace('0');
    assert TrimStart("0x0") == "0x0";
    assert TrimEnd("0x0") == "0x0";
    assert "0x0"[0] == '0' && "0x0"[1] == 'x' && "0x0"[2..] == "0";
    assert AllDigitsIn("0", 16);
    assert DigitsValue("0", 16) == 0;
  }

  /** A non-empty string of decimal digits converts to a finite, non-negative number. */
  lemma DigitStringIsNonNegative(s: string)
    requires s != [] && AllDecimalDigits(s)
    ensures !LessThanZero(VStr(s))
  {
    assert !IsJsSpace(s[0]) && !IsJsSpace(s[|s| - 1]);
    assert TrimStart(s) == s;
    assert TrimEnd(s) == s;
    assert Trim(s) == s;
    // no 'e', 'E' or '.' in a digit string
    assert IndexOf(s, 'e') == |s| by { NotInIndexOf(s, 'e'); }
    assert IndexOf(s, 'E') == |s| by { NotInIndexOf(s, 'E'); }
    assert IndexOf(s, '.') == |s| by { NotInIndexOf(s, '.'); }
    assert s[..|s|] == s;
    assert s + [] == s;
    if ParseNonDecimal(s).None? {
      assert s[0] != '+' && s[0] != '-';
      assert s != "Infinity";
      assert ParseUnsignedDecimal(s) == Finite(Scale((DigitsValue(s, 10) as real) / Pow10(0), 0));
    }
  }

  lemma NotInIndexOf(s: string, c: char)
    requires forall i :: 0 <= i < |s| ==> s[i] != c
    ensures IndexOf(s, c) == |s|
  {
  }
}
