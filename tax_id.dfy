/** Brazilian tax identifiers: the módulo-11 check-digit rules of the Receita
    Federal for the CPF (natural persons, 11 digits) and the CNPJ (legal
    entities, 14 digits), as `CPF.validate`, `CNPJ.validate` and
    `Subject.validate` implement them. */
module TaxId {
  import opened JsValues

  /** The digit values of a string of decimal digits (`split("").map(parseInt)`). */
  function Digits(s: string): (d: seq<int>)
    requires AllDecimalDigits(s)
    ensures |d| == |s|
    ensures forall i :: 0 <= i < |s| ==> d[i] == (s[i] as int) - ('0' as int) && 0 <= d[i] <= 9
  {
    if s == [] then [] else Digits(s[..|s| - 1]) + [(s[|s| - 1] as int) - ('0' as int)]
  }

  /** Σ_{i<n} d[i]·w[i], the sum the validators accumulate in their for-loops. */
  function WeightedSum(d: seq<int>, w: seq<int>, n: nat): int
    requires n <= |d| && n <= |w|
  {
    if n == 0 then 0 else WeightedSum(d, w, n - 1) + d[n - 1] * w[n - 1]
  }

  /** Every character is the first one (`/^(\d)\1{k}$/` on an all-digit string). */
  predicate AllSame(s: string) {
    forall i :: 0 <= i < |s| ==> s[i] == s[0]
  }

  const CpfWeights1: seq<int> := [10, 9, 8, 7, 6, 5, 4, 3, 2]
  const CpfWeights2: seq<int> := [11, 10, 9, 8, 7, 6, 5, 4, 3, 2]
  const CnpjWeights1: seq<int> := [5, 4, 3, 2, 9, 8, 7, 6, 5, 4, 3, 2]
  const CnpjWeights2: seq<int> := [6, 5, 4, 3, 2, 9, 8, 7, 6, 5, 4, 3, 2]

  /** CPF rule: 11 − (sum mod 11), with 10 and 11 mapped to 0. */
  function CpfCheck(sum: int): int {
    var c := 11 - sum % 11;
    if c >= 10 then 0 else c
  }

  /** CNPJ rule: 0 when sum mod 11 < 2, otherwise 11 − (sum mod 11). */
  function CnpjCheck(sum: int): int {
    var r := sum % 11;
    if r < 2 then 0 else 11 - r
  }

  /** `CPF.validate(ni)`. */
  predicate CpfValidate(ni: Value) {
    ni.VStr? && |ni.str| == 11 && AllDecimalDigits(ni.str) && !AllSame(ni.str) &&
    var d := Digits(ni.str);
    d[9] == CpfCheck(WeightedSum(d, CpfWeights1, 9)) &&
    d[10] == CpfCheck(WeightedSum(d, CpfWeights2, 10))
  }

  /** `CNPJ.validate(ni)`. */
  predicate CnpjValidate(ni: Value) {
    ni.VStr? && |ni.str| == 14 && AllDecimalDigits(ni.str) && !AllSame(ni.str) &&
    var d := Digits(ni.str);
    d[12] == CnpjCheck(WeightedSum(d, CnpjWeights1, 12)) &&
    d[13] == CnpjCheck(WeightedSum(d, CnpjWeights2, 13))
  }

  /** `Subject.validate(ni)` of the newer generation: a CPF or a CNPJ. */
  predicate IsTaxId(ni: Value) {
    CpfValidate(ni) || CnpjValidate(ni)
  }

  // ---------------------------------------------------------------------
  // The check digit, characterised independently of the two formulas
  // ---------------------------------------------------------------------

  /** A check digit completes the weighted sum to a multiple of 11 when such
      a decimal digit exists, and is 0 when the remainder is 1 (the complement
      would be 10). */
  predicate IsModElevenCheckDigit(sum: int, c: int) {
    0 <= c <= 9 && ((sum + c) % 11 == 0 || (sum % 11 == 1 && c == 0))
  }

  /** Both source formulas compute exactly the digit characterised above, and
      that digit is unique: the CPF and CNPJ formulas, written differently,
      are the same rule. */
  lemma CheckRulesAgree(sum: int)
    ensures CpfCheck(sum) == CnpjCheck(sum)
    ensures IsModElevenCheckDigit(sum, CpfCheck(sum))
    ensures forall c :: IsModElevenCheckDigit(sum, c) ==> c == CpfCheck(sum)
  {
    var r := sum % 11;
    assert sum == 11 * (sum / 11) + r;
    forall c | IsModElevenCheckDigit(sum, c)
      ensures c == CpfCheck(sum)
    {
      if (sum + c) % 11 == 0 {
        assert (sum + c) == 11 * (sum / 11) + (r + c);
        assert (r + c) % 11 == 0;
        assert r + c == 0 || r + c == 11;
      }
    }
  }

  // ---------------------------------------------------------------------
  // The documented examples
  // ---------------------------------------------------------------------

  lemma CpfExampleValid()
    ensures CpfValidate(VStr("11144477735"))
  {
    var s := "11144477735";
    assert AllDecimalDigits(s);
    assert s[3] != s[0];
    var d := Digits(s);
    assert d == [1, 1, 1, 4, 4, 4, 7, 7, 7, 3, 5];
    assert WeightedSum(d, CpfWeights1, 1) == 10;
    assert WeightedSum(d, CpfWeights1, 2) == 19;
    assert WeightedSum(d, CpfWeights1, 3) == 27;
    assert WeightedSum(d, CpfWeights1, 4) == 55;
    assert WeightedSum(d, CpfWeights1, 5) == 79;
    assert WeightedSum(d, CpfWeights1, 6) == 99;
    assert WeightedSum(d, CpfWeights1, 7) == 127;
    assert WeightedSum(d, CpfWeights1, 8) == 148;
    assert WeightedSum(d, CpfWeights1, 9) == 162;
    assert WeightedSum(d, CpfWeights2, 1) == 11;
    assert WeightedSum(d, CpfWeights2, 2) == 21;
    assert WeightedSum(d, CpfWeights2, 3) == 30;
    assert WeightedSum(d, CpfWeights2, 4) == 62;
    assert WeightedSum(d, CpfWeights2, 5) == 90;
    assert WeightedSum(d, CpfWeights2, 6) == 114;
    assert WeightedSum(d, CpfWeights2, 7) == 149;
    assert WeightedSum(d, CpfWeights2, 8) == 177;
    assert WeightedSum(d, CpfWeights2, 9) == 198;
    assert WeightedSum(d, CpfWeights2, 10) == 204;
  }

  /** "11111111111" satisfies both check-digit equations, so only the
      repeated-digit rule rejects it. */
  lemma CpfRepeatedDigitsRejected()
    ensures !CpfValidate(VStr("11111111111"))
    ensures var d := Digits("11111111111");
            d[9] == CpfCheck(WeightedSum(d, CpfWeights1, 9)) &&
            d[10] == CpfCheck(WeightedSum(d, CpfWeights2, 10))
  {
    var s := "11111111111";
    assert AllDecimalDigits(s);
    assert AllSame(s);
    var d := Digits(s);
    assert d == [1, 1, 1, 1, 1, 1, 1, 1, 1, 1, 1];
    assert WeightedSum(d, CpfWeights1, 1) == 10;
    assert WeightedSum(d, CpfWeights1, 2) == 19;
    assert WeightedSum(d, CpfWeights1, 3) == 27;
    assert WeightedSum(d, CpfWeights1, 4) == 34;
    assert WeightedSum(d, CpfWeights1, 5) == 40;
    assert WeightedSum(d, CpfWeights1, 6) == 45;
    assert WeightedSum(d, CpfWeights1, 7) == 49;
    assert WeightedSum(d, CpfWeights1, 8) == 52;
    assert WeightedSum(d, CpfWeights1, 9) == 54;
    assert WeightedSum(d, CpfWeights2, 1) == 11;
    assert WeightedSum(d, CpfWeights2, 2) == 21;
    assert WeightedSum(d, CpfWeights2, 3) == 30;
    assert WeightedSum(d, CpfWeights2, 4) == 38;
    assert WeightedSum(d, CpfWeights2, 5) == 45;
    assert WeightedSum(d, CpfWeights2, 6) == 51;
    assert WeightedSum(d, CpfWeights2, 7) == 56;
    assert WeightedSum(d, CpfWeights2, 8) == 60;
    assert WeightedSum(d, CpfWeights2, 9) == 63;
    assert WeightedSum(d, CpfWeights2, 10) == 65;
  }

  /** The digits of the documented CNPJ example. */
  lemma CnpjExampleDigits()
    ensures AllDecimalDigits("11222333000181")
    ensures Digits("11222333000181") == [1, 1, 2, 2, 2, 3, 3, 3, 0, 0, 0, 1, 8, 1]
  {
    var s := "11222333000181";
    assert AllDecimalDigits(s);
    var d := Digits(s);
    assert d == [1, 1, 2, 2, 2, 3, 3, 3, 0, 0, 0, 1, 8, 1];
  }

  /** Its two weighted sums. */
  lemma CnpjExampleSums(d: seq<int>)
    requires d == [1, 1, 2, 2, 2, 3, 3, 3, 0, 0, 0, 1, 8, 1]
    ensures WeightedSum(d, CnpjWeights1, 12) == 102 && WeightedSum(d, CnpjWeights2, 13) == 120
  {
    assert WeightedSum(d, CnpjWeights1, 1) == 5;
    assert WeightedSum(d, CnpjWeights1, 2) == 9;
    assert WeightedSum(d, CnpjWeights1, 3) == 15;
    assert WeightedSum(d, CnpjWeights1, 4) == 19;
    assert WeightedSum(d, CnpjWeights1, 5) == 37;
    assert WeightedSum(d, CnpjWeights1, 6) == 61;
    assert WeightedSum(d, CnpjWeights1, 7) == 82;
    assert WeightedSum(d, CnpjWeights1, 8) == 100;
    assert WeightedSum(d, CnpjWeights1, 9) == 100;
    assert WeightedSum(d, CnpjWeights1, 10) == 100;
    assert WeightedSum(d, CnpjWeights1, 11) == 100;
    assert WeightedSum(d, CnpjWeights1, 12) == 102;
    assert WeightedSum(d, CnpjWeights2, 1) == 6;
    assert WeightedSum(d, CnpjWeights2, 2) == 11;
    assert WeightedSum(d, CnpjWeights2, 3) == 19;
    assert WeightedSum(d, CnpjWeights2, 4) == 25;
    assert WeightedSum(d, CnpjWeights2, 5) == 29;
    assert WeightedSum(d, CnpjWeights2, 6) == 56;
    assert WeightedSum(d, CnpjWeights2, 7) == 80;
    assert WeightedSum(d, CnpjWeights2, 8) == 101;
    assert WeightedSum(d, CnpjWeights2, 9) == 101;
    assert WeightedSum(d, CnpjWeights2, 10) == 101;
    assert WeightedSum(d, CnpjWeights2, 11) == 101;
    assert WeightedSum(d, CnpjWeights2, 12) == 104;
    assert WeightedSum(d, CnpjWeights2, 13) == 120;
  }

  lemma CnpjExampleValid()
    ensures CnpjValidate(VStr("11222333000181"))
  {
    var s := "11222333000181";
    CnpjExampleDigits();
    assert s[2] != s[0];
    CnpjExampleSums(Digits(s));
  }

  // ---------------------------------------------------------------------
  // What the check digits detect
  // ---------------------------------------------------------------------

  lemma WeightedSumPrefix(d: seq<int>, e: seq<int>, w: seq<int>, n: nat)
    requires n <= |d| && n <= |e| && n <= |w|
    requires d[..n] == e[..n]
    ensures WeightedSum(d, w, n) == WeightedSum(e, w, n)
  {
    if n > 0 {
      assert d[..n - 1] == d[..n][..n - 1];
      assert e[..n - 1] == e[..n][..n - 1];
      assert d[n - 1] == d[..n][n - 1];
      WeightedSumPrefix(d, e, w, n - 1);
    }
  }

  lemma DigitsPrefix(s: string, t: string, n: nat)
    requires AllDecimalDigits(s) && AllDecimalDigits(t)
    requires n <= |s| && n <= |t| && s[..n] == t[..n]
    ensures Digits(s)[..n] == Digits(t)[..n]
  {
    forall i | 0 <= i < n
      ensures Digits(s)[i] == Digits(t)[i]
    {
      assert s[i] == s[..n][i];
    }
  }

  /** The two check digits of a CPF are a function of its first nine digits:
      two valid CPFs that agree on those nine are the same CPF.  So a change
      confined to the check digits is always rejected. */
  lemma {:induction false} CpfDeterminedByBase(s: string, t: string)
    requires CpfValidate(VStr(s)) && CpfValidate(VStr(t))
    requires s[..9] == t[..9]
    ensures s == t
  {
    var d, e := Digits(s), Digits(t);
    DigitsPrefix(s, t, 9);
    WeightedSumPrefix(d, e, CpfWeights1, 9);
    assert d[9] == e[9];
    assert d[..10] == e[..10];
    WeightedSumPrefix(d, e, CpfWeights2, 10);
    assert d[10] == e[10];
    forall i | 0 <= i < 11
      ensures s[i] == t[i]
    {
      if i < 9 {
        assert s[i] == s[..9][i] && t[i] == t[..9][i];
      }
    }
  }

  /** The same for a CNPJ and its first twelve digits. */
  lemma {:induction false} CnpjDeterminedByBase(s: string, t: string)
    requires CnpjValidate(VStr(s)) && CnpjValidate(VStr(t))
    requires s[..12] == t[..12]
    ensures s == t
  {
    var d, e := Digits(s), Digits(t);
    DigitsPrefix(s, t, 12);
    WeightedSumPrefix(d, e, CnpjWeights1, 12);
    assert d[12] == e[12];
    assert d[..13] == e[..13];
    WeightedSumPrefix(d, e, CnpjWeights2, 13);
    assert d[13] == e[13];
    forall i | 0 <= i < 14
      ensures s[i] == t[i]
    {
      if i < 12 {
        assert s[i] == s[..12][i] && t[i] == t[..12][i];
      }
    }
  }

  lemma CpfExampleWithLeadingZeroValid()
    ensures CpfValidate(VStr("00100791905"))
  {
    var s := "00100791905";
    assert AllDecimalDigits(s);
    assert s[2] != s[0];
    var d := Digits(s);
    assert d == [0, 0, 1, 0, 0, 7, 9, 1, 9, 0, 5];
    assert WeightedSum(d, CpfWeights1, 1) == 0;
    assert WeightedSum(d, CpfWeights1, 2) == 0;
    assert WeightedSum(d, CpfWeights1, 3) == 8;
    assert WeightedSum(d, CpfWeights1, 4) == 8;
    assert WeightedSum(d, CpfWeights1, 5) == 8;
    assert WeightedSum(d, CpfWeights1, 6) == 43;
    assert WeightedSum(d, CpfWeights1, 7) == 79;
    assert WeightedSum(d, CpfWeights1, 8) == 82;
    assert WeightedSum(d, CpfWeights1, 9) == 100;
    assert WeightedSum(d, CpfWeights2, 1) == 0;
    assert WeightedSum(d, CpfWeights2, 2) == 0;
    assert WeightedSum(d, CpfWeights2, 3) == 9;
    assert WeightedSum(d, CpfWeights2, 4) == 9;
    assert WeightedSum(d, CpfWeights2, 5) == 9;
    assert WeightedSum(d, CpfWeights2, 6) == 51;
    assert WeightedSum(d, CpfWeights2, 7) == 96;
    assert WeightedSum(d, CpfWeights2, 8) == 100;
    assert WeightedSum(d, CpfWeights2, 9) == 127;
    assert WeightedSum(d, CpfWeights2, 10) == 127;
  }

  lemma CpfExampleWithLeadingOneValid()
    ensures CpfValidate(VStr("10100791905"))
  {
    var s := "10100791905";
    assert AllDecimalDigits(s);
    assert s[1] != s[0];
    var e := Digits(s);
    assert e == [1, 0, 1, 0, 0, 7, 9, 1, 9, 0, 5];
    assert WeightedSum(e, CpfWeights1, 1) == 10;
    assert WeightedSum(e, CpfWeights1, 2) == 10;
    assert WeightedSum(e, CpfWeights1, 3) == 18;
    assert WeightedSum(e, CpfWeights1, 4) == 18;
    assert WeightedSum(e, CpfWeights1, 5) == 18;
    assert WeightedSum(e, CpfWeights1, 6) == 53;
    assert WeightedSum(e, CpfWeights1, 7) == 89;
    assert WeightedSum(e, CpfWeights1, 8) == 92;
    assert WeightedSum(e, CpfWeights1, 9) == 110;
    assert WeightedSum(e, CpfWeights2, 1) == 11;
    assert WeightedSum(e, CpfWeights2, 2) == 11;
    assert WeightedSum(e, CpfWeights2, 3) == 20;
    assert WeightedSum(e, CpfWeights2, 4) == 20;
    assert WeightedSum(e, CpfWeights2, 5) == 20;
    assert WeightedSum(e, CpfWeights2, 6) == 62;
    assert WeightedSum(e, CpfWeights2, 7) == 107;
    assert WeightedSum(e, CpfWeights2, 8) == 111;
    assert WeightedSum(e, CpfWeights2, 9) == 138;
    assert WeightedSum(e, CpfWeights2, 10) == 138;
  }

  /** A change in one of the first nine digits is not always detected: these
      two CPFs differ only in the first digit, and both are accepted (the
      first digit's second weight, 11, vanishes mod 11, and remainders 0 and 1
      share the check digit 0). */
  lemma CpfSingleDigitChangeUndetected()
    ensures exists s: string, t: string ::
      |s| == |t| == 11 && s[0] != t[0] && s[1..] == t[1..] &&
      CpfValidate(VStr(s)) && CpfValidate(VStr(t))
  {
    CpfExampleWithLeadingZeroValid();
    CpfExampleWithLeadingOneValid();
    var s, t := "00100791905", "10100791905";
    assert s[1..] == t[1..];
  }

  /** A CPF and a CNPJ never coincide, so `Subject.validate` accepts the union. */
  lemma CpfAndCnpjDisjoint(ni: Value)
    ensures !(CpfValidate(ni) && CnpjValidate(ni))
    ensures IsTaxId(ni) ==> ni.VStr? && (|ni.str| == 11 || |ni.str| == 14)
  {
  }
}
