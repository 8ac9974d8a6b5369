/** `DoiProp.validate`: a schema-driven filter that returns its argument when
    it fits the property's descriptor and null otherwise.  The newer
    generation adds one guard for menu fields (a value below 0 is refused
    before the consts are searched). */
module Property {
  import opened JsValues
  import opened Schema

  /** Which copy of `DoiProp` is meant: doimaker.js or src/doimaker.js. */
  datatype Generation = Root | Src

  /** The shape `^\d{4}-\d{2}-\d{2}$` (ASCII digits, whole string). */
  predicate DateShape(s: string) {
    |s| == 10 && s[4] == '-' && s[7] == '-' &&
    forall i :: 0 <= i < 10 && i != 4 && i != 7 ==> IsDecimalDigit(s[i])
  }

  /** A JavaScript number that `Number.isInteger` accepts. */
  predicate IsInteger(r: real) {
    r.Floor as real == r
  }

  /** `isFormatted(value, format)`.  A date must have the date shape and parse
      in the host; an int32 must be an integer strictly between 0 and 10^8.
      (Only string descriptors carry the date format, and the type test runs
      first, so the date test is only ever applied to strings.) */
  predicate IsFormatted(v: Value, f: Format, host: Host) {
    match f
    case NoFormat => true
    case FDate => v.VStr? && DateShape(v.str) && host.dateParses(v.str)
    case FInt32 => v.VNum? && IsInteger(v.num) && 0.0 < v.num < 100000000.0
  }

  /** The `for (const option of oneOf) if (propValue === option.const)` search. */
  function OneOfIncludes(consts: seq<Value>, v: Value): (found: bool)
    ensures found <==> v in consts
  {
    if consts == [] then false
    else if consts[0] == v then true
    else OneOfIncludes(consts[1..], v)
  }

  /** The length checks: `.length` is only defined on strings, where it
      counts UTF-16 code units, and an undefined length fails neither
      comparison. */
  predicate LengthWithin(d: Descriptor, v: Value) {
    (d.maxLength != 0 && v.VStr? ==> Utf16Length(v.str) <= d.maxLength) &&
    (d.minLength != 0 && v.VStr? ==> Utf16Length(v.str) >= d.minLength)
  }

  /** What a value must satisfy to fit a descriptor, stated declaratively:
      the right `typeof`; then for a menu field membership among the consts,
      otherwise the length bounds and the format. */
  predicate Conforms(d: Descriptor, v: Value, host: Host) {
    TypeOf(v) == KindName(d.typ) &&
    if d.oneOf.Some? then v in d.oneOf.value
    else LengthWithin(d, v) && IsFormatted(v, d.format, host)
  }

  /** `DoiProp.validate(propValue)`, checks in the source's order. */
  function Validate(d: Descriptor, v: Value, host: Host, gen: Generation): (r: Value)
    ensures r == VNull || r == v
    ensures gen == Root ==> (r == v <==> v.VNull? || Conforms(d, v, host))
    ensures gen == Src ==>
      (r == v <==> v.VNull? || (Conforms(d, v, host) && !(d.oneOf.Some? && LessThanZero(v))))
  {
    if TypeOf(v) != KindName(d.typ) then VNull
    else if d.oneOf.Some? then
      if gen == Src && LessThanZero(v) then VNull
      else if OneOfIncludes(d.oneOf.value, v) then v
      else VNull
    else if d.maxLength != 0 && v.VStr? && Utf16Length(v.str) > d.maxLength then VNull
    else if d.minLength != 0 && v.VStr? && Utf16Length(v.str) < d.minLength then VNull
    else if d.format != NoFormat && !IsFormatted(v, d.format, host) then VNull
    else v
  }

  /** Validation never accepts null, and applying it twice changes nothing. */
  lemma ValidateIdempotent(d: Descriptor, v: Value, host: Host, gen: Generation)
    ensures Validate(d, VNull, host, gen) == VNull
    ensures Validate(d, Validate(d, v, host, gen), host, gen) == Validate(d, v, host, gen)
  {
  }

  /** The newer generation's `propValue < 0` guard never changes the outcome
      on a descriptor whose consts are all decimal-digit strings: such a
      const converts to a non-negative number. */
  lemma {:induction false} SrcGuardIsRedundant(d: Descriptor, v: Value, host: Host)
    requires DigitConsts(d)
    ensures Validate(d, v, host, Src) == Validate(d, v, host, Root)
  {
    if d.oneOf.Some? && v in d.oneOf.value {
      DigitStringIsNonNegative(v.str);
    }
  }

  /** A menu field whose type is "string" refuses every number and boolean. */
  lemma MenuRefusesNonStrings(d: Descriptor, v: Value, host: Host, gen: Generation)
    requires d.oneOf.Some? && d.typ == KString
    requires !v.VStr?
    ensures Validate(d, v, host, gen) == VNull
  {
  }

  /** Validation yields a non-null result exactly for conforming values. */
  lemma ValidatePassesExactlyConforming(d: Descriptor, v: Value, host: Host)
    ensures Validate(d, v, host, Root) != VNull <==> Conforms(d, v, host)
  {
  }
}
