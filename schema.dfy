/** Field descriptors of the DOI schema: the parts of a JSON-schema property
    that validation consults (type, `oneOf` consts, min/max length, format).
    Labels, descriptions and option titles only feed the user interface. */
module Schema {
  import opened JsValues

  /** The `type` keyword. */
  datatype Kind = KString | KNumber | KBoolean

  /** The `format` keyword (absent, "date" or "int32"). */
  datatype Format = NoFormat | FDate | FInt32

  /** One property descriptor.  A `minLength`/`maxLength` of 0 stands for the
      keyword being absent: validation tests both with a truthiness check, so
      an absent bound and a bound of 0 behave alike. */
  datatype Descriptor = Descriptor(typ: Kind, oneOf: Option<seq<Value>>, minLength: nat, maxLength: nat, format: Format)

  /** The schema of one entity, by property name. */
  type EntitySchema = map<string, Descriptor>

  /** The string `typeof` yields for values of the descriptor's type. */
  function KindName(k: Kind): (t: string)
    ensures t != TypeOf(VNull)
  {
    match k
    case KString => "string"
    case KNumber => "number"
    case KBoolean => "boolean"
  }

  /** The engine facilities the core calls without defining them: whether
      `new Date(s)` yields a valid time for a string of the date shape, and
      the text `String(n)` produces for a number. */
  datatype Host = Host(dateParses: string -> bool, numberText: real -> string)

  /** `String(v)` for a primitive, as used by `+` concatenation and by
      property-key conversion. */
  function ToJsString(v: Value, host: Host): string {
    match v
    case VNull => "null"
    case VStr(s) => s
    case VNum(r) => host.numberText(r)
    case VBool(b) => if b then "true" else "false"
  }

  /** Every `oneOf` const is a string of decimal digits. */
  predicate DigitConsts(d: Descriptor) {
    d.oneOf.Some? ==>
      forall i :: 0 <= i < |d.oneOf.value| ==>
        d.oneOf.value[i].VStr? && d.oneOf.value[i].str != [] && AllDecimalDigits(d.oneOf.value[i].str)
  }

  /** A well-formed menu: a `oneOf` descriptor has type "string" and only
      decimal-digit string consts. */
  predicate DigitMenu(d: Descriptor) {
    DigitConsts(d) && (d.oneOf.Some? ==> d.typ == KString)
  }

  /** Well-formed menus throughout a schema. */
  predicate MenusAreDigitStrings(s: EntitySchema) {
    forall n :: n in s ==> DigitMenu(s[n])
  }
}
