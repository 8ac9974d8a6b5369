/** `DoiProp` and `DoiEntity` of src/doimaker.js.  As in the older file the
    property values live in the entity, keyed by name.  What changes is the
    store: a property's `value` setter keeps the new value only when
    validation returns it truthy, and otherwise leaves the old value in
    place. */
module SrcEntity {
  import opened JsValues
  import opened Schema
  import opened Property
  import opened EntityRules
  import DoiRegistry
  import RegistryFacts

  /** The value setter `set value(v)`: store v when `validate(v)` is truthy,
      otherwise keep `prev`. */
  function Store(d: Descriptor, prev: Value, v: Value, host: Host): (r: Value)
  {
    if Truthy(Validate(d, v, host, Src)) then v else prev
  }

  /** What the setter leaves behind: the new value exactly when it validates
      truthy, and otherwise the previous value, untouched.  In particular
      storing null, false, 0, "" or an invalid value is a no-op. */
  lemma StoreKeepsOrReplaces(d: Descriptor, prev: Value, v: Value, host: Host)
    ensures Truthy(Validate(d, v, host, Src)) ==> Store(d, prev, v, host) == v
    ensures !Truthy(Validate(d, v, host, Src)) ==> Store(d, prev, v, host) == prev
    ensures !Truthy(v) ==> Store(d, prev, v, host) == prev
  {
  }

  /** `setValue(v)` assigns `validate(v)` through the setter, `forceValue(v)`
      assigns v itself: the effect is the same, since a truthy validation
      result is the value itself and validation is idempotent. */
  lemma {:induction false} SetValueIsForceValue(d: Descriptor, prev: Value, v: Value, host: Host)
    ensures Store(d, prev, Validate(d, v, host, Src), host) == Store(d, prev, v, host)
  {
    ValidateIdempotent(d, v, host, Src);
  }

  /** A property that holds null or a value its descriptor accepts keeps doing
      so whatever is stored: the setter can never let an invalid value in. */
  lemma StorePreservesAcceptance(d: Descriptor, prev: Value, v: Value, host: Host)
    requires Accepted(d, prev, host)
    ensures Accepted(d, Store(d, prev, v, host), host)
  {
  }

  /** What `setValue(doi[prop])` is given for a member read from JSON: a
      primitive as it is; `undefined`, an array or an object have a type no
      descriptor names, so validation turns them into null like null itself. */
  function FieldValue(o: Option<Json>): Value {
    match o
    case Some(JVal(v)) => v
    case _ => VNull
  }

  /** The values after every held property has received the record's member
      of the same name through the setter. */
  function StoreAll(schema: EntitySchema, values: map<string, Value>, f: map<string, Json>, host: Host): (r: map<string, Value>)
    requires values.Keys <= schema.Keys
  {
    map n | n in values :: Store(schema[n], values[n], FieldValue(Member(f, n)), host)
  }

  /** The `setValue(f[prop])` loop over the held properties. */
  method StoreFields(schema: EntitySchema, values: map<string, Value>, f: map<string, Json>, host: Host)
    returns (r: map<string, Value>)
    requires values.Keys <= schema.Keys
    ensures r == StoreAll(schema, values, f, host)
  {
    r := values;
    var pending := values.Keys;
    while pending != {}
      invariant pending <= values.Keys && r.Keys == values.Keys
      invariant forall n :: n in r ==>
                  r[n] == if n in pending then values[n] else Store(schema[n], values[n], FieldValue(Member(f, n)), host)
      decreases |pending|
    {
      var n :| n in pending;
      // `setValue` stores exactly what `forceValue` would (SetValueIsForceValue).
      r := r[n := Store(schema[n], r[n], FieldValue(Member(f, n)), host)];
      pending := pending - {n};
    }
  }

  /** Storing a record into a fresh entity gives each property the record's
      member exactly when its descriptor accepts it truthy, and null
      otherwise; the entity then holds only accepted values. */
  lemma StoreAllIntoNull(schema: EntitySchema, f: map<string, Json>, host: Host, n: string)
    requires n in schema
    ensures var r := StoreAll(schema, NullValues(schema), f, host);
            n in r &&
            (Truthy(Validate(schema[n], FieldValue(Member(f, n)), host, Src)) ==> r[n] == FieldValue(Member(f, n))) &&
            (!Truthy(Validate(schema[n], FieldValue(Member(f, n)), host, Src)) ==> r[n] == VNull)
    ensures HoldsOnlyAccepted(schema, StoreAll(schema, NullValues(schema), f, host), host)
  {
  }

  /** The constructor throws: an unknown schema name is refused, and so is a
      missing or empty `requiredList`.  `schemaName in doiDefs` also holds for
      a name the registry object inherits from `Object.prototype`
      (`toString`, `constructor`, `__proto__`, …), whose member lists no keys. */
  predicate ConstructorThrows(schemaName: string, requiredList: seq<string>) {
    (schemaName !in DoiRegistry.Registry && !ObjectPrototypeKey(schemaName)) || requiredList == []
  }

  /** A property holds null or a value its descriptor accepts. */
  predicate Accepted(d: Descriptor, v: Value, host: Host) {
    v == VNull || Truthy(Validate(d, v, host, Src))
  }

  /** Every held property holds null or an accepted value. */
  predicate HoldsOnlyAccepted(schema: EntitySchema, values: map<string, Value>, host: Host)
    requires values.Keys <= schema.Keys
  {
    forall n {:trigger Accepted(schema[n], values[n], host)} :: n in values ==> Accepted(schema[n], values[n], host)
  }

  /** What the widget `render()` builds for a descriptor shows before any
      value reaches it: a menu its void option "", a date or text input "",
      a number input 0, a checkbox false. */
  function RestReading(d: Descriptor): (r: Value)
    ensures r != VNull && !Truthy(r) && LooseEqZero(r)
    ensures d.oneOf.None? && d.format != FDate ==>
              (d.typ == KString <==> r == VStr("")) && (d.typ == KNumber <==> r == VNum(0.0)) &&
              (d.typ == KBoolean <==> r == VBool(false))
  {
    var r := if d.oneOf.Some? || d.format == FDate then VStr("")
             else match d.typ
               case KBoolean => VBool(false)
               case KNumber => VNum(0.0)
               case KString => VStr("");
    LooseZeroVersusFalsy(r);
    r
  }

  /** The property's `value` getter: the widget never reads null, so a
      property that holds null reads what its widget shows at rest; a menu
      shows the stored code as its option's text; every other widget shows
      the stored value back. */
  function Reading(d: Descriptor, v: Value, host: Host): (r: Value)
    ensures r != VNull
    ensures v != VNull && (d.oneOf.None? || v.VStr?) ==> r == v
    ensures v == VNull ==> !Truthy(r) && LooseEqZero(r)
  {
    if v == VNull then RestReading(d)
    else if d.oneOf.Some? then VStr(ToJsString(v, host))
    else v
  }

  /** The getter over every held property of a schema. */
  function Readings(schema: EntitySchema, values: map<string, Value>, host: Host): (r: map<string, Value>)
    ensures r.Keys == values.Keys
    ensures forall n :: n in r && n in schema ==> r[n] == Reading(schema[n], values[n], host)
  {
    map n | n in values :: if n in schema then Reading(schema[n], values[n], host) else values[n]
  }

  /** Reading through the widget changes no verdict the source takes on a
      held value, when every menu is a menu of strings and the property holds
      null or an accepted value: validation, truthiness and `=== true` agree
      on the reading and on the value; an accepted value reads back as itself;
      null reads back loosely zero, so the emission filter drops it unless it
      is required. */
  lemma ReadingKeepsVerdicts(d: Descriptor, v: Value, host: Host)
    requires d.oneOf.Some? ==> d.typ == KString
    requires Accepted(d, v, host)
    ensures v != VNull ==> Reading(d, v, host) == v
    ensures Truthy(Validate(d, Reading(d, v, host), host, Src)) <==> Truthy(Validate(d, v, host, Src))
    ensures Truthy(Reading(d, v, host)) <==> Truthy(v)
    ensures Reading(d, v, host) == VBool(true) <==> v == VBool(true)
    ensures v == VNull ==> LooseEqZero(Reading(d, v, host))
  {
    if v != VNull && d.oneOf.Some? {
      assert TypeOf(v) == KindName(d.typ);
    }
  }

  /** `isComplete()` validates `prop.value`, the reading; over a schema of
      string menus whose properties hold only null or accepted values (what
      the setters keep) that verdict is the one taken on the held values, and
      every non-null value reads back as itself. */
  lemma {:induction false} CompletenessThroughReadings(schema: EntitySchema, values: map<string, Value>,
                                                      required: seq<string>, host: Host)
    requires values.Keys <= schema.Keys
    requires MenusAreDigitStrings(schema)
    requires HoldsOnlyAccepted(schema, values, host)
    ensures IsCompleteSpec(schema, Readings(schema, values, host), required, host, Src) <==>
            IsCompleteSpec(schema, values, required, host, Src)
    ensures forall n :: n in values && values[n] != VNull ==> Readings(schema, values, host)[n] == values[n]
  {
    var r := Readings(schema, values, host);
    forall n | n in values
      ensures FieldPasses(schema[n], r[n], host, Src) <==> FieldPasses(schema[n], values[n], host, Src)
      ensures values[n] != VNull ==> r[n] == values[n]
    {
      ReadingKeepsVerdicts(schema[n], values[n], host);
    }
  }

  class DoiEntity {
    const schemaName: string
    const schema: EntitySchema
    const requiredList: seq<string>
    const host: Host
    /** The `_value` of each property the entity still holds. */
    var values: map<string, Value>

    /** The schema is the registry's entry for the schema name.  Both are
        fixed at construction, so this holds for the entity's whole life. */
    predicate Registered() {
      schemaName in DoiRegistry.Registry && schema == DoiRegistry.Registry[schemaName]
    }

    /** At most one property per descriptor of the entity's schema (a
        subclass may replace one by another object, as `Imovel` does); every
        menu is a menu of strings; and every property holds null or a value
        its descriptor accepts, since only the setter writes `_value`. */
    predicate Valid()
      reads this
    {
      requiredList != [] && values.Keys <= schema.Keys &&
      MenusAreDigitStrings(schema) && HoldsOnlyAccepted(schema, values, host)
    }

    /** What the properties' getters read. */
    function Read(): (r: map<string, Value>)
      reads this
      ensures r.Keys == values.Keys
      ensures forall n :: n in r ==> r[n] != VNull || n !in schema
    {
      Readings(schema, values, host)
    }

    /** The constructor on the path where it does not throw: one property per
        descriptor, each forced to null; none for an inherited name. */
    constructor (schemaName: string, requiredList: seq<string>, host: Host)
      requires !ConstructorThrows(schemaName, requiredList)
      ensures Valid()
      ensures schemaName in DoiRegistry.Registry ==> Registered()
      ensures schemaName !in DoiRegistry.Registry ==> schema == map[]
      ensures this.schemaName == schemaName && this.requiredList == requiredList && this.host == host
      ensures values == NullValues(schema)
    {
      this.schemaName := schemaName;
      var s := if schemaName in DoiRegistry.Registry then DoiRegistry.Registry[schemaName] else map[];
      this.schema := s;
      this.requiredList := requiredList;
      this.host := host;
      values := NullValues(s);
      if schemaName in DoiRegistry.Registry {
        RegistryFacts.DoiRegistryMenus(schemaName);
      }
      NullValuesAccepted(s, host);
    }

    /** `this[name].setValue(v)` on a held property: the setter receives
        `validate(v)`.  Reaching an absent property throws. */
    method SetValue(name: string, v: Value) returns (ok: bool)
      requires Valid()
      modifies this
      ensures Valid()
      ensures ok <==> name in old(values)
      ensures values == if ok then old(values)[name := Store(schema[name], old(values)[name], v, host)] else old(values)
    {
      if name !in values {
        return false;
      }
      SetValueIsForceValue(schema[name], values[name], v, host);
      StoreKeepsEntityAccepted(schema, values, name, v, host);
      values := values[name := Store(schema[name], values[name], Validate(schema[name], v, host, Src), host)];
      return true;
    }

    /** `this[name].forceValue(v)`: the setter receives v itself. */
    method ForceValue(name: string, v: Value) returns (ok: bool)
      requires Valid()
      modifies this
      ensures Valid()
      ensures ok <==> name in old(values)
      ensures values == if ok then old(values)[name := Store(schema[name], old(values)[name], v, host)] else old(values)
    {
      if name !in values {
        return false;
      }
      StoreKeepsEntityAccepted(schema, values, name, v, host);
      values := values[name := Store(schema[name], values[name], v, host)];
      return true;
    }

    /** `setProp(name, v)`: a new property (null) receiving `validate(v)`.
        Creating the property throws when the name has no descriptor. */
    method SetProp(name: string, v: Value) returns (ok: bool)
      requires Valid()
      modifies this
      ensures Valid()
      ensures ok <==> name in schema
      ensures values == if ok then old(values)[name := Store(schema[name], VNull, v, host)] else old(values)
    {
      if name !in schema {
        return false;
      }
      SetValueIsForceValue(schema[name], VNull, v, host);
      StorePreservesAcceptance(schema[name], VNull, v, host);
      values := values[name := Store(schema[name], VNull, Validate(schema[name], v, host, Src), host)];
      return true;
    }

    /** `forceProp(name, v)`: a new property (null) receiving v. */
    method ForceProp(name: string, v: Value) returns (ok: bool)
      requires Valid()
      modifies this
      ensures Valid()
      ensures ok <==> name in schema
      ensures values == if ok then old(values)[name := Store(schema[name], VNull, v, host)] else old(values)
    {
      if name !in schema {
        return false;
      }
      StorePreservesAcceptance(schema[name], VNull, v, host);
      values := values[name := Store(schema[name], VNull, v, host)];
      return true;
    }

    /** A subclass overwriting the property `name` with an object of another
        kind: the entity no longer holds it. */
    method Detach(name: string)
      requires Valid()
      modifies this
      ensures Valid()
      ensures values == old(values) - {name}
    {
      values := values - {name};
    }

    /** `for (const prop of Object.keys(x)) if (x[prop] instanceof DoiProp)
        x[prop].setValue(f[prop])`: every held property receives the record's
        member of the same name. */
    method SetValues(f: map<string, Json>)
      requires Valid()
      modifies this
      ensures Valid()
      ensures values == StoreAll(schema, old(values), f, host) && values.Keys == old(values).Keys
    {
      StoreAllKeepsAccepted(schema, values, f, host);
      values := StoreFields(schema, values, f, host);
    }

    /** `isComplete()`: it validates each property's `value`, the reading,
        and on an entity that holds only accepted values this is the verdict
        on the held values. */
    method IsComplete() returns (complete: bool)
      requires Valid()
      ensures complete == IsCompleteSpec(schema, values, requiredList, host, Src)
      ensures complete == IsCompleteSpec(schema, Read(), requiredList, host, Src)
    {
      CompletenessThroughReadings(schema, values, requiredList, host);
      complete := CheckComplete(schema, values, requiredList, host, Src);
    }
  }

  /** `new DoiEntity(schemaName, requiredList)` with its error path: null
      when the constructor throws. */
  method NewEntity(schemaName: string, requiredList: seq<string>, host: Host) returns (e: DoiEntity?)
    ensures e == null <==> ConstructorThrows(schemaName, requiredList)
    ensures e != null ==> fresh(e) && e.Valid() && e.schemaName == schemaName && e.requiredList == requiredList
    ensures e != null ==> e.values == NullValues(e.schema)
    ensures e != null && schemaName in DoiRegistry.Registry ==> e.Registered()
    ensures e != null && schemaName !in DoiRegistry.Registry ==> e.schema == map[] && e.values == map[]
  {
    if ConstructorThrows(schemaName, requiredList) {
      return null;
    }
    e := new DoiEntity(schemaName, requiredList, host);
  }

  /** The setters never let an invalid value into an entity: a state holding
      only null or accepted values keeps that property under any store. */
  lemma {:induction false} StoreKeepsEntityAccepted(schema: EntitySchema, values: map<string, Value>,
                                                   name: string, v: Value, host: Host)
    requires values.Keys <= schema.Keys && name in values
    requires HoldsOnlyAccepted(schema, values, host)
    ensures HoldsOnlyAccepted(schema, values[name := Store(schema[name], values[name], v, host)], host)
  {
    StorePreservesAcceptance(schema[name], values[name], v, host);
  }

  /** `setValues` keeps an entity that holds only accepted values so. */
  lemma StoreAllKeepsAccepted(schema: EntitySchema, values: map<string, Value>, f: map<string, Json>, host: Host)
    requires values.Keys <= schema.Keys
    requires HoldsOnlyAccepted(schema, values, host)
    ensures HoldsOnlyAccepted(schema, StoreAll(schema, values, f, host), host)
  {
    forall n | n in values
      ensures Accepted(schema[n], Store(schema[n], values[n], FieldValue(Member(f, n)), host), host)
    {
      StorePreservesAcceptance(schema[n], values[n], FieldValue(Member(f, n)), host);
    }
  }

  /** A freshly constructed entity holds only null values. */
  lemma NullValuesAccepted(schema: EntitySchema, host: Host)
    ensures HoldsOnlyAccepted(schema, NullValues(schema), host)
  {
  }
}
