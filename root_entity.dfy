/** `DoiEntity` of doimaker.js: a named bag of schema properties built from
    the embedded registry.  Each `DoiProp` belongs to exactly one entity, so
    the model keeps the property values in the entity, keyed by name; in this
    generation a property's `value` is a plain field. */
module RootEntity {
  import opened JsValues
  import opened Schema
  import opened Property
  import opened EntityRules
  import RootRegistry

  /** The constructor throws: an unknown schema name fails when its keys are
      listed, and an empty `requiredList` is refused explicitly.  A name the
      registry object inherits from `Object.prototype` (`toString`,
      `constructor`, `__proto__`, …) is not unknown: its member lists no keys. */
  predicate ConstructorThrows(schemaName: string, requiredList: seq<string>) {
    (schemaName !in RootRegistry.Registry && !ObjectPrototypeKey(schemaName)) || requiredList == []
  }

  class DoiEntity {
    const schemaName: string
    const schema: EntitySchema
    const requiredList: seq<string>
    const host: Host
    var values: map<string, Value>

    /** One property per descriptor of the entity's schema. */
    predicate Valid()
      reads this
    {
      requiredList != [] && values.Keys == schema.Keys
    }

    /** The constructor on the path where it does not throw: one property
        per key of the registry's member, none for an inherited one. */
    constructor (schemaName: string, requiredList: seq<string>, host: Host)
      requires !ConstructorThrows(schemaName, requiredList)
      ensures Valid()
      ensures this.schemaName == schemaName && this.requiredList == requiredList && this.host == host
      ensures schemaName in RootRegistry.Registry ==> schema == RootRegistry.Registry[schemaName]
      ensures schemaName !in RootRegistry.Registry ==> schema == map[]
      ensures values == NullValues(schema)
    {
      this.schemaName := schemaName;
      var s := if schemaName in RootRegistry.Registry then RootRegistry.Registry[schemaName] else map[];
      this.schema := s;
      this.requiredList := requiredList;
      this.host := host;
      values := NullValues(s);
    }

    /** `forceProp(name, v)`: a new property holding v unchecked.  Creating the
        property throws when the name has no descriptor. */
    method ForceProp(name: string, v: Value) returns (ok: bool)
      requires Valid()
      modifies this
      ensures Valid()
      ensures ok <==> name in schema
      ensures values == if ok then old(values)[name := v] else old(values)
    {
      if name !in schema {
        return false;
      }
      values := values[name := v];
      return true;
    }

    /** `setProp(name, v)`, and equally `prop.setValue(v)` on an existing
        property: the property holds `validate(v)`. */
    method SetProp(name: string, v: Value) returns (ok: bool)
      requires Valid()
      modifies this
      ensures Valid()
      ensures ok <==> name in schema
      ensures values == if ok then old(values)[name := Validate(schema[name], v, host, Root)] else old(values)
      ensures ok ==> values[name] == VNull || values[name] == v
    {
      if name !in schema {
        return false;
      }
      values := values[name := Validate(schema[name], v, host, Root)];
      return true;
    }

    /** `isComplete()`. */
    method IsComplete() returns (complete: bool)
      requires Valid()
      ensures complete == IsCompleteSpec(schema, values, requiredList, host, Root)
    {
      complete := CheckComplete(schema, values, requiredList, host, Root);
    }
  }

  /** `new DoiEntity(schemaName, requiredList)` with its error path: null
      when the constructor throws. */
  method NewEntity(schemaName: string, requiredList: seq<string>, host: Host) returns (e: DoiEntity?)
    ensures e == null <==> ConstructorThrows(schemaName, requiredList)
    ensures e != null ==> fresh(e) && e.Valid() && e.values == NullValues(e.schema) && e.requiredList == requiredList
    ensures e != null && schemaName in RootRegistry.Registry ==> e.schema == RootRegistry.Registry[schemaName]
    ensures e != null && schemaName !in RootRegistry.Registry ==> e.schema == map[] && e.values == map[]
  {
    if ConstructorThrows(schemaName, requiredList) {
      return null;
    }
    e := new DoiEntity(schemaName, requiredList, host);
  }
}
