/** The completeness rule `DoiEntity.isComplete` implements, shared by both
    generations: every schema property the entity holds must validate to a
    truthy value, and every name of the required list must be one of those
    properties. */
module EntityRules {
  import opened JsValues
  import opened Schema
  import opened Property

  /** A property value passes the `!prop.validate(prop.value)` test. */
  predicate FieldPasses(d: Descriptor, v: Value, host: Host, gen: Generation) {
    Truthy(Validate(d, v, host, gen))
  }

  /** The declarative reading of `isComplete`: no held property validates to
      null, false, 0 or "", and the required list names only held properties. */
  predicate IsCompleteSpec(schema: EntitySchema, values: map<string, Value>, required: seq<string>,
                           host: Host, gen: Generation)
    requires values.Keys <= schema.Keys
  {
    (forall n :: n in values ==> FieldPasses(schema[n], values[n], host, gen)) &&
    (forall i :: 0 <= i < |required| ==> required[i] in values)
  }

  /** One property per schema field, each null: the state the constructor leaves. */
  function NullValues(schema: EntitySchema): (m: map<string, Value>)
    ensures m.Keys == schema.Keys
    ensures forall n :: n in m ==> m[n] == VNull
  {
    map n | n in schema :: VNull
  }

  /** A freshly constructed entity is never complete: its null fields fail. */
  lemma {:induction false} FreshEntityIncomplete(schema: EntitySchema, required: seq<string>, host: Host, gen: Generation)
    requires schema != map[]
    ensures !IsCompleteSpec(schema, NullValues(schema), required, host, gen)
  {
    var n :| n in schema;
    ValidateIdempotent(schema[n], VNull, host, gen);
  }

  /** An optional field left null already makes `isComplete` false. */
  lemma {:induction false} NullFieldBlocksCompleteness(schema: EntitySchema, values: map<string, Value>,
                                                      required: seq<string>, host: Host, gen: Generation, n: string)
    requires values.Keys <= schema.Keys
    requires n in values && values[n] == VNull
    ensures !IsCompleteSpec(schema, values, required, host, gen)
  {
    ValidateIdempotent(schema[n], VNull, host, gen);
  }

  /** A required name that is not a property of the entity can never be
      deleted from the pending set, so `isComplete` is false whatever the
      values. */
  lemma {:induction false} RequiredOutsideSchemaNeverComplete(schema: EntitySchema, values: map<string, Value>,
                                                             required: seq<string>, host: Host, gen: Generation, k: nat)
    requires values.Keys <= schema.Keys
    requires k < |required| && required[k] !in schema
    ensures !IsCompleteSpec(schema, values, required, host, gen)
  {
    assert required[k] !in values;
  }

  /** The `isComplete()` scan: walk the held properties, failing on the first
      whose value validates falsy, while deleting each from the set of
      required names; complete when that set ends up empty. */
  method CheckComplete(schema: EntitySchema, values: map<string, Value>, required: seq<string>,
                       host: Host, gen: Generation) returns (complete: bool)
    requires values.Keys <= schema.Keys
    ensures complete == IsCompleteSpec(schema, values, required, host, gen)
  {
    ghost var requiredNames := set i | 0 <= i < |required| :: required[i];
    var requiredProps := set i | 0 <= i < |required| :: required[i];
    var pending := values.Keys;
    while pending != {}
      invariant pending <= values.Keys
      invariant forall n :: n in values && n !in pending ==> FieldPasses(schema[n], values[n], host, gen)
      invariant requiredProps <= requiredNames
      invariant forall r :: r in requiredNames && r !in requiredProps ==> r in values && r !in pending
      invariant forall r :: r in requiredProps ==> r !in values || r in pending
      decreases |pending|
    {
      var name :| name in pending;
      pending := pending - {name};
      if !FieldPasses(schema[name], values[name], host, gen) {
        return false;
      }
      if name in requiredProps {
        requiredProps := requiredProps - {name};
      }
    }
    complete := |requiredProps| == 0;
    if !complete {
      var r :| r in requiredProps;
      assert r !in values;
    } else {
      forall i | 0 <= i < |required|
        ensures required[i] in values
      {
        assert required[i] in requiredNames;
      }
    }
  }
}
