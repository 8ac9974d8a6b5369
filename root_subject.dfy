/** `Subject`, `Alienante` and `Adquirente` of doimaker.js: a party to the
    transaction (transferor or acquirer), an entity over the party schema of
    its position. */
module RootSubject {
  import opened JsValues
  import opened Schema
  import opened Property
  import opened EntityRules
  import opened SubjectRules
  import opened RootEntity
  import RootRegistry

  function PositionName(p: Position): (name: string)
    ensures name in RootRegistry.Registry
  {
    match p
    case Alienante => "Alienante"
    case Adquirente => "Adquirente"
  }

  /** The required list the `Subject` constructor passes. */
  const SubjectRequired: seq<string> :=
    ["indicadorEspolio", "indicadorEstrangeiro", "indicadorNaoConstaParticipacaoOperacao", "indicadorNiIdentificado"]

  lemma PartySchemasHaveConsistencyFields(p: Position)
    ensures HasConsistencyFields(NullValues(RootRegistry.Registry[PositionName(p)]))
  {
  }

  class Subject {
    const position: Position
    const entity: DoiEntity
    /** `#representantes`: a Set that `addRepresentante` can never grow (it
        calls `add` on the array copy the getter returns, which throws), so it
        stays empty. */
    const representantes: seq<Value>

    predicate Valid()
      reads this, entity
    {
      entity.Valid() && entity.requiredList == SubjectRequired &&
      HasConsistencyFields(entity.values) && representantes == []
    }

    /** `new Alienante()` / `new Adquirente()`. */
    constructor (position: Position, host: Host)
      ensures Valid() && fresh(entity)
      ensures this.position == position
      ensures entity.schema == RootRegistry.Registry[PositionName(position)]
      ensures entity.values == NullValues(entity.schema)
    {
      this.position := position;
      PartySchemasHaveConsistencyFields(position);
      entity := new DoiEntity(PositionName(position), SubjectRequired, host);
      representantes := [];
    }

    /** The party's current tax id value. */
    function Ni(): Value
      requires Valid()
      reads this, entity
    {
      entity.values["ni"]
    }

    /** `isConsistent()`. */
    predicate IsConsistent()
      requires Valid()
      reads this, entity
    {
      SubjectConsistent(entity.values, representantes)
    }

    /** What `isValid()` returns, as a predicate of the current state. */
    predicate ValidNow()
      requires Valid()
      reads this, entity
    {
      IsCompleteSpec(entity.schema, entity.values, entity.requiredList, entity.host, Root) && IsConsistent()
    }

    /** `isValid()` = `isComplete() && isConsistent()`. */
    method IsValid() returns (valid: bool)
      requires Valid()
      ensures valid == ValidNow()
    {
      var complete := entity.IsComplete();
      valid := complete && IsConsistent();
    }
  }

  /** The current values of a sequence of parties, in order. */
  function Snapshots(ss: seq<Subject>): (r: seq<map<string, Value>>)
    requires forall i :: 0 <= i < |ss| ==> ss[i].Valid()
    reads set i | 0 <= i < |ss| :: ss[i], set i | 0 <= i < |ss| :: ss[i].entity
    ensures |r| == |ss|
    ensures forall i :: 0 <= i < |ss| ==> r[i] == ss[i].entity.values
  {
    if ss == [] then []
    else
      assert forall i :: 1 <= i < |ss| ==> ss[1..][i - 1] == ss[i];
      [ss[0].entity.values] + Snapshots(ss[1..])
  }
}
