/** `RepList`, `Subject`, `Alienante`/`Adquirente` and `SubjectList` of
    src/doimaker.js: a party with the tax ids typed in for its
    representatives, and the list of parties of one position in an act. */
module SrcSubject {
  import opened JsValues
  import opened Schema
  import opened Property
  import opened EntityRules
  import opened SubjectRules
  import opened TaxId
  import opened OrderedSets
  import opened SrcEntity
  import DoiRegistry

  /** The schema a position's entity is built on. */
  function SchemaName(p: Position): string
  {
    match p
    case Alienante => "Alienante"
    case Adquirente => "Adquirente"
  }

  /** The required list the `Subject` constructor passes. */
  const SubjectRequired: seq<string> :=
    ["indicadorConjuge", "indicadorEspolio", "indicadorEstrangeiro",
     "indicadorNaoConstaParticipacaoOperacao", "indicadorNiIdentificado", "indicadorRepresentante"]

  lemma PartySchemasHaveConsistencyFields(p: Position)
    ensures HasConsistencyFields(NullValues(DoiRegistry.Registry[SchemaName(p)]))
  {
  }

  /** The texts of a `RepList` that pass `Subject.validate`, in input order. */
  function RepNis(inputs: seq<string>): seq<Value>
  {
    if inputs == [] then []
    else RepNis(inputs[..|inputs| - 1]) +
         (if IsTaxId(VStr(inputs[|inputs| - 1])) then [VStr(inputs[|inputs| - 1])] else [])
  }

  /** `{"ni": ni}`. */
  function RepObject(ni: Value): Json {
    JObj(map["ni" := JVal(ni)])
  }

  /** What the `list` getter of a `RepList` returns. */
  function RepsOf(inputs: seq<string>): (reps: seq<Json>)
    ensures |reps| == |RepNis(inputs)|
    ensures forall i :: 0 <= i < |reps| ==> reps[i] == RepObject(RepNis(inputs)[i])
  {
    seq(|RepNis(inputs)|, i requires 0 <= i < |RepNis(inputs)| => RepObject(RepNis(inputs)[i]))
  }

  /** `representantes` keeps exactly the valid tax ids among the inputs. */
  lemma {:induction false} RepNisExact(inputs: seq<string>, v: Value)
    ensures v in RepNis(inputs) <==> v.VStr? && v.str in inputs && IsTaxId(v)
  {
    if inputs != [] {
      var init, last := inputs[..|inputs| - 1], inputs[|inputs| - 1];
      RepNisExact(init, v);
      assert inputs == init + [last];
      assert v in RepNis(inputs) <==> v in RepNis(init) || (IsTaxId(VStr(last)) && v == VStr(last));
      assert v.VStr? ==> (v.str in inputs <==> v.str in init || v.str == last);
    }
  }

  /** … in input order: the list of a concatenation is the concatenation of
      the lists. */
  lemma {:induction false} RepNisAppend(xs: seq<string>, ys: seq<string>)
    ensures RepNis(xs + ys) == RepNis(xs) + RepNis(ys)
  {
    if ys != [] {
      var init := ys[..|ys| - 1];
      assert (xs + ys)[..|xs + ys| - 1] == xs + init;
      var last := ys[|ys| - 1];
      assert (xs + ys)[|xs + ys| - 1] == last;
      var tail := if IsTaxId(VStr(last)) then [VStr(last)] else [];
      assert RepNis(xs + ys) == RepNis(xs + init) + tail;
      assert RepNis(ys) == RepNis(init) + tail;
      RepNisAppend(xs, init);
      assert RepNis(xs) + RepNis(init) + tail == RepNis(xs) + (RepNis(init) + tail);
    } else {
      assert xs + ys == xs;
    }
  }

  /** `rep.ni === ni` for some entry of a `representantes` list. */
  predicate SomeRepIs(reps: seq<Json>, ni: Value) {
    exists i :: 0 <= i < |reps| && reps[i].JObj? && "ni" in reps[i].fields && reps[i].fields["ni"] == JVal(ni)
  }

  lemma RepsMentionExactlyRepNis(inputs: seq<string>, ni: Value)
    ensures SomeRepIs(RepsOf(inputs), ni) <==> ni in RepNis(inputs)
  {
    if ni in RepNis(inputs) {
      var i :| 0 <= i < |RepNis(inputs)| && RepNis(inputs)[i] == ni;
      assert RepsOf(inputs)[i].fields["ni"] == JVal(ni);
    }
  }

  /** `isConsistent()` reads the properties' `value`s, the readings; on an
      entity of string menus that holds only accepted values the rule gives
      the same verdict on the readings as on the held values.  An unset tax
      id reads a falsy value, and every listed representative's id is a
      non-empty string, so neither is among them. */
  lemma {:induction false} ConsistencyThroughReadings(schema: EntitySchema, values: map<string, Value>,
                                                     inputs: seq<string>, host: Host)
    requires values.Keys <= schema.Keys && HasConsistencyFields(values)
    requires MenusAreDigitStrings(schema)
    requires HoldsOnlyAccepted(schema, values, host)
    ensures HasConsistencyFields(Readings(schema, values, host))
    ensures SubjectConsistent(Readings(schema, values, host), RepNis(inputs)) <==>
            SubjectConsistent(values, RepNis(inputs))
  {
    var r := Readings(schema, values, host);
    forall n | n in values
      ensures Truthy(r[n]) <==> Truthy(values[n])
      ensures r[n] == VBool(true) <==> values[n] == VBool(true)
      ensures values[n] != VNull ==> r[n] == values[n]
    {
      ReadingKeepsVerdicts(schema[n], values[n], host);
    }
    if values["ni"] == VNull {
      RepNisExact(inputs, r["ni"]);
      RepNisExact(inputs, VNull);
      assert r["ni"] !in RepNis(inputs);
    }
  }

  /** The `some(rep => rep.ni === ni)` loop. */
  method AnyRepIs(reps: seq<Json>, ni: Value) returns (found: bool)
    ensures found == SomeRepIs(reps, ni)
  {
    var i := 0;
    while i < |reps|
      invariant 0 <= i <= |reps|
      invariant forall j :: 0 <= j < i ==> !(reps[j].JObj? && "ni" in reps[j].fields && reps[j].fields["ni"] == JVal(ni))
    {
      if reps[i].JObj? && "ni" in reps[i].fields && reps[i].fields["ni"] == JVal(ni) {
        return true;
      }
      i := i + 1;
    }
    return false;
  }

  class RepList {
    /** The texts of `inputs`, in order. */
    var inputs: seq<string>

    constructor ()
      ensures inputs == []
    {
      inputs := [];
    }

    /** `add(ni)`: one more text input, holding `ni ?? ""`. */
    method Add(ni: Option<string>)
      modifies this
      ensures inputs == old(inputs) + [if ni.Some? then ni.value else ""]
    {
      inputs := inputs + [if ni.Some? then ni.value else ""];
    }

    /** An entry's delete button: `inputs.splice(index, 1)`. */
    method Remove(k: nat)
      modifies this
      ensures inputs == if k < |old(inputs)| then old(inputs)[..k] + old(inputs)[k + 1..] else old(inputs)
    {
      if k < |inputs| {
        inputs := inputs[..k] + inputs[k + 1..];
      }
    }

    /** The `list` getter: `{ni}` for every input that is a valid CPF or CNPJ. */
    method List() returns (reps: seq<Json>)
      ensures reps == RepsOf(inputs)
    {
      var nis: seq<Value> := [];
      var i := 0;
      while i < |inputs|
        invariant 0 <= i <= |inputs|
        invariant nis == RepNis(inputs[..i])
      {
        assert inputs[..i + 1][..i] == inputs[..i];
        if IsTaxId(VStr(inputs[i])) {
          nis := nis + [VStr(inputs[i])];
        }
        i := i + 1;
      }
      assert inputs[..i] == inputs;
      reps := seq(|nis|, k requires 0 <= k < |nis| => RepObject(nis[k]));
    }
  }

  class Subject {
    const position: Position
    const entity: DoiEntity
    const reps: RepList

    predicate Valid()
      reads this, entity
    {
      entity.Valid() && entity.schemaName == SchemaName(position) && entity.requiredList == SubjectRequired &&
      entity.values.Keys == entity.schema.Keys && HasConsistencyFields(entity.values)
    }

    /** `new Alienante()` / `new Adquirente()`. */
    constructor (position: Position, host: Host)
      ensures Valid() && fresh(entity) && fresh(reps)
      ensures this.position == position && entity.host == host
      ensures entity.Registered() && entity.values == NullValues(DoiRegistry.Registry[SchemaName(position)])
      ensures reps.inputs == []
    {
      this.position := position;
      PartySchemasHaveConsistencyFields(position);
      entity := new DoiEntity(SchemaName(position), SubjectRequired, host);
      reps := new RepList();
    }

    /** `this.ni.value`: the stored tax id, or the widget's falsy rest
        reading (the text input's "") while none is stored. */
    function Ni(): (ni: Value)
      requires Valid()
      reads this, entity
      ensures entity.values["ni"] != VNull && entity.schema["ni"].oneOf.None? ==> ni == entity.values["ni"]
      ensures entity.values["ni"] == VNull ==> ni != VNull && !Truthy(ni)
    {
      Reading(entity.schema["ni"], entity.values["ni"], entity.host)
    }

    /** `isConsistent()`: the shared party rule over the `representantes`
        list as the getter builds it. */
    method IsConsistent() returns (consistent: bool)
      requires Valid()
      ensures consistent == SubjectConsistent(entity.values, RepNis(reps.inputs))
      ensures HasConsistencyFields(entity.Read()) &&
              consistent == SubjectConsistent(entity.Read(), RepNis(reps.inputs))
    {
      ConsistencyThroughReadings(entity.schema, entity.values, reps.inputs, entity.host);
      var v := entity.values;
      var list := reps.List();
      var ownIsRep := AnyRepIs(list, v["ni"]);
      RepsMentionExactlyRepNis(reps.inputs, v["ni"]);
      consistent := v["indicadorNiIdentificado"] == VBool(true) && !ownIsRep &&
                    (!Truthy(v["indicadorEspolio"]) || Truthy(v["cpfInventariante"])) &&
                    (!Truthy(v["indicadorConjuge"]) ||
                     (Truthy(v["indicadorCpfConjugeIdentificado"]) && Truthy(v["regimeBens"])));
    }

    /** `isValid()` = `isComplete() && isConsistent()`. */
    method IsValid() returns (valid: bool)
      requires Valid()
      ensures valid <==> IsCompleteSpec(entity.schema, entity.values, SubjectRequired, entity.host, Src) &&
                         SubjectConsistent(entity.values, RepNis(reps.inputs))
      ensures HasConsistencyFields(entity.Read()) &&
              (valid <==> IsCompleteSpec(entity.schema, entity.Read(), SubjectRequired, entity.host, Src) &&
                          SubjectConsistent(entity.Read(), RepNis(reps.inputs)))
    {
      ConsistencyThroughReadings(entity.schema, entity.values, reps.inputs, entity.host);
      var complete := entity.IsComplete();
      if !complete {
        return false;
      }
      valid := IsConsistent();
    }
  }

  /** The first party whose tax id is strictly equal to `ni`. */
  predicate IsFirstWithNi(items: seq<Subject>, k: nat, ni: Value)
    requires forall i :: 0 <= i < |items| ==> items[i].Valid()
    reads set i | 0 <= i < |items| :: items[i], set i | 0 <= i < |items| :: items[i].entity
  {
    k < |items| && items[k].Ni() == ni && forall j :: 0 <= j < k ==> items[j].Ni() != ni
  }

  class SubjectList {
    const position: Position
    /** The parties of `items`, in insertion order. */
    var items: seq<Subject>

    constructor (position: Position)
      ensures this.position == position && items == []
    {
      this.position := position;
      items := [];
    }

    /** `add(newSubj)`: `items.set(view, subject)` keeps an existing entry in
        its place. */
    method Add(s: Subject)
      modifies this
      ensures items == Include(old(items), s)
    {
      items := Include(items, s);
    }

    /** A page's delete button: `items.delete(view)`. */
    method Remove(s: Subject)
      modifies this
      ensures items == Exclude(old(items), s)
    {
      items := Exclude(items, s);
    }

    /** `getSubjectByNi(ni)`: the first party whose tax id is `=== ni`, or
        nothing. */
    method GetSubjectByNi(ni: Value) returns (s: Subject?)
      requires forall i :: 0 <= i < |items| ==> items[i].Valid()
      ensures s == null <==> forall i :: 0 <= i < |items| ==> items[i].Ni() != ni
      ensures s != null ==> exists k: nat :: IsFirstWithNi(items, k, ni) && s == items[k]
    {
      var i := 0;
      while i < |items|
        invariant 0 <= i <= |items|
        invariant forall j :: 0 <= j < i ==> items[j].Ni() != ni
      {
        var current := items[i].Ni();
        if current == ni {
          assert IsFirstWithNi(items, i, ni);
          return items[i];
        }
        i := i + 1;
      }
      return null;
    }
  }

  /** `new SubjectList(title)` with its error path: only the two titles name
      a position. */
  method NewSubjectList(title: string) returns (l: SubjectList?)
    ensures l == null <==> title != "Alienantes" && title != "Adquirentes"
    ensures l != null ==> fresh(l) && l.items == [] &&
                          l.position == if title == "Alienantes" then Alienante else Adquirente
  {
    if title == "Alienantes" {
      l := new SubjectList(Alienante);
    } else if title == "Adquirentes" {
      l := new SubjectList(Adquirente);
    } else {
      l := null;
    }
  }
}
