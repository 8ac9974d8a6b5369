/** `MunicipioList` and `Imovel` of src/doimaker.js: a property of the act,
    with its municipality menu, one share table for the transfer
    (`alienacao`) and one for the acquisition (`aquisicao`), both offering
    the act's parties. */
module SrcImovel {
  import opened JsValues
  import opened Schema
  import opened Property
  import opened EntityRules
  import opened SubjectRules
  import opened SrcEntity
  import opened SrcOperacao
  import opened SrcSubject
  import opened SrcRecords
  import DoiRegistry

  /** The required list the constructor passes, as written: it names
      `tipoServico`, which the `Imovel` schema does not have. */
  const ImovelRequiredAsWritten: seq<string> :=
    ["destinacao", "formaPagamento", "indicadorImovelPublicoUniao", "indicadorPagamentoDinheiro",
     "indicadorPermutaBens", "tipoOperacaoImobiliaria", "tipoParteTransacionada", "tipoServico",
     "valorParteTransacionada"]

  /** The required list without `tipoServico`, an `Ato` field. */
  const ImovelRequired: seq<string> :=
    ["destinacao", "formaPagamento", "indicadorImovelPublicoUniao", "indicadorPagamentoDinheiro",
     "indicadorPermutaBens", "tipoOperacaoImobiliaria", "tipoParteTransacionada",
     "valorParteTransacionada"]

  lemma TipoServicoNotImovelField()
    ensures "tipoServico" !in DoiRegistry.Imovel
  {
  }

  /** As written, no `Imovel` is ever complete, whatever its values: one
      required name is not one of its properties, so `isComplete` can never
      strike it off. */
  lemma AsWrittenImovelNeverComplete(values: map<string, Value>, host: Host)
    requires values.Keys <= DoiRegistry.Imovel.Keys
    ensures !IsCompleteSpec(DoiRegistry.Imovel, values, ImovelRequiredAsWritten, host, Src)
  {
    TipoServicoNotImovelField();
    RequiredOutsideSchemaNeverComplete(DoiRegistry.Imovel, values, ImovelRequiredAsWritten, host, Src, 7);
  }

  /** Every name of the corrected list is an `Imovel` property, and no
      required name is the municipality, which the menu replaces. */
  lemma RequiredNamesInSchema()
    ensures forall i :: 0 <= i < |ImovelRequired| ==>
              ImovelRequired[i] in DoiRegistry.Imovel && ImovelRequired[i] != "codigoIbge"
  {
  }

  /** The party schemas have no field named like the ones an entry adds. */
  lemma PartySchemasLackEntryNames(p: Position)
    ensures "participacao" !in DoiRegistry.Registry[SchemaName(p)]
    ensures "representantes" !in DoiRegistry.Registry[SchemaName(p)]
  {
  }

  /** The municipality menu's setter, given `String(code)`: a code among
      the options is selected; a name the options object inherits selects
      nothing (the menu then reads ""); anything else leaves the selection as
      it was. */
  function MenuSelect(current: string, key: string, options: set<string>): (r: string)
    ensures r == current || r == "" || (r == key && r in options)
    ensures key in options ==> r == key
  {
    if key in options then key else if ObjectPrototypeKey(key) then "" else current
  }

  /** Selecting a code among the options and then anything outside them
      (and not inherited) keeps the first selection. */
  lemma MenuKeepsSelection(current: string, key: string, other: string, options: set<string>)
    requires key in options
    requires other !in options && !ObjectPrototypeKey(other)
    ensures MenuSelect(MenuSelect(current, key, options), other, options) == key
  {
  }

  // ---------------------------------------------------------------------
  // The loops of `participantes` and `doi`, over the values they read
  // ---------------------------------------------------------------------

  /** `for (const propName of Object.keys(...)) if (value != 0 ||
      requiredList.includes(propName)) doi[propName] = value`. */
  method CopyEmitted(values: map<string, Value>, required: seq<string>) returns (fields: map<string, Json>)
    ensures fields == EmittedFields(values, required)
  {
    fields := map[];
    var pending := values.Keys;
    while pending != {}
      invariant pending <= values.Keys
      invariant forall n :: n in fields <==> n in values && n !in pending && Emitted(values, n, required)
      invariant forall n :: n in fields ==> fields[n] == JVal(values[n])
      decreases |pending|
    {
      var n :| n in pending;
      if !LooseEqZero(values[n]) || n in required {
        fields := fields[n := JVal(values[n])];
      }
      pending := pending - {n};
    }
  }

  /** `subjects.find(s => s.ni.value === ni)`. */
  method FindPartyIndex(parties: seq<PartyState>, ni: string) returns (r: Option<nat>)
    ensures r == FindParty(parties, ni)
  {
    var i := 0;
    while i < |parties|
      invariant 0 <= i <= |parties|
      invariant forall j :: 0 <= j < i ==> !HasNi(parties[j], ni)
    {
      if "ni" in parties[i].values && parties[i].values["ni"] == VStr(ni) {
        return Some(i);
      }
      i := i + 1;
    }
    return None;
  }

  /** The body of the `participantes` loop for one share key. */
  method BuildEntry(ni: string, share: real, p: PartyState) returns (part: map<string, Json>)
    ensures part == Entry(ni, share, p)
  {
    part := map["ni" := JVal(VStr(ni)), "participacao" := JVal(VNum(share))];
    var fields := CopyEmitted(p.values, p.required);
    part := part + fields;
    if HasLength14(part["ni"]) {
      part := part - {"indicadorConjuge"};
    }
    if TruthyMember(part, "indicadorConjuge") {
      if !TruthyMember(part, "indicadorCpfConjugeIdentificado") {
        part := part["indicadorCpfConjugeIdentificado" := JVal(VBool(false))];
      }
      part := part["indicadorConjugeParticipa" := JVal(VBool(false))];
    }
    if TruthyMember(part, "indicadorRepresentante") {
      part := part["representantes" := JArr(p.reps)];
    }
  }

  /** `participantes(operacao)`. */
  method ParticipantesFrom(rows: seq<Row>, parties: seq<PartyState>) returns (parts: seq<Json>)
    ensures parts == Participantes(rows, parties)
  {
    var op := ListRows(rows);
    ListWellFormed(rows);
    parts := [];
    var i := 0;
    while i < |op.order|
      invariant 0 <= i <= |op.order|
      invariant parts == ParticipantesOf(op.order[..i], op.share, parties)
    {
      ParticipantesSnoc(op.order, i, op.share, parties);
      var ni := op.order[i];
      var found := FindPartyIndex(parties, ni);
      if found.Some? {
        var part := BuildEntry(ni, op.share[ni], parties[found.value]);
        parts := parts + [JObj(part)];
      }
      i := i + 1;
    }
    assert op.order[..i] == op.order;
  }

  /** The body of the `doi` getter. */
  method ImovelDoiFrom(im: ImovelState) returns (doi: map<string, Json>)
    ensures doi == ImovelDoiOf(im)
  {
    var fields := CopyEmitted(im.values, im.required);
    doi := fields["codigoIbge" := JVal(im.codigoIbge)];
    assert doi == EmittedFields(im.values, im.required) + map["codigoIbge" := JVal(im.codigoIbge)];
    if "formaPagamento" in im.values && im.values["formaPagamento"] == VStr("7") {
      doi := doi["indicadorAlienacaoFiduciaria" := JVal(VBool(false))];
    }
    ghost var flagged := doi;
    var subjects := im.adquirentes + im.alienantes;
    var alienantes := ParticipantesFrom(im.alienacao, subjects);
    doi := doi["alienantes" := JArr(alienantes)];
    var adquirentes := ParticipantesFrom(im.aquisicao, subjects);
    doi := doi["adquirentes" := JArr(adquirentes)];
    assert doi == flagged["alienantes" := JArr(Participantes(im.alienacao, subjects))]
                         ["adquirentes" := JArr(Participantes(im.aquisicao, subjects))];
  }

  /** The emission filter sees the reading: a property still holding null
      reads its widget's "", 0 or false, which is loosely zero, so it is left
      out unless it is required, and a required one is emitted as that
      reading. */
  lemma UnsetFieldEmittedOnlyWhenRequired(schema: EntitySchema, values: map<string, Value>, host: Host,
                                          required: seq<string>, n: string)
    requires n in values && n in schema && values[n] == VNull
    ensures var r := Readings(schema, values, host);
            (n in EmittedFields(r, required) <==> n in required) &&
            (n in required ==> EmittedFields(r, required)[n] == JVal(RestReading(schema[n])))
  {
  }

  /** What `participantes` reads of each party of a list. */
  function PartyStates(items: seq<Subject>): (r: seq<PartyState>)
    reads set i | 0 <= i < |items| :: items[i], set i | 0 <= i < |items| :: items[i].entity,
          set i | 0 <= i < |items| :: items[i].reps
    ensures |r| == |items|
  {
    if items == [] then []
    else
      [PartyState(items[0].entity.Read(), items[0].entity.requiredList, RepsOf(items[0].reps.inputs))] +
      PartyStates(items[1..])
  }

  class Imovel {
    const entity: DoiEntity
    /** The municipality menu's selected code. */
    var codigoIbge: string
    const alienantes: SubjectList
    const adquirentes: SubjectList
    const alienacao: Operacao
    const aquisicao: Operacao

    /** The entity holds every `Imovel` property but `codigoIbge`, which the
        constructor overwrites with the municipality menu. */
    predicate Valid()
      reads this, entity
    {
      entity.Valid() && entity.schemaName == "Imovel" && entity.requiredList == ImovelRequired &&
      entity.values.Keys == entity.schema.Keys - {"codigoIbge"} && alienacao != aquisicao
    }

    /** `new Imovel(alienantes, adquirentes)`, with the corrected required
        list: the act's party lists are shared, not copied. */
    constructor (alienantes: SubjectList, adquirentes: SubjectList, host: Host)
      ensures Valid() && fresh(entity) && fresh(alienacao) && fresh(aquisicao)
      ensures this.alienantes == alienantes && this.adquirentes == adquirentes
      ensures entity.Registered() && entity.values == NullValues(entity.schema) - {"codigoIbge"} && entity.host == host
      ensures codigoIbge == "" && alienacao.rows == [] && aquisicao.rows == []
    {
      entity := new DoiEntity("Imovel", ImovelRequired, host);
      this.alienantes := alienantes;
      this.adquirentes := adquirentes;
      alienacao := new Operacao();
      aquisicao := new Operacao();
      codigoIbge := "";
      new;
      entity.Detach("codigoIbge");
    }

    /** `codigoIbge.value = code`, the menu offering `options`; `key` is
        `String(code)`. */
    method SetMunicipio(key: string, options: set<string>)
      modifies this
      ensures codigoIbge == MenuSelect(old(codigoIbge), key, options)
    {
      if key in options {
        codigoIbge := key;
      } else if ObjectPrototypeKey(key) {
        codigoIbge := "";
      }
    }

    /** `isConsistent()`: both share tables are valid. */
    method IsConsistent() returns (consistent: bool)
      ensures consistent <==> TableValid(alienacao.rows) && TableValid(aquisicao.rows)
    {
      var a := alienacao.IsValid();
      if !a {
        return false;
      }
      consistent := aquisicao.IsValid();
    }

    /** `isValid()` = `isComplete() && isConsistent()`. */
    method IsValid() returns (valid: bool)
      requires Valid()
      ensures valid <==> IsCompleteSpec(entity.schema, entity.values, ImovelRequired, entity.host, Src) &&
                         TableValid(alienacao.rows) && TableValid(aquisicao.rows)
    {
      var complete := entity.IsComplete();
      if !complete {
        return false;
      }
      valid := IsConsistent();
    }

    /** What `doi` reads: this property's values and tables, and the
        parties now listed by the act. */
    function State(): ImovelState
      reads this, entity, alienacao, aquisicao, alienantes, adquirentes
      reads set i | 0 <= i < |alienantes.items| :: alienantes.items[i],
            set i | 0 <= i < |alienantes.items| :: alienantes.items[i].entity,
            set i | 0 <= i < |alienantes.items| :: alienantes.items[i].reps
      reads set i | 0 <= i < |adquirentes.items| :: adquirentes.items[i],
            set i | 0 <= i < |adquirentes.items| :: adquirentes.items[i].entity,
            set i | 0 <= i < |adquirentes.items| :: adquirentes.items[i].reps
    {
      ImovelState(VStr(codigoIbge), entity.Read(), entity.requiredList, alienacao.rows, aquisicao.rows,
                  PartyStates(adquirentes.items), PartyStates(alienantes.items))
    }

    /** The `doi` getter. */
    method Doi() returns (doi: map<string, Json>)
      ensures doi == ImovelDoiOf(old(State()))
    {
      var s := State();
      doi := ImovelDoiFrom(s);
    }
  }
}
