/** `Imovel` of doimaker.js: a property (real estate) of the act, with one
    share table for the transferors (`alienacao`), one for the acquirers
    (`aquisicao`) and the set of other municipalities it lies in. */
module RootImovel {
  import opened JsValues
  import opened Schema
  import opened Property
  import opened EntityRules
  import opened OrderedSets
  import opened RootEntity
  import opened RootOperacao
  import RootSubject
  import RootRegistry

  /** The required list the constructor passes, as written: it names four
      fields of the `Ato` schema that the `Imovel` schema does not have. */
  const ImovelRequiredAsWritten: seq<string> :=
    ["dataLavraturaRegistroAverbacao", "dataNegocioJuridico", "destinacao", "formaPagamento",
     "indicadorImovelPublicoUniao", "indicadorPagamentoDinheiro", "indicadorPermutaBens",
     "tipoDeclaracao", "tipoOperacaoImobiliaria", "tipoParteTransacionada", "tipoServico",
     "valorParteTransacionada"]

  /** The required list without the four `Ato` fields. */
  const ImovelRequired: seq<string> :=
    ["destinacao", "formaPagamento", "indicadorImovelPublicoUniao", "indicadorPagamentoDinheiro",
     "indicadorPermutaBens", "tipoOperacaoImobiliaria", "tipoParteTransacionada",
     "valorParteTransacionada"]

  /** As written, no `Imovel` is ever complete, whatever its values: the first
      required name is not one of its properties. */
  lemma AsWrittenImovelNeverComplete(values: map<string, Value>, host: Host)
    requires values.Keys <= RootRegistry.Imovel.Keys
    ensures !IsCompleteSpec(RootRegistry.Imovel, values, ImovelRequiredAsWritten, host, Root)
  {
    DataLavraturaRegistroAverbacaoNotImovelField();
    RequiredOutsideSchemaNeverComplete(RootRegistry.Imovel, values, ImovelRequiredAsWritten, host, Root, 0);
  }

  /** Every name of the corrected list is an `Imovel` property. */
  lemma RequiredNamesInSchema()
    ensures forall i :: 0 <= i < |ImovelRequired| ==> ImovelRequired[i] in RootRegistry.Imovel
  {
  }

  /** The four names the written list borrows from `Ato` are not `Imovel`
      properties. */
  lemma DataLavraturaRegistroAverbacaoNotImovelField()
    ensures "dataLavraturaRegistroAverbacao" !in RootRegistry.Imovel
  {
  }

  lemma DataNegocioJuridicoNotImovelField()
    ensures "dataNegocioJuridico" !in RootRegistry.Imovel
  {
  }

  lemma TipoDeclaracaoNotImovelField()
    ensures "tipoDeclaracao" !in RootRegistry.Imovel
  {
  }

  lemma TipoServicoNotImovelField()
    ensures "tipoServico" !in RootRegistry.Imovel
  {
  }

  /** The corrected list is what the written one leaves once the names
      outside the schema are dropped. */
  lemma {:induction false} RequiredListIsTheSchemaPart()
    ensures forall i :: 0 <= i < |ImovelRequired| ==> ImovelRequired[i] in RootRegistry.Imovel
    ensures forall i :: 0 <= i < |ImovelRequiredAsWritten| ==>
              (ImovelRequiredAsWritten[i] in RootRegistry.Imovel <==> ImovelRequiredAsWritten[i] in ImovelRequired)
  {
    RequiredNamesInSchema();
    DataLavraturaRegistroAverbacaoNotImovelField();
    DataNegocioJuridicoNotImovelField();
    TipoDeclaracaoNotImovelField();
    TipoServicoNotImovelField();
  }

  /** `/^\d{7}$/`: exactly seven ASCII digits (an IBGE municipality code). */
  predicate IsMunicipioCode(v: Value) {
    v.VStr? && |v.str| == 7 && forall i :: 0 <= i < 7 ==> IsDecimalDigit(v.str[i])
  }

  /** `addMunicipio(codigoIbge)`: anything but a seven-digit string is ignored. */
  function AddMunicipioSpec(codes: seq<string>, v: Value): (r: seq<string>)
    ensures Distinct(codes) ==> Distinct(r)
    ensures IsMunicipioCode(v) ==> v.str in r && forall c :: c in codes ==> c in r
    ensures !IsMunicipioCode(v) ==> r == codes
  {
    if IsMunicipioCode(v) then Include(codes, v.str) else codes
  }

  /** `removeMunicipio(codigoIbge)`. */
  function RemoveMunicipioSpec(codes: seq<string>, v: Value): (r: seq<string>)
    ensures !IsMunicipioCode(v) ==> r == codes
  {
    if IsMunicipioCode(v) then Exclude(codes, v.str) else codes
  }

  /** Removing a code keeps the others, drops it, and keeps the list
      distinct; removing a code just added restores the list. */
  lemma {:induction false} MunicipioRemoval(codes: seq<string>, v: Value)
    requires Distinct(codes)
    ensures Distinct(RemoveMunicipioSpec(codes, v))
    ensures forall c :: c in RemoveMunicipioSpec(codes, v) <==> c in codes && !(IsMunicipioCode(v) && c == v.str)
    ensures IsMunicipioCode(v) && v.str !in codes ==>
            RemoveMunicipioSpec(AddMunicipioSpec(codes, v), v) == codes
  {
    if IsMunicipioCode(v) {
      DistinctExclude(codes, v.str);
      ExcludeMembers(codes, v.str);
      if v.str !in codes {
        ExcludeUndoesInclude(codes, v.str);
      }
    }
  }

  /** `setAlienante`/`setAdquirente` on a share table: remove the party's
      share when `table[key]` is truthy, then add the new one. */
  function SetShareSpec(t: Table, key: string, fraction: Value): Table {
    AddPersonSpec(if PropTruthy(Read(t, key)) then RemovePersonSpec(t, key) else t, key, fraction)
  }

  /** Setting a share replaces the party's previous share: with an ordinary
      key the invariant is kept, the key holds the new fraction when that is
      a number in (0, 100], and otherwise the old share is gone. */
  lemma {:induction false} SetShareReplaces(t: Table, key: string, fraction: Value)
    requires Healthy(t) && OrdinaryKey(key)
    ensures Healthy(SetShareSpec(t, key, fraction))
    ensures fraction.VNum? && 0.0 < fraction.num <= 100.0 ==>
            Shares(SetShareSpec(t, key, fraction)) == Shares(t)[key := fraction.num]
    ensures !(fraction.VNum? && 0.0 < fraction.num <= 100.0) ==>
            Shares(SetShareSpec(t, key, fraction)) == Shares(t) - {key}
  {
    var t1 := RemovePersonSpec(t, key);
    assert SetShareSpec(t, key, fraction) == AddPersonSpec(t1, key, fraction);
    RemovePersonKeepsInvariant(t, key);
    assert key !in Shares(t1);
    AddPersonKeepsInvariant(t1, key, fraction);
    if fraction.VNum? {
      assert (Shares(t) - {key})[key := fraction.num] == Shares(t)[key := fraction.num];
    }
  }

  class Imovel {
    const entity: DoiEntity
    const alienacao: Operacao
    const aquisicao: Operacao
    /** `#outrosMunicipios`, in insertion order (the `outrosMunicipios` getter). */
    var outrosMunicipios: seq<string>

    predicate Valid()
      reads this, entity
    {
      entity.Valid() && entity.requiredList == ImovelRequired && alienacao != aquisicao &&
      Distinct(outrosMunicipios) && forall i :: 0 <= i < |outrosMunicipios| ==> IsMunicipioCode(VStr(outrosMunicipios[i]))
    }

    /** `new Imovel()`, with the corrected required list. */
    constructor (host: Host)
      ensures Valid() && fresh(entity) && fresh(alienacao) && fresh(aquisicao)
      ensures entity.schema == RootRegistry.Imovel && entity.values == NullValues(RootRegistry.Imovel)
      ensures alienacao.table == NewTable && aquisicao.table == NewTable
      ensures alienacao.host == host && aquisicao.host == host
      ensures outrosMunicipios == []
    {
      entity := new DoiEntity("Imovel", ImovelRequired, host);
      alienacao := new Operacao(host);
      aquisicao := new Operacao(host);
      outrosMunicipios := [];
    }

    /** `setAlienante(alienanteObj, participacao)`. */
    method SetAlienante(person: RootSubject.Subject, participacao: Value)
      requires person.Valid()
      modifies alienacao
      ensures alienacao.table == SetShareSpec(old(alienacao.table), KeyOf(person.Ni(), alienacao.host), participacao)
    {
      var key := KeyOf(person.Ni(), alienacao.host);
      if PropTruthy(Read(alienacao.table, key)) {
        alienacao.RemovePerson(person.Ni());
      }
      alienacao.AddPerson(person, participacao);
    }

    /** `removeAlienante(ni)`. */
    method RemoveAlienante(ni: Value)
      modifies alienacao
      ensures alienacao.table == RemovePersonSpec(old(alienacao.table), KeyOf(ni, alienacao.host))
    {
      alienacao.RemovePerson(ni);
    }

    /** `setAdquirente(adquirenteObj, participacao)`. */
    method SetAdquirente(person: RootSubject.Subject, participacao: Value)
      requires person.Valid()
      modifies aquisicao
      ensures aquisicao.table == SetShareSpec(old(aquisicao.table), KeyOf(person.Ni(), aquisicao.host), participacao)
    {
      var key := KeyOf(person.Ni(), aquisicao.host);
      if PropTruthy(Read(aquisicao.table, key)) {
        aquisicao.RemovePerson(person.Ni());
      }
      aquisicao.AddPerson(person, participacao);
    }

    /** `removeAdquirente(ni)`. */
    method RemoveAdquirente(ni: Value)
      modifies aquisicao
      ensures aquisicao.table == RemovePersonSpec(old(aquisicao.table), KeyOf(ni, aquisicao.host))
    {
      aquisicao.RemovePerson(ni);
    }

    /** `addMunicipio(codigoIbge)`. */
    method AddMunicipio(codigoIbge: Value)
      requires Valid()
      modifies this
      ensures Valid()
      ensures outrosMunicipios == AddMunicipioSpec(old(outrosMunicipios), codigoIbge)
    {
      if codigoIbge.VStr? && |codigoIbge.str| == 7 && forall i :: 0 <= i < 7 ==> IsDecimalDigit(codigoIbge.str[i]) {
        outrosMunicipios := Include(outrosMunicipios, codigoIbge.str);
      }
    }

    /** `removeMunicipio(codigoIbge)`. */
    method RemoveMunicipio(codigoIbge: Value)
      requires Valid()
      modifies this
      ensures Valid()
      ensures outrosMunicipios == RemoveMunicipioSpec(old(outrosMunicipios), codigoIbge)
    {
      if codigoIbge.VStr? && |codigoIbge.str| == 7 && forall i :: 0 <= i < 7 ==> IsDecimalDigit(codigoIbge.str[i]) {
        MunicipioRemoval(outrosMunicipios, codigoIbge);
        var codes := Exclude(outrosMunicipios, codigoIbge.str);
        forall i | 0 <= i < |codes|
          ensures IsMunicipioCode(VStr(codes[i]))
        {
          assert codes[i] in outrosMunicipios;
        }
        outrosMunicipios := codes;
      }
    }

    /** `isConsistent()`: both share tables are valid. */
    method IsConsistent() returns (consistent: bool)
      ensures consistent == (IsValidSpec(alienacao.table) && IsValidSpec(aquisicao.table))
    {
      var a := alienacao.IsValid();
      var b := aquisicao.IsValid();
      consistent := a && b;
    }

    /** What `isValid()` returns, as a predicate of the current state. */
    predicate ValidNow()
      requires Valid()
      reads this, entity, alienacao, aquisicao
    {
      IsCompleteSpec(entity.schema, entity.values, entity.requiredList, entity.host, Root) &&
      IsValidSpec(alienacao.table) && IsValidSpec(aquisicao.table)
    }

    /** `isValid()` = `isComplete() && isConsistent()`. */
    method IsValid() returns (valid: bool)
      requires Valid()
      ensures valid == ValidNow()
    {
      var complete := entity.IsComplete();
      var consistent := IsConsistent();
      valid := complete && consistent;
    }
  }
}
