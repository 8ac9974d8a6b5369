/** `ImovelList` and `Ato` of src/doimaker.js: a notarial act with its two
    party lists and its properties; `declaracoes` yields one record per
    property. */
module SrcAto {
  import opened JsValues
  import opened Schema
  import opened Property
  import opened EntityRules
  import opened OrderedSets
  import opened SubjectRules
  import opened SrcEntity
  import opened SrcSubject
  import opened SrcRecords
  import opened SrcImovel
  import DoiRegistry

  /** The required list the `Ato` constructor passes. */
  const AtoRequired: seq<string> :=
    ["dataLavraturaRegistroAverbacao", "dataNegocioJuridico", "tipoDeclaracao", "tipoServico"]

  /** Every required name is an `Ato` property. */
  lemma AtoRequiredInSchema()
    ensures forall i :: 0 <= i < |AtoRequired| ==> AtoRequired[i] in DoiRegistry.Ato
  {
  }

  /** The body of the `declaracoes` getter, over the values it reads. */
  method DeclaracoesFrom(a: AtoState) returns (ds: seq<Json>)
    ensures ds == DeclaracoesOf(a)
  {
    var atoDoi := CopyEmitted(a.values, a.required);
    ds := [];
    var i := 0;
    while i < |a.imoveis|
      invariant 0 <= i <= |a.imoveis| && |ds| == i
      invariant forall j :: 0 <= j < i ==> ds[j] == Declaracao(EmittedFields(a.values, a.required), ImovelDoiOf(a.imoveis[j]))
    {
      var doi := ImovelDoiFrom(a.imoveis[i]);
      ds := ds + [JObj(atoDoi + doi)];
      i := i + 1;
    }
  }

  /** What `doi` reads of each property of a list. */
  function ImovelStates(ims: seq<Imovel>): (r: seq<ImovelState>)
    reads *
    ensures |r| == |ims|
    ensures forall i :: 0 <= i < |ims| ==> r[i] == ims[i].State()
  {
    if ims == [] then []
    else
      assert forall i :: 1 <= i < |ims| ==> ims[1..][i - 1] == ims[i];
      [ims[0].State()] + ImovelStates(ims[1..])
  }

  class Ato {
    const entity: DoiEntity
    const alienantes: SubjectList
    const adquirentes: SubjectList
    /** The properties of `imoveis` (its pages), in insertion order. */
    var imoveis: seq<Imovel>

    /** Every property offers the act's own party lists. */
    predicate Valid()
      reads this, entity, set i | 0 <= i < |imoveis| :: imoveis[i]
    {
      entity.Valid() && entity.schemaName == "Ato" && entity.requiredList == AtoRequired &&
      alienantes.position == Alienante && adquirentes.position == Adquirente && alienantes != adquirentes &&
      Distinct(imoveis) &&
      forall i :: 0 <= i < |imoveis| ==> imoveis[i].alienantes == alienantes && imoveis[i].adquirentes == adquirentes
    }

    /** `new Ato()`. */
    constructor (host: Host)
      ensures Valid() && fresh(entity) && fresh(alienantes) && fresh(adquirentes)
      ensures entity.Registered() && entity.values == NullValues(entity.schema) && entity.host == host
      ensures alienantes.items == [] && adquirentes.items == [] && imoveis == []
    {
      entity := new DoiEntity("Ato", AtoRequired, host);
      alienantes := new SubjectList(Alienante);
      adquirentes := new SubjectList(Adquirente);
      imoveis := [];
    }

    /** `imoveis.add(newImovel)`: a property built on this act's lists. */
    method AddImovel(im: Imovel)
      requires Valid() && im.alienantes == alienantes && im.adquirentes == adquirentes
      modifies this
      ensures Valid()
      ensures imoveis == Include(old(imoveis), im)
    {
      imoveis := Include(imoveis, im);
    }

    /** The add button of `imoveis`: a fresh property on this act's lists. */
    method NewImovel() returns (im: Imovel)
      requires Valid()
      modifies this
      ensures Valid() && fresh(im) && im.Valid()
      ensures imoveis == old(imoveis) + [im]
    {
      im := new Imovel(alienantes, adquirentes, entity.host);
      AddImovel(im);
    }

    /** A property page's delete button: `items.delete(imovel.view)`. */
    method RemoveImovel(im: Imovel)
      requires Valid()
      modifies this
      ensures Valid()
      ensures imoveis == Exclude(old(imoveis), im)
      ensures forall x :: x in imoveis <==> x in old(imoveis) && x != im
    {
      DistinctExclude(imoveis, im);
      ExcludeMembers(imoveis, im);
      var rest := Exclude(imoveis, im);
      forall i | 0 <= i < |rest|
        ensures rest[i].alienantes == alienantes && rest[i].adquirentes == adquirentes
      {
        ExcludeMemberFrom(imoveis, im, rest[i]);
      }
      imoveis := rest;
    }

    /** `isValid()`: `isComplete()`, since `isConsistent()` is always true. */
    method IsValid() returns (valid: bool)
      requires Valid()
      ensures valid == IsCompleteSpec(entity.schema, entity.values, AtoRequired, entity.host, Src)
    {
      valid := entity.IsComplete();
    }

    /** What `declaracoes` reads. */
    function State(): (st: AtoState)
      reads *
      ensures |st.imoveis| == |imoveis|
    {
      AtoState(entity.Read(), entity.requiredList, ImovelStates(imoveis))
    }

    /** The `declaracoes` getter.  It changes nothing, so its records are
        stated over the state it is called in. */
    method Declaracoes() returns (ds: seq<Json>)
      ensures ds == DeclaracoesOf(old(State()))
    {
      var s := State();
      ds := DeclaracoesFrom(s);
    }
  }
}
