/** `Ato` of doimaker.js: a notarial act with the parties registered to it
    (transferors and acquirers, each a `Set`) and the properties it
    concerns; `generateDoi` flattens one of its properties into a
    declaration record. */
module RootAto {
  import opened JsValues
  import opened Schema
  import opened Property
  import opened EntityRules
  import opened OrderedSets
  import opened RootEntity
  import opened SubjectRules
  import opened RootSubject
  import opened RootOperacao
  import opened RootImovel
  import opened RootGenerate

  /** The required list the `Ato` constructor passes. */
  const AtoRequired: seq<string> :=
    ["dataLavraturaRegistroAverbacao", "dataNegocioJuridico", "tipoDeclaracao", "tipoServico"]

  /** `doiObj[prop] = x[prop].value` for every property of an entity. */
  method CopyValues(values: map<string, Value>) returns (fields: map<string, Json>)
    ensures fields == ValuesJson(values)
  {
    fields := map[];
    var pending := values.Keys;
    while pending != {}
      invariant pending <= values.Keys
      invariant fields.Keys == values.Keys - pending
      invariant forall n :: n in fields ==> fields[n] == JVal(values[n])
      decreases |pending|
    {
      var n :| n in pending;
      fields := fields[n := JVal(values[n])];
      pending := pending - {n};
    }
  }

  /** The `for (const person of set) if (person.ni.value == ni)` search,
      over the registered parties' values. */
  method FindIndex(parties: seq<map<string, Value>>, ni: Value) returns (r: Option<nat>)
    ensures r == FindByNi(parties, ni)
  {
    var i := 0;
    while i < |parties|
      invariant 0 <= i <= |parties|
      invariant forall j :: 0 <= j < i ==> !LooseEq(NiOf(parties[j]), ni)
    {
      if LooseEq(NiOf(parties[i]), ni) {
        FindByNiIsFirstMatch(parties, ni, i);
        return Some(i);
      }
      i := i + 1;
    }
    FindByNiIsFirstMatch(parties, ni, i);
    return None;
  }

  /** The fields of the party found for a share key, if any. */
  method PartyOf(parties: seq<map<string, Value>>, key: string) returns (party: Option<map<string, Value>>)
    ensures party == PartyFor(parties, key)
  {
    var k := FindIndex(parties, VStr(key));
    party := if k.Some? then Some(parties[k.value]) else None;
  }

  /** The entries for one share table: for each recorded share but `total`,
      the share and the fields of the party with that tax id. */
  method Entries(t: Table, parties: seq<map<string, Value>>) returns (es: seq<Json>)
    ensures es == EntriesFor(t.order, t.slots, parties)
  {
    es := [];
    var i := 0;
    while i < |t.order|
      invariant 0 <= i <= |t.order|
      invariant es == EntriesFor(t.order[..i], t.slots, parties)
    {
      var k := t.order[i];
      EntriesForPrefix(t.order, i, t.slots, parties);
      if k != "total" {
        var party := PartyOf(parties, k);
        es := es + [EntryFor(k, t.slots, party)];
      }
      i := i + 1;
    }
    assert t.order[..i] == t.order;
  }

  /** The body of the corrected `generateDoi(imovel)`, over the values it
      reads: the act's fields, the property's fields, and the two entry
      lists. */
  method GenerateDoiFrom(a: ActState, im: ImovelState) returns (doi: Json)
    ensures doi == RecordOf(a, im)
  {
    var atoFields := CopyValues(a.values);
    var imovelFields := CopyValues(im.values);
    var alienEntries := Entries(im.alienacao, a.alienantes);
    var aquisEntries := Entries(im.aquisicao, a.adquirentes);
    doi := JObj(atoFields + imovelFields +
                map["alienantes" := JArr(alienEntries), "adquirentes" := JArr(aquisEntries)]);
  }

  /** The fields and share tables of a sequence of properties, in order. */
  function ImovelStates(ims: seq<Imovel>): (r: seq<ImovelState>)
    reads set i | 0 <= i < |ims| :: ims[i], set i | 0 <= i < |ims| :: ims[i].entity,
          set i | 0 <= i < |ims| :: ims[i].alienacao, set i | 0 <= i < |ims| :: ims[i].aquisicao
    ensures |r| == |ims|
    ensures forall i :: 0 <= i < |ims| ==>
              r[i] == ImovelState(ims[i].entity.values, ims[i].alienacao.table, ims[i].aquisicao.table)
  {
    if ims == [] then []
    else
      assert forall i :: 1 <= i < |ims| ==> ims[1..][i - 1] == ims[i];
      [ImovelState(ims[0].entity.values, ims[0].alienacao.table, ims[0].aquisicao.table)] + ImovelStates(ims[1..])
  }

  class Ato {
    const entity: DoiEntity
    /** `#alienantes`, `#adquirentes` and `#imoveis`, in insertion order. */
    var alienantes: seq<Subject>
    var adquirentes: seq<Subject>
    var imoveis: seq<Imovel>

    predicate Valid()
      reads this, entity
    {
      entity.Valid() && entity.requiredList == AtoRequired &&
      Distinct(alienantes) && Distinct(adquirentes) && Distinct(imoveis) &&
      (forall i :: 0 <= i < |alienantes| ==> alienantes[i].position == Alienante) &&
      (forall i :: 0 <= i < |adquirentes| ==> adquirentes[i].position == Adquirente)
    }

    /** The parties and the objects holding their values. */
    ghost function PartyObjects(): set<object>
      reads this
    {
      (set i | 0 <= i < |alienantes| :: alienantes[i]) + (set i | 0 <= i < |alienantes| :: alienantes[i].entity) +
      (set i | 0 <= i < |adquirentes| :: adquirentes[i]) + (set i | 0 <= i < |adquirentes| :: adquirentes[i].entity)
    }

    /** The objects the act's records are computed from. */
    ghost function Footprint(): set<object>
      reads this
    {
      {this, entity} + PartyObjects() +
      (set i | 0 <= i < |imoveis| :: imoveis[i]) + (set i | 0 <= i < |imoveis| :: imoveis[i].entity) +
      (set i | 0 <= i < |imoveis| :: imoveis[i].alienacao) + (set i | 0 <= i < |imoveis| :: imoveis[i].aquisicao)
    }

    /** Every registered party is itself well formed. */
    predicate PartiesValid()
      reads this, PartyObjects()
    {
      (forall i :: 0 <= i < |alienantes| ==> alienantes[i].Valid()) &&
      (forall i :: 0 <= i < |adquirentes| ==> adquirentes[i].Valid())
    }

    /** Every registered party and property is itself well formed. */
    predicate MembersValid()
      reads Footprint()
    {
      PartiesValid() && forall i :: 0 <= i < |imoveis| ==> imoveis[i].Valid()
    }

    /** `new Ato()`. */
    constructor (host: Host)
      ensures Valid() && MembersValid() && fresh(entity)
      ensures entity.schema == RootRegistry.Ato && entity.values == NullValues(RootRegistry.Ato)
      ensures alienantes == [] && adquirentes == [] && imoveis == []
    {
      entity := new DoiEntity("Ato", AtoRequired, host);
      alienantes := [];
      adquirentes := [];
      imoveis := [];
    }

    /** `includeAlienante(alienanteObj)`: only a transferor that is valid now. */
    method IncludeAlienante(s: Subject)
      requires Valid() && s.Valid()
      modifies this
      ensures Valid()
      ensures alienantes == if s.position == Alienante && s.ValidNow() then Include(old(alienantes), s) else old(alienantes)
      ensures adquirentes == old(adquirentes) && imoveis == old(imoveis)
    {
      if s.position == Alienante {
        var ok := s.IsValid();
        if ok {
          var next := Include(alienantes, s);
          assert forall i :: 0 <= i < |next| ==> next[i].position == Alienante by {
            if s !in alienantes {
              assert forall i :: 0 <= i < |alienantes| ==> next[i] == alienantes[i];
            }
          }
          alienantes := next;
        }
      }
    }

    /** `includeAdquirente(adquirenteObj)`: only an acquirer that is valid now. */
    method IncludeAdquirente(s: Subject)
      requires Valid() && s.Valid()
      modifies this
      ensures Valid()
      ensures adquirentes == if s.position == Adquirente && s.ValidNow() then Include(old(adquirentes), s) else old(adquirentes)
      ensures alienantes == old(alienantes) && imoveis == old(imoveis)
    {
      if s.position == Adquirente {
        var ok := s.IsValid();
        if ok {
          var next := Include(adquirentes, s);
          assert forall i :: 0 <= i < |next| ==> next[i].position == Adquirente by {
            if s !in adquirentes {
              assert forall i :: 0 <= i < |adquirentes| ==> next[i] == adquirentes[i];
            }
          }
          adquirentes := next;
        }
      }
    }

    /** `removeAlienante(alienanteObj)`. */
    method RemoveAlienante(s: Subject)
      requires Valid()
      modifies this
      ensures Valid()
      ensures alienantes == Exclude(old(alienantes), s)
      ensures forall x :: x in alienantes <==> x in old(alienantes) && x != s
      ensures adquirentes == old(adquirentes) && imoveis == old(imoveis)
    {
      DistinctExclude(alienantes, s);
      ExcludeMembers(alienantes, s);
      var rest := Exclude(alienantes, s);
      forall i | 0 <= i < |rest|
        ensures rest[i].position == Alienante
      {
        ExcludeMemberFrom(alienantes, s, rest[i]);
      }
      alienantes := rest;
    }

    /** `removeAdquirente(adquirenteObj)`. */
    method RemoveAdquirente(s: Subject)
      requires Valid()
      modifies this
      ensures Valid()
      ensures adquirentes == Exclude(old(adquirentes), s)
      ensures forall x :: x in adquirentes <==> x in old(adquirentes) && x != s
      ensures alienantes == old(alienantes) && imoveis == old(imoveis)
    {
      DistinctExclude(adquirentes, s);
      ExcludeMembers(adquirentes, s);
      var rest := Exclude(adquirentes, s);
      forall i | 0 <= i < |rest|
        ensures rest[i].position == Adquirente
      {
        ExcludeMemberFrom(adquirentes, s, rest[i]);
      }
      adquirentes := rest;
    }

    /** The search of `getAlienanteByNi`/`getAdquirenteByNi` over a set of parties. */
    static method FindPerson(people: seq<Subject>, ni: Value) returns (p: Subject?)
      requires forall i :: 0 <= i < |people| ==> people[i].Valid()
      ensures var r := FindByNi(old(Snapshots(people)), ni);
              (r.None? ==> p == null) && (r.Some? ==> p == people[r.value])
    {
      var k := FindIndex(Snapshots(people), ni);
      p := if k.Some? then people[k.value] else null;
    }

    /** `getAlienanteByNi(ni)`: the first transferor whose tax id is loosely
        equal to `ni`, or null. */
    method GetAlienanteByNi(ni: Value) returns (p: Subject?)
      requires forall i :: 0 <= i < |alienantes| ==> alienantes[i].Valid()
      ensures var r := FindByNi(old(Snapshots(alienantes)), ni);
              (r.None? ==> p == null) && (r.Some? ==> p == alienantes[r.value])
    {
      p := FindPerson(alienantes, ni);
    }

    /** `getAdquirenteByNi(ni)`: the same among the acquirers. */
    method GetAdquirenteByNi(ni: Value) returns (p: Subject?)
      requires forall i :: 0 <= i < |adquirentes| ==> adquirentes[i].Valid()
      ensures var r := FindByNi(old(Snapshots(adquirentes)), ni);
              (r.None? ==> p == null) && (r.Some? ==> p == adquirentes[r.value])
    {
      p := FindPerson(adquirentes, ni);
    }

    /** `addImovel(imovelObj)`: only a property that is valid now. */
    method AddImovel(im: Imovel)
      requires Valid() && im.Valid()
      modifies this
      ensures Valid()
      ensures imoveis == if im.ValidNow() then Include(old(imoveis), im) else old(imoveis)
      ensures alienantes == old(alienantes) && adquirentes == old(adquirentes)
    {
      var ok := im.IsValid();
      if ok {
        imoveis := Include(imoveis, im);
      }
    }

    /** `removeImovel(imovelObj)`. */
    method RemoveImovel(im: Imovel)
      requires Valid()
      modifies this
      ensures Valid()
      ensures imoveis == Exclude(old(imoveis), im)
      ensures forall x :: x in imoveis <==> x in old(imoveis) && x != im
      ensures alienantes == old(alienantes) && adquirentes == old(adquirentes)
    {
      DistinctExclude(imoveis, im);
      ExcludeMembers(imoveis, im);
      imoveis := Exclude(imoveis, im);
    }

    /** `isValid()`: `isComplete()`, since `isConsistent()` is always true. */
    method IsValid() returns (valid: bool)
      requires Valid()
      ensures valid == IsCompleteSpec(entity.schema, entity.values, entity.requiredList, entity.host, Root)
    {
      valid := entity.IsComplete();
    }

    /** The record the corrected `generateDoi(im)` yields in the current state. */
    function Record(im: Imovel): Json
      requires Valid() && PartiesValid() && im.Valid()
      reads this, entity, PartyObjects(), im, im.entity, im.alienacao, im.aquisicao
    {
      DoiRecord(entity.values, im.entity.values, im.alienacao.table, Snapshots(alienantes),
                im.aquisicao.table, Snapshots(adquirentes))
    }

    /** `generateDoi(imovel)` as evidently meant: the act's fields, the
        property's fields, and for each recorded share (not `total`) an entry
        with the share and the registered party's fields.  It changes
        nothing, so the record is stated over the state it is called in. */
    method GenerateDoi(im: Imovel) returns (doi: Json)
      requires Valid() && PartiesValid() && im.Valid()
      ensures doi == old(Record(im))
    {
      var a := ActState(entity.values, Snapshots(alienantes), Snapshots(adquirentes), []);
      doi := GenerateDoiFrom(a, ImovelState(im.entity.values, im.alienacao.table, im.aquisicao.table));
    }

    /** What the `object` getter reads of the act. */
    function State(): (st: ActState)
      requires Valid() && MembersValid()
      reads Footprint()
      ensures |st.imoveis| == |imoveis|
    {
      ActState(entity.values, Snapshots(alienantes), Snapshots(adquirentes), ImovelStates(imoveis))
    }

    /** The act's records are those `generateDoi` yields for its properties. */
    lemma RecordsAre(k: nat)
      requires Valid() && MembersValid() && k < |imoveis|
      ensures imoveis[k].Valid() && ActRecordsOf(State())[k] == Record(imoveis[k])
    {
    }
  }
}
