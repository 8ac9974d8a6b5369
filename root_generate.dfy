/** The declaration record `Ato.generateDoi(imovel)` of doimaker.js builds
    for one property of an act: the act's field values, then one
    `alienantes`/`adquirentes` entry per enumerable key of the property's
    share tables.  Stated twice: as the code is written, and as it is
    evidently meant (property fields copied, the parties' fields copied into
    their entries, and `total` not taken for a party). */
module RootGenerate {
  import opened JsValues
  import opened OrderedSets
  import opened RootOperacao
  import RootRegistry
  import RootImovel

  /** A number as an entry value; NaN and the infinities, which only a
      corrupted table holds, serialise as null. */
  function NumberJson(n: Number): Json {
    if n.Finite? then JVal(VNum(n.r)) else JVal(VNull)
  }

  /** `table[key]` for an enumerated key. */
  function SlotJson(slots: map<string, Number>, key: string): Json {
    if key in slots then NumberJson(slots[key]) else JVal(VNull)
  }

  /** The `prop.value` of each property, by name. */
  function ValuesJson(values: map<string, Value>): (m: map<string, Json>)
    ensures m.Keys == values.Keys
    ensures forall n :: n in m ==> m[n] == JVal(values[n])
  {
    map n | n in values :: JVal(values[n])
  }

  /** The `participacao` number of an entry (0 when there is none). */
  function ParticipacaoOf(entry: Json): real {
    if entry.JObj? && "participacao" in entry.fields && entry.fields["participacao"].JVal? &&
       entry.fields["participacao"].v.VNum?
    then entry.fields["participacao"].v.num
    else 0.0
  }

  function ParticipacaoSum(entries: seq<Json>): real {
    if entries == [] then 0.0
    else ParticipacaoSum(entries[..|entries| - 1]) + ParticipacaoOf(entries[|entries| - 1])
  }

  /** The value `total` contributes when it is among `keys`. */
  function TotalAmong(keys: seq<string>, slots: map<string, Number>): real {
    if "total" in keys && "total" in slots && slots["total"].Finite? then slots["total"].r else 0.0
  }

  lemma {:induction false} SumSharesSnoc(keys: seq<string>, slots: map<string, Number>, k: string)
    ensures SumShares(keys + [k], slots) ==
            SumShares(keys, slots) + (if k != "total" && k in slots && slots[k].Finite? then slots[k].r else 0.0)
  {
    if keys == [] {
      assert [k][1..] == [];
    } else {
      assert (keys + [k])[1..] == keys[1..] + [k];
      SumSharesSnoc(keys[1..], slots, k);
    }
  }

  // ---------------------------------------------------------------------
  // As written
  // ---------------------------------------------------------------------

  /** The entries `for (const ni in imovel.alienacao)` pushes, as written:
      every enumerable key, `total` included, gives `{participacao:
      table[ni]}` and nothing else, since `prop instanceof DoiProp` is asked
      of the key strings of the person and never holds. */
  function EntriesAsWritten(keys: seq<string>, slots: map<string, Number>): (r: seq<Json>)
    ensures |r| == |keys|
  {
    if keys == [] then []
    else EntriesAsWritten(keys[..|keys| - 1], slots) +
         [JObj(map["participacao" := SlotJson(slots, keys[|keys| - 1])])]
  }

  /** The imovel loop as written: it tests `this[prop]`, the act's property of
      that name, so only imovel fields whose names are act fields are copied. */
  function ImovelFieldsAsWritten(atoValues: map<string, Value>, imovelValues: map<string, Value>): map<string, Json> {
    map n | n in imovelValues && n in atoValues :: JVal(imovelValues[n])
  }

  /** `generateDoi(imovel)` as written. */
  function GenerateDoiAsWritten(atoValues: map<string, Value>, imovelValues: map<string, Value>,
                                alienacao: Table, aquisicao: Table): Json {
    JObj(ValuesJson(atoValues) + ImovelFieldsAsWritten(atoValues, imovelValues) +
         map["alienantes" := JArr(EntriesAsWritten(alienacao.order, alienacao.slots)),
             "adquirentes" := JArr(EntriesAsWritten(aquisicao.order, aquisicao.slots))])
  }

  /** The field names of the `Ato` schema of doimaker.js. */
  lemma AtoFieldNames()
    ensures RootRegistry.Ato.Keys == {"dataLavraturaRegistroAverbacao", "dataNegocioJuridico", "existeDoiAnterior", "folha", "matriculaNotarialEletronica", "naturezaTitulo", "numeroLivro", "retificacaoAto", "tipoAto", "tipoDeclaracao", "tipoServico", "tipoLivro"}
  {
  }

  lemma ExisteDoiAnteriorNotImovelField()
    ensures "existeDoiAnterior" !in RootRegistry.Imovel
  {
  }

  lemma FolhaNotImovelField()
    ensures "folha" !in RootRegistry.Imovel
  {
  }

  lemma MatriculaNotarialEletronicaNotImovelField()
    ensures "matriculaNotarialEletronica" !in RootRegistry.Imovel
  {
  }

  lemma NaturezaTituloNotImovelField()
    ensures "naturezaTitulo" !in RootRegistry.Imovel
  {
  }

  lemma NumeroLivroNotImovelField()
    ensures "numeroLivro" !in RootRegistry.Imovel
  {
  }

  lemma RetificacaoAtoNotImovelField()
    ensures "retificacaoAto" !in RootRegistry.Imovel
  {
  }

  lemma TipoAtoNotImovelField()
    ensures "tipoAto" !in RootRegistry.Imovel
  {
  }

  lemma TipoLivroNotImovelField()
    ensures "tipoLivro" !in RootRegistry.Imovel
  {
  }

  /** A schema with the `Ato` field names shares none with a schema that
      lacks each of them. */
  lemma AtoNamesDisjoint<D>(ato: map<string, D>, other: map<string, D>)
    requires ato.Keys == {"dataLavraturaRegistroAverbacao", "dataNegocioJuridico", "existeDoiAnterior", "folha", "matriculaNotarialEletronica", "naturezaTitulo", "numeroLivro", "retificacaoAto", "tipoAto", "tipoDeclaracao", "tipoServico", "tipoLivro"}
    requires "dataLavraturaRegistroAverbacao" !in other && "dataNegocioJuridico" !in other && "existeDoiAnterior" !in other
    requires "folha" !in other && "matriculaNotarialEletronica" !in other && "naturezaTitulo" !in other
    requires "numeroLivro" !in other && "retificacaoAto" !in other && "tipoAto" !in other
    requires "tipoDeclaracao" !in other && "tipoServico" !in other && "tipoLivro" !in other
    ensures forall n :: n in ato ==> n !in other
  {
  }

  /** No field name is shared by the `Ato` and `Imovel` schemas of doimaker.js. */
  lemma {:induction false} AtoAndImovelSchemasDisjoint()
    ensures forall n :: n in RootRegistry.Ato ==> n !in RootRegistry.Imovel
  {
    AtoFieldNames();
    RootImovel.DataLavraturaRegistroAverbacaoNotImovelField();
    RootImovel.DataNegocioJuridicoNotImovelField();
    ExisteDoiAnteriorNotImovelField();
    FolhaNotImovelField();
    MatriculaNotarialEletronicaNotImovelField();
    NaturezaTituloNotImovelField();
    NumeroLivroNotImovelField();
    RetificacaoAtoNotImovelField();
    TipoAtoNotImovelField();
    RootImovel.TipoDeclaracaoNotImovelField();
    RootImovel.TipoServicoNotImovelField();
    TipoLivroNotImovelField();
    AtoNamesDisjoint(RootRegistry.Ato, RootRegistry.Imovel);
  }

  /** As written, the record holds no field of the property: with the real
      schemas it is the same whatever the property's values. */
  lemma {:induction false} AsWrittenOmitsImovelFields(atoValues: map<string, Value>, imovelValues: map<string, Value>,
                                                     alienacao: Table, aquisicao: Table)
    requires atoValues.Keys <= RootRegistry.Ato.Keys && imovelValues.Keys <= RootRegistry.Imovel.Keys
    ensures GenerateDoiAsWritten(atoValues, imovelValues, alienacao, aquisicao) ==
            GenerateDoiAsWritten(atoValues, map[], alienacao, aquisicao)
  {
    AtoAndImovelSchemasDisjoint();
    assert ImovelFieldsAsWritten(atoValues, imovelValues) == map[];
    assert ImovelFieldsAsWritten(atoValues, map[]) == map[];
  }

  lemma {:induction false} EntriesAsWrittenSum(keys: seq<string>, slots: map<string, Number>)
    requires Distinct(keys)
    requires forall i :: 0 <= i < |keys| ==> keys[i] in slots && slots[keys[i]].Finite?
    ensures ParticipacaoSum(EntriesAsWritten(keys, slots)) == SumShares(keys, slots) + TotalAmong(keys, slots)
  {
    if keys != [] {
      var init := keys[..|keys| - 1];
      var k := keys[|keys| - 1];
      assert keys == init + [k];
      assert Distinct(init) by {
        forall i, j | 0 <= i < j < |init|
          ensures init[i] != init[j]
        {
          assert init[i] == keys[i] && init[j] == keys[j];
        }
      }
      assert k !in init by {
        forall j | 0 <= j < |init|
          ensures init[j] != k
        {
          assert init[j] == keys[j];
        }
      }
      EntriesAsWrittenSum(init, slots);
      SumSharesSnoc(init, slots, k);
      var es := EntriesAsWritten(keys, slots);
      assert es[..|es| - 1] == EntriesAsWritten(init, slots);
      assert "total" in keys <==> "total" in init || k == "total";
    }
  }

  /** As written, `total` is emitted as a party: the first entry carries the
      total itself, and the `participacao` values add up to twice the total
      of the recorded shares. */
  lemma {:induction false} AsWrittenCountsTotalAsParty(t: Table)
    requires Healthy(t)
    ensures var es := EntriesAsWritten(t.order, t.slots);
            |es| == |t.order| && es[0] == JObj(map["participacao" := NumberJson(t.slots["total"])]) &&
            ParticipacaoSum(es) == 2.0 * SumShares(t.order, t.slots)
  {
    EntriesAsWrittenFirst(t.order, t.slots);
    EntriesAsWrittenSum(t.order, t.slots);
  }

  lemma {:induction false} EntriesAsWrittenFirst(keys: seq<string>, slots: map<string, Number>)
    requires keys != []
    ensures EntriesAsWritten(keys, slots)[0] == JObj(map["participacao" := SlotJson(slots, keys[0])])
  {
    if |keys| > 1 {
      EntriesAsWrittenFirst(keys[..|keys| - 1], slots);
    }
  }

  // ---------------------------------------------------------------------
  // Corrected
  // ---------------------------------------------------------------------

  /** The `ni` of a party's values; every registered party has one, and a
      missing field reads as null. */
  function NiOf(party: map<string, Value>): Value {
    if "ni" in party then party["ni"] else VNull
  }

  /** `getAlienanteByNi`/`getAdquirenteByNi` over the registered parties'
      values: the index of the first whose `ni` is loosely equal to `ni`. */
  function FindByNi(parties: seq<map<string, Value>>, ni: Value): (r: Option<nat>)
    ensures r.Some? ==> r.value < |parties| && LooseEq(NiOf(parties[r.value]), ni) &&
                        forall j :: 0 <= j < r.value ==> !LooseEq(NiOf(parties[j]), ni)
    ensures r.None? ==> forall j :: 0 <= j < |parties| ==> !LooseEq(NiOf(parties[j]), ni)
  {
    if parties == [] then None
    else if LooseEq(NiOf(parties[0]), ni) then Some(0)
    else match FindByNi(parties[1..], ni)
         case None => None
         case Some(i) => Some(i + 1)
  }

  /** The search result is the first match, and none when nothing matches. */
  lemma FindByNiIsFirstMatch(parties: seq<map<string, Value>>, ni: Value, i: nat)
    requires i <= |parties| && forall j :: 0 <= j < i ==> !LooseEq(NiOf(parties[j]), ni)
    ensures i < |parties| && LooseEq(NiOf(parties[i]), ni) ==> FindByNi(parties, ni) == Some(i)
    ensures i == |parties| ==> FindByNi(parties, ni) == None
  {
  }

  /** The values of the party `get…ByNi(key)` finds, if any. */
  function PartyFor(parties: seq<map<string, Value>>, key: string): Option<map<string, Value>>
  {
    match FindByNi(parties, VStr(key))
    case Some(i) => Some(parties[i])
    case None => None
  }

  /** The entry for one party: its share, overlaid by the party's fields when
      the act has a party with that tax id. */
  function EntryFor(key: string, slots: map<string, Number>, party: Option<map<string, Value>>): Json {
    JObj(map["participacao" := SlotJson(slots, key)] + (if party.Some? then ValuesJson(party.value) else map[]))
  }

  /** One entry per recorded share, in the table's order, `total` skipped. */
  function EntriesFor(keys: seq<string>, slots: map<string, Number>, parties: seq<map<string, Value>>): (r: seq<Json>)
    ensures |r| <= |keys|
  {
    if keys == [] then []
    else
      var k := keys[|keys| - 1];
      EntriesFor(keys[..|keys| - 1], slots, parties) +
      (if k == "total" then []
       else [EntryFor(k, slots, PartyFor(parties, k))])
  }

  lemma EntriesForSnoc(keys: seq<string>, k: string, slots: map<string, Number>, parties: seq<map<string, Value>>)
    ensures EntriesFor(keys + [k], slots, parties) ==
            EntriesFor(keys, slots, parties) + (if k == "total" then [] else [EntryFor(k, slots, PartyFor(parties, k))])
  {
    assert (keys + [k])[..|keys + [k]| - 1] == keys;
  }

  /** Extending a prefix of the keys by the next key extends the entries by
      that key's entry, unless the key is `total`. */
  lemma EntriesForPrefix(keys: seq<string>, i: nat, slots: map<string, Number>, parties: seq<map<string, Value>>)
    requires i < |keys|
    ensures EntriesFor(keys[..i + 1], slots, parties) ==
            EntriesFor(keys[..i], slots, parties) +
            (if keys[i] == "total" then [] else [EntryFor(keys[i], slots, PartyFor(parties, keys[i]))])
  {
    assert keys[..i + 1] == keys[..i] + [keys[i]];
    EntriesForSnoc(keys[..i], keys[i], slots, parties);
  }

  /** The corrected record: the act's fields, the property's fields, and the
      two entry lists. */
  function DoiRecord(atoValues: map<string, Value>, imovelValues: map<string, Value>,
                     alienacao: Table, alienantes: seq<map<string, Value>>,
                     aquisicao: Table, adquirentes: seq<map<string, Value>>): Json
  {
    JObj(ValuesJson(atoValues) + ValuesJson(imovelValues) +
         map["alienantes" := JArr(EntriesFor(alienacao.order, alienacao.slots, alienantes)),
             "adquirentes" := JArr(EntriesFor(aquisicao.order, aquisicao.slots, adquirentes))])
  }

  /** The corrected record holds every property field and every act field
      (the property's value winning on a shared name), next to the two
      entry lists. */
  lemma DoiRecordFields(atoValues: map<string, Value>, imovelValues: map<string, Value>,
                        alienacao: Table, alienantes: seq<map<string, Value>>,
                        aquisicao: Table, adquirentes: seq<map<string, Value>>, n: string)
    requires n != "alienantes" && n != "adquirentes"
    ensures var r := DoiRecord(atoValues, imovelValues, alienacao, alienantes, aquisicao, adquirentes);
            r.JObj? &&
            (n in r.fields <==> n in atoValues || n in imovelValues) &&
            (n in imovelValues ==> r.fields[n] == JVal(imovelValues[n])) &&
            (n in atoValues && n !in imovelValues ==> r.fields[n] == JVal(atoValues[n]))
  {
  }

  /** An entry carries the share it was made for, provided the party's own
      fields have no `participacao`. */
  lemma EntryCarriesShare(key: string, slots: map<string, Number>, party: Option<map<string, Value>>)
    requires party.Some? ==> "participacao" !in party.value
    requires key in slots && slots[key].Finite?
    ensures ParticipacaoOf(EntryFor(key, slots, party)) == slots[key].r
  {
  }

  lemma {:induction false} EntriesForSum(keys: seq<string>, slots: map<string, Number>, parties: seq<map<string, Value>>)
    requires forall i :: 0 <= i < |parties| ==> "participacao" !in parties[i]
    requires forall i :: 0 <= i < |keys| ==> keys[i] in slots && slots[keys[i]].Finite?
    ensures ParticipacaoSum(EntriesFor(keys, slots, parties)) == SumShares(keys, slots)
  {
    if keys != [] {
      var init := keys[..|keys| - 1];
      var k := keys[|keys| - 1];
      assert keys == init + [k];
      EntriesForSum(init, slots, parties);
      SumSharesSnoc(init, slots, k);
      if k != "total" {
        var party := PartyFor(parties, k);
        EntryCarriesShare(k, slots, party);
        var es := EntriesFor(keys, slots, parties);
        assert es == EntriesFor(init, slots, parties) + [EntryFor(k, slots, party)];
        assert es[..|es| - 1] == EntriesFor(init, slots, parties);
      } else {
        assert EntriesFor(keys, slots, parties) == EntriesFor(init, slots, parties);
      }
    }
  }

  /** The corrected entries add up to the table's total: one entry per
      recorded share, `total` itself not among them. */
  lemma {:induction false} CorrectedEntriesSumToTotal(t: Table, parties: seq<map<string, Value>>)
    requires Healthy(t)
    requires forall i :: 0 <= i < |parties| ==> "participacao" !in parties[i]
    ensures t.slots["total"] == Finite(ParticipacaoSum(EntriesFor(t.order, t.slots, parties)))
    ensures |EntriesFor(t.order, t.slots, parties)| < |t.order|
  {
    EntriesForSum(t.order, t.slots, parties);
    EntriesForSkipsTotal(t.order, t.slots, parties);
  }

  lemma {:induction false} EntriesForSkipsTotal(keys: seq<string>, slots: map<string, Number>, parties: seq<map<string, Value>>)
    requires "total" in keys
    ensures |EntriesFor(keys, slots, parties)| < |keys|
  {
    var init := keys[..|keys| - 1];
    var k := keys[|keys| - 1];
    assert keys == init + [k];
    var es := EntriesFor(keys, slots, parties);
    if k != "total" {
      assert "total" in init;
      EntriesForSkipsTotal(init, slots, parties);
      assert es == EntriesFor(init, slots, parties) + [EntryFor(k, slots, PartyFor(parties, k))];
    } else {
      assert es == EntriesFor(init, slots, parties);
    }
  }

  /** The party schemas have no `participacao` field, so an entry's share is
      never overwritten by a party's fields. */
  lemma PartySchemasLackParticipacao()
    ensures "participacao" !in RootRegistry.Adquirente && "participacao" !in RootRegistry.Alienante
  {
  }

  /** What `generateDoi` reads of a property: its fields and its two share
      tables. */
  datatype ImovelState = ImovelState(values: map<string, Value>, alienacao: Table, aquisicao: Table)

  /** What the `object` getter reads of an act: its fields, the fields of
      its registered parties in registration order, and its properties. */
  datatype ActState = ActState(values: map<string, Value>,
                               alienantes: seq<map<string, Value>>,
                               adquirentes: seq<map<string, Value>>,
                               imoveis: seq<ImovelState>)

  /** The corrected record of one property of an act. */
  function RecordOf(a: ActState, im: ImovelState): Json {
    DoiRecord(a.values, im.values, im.alienacao, a.alienantes, im.aquisicao, a.adquirentes)
  }

  /** The records of an act, one per property, in order. */
  function ActRecordsOf(a: ActState): (r: seq<Json>)
    ensures |r| == |a.imoveis|
    ensures forall k :: 0 <= k < |r| ==> r[k] == RecordOf(a, a.imoveis[k])
  {
    seq(|a.imoveis|, k requires 0 <= k < |a.imoveis| => RecordOf(a, a.imoveis[k]))
  }
}
