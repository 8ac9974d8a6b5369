/** What the newer generation emits: the participant entries of
    `Imovel.participantes`, the `Imovel.doi` object and the records of
    `Ato.declaracoes`, as functions of the values the objects hold. */
module SrcRecords {
  import opened JsValues
  import opened SrcOperacao

  /** What `participantes` reads of a party: its property values, its
      required list and its `representantes` list. */
  datatype PartyState = PartyState(values: map<string, Value>, required: seq<string>, reps: seq<Json>)

  /** What `Imovel.doi` reads: the municipality, the property values (the
      entity no longer holds `codigoIbge`, which the municipality menu
      replaces), the required list, the rows of both tables and the parties
      of both lists. */
  datatype ImovelState = ImovelState(codigoIbge: Value, values: map<string, Value>, required: seq<string>,
                                     alienacao: seq<Row>, aquisicao: seq<Row>,
                                     adquirentes: seq<PartyState>, alienantes: seq<PartyState>)

  /** What `Ato.declaracoes` reads: the act's values and required list, and
      its properties. */
  datatype AtoState = AtoState(values: map<string, Value>, required: seq<string>, imoveis: seq<ImovelState>)

  /** `value != 0 || requiredList.includes(name)`: the filter every emitted
      field passes. */
  predicate Emitted(values: map<string, Value>, n: string, required: seq<string>)
    requires n in values
  {
    !LooseEqZero(values[n]) || n in required
  }

  /** `doi[name] = this[name].value` for every property passing the filter. */
  function EmittedFields(values: map<string, Value>, required: seq<string>): map<string, Json>
  {
    map n | n in values && Emitted(values, n, required) :: JVal(values[n])
  }

  /** The party's `ni.value` is `=== ni`. */
  predicate HasNi(p: PartyState, ni: string) {
    "ni" in p.values && p.values["ni"] == VStr(ni)
  }

  /** `subjects.find(s => s.ni.value === ni)`: the position of the first
      party with that tax id. */
  function FindParty(parties: seq<PartyState>, ni: string): (r: Option<nat>)
    ensures r.Some? ==> r.value < |parties| && HasNi(parties[r.value], ni) &&
                        forall j :: 0 <= j < r.value ==> !HasNi(parties[j], ni)
    ensures r.None? ==> forall j :: 0 <= j < |parties| ==> !HasNi(parties[j], ni)
  {
    if parties == [] then None
    else if HasNi(parties[0], ni) then Some(0)
    else match FindParty(parties[1..], ni)
      case None => None
      case Some(k) => Some(k + 1)
  }

  /** `part.ni.length === 14`. */
  predicate HasLength14(j: Json) {
    j.JVal? && j.v.VStr? && Utf16Length(j.v.str) == 14
  }

  /** The entry `participantes` builds for a share key, its share and the
      party found for it: the key and share, the filtered fields, then the
      business rules (a CNPJ loses `indicadorConjuge`; a married party gets
      `indicadorConjugeParticipa = false` and a default false
      `indicadorCpfConjugeIdentificado`; a represented party gets its
      `representantes`). */
  function Entry(ni: string, share: real, p: PartyState): map<string, Json>
  {
    var base := map["ni" := JVal(VStr(ni)), "participacao" := JVal(VNum(share))] + EmittedFields(p.values, p.required);
    var a := if HasLength14(base["ni"]) then base - {"indicadorConjuge"} else base;
    var b := if TruthyMember(a, "indicadorConjuge") then
               (if TruthyMember(a, "indicadorCpfConjugeIdentificado") then a
                else a["indicadorCpfConjugeIdentificado" := JVal(VBool(false))])["indicadorConjugeParticipa" := JVal(VBool(false))]
             else a;
    if TruthyMember(b, "indicadorRepresentante") then b["representantes" := JArr(p.reps)] else b
  }

  /** `participantes`: one entry per share key that a party matches, in key
      order; unmatched keys yield nothing. */
  function ParticipantesOf(keys: seq<string>, share: map<string, real>, parties: seq<PartyState>): seq<Json>
    requires forall i :: 0 <= i < |keys| ==> keys[i] in share
  {
    if keys == [] then []
    else
      var k := keys[|keys| - 1];
      ParticipantesOf(keys[..|keys| - 1], share, parties) +
      match FindParty(parties, k)
      case Some(j) => [JObj(Entry(k, share[k], parties[j]))]
      case None => []
  }

  /** `participantes(operacao)` for the `list` of a table's rows. */
  function Participantes(rows: seq<Row>, parties: seq<PartyState>): seq<Json>
  {
    ListWellFormed(rows);
    ParticipantesOf(ListOf(rows).order, ListOf(rows).share, parties)
  }

  /** The names the `doi` getter sets besides the filtered fields. */
  predicate ImovelOwnName(n: string) {
    n == "codigoIbge" || n == "indicadorAlienacaoFiduciaria" || n == "alienantes" || n == "adquirentes"
  }

  /** `Imovel.doi`: the municipality, the filtered fields, the fiduciary
      flag for payment form "7", then both participant lists, each looked up
      among the acquirers first and then the transferors. */
  function ImovelDoiOf(im: ImovelState): map<string, Json>
  {
    var subjects := im.adquirentes + im.alienantes;
    var fields := EmittedFields(im.values, im.required) + map["codigoIbge" := JVal(im.codigoIbge)];
    var flagged := if "formaPagamento" in im.values && im.values["formaPagamento"] == VStr("7")
                   then fields["indicadorAlienacaoFiduciaria" := JVal(VBool(false))] else fields;
    flagged["alienantes" := JArr(Participantes(im.alienacao, subjects))]
           ["adquirentes" := JArr(Participantes(im.aquisicao, subjects))]
  }

  /** `{...atoDoi, ...imovel.doi}`. */
  function Declaracao(atoDoi: map<string, Json>, imovelDoi: map<string, Json>): Json {
    JObj(atoDoi + imovelDoi)
  }

  /** `Ato.declaracoes`. */
  function DeclaracoesOf(a: AtoState): seq<Json>
  {
    seq(|a.imoveis|, i requires 0 <= i < |a.imoveis| =>
          Declaracao(EmittedFields(a.values, a.required), ImovelDoiOf(a.imoveis[i])))
  }

  // ---------------------------------------------------------------------
  // Properties
  // ---------------------------------------------------------------------

  /** An entry always carries its key as `ni` and its share as
      `participacao` (the party schemas have no `participacao` field). */
  lemma EntryKeyAndShare(ni: string, share: real, p: PartyState)
    requires HasNi(p, ni) && "participacao" !in p.values
    ensures "ni" in Entry(ni, share, p) && Entry(ni, share, p)["ni"] == JVal(VStr(ni))
    ensures "participacao" in Entry(ni, share, p) && Entry(ni, share, p)["participacao"] == JVal(VNum(share))
  {
  }

  /** A key of length 14 (a CNPJ) never carries `indicadorConjuge`. */
  lemma EntryCnpjHasNoSpouse(ni: string, share: real, p: PartyState)
    requires HasNi(p, ni) && Utf16Length(ni) == 14
    ensures "indicadorConjuge" !in Entry(ni, share, p)
  {
    assert HasLength14(JVal(VStr(ni)));
  }

  /** A married party's entry says the spouse does not take part, and always
      states whether the spouse's CPF is identified: the party's own truthy
      answer, or false. */
  lemma EntrySpouseRules(ni: string, share: real, p: PartyState)
    requires HasNi(p, ni)
    ensures var e := Entry(ni, share, p);
            TruthyMember(e, "indicadorConjuge") ==>
              e["indicadorConjugeParticipa"] == JVal(VBool(false)) &&
              "indicadorCpfConjugeIdentificado" in e &&
              (TruthyMember(e, "indicadorCpfConjugeIdentificado") || e["indicadorCpfConjugeIdentificado"] == JVal(VBool(false)))
  {
  }

  /** `representantes` is attached exactly when `indicadorRepresentante` is
      emitted truthy, and is then the party's list. */
  lemma EntryRepresentatives(ni: string, share: real, p: PartyState)
    requires HasNi(p, ni) && "representantes" !in p.values
    ensures var e := Entry(ni, share, p);
            ("representantes" in e <==> TruthyMember(e, "indicadorRepresentante")) &&
            ("representantes" in e ==> e["representantes"] == JArr(p.reps))
  {
    var base := map["ni" := JVal(VStr(ni)), "participacao" := JVal(VNum(share))] + EmittedFields(p.values, p.required);
    assert "representantes" !in base;
    var a := if HasLength14(base["ni"]) then base - {"indicadorConjuge"} else base;
    var b := if TruthyMember(a, "indicadorConjuge") then
               (if TruthyMember(a, "indicadorCpfConjugeIdentificado") then a
                else a["indicadorCpfConjugeIdentificado" := JVal(VBool(false))])["indicadorConjugeParticipa" := JVal(VBool(false))]
             else a;
    assert "representantes" !in b;
    assert Entry(ni, share, p) == if TruthyMember(b, "indicadorRepresentante") then b["representantes" := JArr(p.reps)] else b;
  }

  /** Every other field appears exactly when it passes the filter, with the
      party's value. */
  lemma EntryFilteredFields(ni: string, share: real, p: PartyState, n: string)
    requires n != "ni" && n != "participacao" && n != "indicadorConjuge" && n != "representantes"
    requires n != "indicadorCpfConjugeIdentificado" && n != "indicadorConjugeParticipa"
    ensures n in Entry(ni, share, p) <==> n in p.values && Emitted(p.values, n, p.required)
    ensures n in Entry(ni, share, p) ==> Entry(ni, share, p)[n] == JVal(p.values[n])
  {
  }

  lemma ParticipantesSnoc(keys: seq<string>, i: nat, share: map<string, real>, parties: seq<PartyState>)
    requires i < |keys| && forall j :: 0 <= j < |keys| ==> keys[j] in share
    ensures ParticipantesOf(keys[..i + 1], share, parties) ==
            ParticipantesOf(keys[..i], share, parties) +
            match FindParty(parties, keys[i])
            case Some(j) => [JObj(Entry(keys[i], share[keys[i]], parties[j]))]
            case None => []
  {
    assert keys[..i + 1][..i] == keys[..i];
  }

  /** Keys listed one after another give their entries one after another:
      `participantes` keeps the order of the table's keys. */
  lemma {:induction false} ParticipantesAppend(xs: seq<string>, ys: seq<string>, share: map<string, real>,
                                              parties: seq<PartyState>)
    requires forall i :: 0 <= i < |xs| ==> xs[i] in share
    requires forall i :: 0 <= i < |ys| ==> ys[i] in share
    ensures forall i :: 0 <= i < |xs + ys| ==> (xs + ys)[i] in share
    ensures ParticipantesOf(xs + ys, share, parties) ==
            ParticipantesOf(xs, share, parties) + ParticipantesOf(ys, share, parties)
  {
    assert forall i :: 0 <= i < |xs + ys| ==> (xs + ys)[i] in share by {
      forall i | 0 <= i < |xs + ys|
        ensures (xs + ys)[i] in share
      {
        if i >= |xs| {
          assert (xs + ys)[i] == ys[i - |xs|];
        }
      }
    }
    if ys == [] {
      assert xs + ys == xs;
    } else {
      var init := ys[..|ys| - 1];
      assert (xs + ys)[..|xs + ys| - 1] == xs + init;
      assert (xs + ys)[|xs + ys| - 1] == ys[|ys| - 1];
      ParticipantesAppend(xs, init, share, parties);
    }
  }

  /** A key that no party matches adds no entry; one that is matched adds the
      entry built from the first matching party. */
  lemma ParticipantesOfOne(k: string, share: map<string, real>, parties: seq<PartyState>)
    requires k in share
    ensures FindParty(parties, k).None? ==> ParticipantesOf([k], share, parties) == []
    ensures FindParty(parties, k).Some? ==>
              ParticipantesOf([k], share, parties) == [JObj(Entry(k, share[k], parties[FindParty(parties, k).value]))]
  {
    assert [k][..0] == [];
  }

  /** Every entry comes from a distinct key of the table, in order, and no
      more entries than keys are emitted. */
  lemma {:induction false} ParticipantesFromKeys(keys: seq<string>, share: map<string, real>,
                                                parties: seq<PartyState>, i: nat)
    requires forall j :: 0 <= j < |keys| ==> keys[j] in share
    requires i < |ParticipantesOf(keys, share, parties)|
    ensures |ParticipantesOf(keys, share, parties)| <= |keys|
    ensures exists j, m :: 0 <= j < |keys| && FindParty(parties, keys[j]) == Some(m) &&
              ParticipantesOf(keys, share, parties)[i] == JObj(Entry(keys[j], share[keys[j]], parties[m]))
  {
    var init, k := keys[..|keys| - 1], keys[|keys| - 1];
    ParticipantesLength(init, share, parties);
    var prev := ParticipantesOf(init, share, parties);
    if i < |prev| {
      ParticipantesFromKeys(init, share, parties, i);
      var j, m :| 0 <= j < |init| && FindParty(parties, init[j]) == Some(m) &&
                  prev[i] == JObj(Entry(init[j], share[init[j]], parties[m]));
      assert keys[j] == init[j];
    } else {
      assert FindParty(parties, k).Some?;
      assert keys[|keys| - 1] == k;
    }
  }

  lemma {:induction false} ParticipantesLength(keys: seq<string>, share: map<string, real>, parties: seq<PartyState>)
    requires forall j :: 0 <= j < |keys| ==> keys[j] in share
    ensures |ParticipantesOf(keys, share, parties)| <= |keys|
  {
    if keys != [] {
      ParticipantesLength(keys[..|keys| - 1], share, parties);
    }
  }

  /** With no party matching any key, `participantes` is empty; with every
      key matched, there is one entry per key. */
  lemma {:induction false} ParticipantesCount(keys: seq<string>, share: map<string, real>, parties: seq<PartyState>)
    requires forall j :: 0 <= j < |keys| ==> keys[j] in share
    ensures (forall j :: 0 <= j < |keys| ==> FindParty(parties, keys[j]).None?) ==>
              ParticipantesOf(keys, share, parties) == []
    ensures (forall j :: 0 <= j < |keys| ==> FindParty(parties, keys[j]).Some?) ==>
              |ParticipantesOf(keys, share, parties)| == |keys|
  {
    if keys != [] {
      var init := keys[..|keys| - 1];
      ParticipantesCount(init, share, parties);
      assert forall j :: 0 <= j < |init| ==> init[j] == keys[j];
    }
  }

  /** The `doi` object: the municipality always, the fiduciary flag false for
      payment form "7", and both participant lists. */
  lemma ImovelDoiFixedFields(im: ImovelState)
    ensures var doi := ImovelDoiOf(im);
            doi["codigoIbge"] == JVal(im.codigoIbge) &&
            ("formaPagamento" in im.values && im.values["formaPagamento"] == VStr("7") ==>
               doi["indicadorAlienacaoFiduciaria"] == JVal(VBool(false))) &&
            doi["alienantes"] == JArr(Participantes(im.alienacao, im.adquirentes + im.alienantes)) &&
            doi["adquirentes"] == JArr(Participantes(im.aquisicao, im.adquirentes + im.alienantes))
  {
  }

  /** Every other property appears exactly when it passes the filter, with
      its value; so does the fiduciary flag unless the payment form is "7". */
  lemma ImovelDoiFilteredFields(im: ImovelState, n: string)
    requires !ImovelOwnName(n) ||
             (n == "indicadorAlienacaoFiduciaria" &&
              !("formaPagamento" in im.values && im.values["formaPagamento"] == VStr("7")))
    ensures n in ImovelDoiOf(im) <==> n in im.values && Emitted(im.values, n, im.required)
    ensures n in ImovelDoiOf(im) ==> ImovelDoiOf(im)[n] == JVal(im.values[n])
  {
  }

  /** `Ato.declaracoes` yields exactly one record per property, in order:
      the act's filtered fields overlaid by that property's `doi`, the
      property winning on a shared name. */
  lemma DeclaracoesOverlay(a: AtoState, i: nat, n: string)
    requires i < |a.imoveis|
    ensures |DeclaracoesOf(a)| == |a.imoveis|
    ensures var r, atoDoi, imovelDoi := DeclaracoesOf(a)[i], EmittedFields(a.values, a.required), ImovelDoiOf(a.imoveis[i]);
            r.JObj? &&
            (n in r.fields <==> n in atoDoi || n in imovelDoi) &&
            (n in imovelDoi ==> r.fields[n] == imovelDoi[n]) &&
            (n !in imovelDoi && n in atoDoi ==> r.fields[n] == atoDoi[n])
  {
  }
}
