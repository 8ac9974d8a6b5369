/** `DoiMaker` of src/doimaker.js without its widgets: the acts being
    edited, the `object` getter that turns them into the `declaracoes`
    list, and `load`, which rebuilds the acts from such a list.

    `load` runs in two phases here.  The first computes, over values, what
    every object will hold (`SrcLoad.LoadValues`); the second creates the
    objects.  The source interleaves the two, but it empties the maker
    first and hands it the acts only at the very end, so a record that
    throws leaves no trace either way. */
module SrcDoiMaker {
  import opened JsValues
  import opened Schema
  import opened EntityRules
  import opened SubjectRules
  import opened OrderedSets
  import opened Flattening
  import opened SrcEntity
  import opened SrcOperacao
  import opened SrcSubject
  import opened SrcRecords
  import opened SrcImovel
  import opened SrcAto
  import opened SrcLoad

  // ---------------------------------------------------------------------
  // What the loaded objects hold
  // ---------------------------------------------------------------------

  /** A party built from a `LoadedSubject`: its properties received the
      record's members through the setter, and its representatives list
      holds the loaded texts. */
  ghost predicate SubjectLoaded(s: Subject, ls: LoadedSubject, role: Position, host: Host)
    reads s, s.entity, s.reps
  {
    s.position == role && s.entity.schemaName == SchemaName(role) && s.entity.host == host &&
    s.entity.values == StoreAll(s.entity.schema, NullValues(s.entity.schema), ls.fields, host) &&
    s.reps.inputs == ls.reps
  }

  /** The parties of a list with the objects each of them holds. */
  ghost function PartyObjects(items: seq<Subject>): set<object>
    reads set s | s in items
  {
    (set s | s in items :: s as object) + (set s | s in items :: s.entity as object) +
    (set s | s in items :: s.reps as object)
  }

  /** The properties of a list with the objects each of them holds. */
  ghost function ImovelObjects(imoveis: seq<Imovel>): set<object>
    reads set im | im in imoveis
  {
    (set im | im in imoveis :: im as object) + (set im | im in imoveis :: im.entity as object) +
    (set im | im in imoveis :: im.alienacao as object) + (set im | im in imoveis :: im.aquisicao as object)
  }

  /** Each party of a list built from the matching `LoadedSubject`. */
  ghost predicate PartiesLoaded(items: seq<Subject>, lss: seq<LoadedSubject>, role: Position, host: Host)
    reads (set s | s in items), PartyObjects(items)
  {
    |items| == |lss| && forall j :: 0 <= j < |lss| ==> SubjectLoaded(items[j], lss[j], role, host)
  }

  /** A property built from a `LoadedImovel`. */
  ghost predicate ImovelLoaded(im: Imovel, li: LoadedImovel, options: set<string>, host: Host)
    reads im, im.entity, im.alienacao, im.aquisicao
  {
    im.Valid() && im.entity.host == host && im.codigoIbge == MenuSelect("", li.codigoKey, options) &&
    im.entity.values == StoreAll(im.entity.schema, NullValues(im.entity.schema) - {"codigoIbge"}, li.fields, host) &&
    im.alienacao.rows == li.alienacao && im.aquisicao.rows == li.aquisicao
  }

  /** Each property of a list built from the matching `LoadedImovel`. */
  ghost predicate ImovelsLoaded(imoveis: seq<Imovel>, lis: seq<LoadedImovel>, options: set<string>, host: Host)
    reads (set im | im in imoveis), ImovelObjects(imoveis)
  {
    |imoveis| == |lis| && forall k :: 0 <= k < |lis| ==> ImovelLoaded(imoveis[k], lis[k], options, host)
  }

  /** An act built from a `LoadedAct`. */
  ghost predicate ActLoaded(a: Ato, la: LoadedAct, options: set<string>, host: Host)
    reads a, a.entity, a.alienantes, a.adquirentes
    reads (set s | s in a.alienantes.items), (set s | s in a.adquirentes.items), (set im | im in a.imoveis)
    reads PartyObjects(a.alienantes.items), PartyObjects(a.adquirentes.items), ImovelObjects(a.imoveis)
  {
    a.Valid() && a.entity.host == host &&
    a.entity.values == StoreAll(a.entity.schema, NullValues(a.entity.schema), la.fields, host) &&
    PartiesLoaded(a.alienantes.items, la.alienantes, Alienante, host) &&
    PartiesLoaded(a.adquirentes.items, la.adquirentes, Adquirente, host) &&
    ImovelsLoaded(a.imoveis, la.imoveis, options, host)
  }

  // ---------------------------------------------------------------------
  // Building the objects
  // ---------------------------------------------------------------------

  /** `for (const rep of x.representantes) reps.add(rep.ni)`. */
  method AddReps(reps: RepList, texts: seq<string>)
    modifies reps
    ensures reps.inputs == old(reps.inputs) + texts
  {
    var i := 0;
    while i < |texts|
      invariant 0 <= i <= |texts|
      invariant reps.inputs == old(reps.inputs) + texts[..i]
    {
      reps.Add(Some(texts[i]));
      assert texts[..i + 1] == texts[..i] + [texts[i]];
      i := i + 1;
    }
    assert texts[..i] == texts;
  }

  /** `new Alienante()` / `new Adquirente()`, its properties set from the
      record, its representatives added. */
  method BuildSubject(ls: LoadedSubject, role: Position, host: Host) returns (s: Subject)
    ensures fresh(s) && fresh(s.entity) && fresh(s.reps)
    ensures SubjectLoaded(s, ls, role, host)
  {
    s := new Subject(role, host);
    s.entity.SetValues(ls.fields);
    AddReps(s.reps, ls.reps);
  }

  /** The parties of one position of a new act, added in order. */
  method BuildParties(list: SubjectList, lss: seq<LoadedSubject>, role: Position, host: Host)
    requires list.items == []
    modifies list
    ensures |list.items| == |lss|
    ensures forall j :: 0 <= j < |lss| ==> fresh(list.items[j]) && SubjectLoaded(list.items[j], lss[j], role, host)
  {
    var i := 0;
    while i < |lss|
      invariant 0 <= i <= |lss| && |list.items| == i
      invariant forall j :: 0 <= j < i ==> fresh(list.items[j]) && SubjectLoaded(list.items[j], lss[j], role, host)
    {
      ghost var before := list.items;
      var s := BuildSubject(lss[i], role, host);
      assert s !in before;
      list.Add(s);
      assert list.items == before + [s];
      i := i + 1;
    }
  }

  /** `alienacao.add(ni, participacao)` for each row, in order. */
  method AddRows(op: Operacao, rows: seq<Row>)
    modifies op
    ensures op.rows == old(op.rows) + rows
  {
    var i := 0;
    while i < |rows|
      invariant 0 <= i <= |rows|
      invariant op.rows == old(op.rows) + rows[..i]
    {
      op.Add(rows[i].choice, rows[i].fraction);
      assert rows[..i + 1] == rows[..i] + [rows[i]];
      i := i + 1;
    }
    assert rows[..i] == rows;
  }

  /** `new Imovel(act.alienantes, act.adquirentes)` with its municipality
      and its properties set from the record. */
  method NewImovel(li: LoadedImovel, alienantes: SubjectList, adquirentes: SubjectList,
                   options: set<string>, host: Host) returns (im: Imovel)
    ensures fresh(im) && fresh(im.entity) && fresh(im.alienacao) && fresh(im.aquisicao)
    ensures im.alienantes == alienantes && im.adquirentes == adquirentes
    ensures im.Valid() && im.entity.host == host && im.codigoIbge == MenuSelect("", li.codigoKey, options)
    ensures im.entity.values == StoreAll(im.entity.schema, NullValues(im.entity.schema) - {"codigoIbge"}, li.fields, host)
    ensures im.alienacao.rows == [] && im.aquisicao.rows == []
  {
    im := new Imovel(alienantes, adquirentes, host);
    im.SetMunicipio(li.codigoKey, options);
    im.entity.SetValues(li.fields);
  }

  /** … and its two tables filled, row by row. */
  method BuildImovel(li: LoadedImovel, alienantes: SubjectList, adquirentes: SubjectList,
                     options: set<string>, host: Host) returns (im: Imovel)
    ensures fresh(im) && fresh(im.entity) && fresh(im.alienacao) && fresh(im.aquisicao)
    ensures im.alienantes == alienantes && im.adquirentes == adquirentes
    ensures ImovelLoaded(im, li, options, host)
  {
    im := NewImovel(li, alienantes, adquirentes, options, host);
    AddRows(im.alienacao, li.alienacao);
    AddRows(im.aquisicao, li.aquisicao);
  }

  /** One property of an act: built, then `act.addImovel(imovel)`. */
  method AppendImovel(a: Ato, li: LoadedImovel, options: set<string>, host: Host) returns (im: Imovel)
    requires a.Valid()
    modifies a
    ensures a.Valid() && a.imoveis == old(a.imoveis) + [im]
    ensures fresh(im) && ImovelLoaded(im, li, options, host)
  {
    im := BuildImovel(li, a.alienantes, a.adquirentes, options, host);
    a.AddImovel(im);
  }

  /** The properties of a new act, added in order. */
  method BuildImoveis(a: Ato, lis: seq<LoadedImovel>, options: set<string>, host: Host)
    requires a.Valid() && a.imoveis == []
    modifies a
    ensures a.Valid() && |a.imoveis| == |lis|
    ensures forall k :: 0 <= k < |lis| ==> fresh(a.imoveis[k]) && ImovelLoaded(a.imoveis[k], lis[k], options, host)
  {
    var i := 0;
    while i < |lis|
      invariant 0 <= i <= |lis| && a.Valid() && |a.imoveis| == i
      invariant forall k :: 0 <= k < i ==> fresh(a.imoveis[k]) && ImovelLoaded(a.imoveis[k], lis[k], options, host)
    {
      var im := AppendImovel(a, lis[i], options, host);
      i := i + 1;
    }
  }

  /** `new Ato()` with its properties set from the first record of its id. */
  method NewAto(la: LoadedAct, host: Host) returns (a: Ato)
    ensures fresh(a) && fresh(a.entity) && fresh(a.alienantes) && fresh(a.adquirentes)
    ensures a.Valid() && a.entity.host == host
    ensures a.entity.values == StoreAll(a.entity.schema, NullValues(a.entity.schema), la.fields, host)
    ensures a.alienantes.items == [] && a.adquirentes.items == [] && a.imoveis == []
  {
    a := new Ato(host);
    a.entity.SetValues(la.fields);
  }

  /** … then its parties and its properties. */
  method BuildAct(la: LoadedAct, options: set<string>, host: Host) returns (a: Ato)
    ensures fresh(a) && ActLoaded(a, la, options, host)
  {
    a := NewAto(la, host);
    BuildParties(a.alienantes, la.alienantes, Alienante, host);
    BuildParties(a.adquirentes, la.adquirentes, Adquirente, host);
    BuildImoveis(a, la.imoveis, options, host);
  }

  /** One act per loaded act, in order. */
  method BuildActs(las: seq<LoadedAct>, options: set<string>, host: Host) returns (built: seq<Ato>)
    ensures |built| == |las|
    ensures forall j :: 0 <= j < |las| ==> fresh(built[j]) && ActLoaded(built[j], las[j], options, host)
  {
    built := [];
    var i := 0;
    while i < |las|
      invariant 0 <= i <= |las| && |built| == i
      invariant forall j :: 0 <= j < i ==> fresh(built[j]) && ActLoaded(built[j], las[j], options, host)
    {
      var a := BuildAct(las[i], options, host);
      built := built + [a];
      i := i + 1;
    }
  }

  // ---------------------------------------------------------------------
  // The `object` getter
  // ---------------------------------------------------------------------

  /** What each act's `declaracoes` reads. */
  function ActStates(acts: seq<Ato>): (r: seq<AtoState>)
    reads *
    ensures |r| == |acts|
    ensures forall k :: 0 <= k < |acts| ==> r[k] == acts[k].State()
  {
    seq(|acts|, k requires 0 <= k < |acts| reads * => acts[k].State())
  }

  /** The records of each act, one list per act. */
  function DeclaracaoLists(states: seq<AtoState>): (r: seq<seq<Json>>)
    ensures |r| == |states|
    ensures forall k :: 0 <= k < |states| ==> r[k] == DeclaracoesOf(states[k])
  {
    seq(|states|, k requires 0 <= k < |states| => DeclaracoesOf(states[k]))
  }

  /** Record `Offset(…, i) + j` of the `declaracoes` list is the record of
      property `j` of act `i`: act `i`'s fields overlaid with the
      property's. */
  lemma DeclaracaoAt(states: seq<AtoState>, i: nat, j: nat)
    requires i < |states| && j < |states[i].imoveis|
    ensures Offset(DeclaracaoLists(states), i) + j < |Flatten(DeclaracaoLists(states))|
    ensures Flatten(DeclaracaoLists(states))[Offset(DeclaracaoLists(states), i) + j] ==
              Declaracao(EmittedFields(states[i].values, states[i].required), ImovelDoiOf(states[i].imoveis[j]))
  {
    FlattenAt(DeclaracaoLists(states), i, j);
  }

  /** The `acts.forEach(act => act.declaracoes.forEach(dec => push(dec)))`
      loop of the `object` getter: every act's records, act after act. */
  method AllDeclaracoes(states: seq<AtoState>) returns (declaracoes: seq<Json>)
    ensures declaracoes == Flatten(DeclaracaoLists(states))
  {
    ghost var lists := DeclaracaoLists(states);
    declaracoes := [];
    var i := 0;
    while i < |states|
      invariant 0 <= i <= |states|
      invariant declaracoes == Flatten(lists[..i])
    {
      var ds := DeclaracoesFrom(states[i]);
      FlattenSnoc(lists, i);
      declaracoes := declaracoes + ds;
      i := i + 1;
    }
    assert lists[..i] == lists;
  }

  class DoiMaker {
    const host: Host
    /** The acts of `items`, in insertion order. */
    var acts: seq<Ato>

    constructor (host: Host)
      ensures this.host == host && acts == []
    {
      this.host := host;
      acts := [];
    }

    /** The add button of the pager: a fresh, empty act. */
    method NewAct() returns (a: Ato)
      modifies this
      ensures fresh(a) && a.Valid() && a.entity.values == NullValues(a.entity.schema)
      ensures a.alienantes.items == [] && a.adquirentes.items == [] && a.imoveis == []
      ensures acts == old(acts) + [a]
    {
      a := new Ato(host);
      acts := acts + [a];
    }

    /** An act page's delete button: `items.delete(act.view)`. */
    method RemoveAct(a: Ato)
      modifies this
      ensures acts == Exclude(old(acts), a)
    {
      acts := Exclude(acts, a);
    }

    /** `empty()`. */
    method Empty()
      modifies this
      ensures acts == []
    {
      acts := [];
    }

    /** The `object` getter: `{ declaracoes }`, each act's records in
        turn.  The getter changes nothing, so its result is stated over the
        state it is called in. */
    method Object() returns (doc: Json)
      ensures doc == JObj(map["declaracoes" := JArr(old(Flatten(DeclaracaoLists(ActStates(acts)))))])
    {
      var states := ActStates(acts);
      var declaracoes := AllDeclaracoes(states);
      doc := JObj(map["declaracoes" := JArr(declaracoes)]);
    }

    /** `load(doiList)`, with one party cache per position (the loader as
        written shares one; see `SrcLoad.SharedCacheDropsDualRoleParty`).
        When a record throws the maker is left empty; otherwise it holds one
        fresh act per act id, in order of first appearance, each built from
        what `LoadOf` computes for it. */
    method Load(records: seq<Json>, options: set<string>) returns (ok: bool)
      modifies this
      ensures var loaded := LoadOf(records, PerRoleCache, host);
              (ok <==> loaded.Some?) && (!ok ==> acts == []) &&
              (ok ==> |acts| == |loaded.value| &&
                      forall i :: 0 <= i < |acts| ==> fresh(acts[i]) && ActLoaded(acts[i], loaded.value[i], options, host))
    {
      var loaded := LoadValues(records, PerRoleCache, host);
      if loaded.None? {
        acts := [];
        return false;
      }
      Install(loaded.value, options);
      return true;
    }

    /** The end of `load`: the maker holds one fresh act per loaded act. */
    method Install(las: seq<LoadedAct>, options: set<string>)
      modifies this
      ensures |acts| == |las|
      ensures forall i :: 0 <= i < |acts| ==> fresh(acts[i]) && ActLoaded(acts[i], las[i], options, host)
    {
      var built := BuildActs(las, options, host);
      acts := built;
    }
  }
}
