/** `App` of doimaker.js, without its widgets: the list of acts being
    edited and the `object` getter that flattens them into the
    `declaracoes` list, one record per (act, property) pair. */
module RootApp {
  import opened JsValues
  import opened Schema
  import opened RootImovel
  import opened RootGenerate
  import opened RootAto
  import opened Flattening

  /** Every act in the list, with its parties and properties, is well formed. */
  ghost predicate ActsValid(acts: seq<Ato>)
    reads *
  {
    forall k :: 0 <= k < |acts| ==> acts[k].Valid() && acts[k].MembersValid()
  }

  /** What the `object` getter reads of each act. */
  function ActStates(acts: seq<Ato>): (r: seq<ActState>)
    requires ActsValid(acts)
    reads *
    ensures |r| == |acts|
    ensures forall k :: 0 <= k < |acts| ==> r[k] == acts[k].State()
  {
    seq(|acts|, k requires 0 <= k < |acts| && acts[k].Valid() && acts[k].MembersValid() reads * =>
                  acts[k].State())
  }

  /** The records of each act, one list per act. */
  function RecordLists(states: seq<ActState>): (r: seq<seq<Json>>)
    ensures |r| == |states|
    ensures forall k :: 0 <= k < |states| ==> r[k] == ActRecordsOf(states[k])
  {
    seq(|states|, k requires 0 <= k < |states| => ActRecordsOf(states[k]))
  }

  /** All the records, act after act. */
  ghost function AllRecords(acts: seq<Ato>): seq<Json>
    requires ActsValid(acts)
    reads *
  {
    Flatten(RecordLists(ActStates(acts)))
  }

  /** Hence record `Offset(…, i) + j` is the one `generateDoi` yields for
      property `j` of act `i`. */
  lemma RecordAt(acts: seq<Ato>, i: nat, j: nat)
    requires ActsValid(acts)
    requires i < |acts| && j < |acts[i].imoveis|
    ensures Offset(RecordLists(ActStates(acts)), i) + j < |AllRecords(acts)|
    ensures acts[i].Valid() && acts[i].PartiesValid() && acts[i].imoveis[j].Valid()
    ensures AllRecords(acts)[Offset(RecordLists(ActStates(acts)), i) + j] == acts[i].Record(acts[i].imoveis[j])
  {
    FlattenAt(RecordLists(ActStates(acts)), i, j);
    acts[i].RecordsAre(j);
  }

  /** The inner `for (const imovel of act.imoveis)` loop of the `object`
      getter: the records of one act, in order. */
  method Declaracoes(act: ActState) returns (ds: seq<Json>)
    ensures ds == ActRecordsOf(act)
  {
    ds := [];
    var j := 0;
    while j < |act.imoveis|
      invariant 0 <= j <= |act.imoveis|
      invariant ds == ActRecordsOf(act)[..j]
    {
      var doi := GenerateDoiFrom(act, act.imoveis[j]);
      ds := ds + [doi];
      j := j + 1;
    }
  }

  /** The outer `for (const act of this.acts)` loop of the `object` getter:
      the records of every act, act after act. */
  method AllDeclaracoes(states: seq<ActState>) returns (declaracoes: seq<Json>)
    ensures declaracoes == Flatten(RecordLists(states))
  {
    ghost var lists := RecordLists(states);
    declaracoes := [];
    var i := 0;
    while i < |states|
      invariant 0 <= i <= |states|
      invariant declaracoes == Flatten(lists[..i])
    {
      var ds := Declaracoes(states[i]);
      FlattenSnoc(lists, i);
      declaracoes := declaracoes + ds;
      i := i + 1;
    }
    assert lists[..i] == lists;
  }

  class App {
    /** `this.acts`, in insertion order. */
    var acts: seq<Ato>

    /** `new App()`: one empty act. */
    constructor (host: Host)
      ensures |acts| == 1 && fresh(acts[0]) && acts[0].Valid() && acts[0].MembersValid()
      ensures acts[0].alienantes == [] && acts[0].adquirentes == [] && acts[0].imoveis == []
    {
      var act := new Ato(host);
      acts := [act];
    }

    /** `new()`: one more empty act. */
    method New(host: Host)
      modifies this
      ensures |acts| == |old(acts)| + 1 && acts[..|old(acts)|] == old(acts)
      ensures fresh(acts[|acts| - 1]) && acts[|acts| - 1].Valid() && acts[|acts| - 1].MembersValid()
      ensures acts[|acts| - 1].alienantes == [] && acts[|acts| - 1].adquirentes == [] && acts[|acts| - 1].imoveis == []
    {
      var act := new Ato(host);
      acts := acts + [act];
    }

    /** `add(act)`. */
    method Add(act: Ato)
      modifies this
      ensures acts == old(acts) + [act]
    {
      acts := acts + [act];
    }

    /** The `object` getter: `{ declaracoes }`, one record per property of
        each act, act after act.  The acts are read once, before the records
        are built; the getter changes nothing, so its result is stated over
        the state it is called in. */
    method Object() returns (doc: Json)
      requires ActsValid(acts)
      ensures doc.JObj? && doc.fields.Keys == {"declaracoes"}
      ensures doc.fields["declaracoes"] == JArr(old(AllRecords(acts)))
    {
      var states := ActStates(acts);
      var declaracoes := AllDeclaracoes(states);
      doc := JObj(map["declaracoes" := JArr(declaracoes)]);
    }
  }
}
