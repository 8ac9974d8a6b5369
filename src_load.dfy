/** `DoiMaker.load(doiList)` of src/doimaker.js, over values: the records of
    a saved `declaracoes` list regrouped into acts (one per book and sheet),
    each with its parties and one property per record.  A record the loader
    cannot read makes `load` throw; the result is then `None`.

    The loader remembers the parties it has created in a per-act cache keyed
    by `String(ni)`.  As written the cache is shared by both positions
    (`SharedCache`); `PerRoleCache` is the evidently intended behaviour, one
    cache per position. */
module SrcLoad {
  import opened JsValues
  import opened Schema
  import opened Property
  import opened SubjectRules
  import opened TaxId
  import opened SrcEntity
  import opened SrcOperacao
  import opened SrcImovel
  import DoiRegistry
  import RegistryFacts

  datatype CacheMode = SharedCache | PerRoleCache

  /** A party as the loader creates it: its cache key, the record member it
      takes its fields from and the texts of its representatives. */
  datatype LoadedSubject = LoadedSubject(key: string, fields: map<string, Json>, reps: seq<string>)

  /** A property: the key given to the municipality menu, the record it
      takes its fields from, and the rows of its two tables. */
  datatype LoadedImovel = LoadedImovel(codigoKey: string, fields: map<string, Json>,
                                       alienacao: seq<Row>, aquisicao: seq<Row>)

  /** An act: its `numeroLivro:folha` id, the record it takes its fields from
      (the first with that id), its parties and its properties. */
  datatype LoadedAct = LoadedAct(id: string, fields: map<string, Json>,
                                 alienantes: seq<LoadedSubject>, adquirentes: seq<LoadedSubject>,
                                 imoveis: seq<LoadedImovel>)

  // ---------------------------------------------------------------------
  // Conversions
  // ---------------------------------------------------------------------

  /** `String(j)` for a JSON value: an object prints as "[object Object]",
      an array as its elements joined by commas (null elements as ""). */
  function JsonText(j: Json, host: Host): string
    decreases j, 1, 0
  {
    match j
    case JVal(v) => ToJsString(v, host)
    case JObj(_) => "[object Object]"
    case JArr(items) => JoinText(j, |items|, host)
  }

  /** The first `n` elements of an array, joined. */
  function JoinText(j: Json, n: nat, host: Host): string
    requires j.JArr? && n <= |j.items|
    decreases j, 0, n
  {
    if n == 0 then ""
    else
      var e := j.items[n - 1];
      assert e in j.items;
      JoinText(j, n - 1, host) + (if n > 1 then "," else "") + (if e == JVal(VNull) then "" else JsonText(e, host))
  }

  /** The property key a member converts to; `undefined` gives "undefined". */
  function KeyText(o: Option<Json>, host: Host): string {
    match o
    case None => "undefined"
    case Some(j) => JsonText(j, host)
  }

  /** `doi.numeroLivro + ':' + doi.folha`. */
  function RecordId(f: map<string, Json>, host: Host): string {
    KeyText(Member(f, "numeroLivro"), host) + ":" + KeyText(Member(f, "folha"), host)
  }

  /** An act id always holds ':', so it is never one of the names a plain
      object inherits, and never an array index: `acts[actId]` finds only
      acts stored under it, and `Object.values(acts)` lists them in
      insertion order. */
  lemma RecordIdNeverInherited(f: map<string, Json>, host: Host)
    ensures !ObjectPrototypeKey(RecordId(f, host))
    ensures exists i :: 0 <= i < |RecordId(f, host)| && !IsDecimalDigit(RecordId(f, host)[i])
  {
    var id := RecordId(f, host);
    var a := KeyText(Member(f, "numeroLivro"), host);
    assert id[|a|] == ':';
    assert !IsDecimalDigit(id[|a|]);
    if ObjectPrototypeKey(id) {
      PrototypeKeysHaveNoColon(id);
    }
  }

  lemma PrototypeKeysHaveNoColon(k: string)
    requires ObjectPrototypeKey(k)
    ensures ':' !in k
  {
  }

  /** The HTML rule for the text of a number input (a "valid floating-point
      number"): an optional "-", digits with an optional fraction (or a
      fraction alone) and an optional exponent.  Other texts are replaced by
      "". */
  predicate ValidFloatText(s: string) {
    var u := if s != [] && s[0] == '-' then s[1..] else s;
    var ke := if IndexOf(u, 'e') < IndexOf(u, 'E') then IndexOf(u, 'e') else IndexOf(u, 'E');
    var mantissa := u[..ke];
    var kd := IndexOf(mantissa, '.');
    var whole := mantissa[..kd];
    var frac := if kd < |mantissa| then mantissa[kd + 1..] else [];
    AllDecimalDigits(whole) && AllDecimalDigits(frac) && (kd < |mantissa| ==> frac != []) &&
    |whole| + |frac| > 0 && (ke < |u| ==> ParseExponent(u[ke + 1..]).Some?)
  }

  /** A number input given the text `t`: it holds `t` when that is a valid
      number text, and "" otherwise; either way it reads back as
      `Number(text)`. */
  function NumberText(t: string): (r: Option<real>)
    ensures r.Some? <==> StringToNumber(t).Finite?
  {
    match StringToNumber(t)
    case Finite(x) => Some(if ValidFloatText(t) then x else 0.0)
    case _ => None
  }

  /** `new NumberInput(participacao ?? 0)` and the number it reads back.
      The number input admits a default that is null, "" or converts to a
      finite number, and throws otherwise (`None`).  A number is kept; ""
      reads back as 0; `true` and `false` convert, but their text is not a
      number text and reads back as 0; a string or an array goes through its
      text. */
  function LoadedFraction(o: Option<Json>, host: Host): (r: Option<real>)
    ensures o.None? || o == Some(JVal(VNull)) ==> r == Some(0.0)
    ensures o.Some? && o.value.JVal? && o.value.v.VNum? ==> r == Some(o.value.v.num)
    ensures o == Some(JVal(VStr(""))) ==> r == Some(0.0)
    ensures o.Some? && o.value.JVal? && o.value.v.VStr? ==> r == NumberText(o.value.v.str)
    ensures o.Some? && o.value.JObj? ==> r.None?
  {
    match o
    case None => Some(0.0)
    case Some(JVal(VNull)) => Some(0.0)
    case Some(JVal(VNum(x))) => Some(x)
    case Some(JVal(VBool(_))) => Some(0.0)
    case Some(JVal(VStr(t))) => NumberText(t)
    // `Number({})` is NaN.
    case Some(JObj(_)) => None
    case Some(JArr(_)) => NumberText(JsonText(o.value, host))
  }

  // ---------------------------------------------------------------------
  // Parties
  // ---------------------------------------------------------------------

  /** The party schema of a position. */
  function PartySchema(role: Position): EntitySchema {
    match role
    case Alienante => DoiRegistry.Alienante
    case Adquirente => DoiRegistry.Adquirente
  }

  /** The descriptor of `ni`, the same in both party schemas. */
  const NiDescriptor: Descriptor := Descriptor(KString, None, 11, 14, NoFormat)

  lemma PartyNiDescriptor(role: Position)
    ensures "ni" in PartySchema(role) && PartySchema(role)["ni"] == NiDescriptor
  {
  }

  /** The members of a party element: null throws (`alienante.ni`), any other
      non-object has none the loader reads. */
  function PartyFields(e: Json): (r: Option<map<string, Json>>)
    ensures r.None? <==> e == JVal(VNull)
    ensures e.JObj? ==> r == Some(e.fields)
  {
    match e
    case JObj(f) => Some(f)
    case JVal(VNull) => None
    case _ => Some(map[])
  }

  /** `reps.add(rep.ni)` for one element: `new TextInput(rep.ni ?? "")`,
      which refuses a default that is not a string.  A null element throws
      at `rep.ni`; an element without an `ni` (a primitive, an array, an
      object lacking it) or with a null one gives ""; an object whose `ni`
      is a string gives that string; any other `ni` throws. */
  function RepText(rep: Json): (r: Option<string>)
    ensures r.None? <==> rep == JVal(VNull) ||
                         (rep.JObj? && Member(rep.fields, "ni").Some? && Member(rep.fields, "ni") != Some(JVal(VNull)) &&
                          !(Member(rep.fields, "ni").value.JVal? && Member(rep.fields, "ni").value.v.VStr?))
    ensures (rep.JObj? && Member(rep.fields, "ni").Some? && Member(rep.fields, "ni").value.JVal? &&
             Member(rep.fields, "ni").value.v.VStr?) ==> r == Some(Member(rep.fields, "ni").value.v.str)
    ensures (r.Some? && !(rep.JObj? && Member(rep.fields, "ni").Some? && Member(rep.fields, "ni").value.JVal? &&
                          Member(rep.fields, "ni").value.v.VStr?)) ==> r == Some("")
  {
    match rep
    case JObj(g) =>
      (match Member(g, "ni")
       case None => Some("")
       case Some(JVal(VNull)) => Some("")
       case Some(JVal(VStr(t))) => Some(t)
       case _ => None)
    case JVal(VNull) => None
    case _ => Some("")
  }

  /** `for (const rep of representantes) reps.add(rep.ni)`: one text per
      element. */
  function RepTexts(items: seq<Json>): (r: Option<seq<string>>)
    ensures r.Some? ==> |r.value| == |items|
  {
    if items == [] then Some([])
    else
      match RepTexts(items[..|items| - 1])
      case None => None
      case Some(texts) =>
        match RepText(items[|items| - 1])
        case None => None
        case Some(t) => Some(texts + [t])
  }

  /** `n` empty texts. */
  function Blanks(n: nat): (r: seq<string>)
    ensures |r| == n && forall i :: 0 <= i < n ==> r[i] == ""
  {
    if n == 0 then [] else Blanks(n - 1) + [""]
  }

  /** `if (x.representantes) for (const rep of x.representantes) …`: a
      falsy member adds nothing; a non-empty string is iterated character
      by character, and a character has no `ni`, so each adds ""; a number,
      a boolean or an object is not iterable and throws. */
  function RepInputs(o: Option<Json>): (r: Option<seq<string>>)
    ensures o.Some? && o.value.JArr? ==> r == RepTexts(o.value.items)
    ensures o.Some? && o.value.JVal? && o.value.v.VStr? ==>
              r.Some? && |r.value| == |o.value.v.str| && forall i :: 0 <= i < |r.value| ==> r.value[i] == ""
    ensures o.None? || (o.Some? && o.value.JVal? && !Truthy(o.value.v)) ==> r == Some([])
    ensures r.None? <==> (o.Some? && o.value.JObj?) ||
                         (o.Some? && o.value.JVal? && !o.value.v.VStr? && Truthy(o.value.v)) ||
                         (o.Some? && o.value.JArr? && RepTexts(o.value.items).None?)
  {
    match o
    case None => Some([])
    case Some(JVal(VStr(t))) => Some(Blanks(|t|))
    case Some(JVal(v)) => if Truthy(v) then None else Some([])
    case Some(JObj(_)) => None
    case Some(JArr(items)) => RepTexts(items)
  }

  /** Some party of the list was created with key `k`. */
  predicate KeyListed(subjects: seq<LoadedSubject>, k: string) {
    exists i :: 0 <= i < |subjects| && subjects[i].key == k
  }

  function RoleList(a: LoadedAct, role: Position): seq<LoadedSubject> {
    match role
    case Alienante => a.alienantes
    case Adquirente => a.adquirentes
  }

  /** `subjects[ni]` is truthy: a party was cached under the key (in this
      position's cache, or in the shared one), or the key is inherited. */
  predicate Cached(a: LoadedAct, role: Position, k: string, mode: CacheMode) {
    ObjectPrototypeKey(k) ||
    match mode
    case SharedCache => KeyListed(a.alienantes, k) || KeyListed(a.adquirentes, k)
    case PerRoleCache => KeyListed(RoleList(a, role), k)
  }

  /** `a` differs from `b` only by parties appended to its lists. */
  predicate Extends(b: LoadedAct, a: LoadedAct) {
    b.id == a.id && b.fields == a.fields && b.imoveis == a.imoveis &&
    |a.alienantes| <= |b.alienantes| && b.alienantes[..|a.alienantes|] == a.alienantes &&
    |a.adquirentes| <= |b.adquirentes| && b.adquirentes[..|a.adquirentes|] == a.adquirentes
  }

  /** The body of one `doi.alienantes.forEach` / `doi.adquirentes.forEach`
      step: a party not cached yet is created from the element and added to
      the act's list of its position. */
  function AddParty(a: LoadedAct, e: Json, role: Position, mode: CacheMode, host: Host): (r: Option<LoadedAct>)
    ensures r.Some? ==> Extends(r.value, a) && |RoleList(r.value, role)| <= |RoleList(a, role)| + 1
    ensures r.Some? ==> (role == Alienante ==> r.value.adquirentes == a.adquirentes) &&
                        (role == Adquirente ==> r.value.alienantes == a.alienantes)
  {
    match PartyFields(e)
    case None => None
    case Some(f) =>
      var key := KeyText(Member(f, "ni"), host);
      if Cached(a, role, key, mode) then Some(a)
      else
        match RepInputs(Member(f, "representantes"))
        case None => None
        case Some(reps) =>
          var s := LoadedSubject(key, f, reps);
          Some(match role
               case Alienante => a.(alienantes := a.alienantes + [s])
               case Adquirente => a.(adquirentes := a.adquirentes + [s]))
  }

  /** The whole `forEach` over a record's parties of one position. */
  function AddParties(a: LoadedAct, elems: seq<Json>, role: Position, mode: CacheMode, host: Host): (r: Option<LoadedAct>)
    ensures r.Some? ==> Extends(r.value, a)
  {
    if elems == [] then Some(a)
    else
      match AddParties(a, elems[..|elems| - 1], role, mode, host)
      case None => None
      case Some(b) => AddParty(b, elems[|elems| - 1], role, mode, host)
  }

  /** The tax id a loaded party ends up with: its record's `ni` through the
      setter (`PartyNiDescriptor`). */
  function SubjectNi(role: Position, s: LoadedSubject, host: Host): Value {
    Store(NiDescriptor, VNull, FieldValue(Member(s.fields, "ni")), host)
  }

  /** `operacao.add(x.ni, …)` chooses the menu option whose text is `x.ni`:
      a non-empty string equal to the tax id of a party of the list. */
  function LoadedChoice(ni: Option<Json>, list: seq<LoadedSubject>, role: Position, host: Host): (r: Option<string>)
    ensures r.Some? <==> ni.Some? && ni.value.JVal? && ni.value.v.VStr? && ni.value.v.str != "" &&
                         exists i :: 0 <= i < |list| && SubjectNi(role, list[i], host) == ni.value.v
    ensures r.Some? ==> ni == Some(JVal(VStr(r.value)))
  {
    if ni.Some? && ni.value.JVal? && ni.value.v.VStr? && ni.value.v.str != "" &&
       exists i :: 0 <= i < |list| && SubjectNi(role, list[i], host) == ni.value.v
    then Some(ni.value.v.str)
    else None
  }

  /** The row `operacao.add(x.ni, x.participacao)` creates for one party
      element. */
  function RowFor(e: Json, list: seq<LoadedSubject>, role: Position, host: Host): Option<Row> {
    match PartyFields(e)
    case None => None
    case Some(f) =>
      match LoadedFraction(Member(f, "participacao"), host)
      case None => None
      case Some(x) => Some(Row(LoadedChoice(Member(f, "ni"), list, role, host), x))
  }

  /** The rows of one table: one per party element of the record, in order. */
  function RowsFor(elems: seq<Json>, list: seq<LoadedSubject>, role: Position, host: Host): (r: Option<seq<Row>>)
    ensures r.Some? ==> |r.value| == |elems|
  {
    if elems == [] then Some([])
    else
      match RowsFor(elems[..|elems| - 1], list, role, host)
      case None => None
      case Some(rows) =>
        match RowFor(elems[|elems| - 1], list, role, host)
        case None => None
        case Some(row) => Some(rows + [row])
  }

  // ---------------------------------------------------------------------
  // Records and acts
  // ---------------------------------------------------------------------

  /** `acts[actId]`: the position of the act stored under the id. */
  function FindAct(acts: seq<LoadedAct>, id: string): (r: Option<nat>)
    ensures r.Some? ==> r.value < |acts| && acts[r.value].id == id &&
                        forall j :: 0 <= j < r.value ==> acts[j].id != id
    ensures r.None? ==> forall j :: 0 <= j < |acts| ==> acts[j].id != id
  {
    if acts == [] then None
    else if acts[0].id == id then Some(0)
    else match FindAct(acts[1..], id)
      case None => None
      case Some(k) => Some(k + 1)
  }

  /** The members both party lists are read from, when both are arrays. */
  predicate HasPartyArrays(f: map<string, Json>) {
    "alienantes" in f && f["alienantes"].JArr? && "adquirentes" in f && f["adquirentes"].JArr?
  }

  /** The first half of one `doiList.forEach` step: find or create the act
      (a new one takes its fields from this record) and add the record's
      parties to it. */
  function RecordParties(acts: seq<LoadedAct>, f: map<string, Json>, mode: CacheMode, host: Host): (r: Option<LoadedAct>)
    requires HasPartyArrays(f)
  {
    var id := RecordId(f, host);
    var k := FindAct(acts, id);
    var a0 := if k.Some? then acts[k.value] else LoadedAct(id, f, [], [], []);
    match AddParties(a0, f["alienantes"].items, Alienante, mode, host)
    case None => None
    case Some(a1) => AddParties(a1, f["adquirentes"].items, Adquirente, mode, host)
  }

  /** One `doiList.forEach` step: the act with the record's parties, then
      the property with its municipality, its fields and its two tables,
      whose rows are chosen among the act's parties as they now stand. */
  function LoadRecord(acts: seq<LoadedAct>, rec: Json, mode: CacheMode, host: Host): (r: Option<seq<LoadedAct>>)
    ensures r.Some? ==> rec.JObj? && HasPartyArrays(rec.fields)
    ensures r.Some? ==> |r.value| == |acts| || |r.value| == |acts| + 1
  {
    if !rec.JObj? || !HasPartyArrays(rec.fields) then None
    else
      var f := rec.fields;
      var k := FindAct(acts, RecordId(f, host));
      match RecordParties(acts, f, mode, host)
      case None => None
      case Some(a2) =>
        match RowsFor(f["alienantes"].items, a2.alienantes, Alienante, host)
        case None => None
        case Some(alienacao) =>
          match RowsFor(f["adquirentes"].items, a2.adquirentes, Adquirente, host)
          case None => None
          case Some(aquisicao) =>
            var im := LoadedImovel(KeyText(Member(f, "codigoIbge"), host), f, alienacao, aquisicao);
            var a3 := a2.(imoveis := a2.imoveis + [im]);
            Some(if k.Some? then acts[k.value := a3] else acts + [a3])
  }

  /** `load(doiList)`: the records in order. */
  function LoadOf(records: seq<Json>, mode: CacheMode, host: Host): Option<seq<LoadedAct>> {
    if records == [] then Some([])
    else
      match LoadOf(records[..|records| - 1], mode, host)
      case None => None
      case Some(acts) => LoadRecord(acts, records[|records| - 1], mode, host)
  }

  // ---------------------------------------------------------------------
  // Indexing the records
  // ---------------------------------------------------------------------

  /** The act id of a record (a record that is not an object makes the load
      throw, so its id never matters). */
  function RecordKey(rec: Json, host: Host): string {
    if rec.JObj? then RecordId(rec.fields, host) else ""
  }

  function RecordFields(rec: Json): map<string, Json> {
    if rec.JObj? then rec.fields else map[]
  }

  /** The first record with the act id. */
  function FirstRecord(records: seq<Json>, id: string, host: Host): (r: Option<nat>)
    ensures r.Some? ==> r.value < |records| && RecordKey(records[r.value], host) == id &&
                        forall j :: 0 <= j < r.value ==> RecordKey(records[j], host) != id
    ensures r.None? ==> forall j :: 0 <= j < |records| ==> RecordKey(records[j], host) != id
  {
    if records == [] then None
    else
      var n := |records| - 1;
      var prev := FirstRecord(records[..n], id, host);
      assert forall j :: 0 <= j < n ==> records[..n][j] == records[j];
      if prev.Some? then prev
      else if RecordKey(records[n], host) == id then Some(n) else None
  }

  /** The number of records with the act id. */
  function CountId(records: seq<Json>, id: string, host: Host): nat {
    if records == [] then 0
    else CountId(records[..|records| - 1], id, host) + (if RecordKey(records[|records| - 1], host) == id then 1 else 0)
  }

  /** An id no record has is counted zero times. */
  lemma {:induction false} CountIdZero(records: seq<Json>, id: string, host: Host)
    requires FirstRecord(records, id, host).None?
    ensures CountId(records, id, host) == 0
  {
    if records != [] {
      var init := records[..|records| - 1];
      assert forall j :: 0 <= j < |init| ==> init[j] == records[j];
      CountIdZero(init, id, host);
    }
  }

  lemma FindActIs(acts: seq<LoadedAct>, id: string, k: nat)
    requires k < |acts| && acts[k].id == id && forall j :: 0 <= j < k ==> acts[j].id != id
    ensures FindAct(acts, id) == Some(k)
  {
  }

  /** `acts` is `acts0` after a record with id `id0` and fields `f0`: the act
      with that id gains a property (and, as `Extends` says, possibly
      parties), or a new act for it is appended; every other act is kept. */
  predicate StepShape(acts0: seq<LoadedAct>, acts: seq<LoadedAct>, id0: string, f0: map<string, Json>) {
    match FindAct(acts0, id0)
    case Some(k) =>
      |acts| == |acts0| && (forall j :: 0 <= j < |acts0| && j != k ==> acts[j] == acts0[j]) &&
      acts[k].id == acts0[k].id && acts[k].fields == acts0[k].fields &&
      |acts[k].imoveis| == |acts0[k].imoveis| + 1 &&
      |acts0[k].alienantes| <= |acts[k].alienantes| && acts[k].alienantes[..|acts0[k].alienantes|] == acts0[k].alienantes &&
      |acts0[k].adquirentes| <= |acts[k].adquirentes| && acts[k].adquirentes[..|acts0[k].adquirentes|] == acts0[k].adquirentes
    case None =>
      |acts| == |acts0| + 1 && acts[..|acts0|] == acts0 && acts[|acts0|].id == id0 &&
      acts[|acts0|].fields == f0 && |acts[|acts0|].imoveis| == 1
  }

  /** What one record does to the acts: it adds a property to the act with
      its id, creating that act (from the record's fields) at the end when
      there is none, and leaves every other act alone. */
  lemma LoadRecordShape(acts: seq<LoadedAct>, rec: Json, mode: CacheMode, host: Host)
    requires LoadRecord(acts, rec, mode, host).Some?
    ensures StepShape(acts, LoadRecord(acts, rec, mode, host).value, RecordKey(rec, host), RecordFields(rec))
  {
  }

  /** `LoadRecordShape` for the last record of a load. */
  lemma LoadStep(records: seq<Json>, mode: CacheMode, host: Host)
    requires records != [] && LoadOf(records, mode, host).Some?
    ensures LoadOf(records[..|records| - 1], mode, host).Some?
    ensures StepShape(LoadOf(records[..|records| - 1], mode, host).value, LoadOf(records, mode, host).value,
                      RecordKey(records[|records| - 1], host), RecordFields(records[|records| - 1]))
  {
    LoadRecordShape(LoadOf(records[..|records| - 1], mode, host).value, records[|records| - 1], mode, host);
  }

  /** One step of the index, on the acts alone. */
  lemma IndexStep(acts0: seq<LoadedAct>, acts: seq<LoadedAct>, id0: string, f0: map<string, Json>, id: string)
    requires StepShape(acts0, acts, id0, f0)
    ensures id == id0 ==>
              FindAct(acts, id).Some? &&
              |acts[FindAct(acts, id).value].imoveis| ==
                (if FindAct(acts0, id).Some? then |acts0[FindAct(acts0, id).value].imoveis| else 0) + 1 &&
              acts[FindAct(acts, id).value].fields ==
                (if FindAct(acts0, id).Some? then acts0[FindAct(acts0, id).value].fields else f0)
    ensures id != id0 ==>
              (FindAct(acts, id).Some? <==> FindAct(acts0, id).Some?) &&
              (FindAct(acts, id).Some? ==>
                 FindAct(acts, id) == FindAct(acts0, id) &&
                 acts[FindAct(acts, id).value].imoveis == acts0[FindAct(acts0, id).value].imoveis &&
                 acts[FindAct(acts, id).value].fields == acts0[FindAct(acts0, id).value].fields)
  {
    var k0 := FindAct(acts0, id0);
    if id == id0 {
      if k0.Some? {
        FindActIs(acts, id, k0.value);
      } else {
        assert forall j :: 0 <= j < |acts0| ==> acts[j] == acts0[j];
        FindActIs(acts, id, |acts0|);
      }
    } else {
      match FindAct(acts0, id)
      case Some(j) =>
        assert forall i :: 0 <= i < j ==> acts[i].id == acts0[i].id;
        FindActIs(acts, id, j);
      case None =>
        assert forall i :: 0 <= i < |acts| ==> acts[i].id != id by {
          forall i | 0 <= i < |acts| ensures acts[i].id != id {
            if i < |acts0| { assert acts[i].id == acts0[i].id; }
          }
        }
    }
  }

  /** Per id: there is an act exactly when some record has the id; it takes
      its fields from the first such record and holds one property per such
      record. */
  predicate IndexFacts(records: seq<Json>, acts: seq<LoadedAct>, id: string, host: Host) {
    (FindAct(acts, id).Some? <==> FirstRecord(records, id, host).Some?) &&
    (FindAct(acts, id).Some? ==>
       |acts[FindAct(acts, id).value].imoveis| == CountId(records, id, host) &&
       acts[FindAct(acts, id).value].fields == RecordFields(records[FirstRecord(records, id, host).value]))
  }

  lemma IndexInduct(records: seq<Json>, acts0: seq<LoadedAct>, acts: seq<LoadedAct>, id: string, host: Host)
    requires records != []
    requires StepShape(acts0, acts, RecordKey(records[|records| - 1], host), RecordFields(records[|records| - 1]))
    requires IndexFacts(records[..|records| - 1], acts0, id, host)
    ensures IndexFacts(records, acts, id, host)
  {
    var n := |records| - 1;
    var init := records[..n];
    IndexStep(acts0, acts, RecordKey(records[n], host), RecordFields(records[n]), id);
    assert forall j :: 0 <= j < n ==> init[j] == records[j];
    if FirstRecord(init, id, host).None? {
      CountIdZero(init, id, host);
    }
  }

  /** The acts `load` builds, per id: `IndexFacts`. */
  lemma {:induction false} LoadIndex(records: seq<Json>, mode: CacheMode, host: Host, id: string)
    requires LoadOf(records, mode, host).Some?
    ensures IndexFacts(records, LoadOf(records, mode, host).value, id, host)
  {
    if records != [] {
      var init := records[..|records| - 1];
      LoadStep(records, mode, host);
      LoadIndex(init, mode, host, id);
      IndexInduct(records, LoadOf(init, mode, host).value, LoadOf(records, mode, host).value, id, host);
    }
  }

  /** Act `i` comes before act `j`: the id of `i` first appears earlier. */
  predicate OrderAt(records: seq<Json>, acts: seq<LoadedAct>, i: nat, j: nat, host: Host)
    requires i < j < |acts|
  {
    FirstRecord(records, acts[i].id, host).Some? && FirstRecord(records, acts[j].id, host).Some? &&
    FirstRecord(records, acts[i].id, host).value < FirstRecord(records, acts[j].id, host).value
  }

  lemma OrderInduct(records: seq<Json>, acts0: seq<LoadedAct>, acts: seq<LoadedAct>, i: nat, j: nat, host: Host)
    requires records != [] && i < j < |acts|
    requires StepShape(acts0, acts, RecordKey(records[|records| - 1], host), RecordFields(records[|records| - 1]))
    requires IndexFacts(records[..|records| - 1], acts0, acts[i].id, host)
    requires IndexFacts(records[..|records| - 1], acts0, acts[j].id, host)
    requires j < |acts0| ==> OrderAt(records[..|records| - 1], acts0, i, j, host)
    ensures OrderAt(records, acts, i, j, host)
  {
    var n := |records| - 1;
    var init := records[..n];
    var id0 := RecordKey(records[n], host);
    assert forall k :: 0 <= k < n ==> init[k] == records[k];
    assert acts[i].id == acts0[i].id;
    assert FindAct(acts0, acts[i].id).Some?;
    if j < |acts0| {
      assert acts[j].id == acts0[j].id;
      assert FindAct(acts0, acts[j].id).Some?;
    } else {
      assert FindAct(acts0, id0).None?;
      assert acts[j].id == id0;
    }
  }

  /** `Object.values(acts)` lists the acts in the order their ids first
      appear among the records. */
  lemma {:induction false} LoadOrder(records: seq<Json>, mode: CacheMode, host: Host, i: nat, j: nat)
    requires LoadOf(records, mode, host).Some?
    requires i < j < |LoadOf(records, mode, host).value|
    ensures OrderAt(records, LoadOf(records, mode, host).value, i, j, host)
  {
    var acts := LoadOf(records, mode, host).value;
    var init := records[..|records| - 1];
    LoadStep(records, mode, host);
    var acts0 := LoadOf(init, mode, host).value;
    LoadIndex(init, mode, host, acts[i].id);
    LoadIndex(init, mode, host, acts[j].id);
    if j < |acts0| {
      LoadOrder(init, mode, host, i, j);
    }
    OrderInduct(records, acts0, acts, i, j, host);
  }

  /** No two acts share an id: each book and sheet makes one act. */
  lemma LoadIdsDistinct(records: seq<Json>, mode: CacheMode, host: Host, i: nat, j: nat)
    requires LoadOf(records, mode, host).Some?
    requires i < j < |LoadOf(records, mode, host).value|
    ensures LoadOf(records, mode, host).value[i].id != LoadOf(records, mode, host).value[j].id
  {
    LoadOrder(records, mode, host, i, j);
  }

  // ---------------------------------------------------------------------
  // The parties of an act
  // ---------------------------------------------------------------------

  predicate DistinctKeys(subjects: seq<LoadedSubject>) {
    forall i, j :: 0 <= i < j < |subjects| ==> subjects[i].key != subjects[j].key
  }

  predicate NoInheritedKeys(subjects: seq<LoadedSubject>) {
    forall i :: 0 <= i < |subjects| ==> !ObjectPrototypeKey(subjects[i].key)
  }

  /** What the cache guarantees about an act's parties: within a position no
      key is created twice, and no inherited name is ever a key; with the
      shared cache a key is moreover in one position only. */
  predicate KeysWellFormed(a: LoadedAct, mode: CacheMode) {
    DistinctKeys(a.alienantes) && DistinctKeys(a.adquirentes) &&
    NoInheritedKeys(a.alienantes) && NoInheritedKeys(a.adquirentes) &&
    (mode == SharedCache ==>
       forall i, j :: 0 <= i < |a.alienantes| && 0 <= j < |a.adquirentes| ==>
         a.alienantes[i].key != a.adquirentes[j].key)
  }

  lemma AppendKeepsKeys(xs: seq<LoadedSubject>, s: LoadedSubject)
    requires DistinctKeys(xs) && NoInheritedKeys(xs) && !KeyListed(xs, s.key) && !ObjectPrototypeKey(s.key)
    ensures DistinctKeys(xs + [s]) && NoInheritedKeys(xs + [s])
  {
  }

  lemma AddPartyKeepsKeys(a: LoadedAct, e: Json, role: Position, mode: CacheMode, host: Host)
    requires KeysWellFormed(a, mode) && AddParty(a, e, role, mode, host).Some?
    ensures KeysWellFormed(AddParty(a, e, role, mode, host).value, mode)
  {
    var f := PartyFields(e).value;
    var key := KeyText(Member(f, "ni"), host);
    if !Cached(a, role, key, mode) {
      var s := LoadedSubject(key, f, RepInputs(Member(f, "representantes")).value);
      AppendKeepsKeys(RoleList(a, role), s);
      var b := AddParty(a, e, role, mode, host).value;
      if role == Alienante {
        assert b == a.(alienantes := a.alienantes + [s]);
        assert mode == SharedCache ==> !KeyListed(a.adquirentes, key);
      } else {
        assert b == a.(adquirentes := a.adquirentes + [s]);
        assert mode == SharedCache ==> !KeyListed(a.alienantes, key);
      }
    }
  }

  lemma {:induction false} AddPartiesKeepsKeys(a: LoadedAct, elems: seq<Json>, role: Position, mode: CacheMode, host: Host)
    requires KeysWellFormed(a, mode) && AddParties(a, elems, role, mode, host).Some?
    ensures KeysWellFormed(AddParties(a, elems, role, mode, host).value, mode)
  {
    if elems != [] {
      var init := elems[..|elems| - 1];
      AddPartiesKeepsKeys(a, init, role, mode, host);
      AddPartyKeepsKeys(AddParties(a, init, role, mode, host).value, elems[|elems| - 1], role, mode, host);
    }
  }

  lemma LoadRecordKeepsKeys(acts: seq<LoadedAct>, rec: Json, mode: CacheMode, host: Host)
    requires forall i :: 0 <= i < |acts| ==> KeysWellFormed(acts[i], mode)
    requires LoadRecord(acts, rec, mode, host).Some?
    ensures var r := LoadRecord(acts, rec, mode, host).value;
            forall i :: 0 <= i < |r| ==> KeysWellFormed(r[i], mode)
  {
    var f := rec.fields;
    var k := FindAct(acts, RecordId(f, host));
    var a0 := if k.Some? then acts[k.value] else LoadedAct(RecordId(f, host), f, [], [], []);
    AddPartiesKeepsKeys(a0, f["alienantes"].items, Alienante, mode, host);
    var a1 := AddParties(a0, f["alienantes"].items, Alienante, mode, host).value;
    AddPartiesKeepsKeys(a1, f["adquirentes"].items, Adquirente, mode, host);
  }

  /** Every act `load` builds keeps the cache's guarantees.  With the cache
      as written (`SharedCache`) this says that a party is never listed in
      both positions of an act. */
  lemma {:induction false} LoadKeysWellFormed(records: seq<Json>, mode: CacheMode, host: Host)
    requires LoadOf(records, mode, host).Some?
    ensures var acts := LoadOf(records, mode, host).value;
            forall i :: 0 <= i < |acts| ==> KeysWellFormed(acts[i], mode)
  {
    if records != [] {
      var init := records[..|records| - 1];
      LoadKeysWellFormed(init, mode, host);
      LoadRecordKeepsKeys(LoadOf(init, mode, host).value, records[|records| - 1], mode, host);
    }
  }

  /** The party elements of a record in one position. */
  function RoleItems(f: map<string, Json>, role: Position): seq<Json>
    requires HasPartyArrays(f)
  {
    match role
    case Alienante => f["alienantes"].items
    case Adquirente => f["adquirentes"].items
  }

  /** The cache key of a party element with members. */
  function PartyKey(e: Json, host: Host): string {
    match PartyFields(e)
    case None => ""
    case Some(g) => KeyText(Member(g, "ni"), host)
  }

  lemma KeyListedPrefix(xs: seq<LoadedSubject>, ys: seq<LoadedSubject>, k: string)
    requires |xs| <= |ys| && ys[..|xs|] == xs && KeyListed(xs, k)
    ensures KeyListed(ys, k)
  {
    var i :| 0 <= i < |xs| && xs[i].key == k;
    assert ys[i] == xs[i];
  }

  lemma ExtendsRoleList(b: LoadedAct, c: LoadedAct, role: Position)
    requires Extends(c, b)
    ensures |RoleList(b, role)| <= |RoleList(c, role)| && RoleList(c, role)[..|RoleList(b, role)|] == RoleList(b, role)
  {
  }

  lemma PerRoleAddPartyLists(b: LoadedAct, e: Json, role: Position, host: Host)
    requires AddParty(b, e, role, PerRoleCache, host).Some?
    requires e != JVal(VNull) && !ObjectPrototypeKey(PartyKey(e, host))
    ensures KeyListed(RoleList(AddParty(b, e, role, PerRoleCache, host).value, role), PartyKey(e, host))
  {
    var c := AddParty(b, e, role, PerRoleCache, host).value;
    var key := PartyKey(e, host);
    if KeyListed(RoleList(b, role), key) {
      ExtendsRoleList(b, c, role);
      KeyListedPrefix(RoleList(b, role), RoleList(c, role), key);
    } else {
      assert RoleList(c, role)[|RoleList(b, role)|].key == key;
    }
  }

  /** With one cache per position, every element of a position's list ends
      up listed (by its key) in that position of the act. */
  lemma {:induction false} PerRoleAddPartiesListsAll(a: LoadedAct, elems: seq<Json>, role: Position, host: Host, j: nat)
    requires AddParties(a, elems, role, PerRoleCache, host).Some?
    requires j < |elems| && elems[j] != JVal(VNull) && !ObjectPrototypeKey(PartyKey(elems[j], host))
    ensures KeyListed(RoleList(AddParties(a, elems, role, PerRoleCache, host).value, role), PartyKey(elems[j], host))
  {
    var n := |elems| - 1;
    var init := elems[..n];
    var b := AddParties(a, init, role, PerRoleCache, host).value;
    var c := AddParties(a, elems, role, PerRoleCache, host).value;
    assert c == AddParty(b, elems[n], role, PerRoleCache, host).value;
    if j < n {
      assert init[j] == elems[j];
      PerRoleAddPartiesListsAll(a, init, role, host, j);
      ExtendsRoleList(b, c, role);
      KeyListedPrefix(RoleList(b, role), RoleList(c, role), PartyKey(elems[j], host));
    } else {
      assert j == n;
      PerRoleAddPartyLists(b, elems[j], role, host);
    }
  }

  lemma ExtendsKeepsListing(b: LoadedAct, c: LoadedAct, role: Position, key: string)
    requires Extends(c, b) && KeyListed(RoleList(b, role), key)
    ensures KeyListed(RoleList(c, role), key)
  {
    ExtendsRoleList(b, c, role);
    KeyListedPrefix(RoleList(b, role), RoleList(c, role), key);
  }

  /** With one cache per position, the act a record goes to lists every
      party of the record, by its key, in its own position. */
  lemma PerRoleRecordPartiesListed(acts: seq<LoadedAct>, f: map<string, Json>, host: Host, role: Position, j: nat)
    requires HasPartyArrays(f) && RecordParties(acts, f, PerRoleCache, host).Some?
    requires j < |RoleItems(f, role)| && RoleItems(f, role)[j] != JVal(VNull)
    requires !ObjectPrototypeKey(PartyKey(RoleItems(f, role)[j], host))
    ensures KeyListed(RoleList(RecordParties(acts, f, PerRoleCache, host).value, role), PartyKey(RoleItems(f, role)[j], host))
  {
    var id := RecordId(f, host);
    var k := FindAct(acts, id);
    var a0 := if k.Some? then acts[k.value] else LoadedAct(id, f, [], [], []);
    var a1 := AddParties(a0, f["alienantes"].items, Alienante, PerRoleCache, host).value;
    var a2 := AddParties(a1, f["adquirentes"].items, Adquirente, PerRoleCache, host).value;
    if role == Alienante {
      PerRoleAddPartiesListsAll(a0, f["alienantes"].items, Alienante, host, j);
      ExtendsKeepsListing(a1, a2, Alienante, PartyKey(RoleItems(f, role)[j], host));
    } else {
      PerRoleAddPartiesListsAll(a1, f["adquirentes"].items, Adquirente, host, j);
    }
  }

  /** After a record, the act with its id holds the parties `RecordParties`
      gave it. */
  lemma LoadRecordAct(acts: seq<LoadedAct>, rec: Json, mode: CacheMode, host: Host)
    requires LoadRecord(acts, rec, mode, host).Some?
    ensures var r := LoadRecord(acts, rec, mode, host).value;
            var k := FindAct(r, RecordKey(rec, host));
            k.Some? && r[k.value].alienantes == RecordParties(acts, rec.fields, mode, host).value.alienantes &&
            r[k.value].adquirentes == RecordParties(acts, rec.fields, mode, host).value.adquirentes
  {
    var r := LoadRecord(acts, rec, mode, host).value;
    var id := RecordKey(rec, host);
    LoadRecordShape(acts, rec, mode, host);
    match FindAct(acts, id)
    case Some(k) =>
      FindActIs(r, id, k);
    case None =>
      assert forall i :: 0 <= i < |acts| ==> r[i] == acts[i];
      FindActIs(r, id, |acts|);
  }

  /** With one cache per position, every party of a record is listed, by
      its key, in its own position of the record's act. */
  lemma PerRoleRecordListsParties(acts: seq<LoadedAct>, rec: Json, host: Host, role: Position, j: nat)
    requires LoadRecord(acts, rec, PerRoleCache, host).Some? && rec.JObj? && HasPartyArrays(rec.fields)
    requires j < |RoleItems(rec.fields, role)| && RoleItems(rec.fields, role)[j] != JVal(VNull)
    requires !ObjectPrototypeKey(PartyKey(RoleItems(rec.fields, role)[j], host))
    ensures var r := LoadRecord(acts, rec, PerRoleCache, host).value;
            var k := FindAct(r, RecordKey(rec, host));
            k.Some? && KeyListed(RoleList(r[k.value], role), PartyKey(RoleItems(rec.fields, role)[j], host))
  {
    PerRoleRecordPartiesListed(acts, rec.fields, host, role, j);
    LoadRecordAct(acts, rec, PerRoleCache, host);
  }

  /** A later record keeps the parties already listed in an act. */
  lemma StepKeepsListing(acts0: seq<LoadedAct>, acts: seq<LoadedAct>, id0: string, f0: map<string, Json>,
                         id: string, role: Position, key: string)
    requires StepShape(acts0, acts, id0, f0)
    requires FindAct(acts0, id).Some? && KeyListed(RoleList(acts0[FindAct(acts0, id).value], role), key)
    ensures FindAct(acts, id) == FindAct(acts0, id) && KeyListed(RoleList(acts[FindAct(acts, id).value], role), key)
  {
    var i := FindAct(acts0, id).value;
    assert forall m :: 0 <= m < i ==> acts[m].id == acts0[m].id;
    FindActIs(acts, id, i);
    if FindAct(acts0, id0) == Some(i) {
      var b, c := acts0[i], acts[i];
      match role
      case Alienante => KeyListedPrefix(b.alienantes, c.alienantes, key);
      case Adquirente => KeyListedPrefix(b.adquirentes, c.adquirentes, key);
    }
  }

  /** The evidently intended loader: with one cache per position, every
      party of every record is, by its key, a party in its own position of
      that record's act. */
  lemma {:induction false} PerRoleLoadListsEveryParty(records: seq<Json>, host: Host, i: nat, role: Position, j: nat)
    requires LoadOf(records, PerRoleCache, host).Some?
    requires i < |records| && records[i].JObj? && HasPartyArrays(records[i].fields)
    requires j < |RoleItems(records[i].fields, role)| && RoleItems(records[i].fields, role)[j] != JVal(VNull)
    requires !ObjectPrototypeKey(PartyKey(RoleItems(records[i].fields, role)[j], host))
    ensures var acts := LoadOf(records, PerRoleCache, host).value;
            var k := FindAct(acts, RecordKey(records[i], host));
            k.Some? && KeyListed(RoleList(acts[k.value], role), PartyKey(RoleItems(records[i].fields, role)[j], host))
  {
    var n := |records| - 1;
    var init := records[..n];
    LoadStep(records, PerRoleCache, host);
    if i == n {
      PerRoleRecordListsParties(LoadOf(init, PerRoleCache, host).value, records[n], host, role, j);
    } else {
      assert init[i] == records[i];
      PerRoleLoadListsEveryParty(init, host, i, role, j);
      StepKeepsListing(LoadOf(init, PerRoleCache, host).value, LoadOf(records, PerRoleCache, host).value,
                       RecordKey(records[n], host), RecordFields(records[n]), RecordKey(records[i], host),
                       role, PartyKey(RoleItems(records[i].fields, role)[j], host));
    }
  }

  // ---------------------------------------------------------------------
  // A party in both positions
  // ---------------------------------------------------------------------

  /** A party with a valid CPF and half of the share. */
  const DualRoleParty: Json := JObj(map["ni" := JVal(VStr("11144477735")), "participacao" := JVal(VNum(50.0))])

  /** One record, book 1, sheet 2, in which that party both sells and buys. */
  const DualRoleRecord: Json :=
    JObj(map["numeroLivro" := JVal(VStr("1")), "folha" := JVal(VStr("2")),
             "alienantes" := JArr([DualRoleParty]), "adquirentes" := JArr([DualRoleParty])])

  lemma DualRolePartyFacts(host: Host)
    ensures PartyKey(DualRoleParty, host) == "11144477735" && !ObjectPrototypeKey("11144477735")
    ensures RepInputs(Member(DualRoleParty.fields, "representantes")) == Some([])
    ensures LoadedFraction(Member(DualRoleParty.fields, "participacao"), host) == Some(50.0)
    ensures RecordKey(DualRoleRecord, host) == "1:2"
  {
    assert "1" + ":" + "2" == "1:2";
  }

  lemma DualRoleChoice(list: seq<LoadedSubject>, role: Position, host: Host)
    requires list == [LoadedSubject("11144477735", DualRoleParty.fields, [])]
    ensures LoadedChoice(Member(DualRoleParty.fields, "ni"), list, role, host) == Some("11144477735")
  {
    CpfExampleValid();
    RegistryFacts.NiAdmitsElevenToFourteen(VStr("11144477735"), host, Src);
    PartyNiDescriptor(Alienante);
    assert SubjectNi(role, list[0], host) == VStr("11144477735");
  }

  /** The rows the two tables get for the record, given the parties listed
      in each position. */
  lemma DualRoleRows(host: Host, sellers: seq<LoadedSubject>, buyers: seq<LoadedSubject>)
    requires sellers == [LoadedSubject("11144477735", DualRoleParty.fields, [])]
    requires buyers == [] || buyers == sellers
    ensures RowsFor([DualRoleParty], sellers, Alienante, host) == Some([Row(Some("11144477735"), 50.0)])
    ensures RowsFor([DualRoleParty], buyers, Adquirente, host) ==
              Some([Row(if buyers == [] then None else Some("11144477735"), 50.0)])
  {
    DualRolePartyFacts(host);
    DualRoleChoice(sellers, Alienante, host);
    if buyers != [] {
      DualRoleChoice(buyers, Adquirente, host);
    } else {
      assert LoadedChoice(Member(DualRoleParty.fields, "ni"), buyers, Adquirente, host).None?;
    }
    assert [DualRoleParty][..0] == [];
    assert RowFor(DualRoleParty, sellers, Alienante, host) == Some(Row(Some("11144477735"), 50.0));
    assert RowFor(DualRoleParty, buyers, Adquirente, host) ==
             Some(Row(if buyers == [] then None else Some("11144477735"), 50.0));
    var one := [DualRoleParty];
    assert one[..|one| - 1] == [] && one[|one| - 1] == DualRoleParty;
    var sold, bought := Row(Some("11144477735"), 50.0), Row(if buyers == [] then None else Some("11144477735"), 50.0);
    assert [] + [sold] == [sold] && [] + [bought] == [bought];
  }

  lemma DualRoleParties(host: Host, mode: CacheMode, buyers: seq<LoadedSubject>)
    requires var s := LoadedSubject("11144477735", DualRoleParty.fields, []);
             var a1 := LoadedAct("1:2", DualRoleRecord.fields, [s], [], []);
             AddParty(a1, DualRoleParty, Adquirente, mode, host) == Some(a1.(adquirentes := buyers))
    ensures var s := LoadedSubject("11144477735", DualRoleParty.fields, []);
            var a0 := LoadedAct("1:2", DualRoleRecord.fields, [], [], []);
            AddParties(a0, [DualRoleParty], Alienante, mode, host) == Some(a0.(alienantes := [s])) &&
            AddParties(a0.(alienantes := [s]), [DualRoleParty], Adquirente, mode, host) ==
              Some(a0.(alienantes := [s], adquirentes := buyers))
  {
    var s := LoadedSubject("11144477735", DualRoleParty.fields, []);
    var a0 := LoadedAct("1:2", DualRoleRecord.fields, [], [], []);
    DualRolePartyFacts(host);
    assert [DualRoleParty][..0] == [];
    assert [] + [s] == [s];
    assert AddParty(a0, DualRoleParty, Alienante, mode, host) == Some(a0.(alienantes := [s]));
  }

  /** The load of the record, given what adding the party as a buyer does
      to the act that lists it as a seller. */
  lemma DualRoleRecordFacts(host: Host)
    ensures KeyText(Member(DualRoleRecord.fields, "codigoIbge"), host) == "undefined"
    ensures RecordId(DualRoleRecord.fields, host) == "1:2" && FindAct([], "1:2").None?
    ensures HasPartyArrays(DualRoleRecord.fields)
  {
  }

  lemma LoadOfSingle(rec: Json, mode: CacheMode, host: Host)
    ensures LoadOf([rec], mode, host) == LoadRecord([], rec, mode, host)
  {
    assert [rec][..0] == [];
  }

  lemma DualRoleLoad(host: Host, mode: CacheMode, buyers: seq<LoadedSubject>)
    requires var s := LoadedSubject("11144477735", DualRoleParty.fields, []);
             var a1 := LoadedAct("1:2", DualRoleRecord.fields, [s], [], []);
             AddParty(a1, DualRoleParty, Adquirente, mode, host) == Some(a1.(adquirentes := buyers))
    requires buyers == [] || buyers == [LoadedSubject("11144477735", DualRoleParty.fields, [])]
    ensures var s := LoadedSubject("11144477735", DualRoleParty.fields, []);
            LoadOf([DualRoleRecord], mode, host) ==
              Some([LoadedAct("1:2", DualRoleRecord.fields, [s], buyers,
                              [LoadedImovel("undefined", DualRoleRecord.fields, [Row(Some("11144477735"), 50.0)],
                                            [Row(if buyers == [] then None else Some("11144477735"), 50.0)])])])
  {
    var f := DualRoleRecord.fields;
    var s := LoadedSubject("11144477735", DualRoleParty.fields, []);
    DualRolePartyFacts(host);
    DualRoleRecordFacts(host);
    var a0 := LoadedAct("1:2", f, [], [], []);
    var a1 := a0.(alienantes := [s]);
    DualRoleParties(host, mode, buyers);
    DualRoleRows(host, [s], buyers);
    LoadOfSingle(DualRoleRecord, mode, host);
    var im := LoadedImovel("undefined", f, [Row(Some("11144477735"), 50.0)],
                           [Row(if buyers == [] then None else Some("11144477735"), 50.0)]);
    var a3 := a1.(adquirentes := buyers, imoveis := [im]);
    assert [] + [im] == [im] && [] + [a3] == [a3];
  }

  /** As written: loading a record in which one party sells and buys gives
      an act whose buyers' list is empty, and an acquisition table whose
      row chooses no party, since the party was cached as a seller. */
  lemma SharedCacheDropsDualRoleParty(host: Host)
    ensures var s := LoadedSubject("11144477735", DualRoleParty.fields, []);
            LoadOf([DualRoleRecord], SharedCache, host) ==
              Some([LoadedAct("1:2", DualRoleRecord.fields, [s], [],
                              [LoadedImovel("undefined", DualRoleRecord.fields,
                                            [Row(Some("11144477735"), 50.0)], [Row(None, 50.0)])])])
  {
    var s := LoadedSubject("11144477735", DualRoleParty.fields, []);
    var a1 := LoadedAct("1:2", DualRoleRecord.fields, [s], [], []);
    DualRolePartyFacts(host);
    assert KeyListed(a1.alienantes, "11144477735") by { assert a1.alienantes[0].key == "11144477735"; }
    DualRoleLoad(host, SharedCache, []);
  }

  /** Corrected: with one cache per position the same record lists the
      party among the buyers too, and its acquisition row chooses it. */
  lemma PerRoleCacheKeepsDualRoleParty(host: Host)
    ensures var s := LoadedSubject("11144477735", DualRoleParty.fields, []);
            LoadOf([DualRoleRecord], PerRoleCache, host) ==
              Some([LoadedAct("1:2", DualRoleRecord.fields, [s], [s],
                              [LoadedImovel("undefined", DualRoleRecord.fields,
                                            [Row(Some("11144477735"), 50.0)], [Row(Some("11144477735"), 50.0)])])])
  {
    var s := LoadedSubject("11144477735", DualRoleParty.fields, []);
    var a1 := LoadedAct("1:2", DualRoleRecord.fields, [s], [], []);
    DualRolePartyFacts(host);
    assert AddParty(a1, DualRoleParty, Adquirente, PerRoleCache, host) == Some(a1.(adquirentes := [s]));
    DualRoleLoad(host, PerRoleCache, [s]);
  }

  // ---------------------------------------------------------------------
  // A throw anywhere aborts the whole call
  // ---------------------------------------------------------------------

  lemma {:induction false} RepTextsStops(items: seq<Json>, i: nat)
    requires i <= |items| && RepTexts(items[..i]).None?
    ensures RepTexts(items).None?
    decreases |items|
  {
    if i < |items| {
      var init := items[..|items| - 1];
      assert init[..i] == items[..i];
      RepTextsStops(init, i);
    } else {
      assert items[..i] == items;
    }
  }

  lemma {:induction false} AddPartiesStops(a: LoadedAct, elems: seq<Json>, role: Position, mode: CacheMode, host: Host, i: nat)
    requires i <= |elems| && AddParties(a, elems[..i], role, mode, host).None?
    ensures AddParties(a, elems, role, mode, host).None?
    decreases |elems|
  {
    if i < |elems| {
      var init := elems[..|elems| - 1];
      assert init[..i] == elems[..i];
      AddPartiesStops(a, init, role, mode, host, i);
    } else {
      assert elems[..i] == elems;
    }
  }

  lemma {:induction false} RowsForStops(elems: seq<Json>, list: seq<LoadedSubject>, role: Position, host: Host, i: nat)
    requires i <= |elems| && RowsFor(elems[..i], list, role, host).None?
    ensures RowsFor(elems, list, role, host).None?
    decreases |elems|
  {
    if i < |elems| {
      var init := elems[..|elems| - 1];
      assert init[..i] == elems[..i];
      RowsForStops(init, list, role, host, i);
    } else {
      assert elems[..i] == elems;
    }
  }

  /** `load` empties the maker first and fills it only at the end, so one
      record it cannot read leaves it with no act at all. */
  lemma {:induction false} LoadStops(records: seq<Json>, mode: CacheMode, host: Host, i: nat)
    requires i <= |records| && LoadOf(records[..i], mode, host).None?
    ensures LoadOf(records, mode, host).None?
    decreases |records|
  {
    if i < |records| {
      var init := records[..|records| - 1];
      assert init[..i] == records[..i];
      LoadStops(init, mode, host, i);
    } else {
      assert records[..i] == records;
    }
  }

  // ---------------------------------------------------------------------
  // The loops of `load`
  // ---------------------------------------------------------------------

  /** The `for (const rep of representantes)` loop. */
  method RepTextsFrom(items: seq<Json>) returns (r: Option<seq<string>>)
    ensures r == RepTexts(items)
  {
    var texts: seq<string> := [];
    var i := 0;
    while i < |items|
      invariant 0 <= i <= |items|
      invariant RepTexts(items[..i]) == Some(texts)
    {
      assert items[..i + 1][..i] == items[..i];
      var t := RepText(items[i]);
      if t.None? {
        RepTextsStops(items, i + 1);
        return None;
      }
      texts := texts + [t.value];
      i := i + 1;
    }
    assert items[..i] == items;
    return Some(texts);
  }

  /** `if (x.representantes) for (…) …`. */
  method RepInputsFrom(o: Option<Json>) returns (r: Option<seq<string>>)
    ensures r == RepInputs(o)
  {
    match o
    case None => r := Some([]);
    case Some(JVal(VStr(t))) =>
      // `for (const rep of t)` visits each character; `rep.ni` is undefined.
      var texts: seq<string> := [];
      while |texts| < |t|
        invariant |texts| <= |t| && texts == Blanks(|texts|)
      {
        texts := texts + [""];
      }
      r := Some(texts);
    case Some(JVal(v)) => r := if Truthy(v) then None else Some([]);
    case Some(JObj(_)) => r := None;
    case Some(JArr(items)) => r := RepTextsFrom(items);
  }

  /** The body of one party `forEach` step. */
  method AddPartyStep(a: LoadedAct, e: Json, role: Position, mode: CacheMode, host: Host) returns (r: Option<LoadedAct>)
    ensures r == AddParty(a, e, role, mode, host)
  {
    var f := PartyFields(e);
    if f.None? {
      return None;
    }
    var key := KeyText(Member(f.value, "ni"), host);
    if Cached(a, role, key, mode) {
      return Some(a);
    }
    var reps := RepInputsFrom(Member(f.value, "representantes"));
    if reps.None? {
      return None;
    }
    var s := LoadedSubject(key, f.value, reps.value);
    r := Some(match role
              case Alienante => a.(alienantes := a.alienantes + [s])
              case Adquirente => a.(adquirentes := a.adquirentes + [s]));
  }

  lemma AddPartiesSnoc(a: LoadedAct, elems: seq<Json>, role: Position, mode: CacheMode, host: Host, i: nat, cur: LoadedAct)
    requires i < |elems| && AddParties(a, elems[..i], role, mode, host) == Some(cur)
    ensures AddParties(a, elems[..i + 1], role, mode, host) == AddParty(cur, elems[i], role, mode, host)
  {
    assert elems[..i + 1][..i] == elems[..i];
  }

  /** `doi.alienantes.forEach(…)` / `doi.adquirentes.forEach(…)` creating
      the parties. */
  method AddPartiesFrom(a: LoadedAct, elems: seq<Json>, role: Position, mode: CacheMode, host: Host)
    returns (r: Option<LoadedAct>)
    ensures r == AddParties(a, elems, role, mode, host)
  {
    var cur := a;
    var i := 0;
    while i < |elems|
      invariant 0 <= i <= |elems|
      invariant AddParties(a, elems[..i], role, mode, host) == Some(cur)
    {
      AddPartiesSnoc(a, elems, role, mode, host, i, cur);
      var next := AddPartyStep(cur, elems[i], role, mode, host);
      if next.None? {
        AddPartiesStops(a, elems, role, mode, host, i + 1);
        return None;
      }
      cur := next.value;
      i := i + 1;
    }
    assert elems[..i] == elems;
    return Some(cur);
  }

  /** `Object.values(subject.options).find(opt => opt.textContent === loadedNi)`. */
  method FindChoice(ni: Option<Json>, list: seq<LoadedSubject>, role: Position, host: Host) returns (r: Option<string>)
    ensures r == LoadedChoice(ni, list, role, host)
  {
    if !(ni.Some? && ni.value.JVal? && ni.value.v.VStr? && ni.value.v.str != "") {
      return None;
    }
    var i := 0;
    while i < |list|
      invariant 0 <= i <= |list|
      invariant forall j :: 0 <= j < i ==> SubjectNi(role, list[j], host) != ni.value.v
    {
      if SubjectNi(role, list[i], host) == ni.value.v {
        return Some(ni.value.v.str);
      }
      i := i + 1;
    }
    return None;
  }

  lemma RowsForSnoc(elems: seq<Json>, list: seq<LoadedSubject>, role: Position, host: Host, i: nat, rows: seq<Row>)
    requires i < |elems| && RowsFor(elems[..i], list, role, host) == Some(rows)
    ensures RowsFor(elems[..i + 1], list, role, host) ==
              match RowFor(elems[i], list, role, host)
              case None => None
              case Some(row) => Some(rows + [row])
  {
    assert elems[..i + 1][..i] == elems[..i];
  }

  /** `doi.alienantes.forEach(… alienacao.add(…))` / the same for
      `aquisicao`. */
  method RowsFrom(elems: seq<Json>, list: seq<LoadedSubject>, role: Position, host: Host) returns (r: Option<seq<Row>>)
    ensures r == RowsFor(elems, list, role, host)
  {
    var rows: seq<Row> := [];
    var i := 0;
    while i < |elems|
      invariant 0 <= i <= |elems|
      invariant RowsFor(elems[..i], list, role, host) == Some(rows)
    {
      RowsForSnoc(elems, list, role, host, i, rows);
      var f := PartyFields(elems[i]);
      var x := if f.Some? then LoadedFraction(Member(f.value, "participacao"), host) else None;
      if x.None? {
        assert RowFor(elems[i], list, role, host) == None;
        RowsForStops(elems, list, role, host, i + 1);
        return None;
      }
      var choice := FindChoice(Member(f.value, "ni"), list, role, host);
      assert RowFor(elems[i], list, role, host) == Some(Row(choice, x.value));
      rows := rows + [Row(choice, x.value)];
      i := i + 1;
    }
    assert elems[..i] == elems;
    return Some(rows);
  }

  /** The parties half of one `doiList.forEach` step. */
  method RecordPartiesFrom(acts: seq<LoadedAct>, f: map<string, Json>, mode: CacheMode, host: Host)
    returns (r: Option<LoadedAct>)
    requires HasPartyArrays(f)
    ensures r == RecordParties(acts, f, mode, host)
  {
    var id := RecordId(f, host);
    var k := FindAct(acts, id);
    var a0 := if k.Some? then acts[k.value] else LoadedAct(id, f, [], [], []);
    var a1 := AddPartiesFrom(a0, f["alienantes"].items, Alienante, mode, host);
    if a1.None? {
      return None;
    }
    r := AddPartiesFrom(a1.value, f["adquirentes"].items, Adquirente, mode, host);
  }

  /** One `doiList.forEach` step. */
  method LoadRecordStep(acts: seq<LoadedAct>, rec: Json, mode: CacheMode, host: Host) returns (r: Option<seq<LoadedAct>>)
    ensures r == LoadRecord(acts, rec, mode, host)
  {
    if !rec.JObj? || !HasPartyArrays(rec.fields) {
      return None;
    }
    var f := rec.fields;
    var k := FindAct(acts, RecordId(f, host));
    var a2 := RecordPartiesFrom(acts, f, mode, host);
    if a2.None? {
      return None;
    }
    var alienacao := RowsFrom(f["alienantes"].items, a2.value.alienantes, Alienante, host);
    if alienacao.None? {
      return None;
    }
    var aquisicao := RowsFrom(f["adquirentes"].items, a2.value.adquirentes, Adquirente, host);
    if aquisicao.None? {
      return None;
    }
    var im := LoadedImovel(KeyText(Member(f, "codigoIbge"), host), f, alienacao.value, aquisicao.value);
    var a3 := a2.value.(imoveis := a2.value.imoveis + [im]);
    r := Some(if k.Some? then acts[k.value := a3] else acts + [a3]);
  }

  lemma LoadOfSnoc(records: seq<Json>, mode: CacheMode, host: Host, i: nat, acts: seq<LoadedAct>)
    requires i < |records| && LoadOf(records[..i], mode, host) == Some(acts)
    ensures LoadOf(records[..i + 1], mode, host) == LoadRecord(acts, records[i], mode, host)
  {
    assert records[..i + 1][..i] == records[..i];
  }

  /** `doiList.forEach(…)`: the records in order, stopping at the first one
      that throws. */
  method LoadValues(records: seq<Json>, mode: CacheMode, host: Host) returns (r: Option<seq<LoadedAct>>)
    ensures r == LoadOf(records, mode, host)
  {
    var acts: seq<LoadedAct> := [];
    var i := 0;
    while i < |records|
      invariant 0 <= i <= |records|
      invariant LoadOf(records[..i], mode, host) == Some(acts)
    {
      LoadOfSnoc(records, mode, host, i, acts);
      var next := LoadRecordStep(acts, records[i], mode, host);
      if next.None? {
        LoadStops(records, mode, host, i + 1);
        return None;
      }
      acts := next.value;
      i := i + 1;
    }
    assert records[..i] == records;
    return Some(acts);
  }
}
