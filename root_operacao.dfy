/** `Operacao` of doimaker.js: a share table that is itself a plain
    JavaScript object.  Shares are stored as own properties keyed by the
    party's tax id next to the running `total` property, so a key can collide
    with `total` or with an inherited member; the model keeps the object's own
    properties (in insertion order) and resolves reads the way the language
    does. */
module RootOperacao {
  import opened JsValues
  import opened Schema
  import RootSubject
  import opened OrderedSets

  /** Members an `Operacao` inherits from its prototype and from
      `Object.prototype`; each reads as a function, which is truthy. */
  const InheritedNames: seq<string> :=
    ["constructor", "addPerson", "removePerson", "isValid", "__proto__",
     "__defineGetter__", "__defineSetter__", "__lookupGetter__", "__lookupSetter__",
     "hasOwnProperty", "isPrototypeOf", "propertyIsEnumerable", "toLocaleString",
     "toString", "valueOf"]

  /** `key` names an inherited member. */
  predicate Inherited(key: string) {
    exists i :: 0 <= i < |InheritedNames| && InheritedNames[i] == key
  }

  /** The result of reading `this[key]`. */
  datatype Prop = PNumber(n: Number) | PFunction | PUndefined

  /** The object's own enumerable properties: names in insertion order, and
      their (numeric) values. */
  datatype Table = Table(order: seq<string>, slots: map<string, Number>)

  /** The names listed are exactly the properties held, each once. */
  predicate WellFormed(t: Table) {
    Distinct(t.order) && (forall k :: k in t.slots ==> k in t.order) &&
    (forall i :: 0 <= i < |t.order| ==> t.order[i] in t.slots)
  }

  /** The object the constructor leaves: `{total: 0}`. */
  const NewTable: Table := Table(["total"], map["total" := Finite(0.0)])

  function Read(t: Table, key: string): Prop {
    if key in t.slots then PNumber(t.slots[key])
    else if Inherited(key) then PFunction
    else PUndefined
  }

  predicate NumberTruthy(n: Number) {
    match n
    case NaN => false
    case Finite(r) => r != 0.0
    case _ => true
  }

  predicate PropTruthy(p: Prop) {
    match p
    case PNumber(n) => NumberTruthy(n)
    case PFunction => true
    case PUndefined => false
  }

  /** ToNumber of a read: undefined and functions give NaN. */
  function PropNumber(p: Prop): Number {
    if p.PNumber? then p.n else NaN
  }

  /** IEEE addition on the values the table can hold. */
  function NumAdd(a: Number, b: Number): Number {
    match (a, b)
    case (Finite(x), Finite(y)) => Finite(x + y)
    case (NaN, _) => NaN
    case (_, NaN) => NaN
    case (PosInf, NegInf) => NaN
    case (NegInf, PosInf) => NaN
    case (PosInf, _) => PosInf
    case (NegInf, _) => NegInf
    case (_, PosInf) => PosInf
    case (_, NegInf) => NegInf
  }

  function NumSub(a: Number, b: Number): Number {
    NumAdd(a, Negate(b))
  }

  /** `this[key] = n`: an existing property keeps its place, a new one goes last. */
  function Put(t: Table, key: string, n: Number): Table {
    Table(if key in t.slots then t.order else t.order + [key], t.slots[key := n])
  }

  /** `delete this[key]` (a no-op for a name that is not an own property). */
  function Delete(t: Table, key: string): Table {
    Table(Exclude(t.order, key), t.slots - {key})
  }

  /** The key `this[person.ni.value]` uses: the tax id converted to a string. */
  function KeyOf(ni: Value, host: Host): string {
    ToJsString(ni, host)
  }

  /** `addPerson(person, fraction)`: record the share and add it to `total`
      when the fraction is a number in (0, 100] and `this[key]` is falsy. */
  function AddPersonSpec(t: Table, key: string, fraction: Value): Table {
    if fraction.VNum? && !PropTruthy(Read(t, key)) && 0.0 < fraction.num <= 100.0 then
      var t1 := Put(t, key, Finite(fraction.num));
      Put(t1, "total", NumAdd(PropNumber(Read(t1, "total")), Finite(fraction.num)))
    else t
  }

  /** `removePerson(ni)`: when `this[key]` is truthy, subtract it from `total`
      and delete it. */
  function RemovePersonSpec(t: Table, key: string): Table {
    if PropTruthy(Read(t, key)) then
      Delete(Put(t, "total", NumSub(PropNumber(Read(t, "total")), PropNumber(Read(t, key)))), key)
    else t
  }

  /** `isValid()`: `total >= 98 && total <= 100`. */
  predicate IsValidSpec(t: Table) {
    match PropNumber(Read(t, "total"))
    case Finite(r) => 98.0 <= r <= 100.0
    case _ => false
  }

  // ---------------------------------------------------------------------
  // The share-table invariant
  // ---------------------------------------------------------------------

  /** "total" is not an inherited name, so it reads as an own property or as
      undefined. */
  lemma TotalNotInherited()
    ensures !Inherited("total")
  {
  }

  /** Σ of the share values held under the names in `keys`, `total` excluded. */
  function SumShares(keys: seq<string>, slots: map<string, Number>): real {
    if keys == [] then 0.0
    else
      (if keys[0] != "total" && keys[0] in slots && slots[keys[0]].Finite? then slots[keys[0]].r else 0.0)
      + SumShares(keys[1..], slots)
  }

  /** A name that parties can use as a share key without colliding, and
      that `for…in` enumerates in insertion order: not an array index, which
      the object would list before `total`. */
  predicate OrdinaryKey(key: string) {
    key != "total" && !Inherited(key) && !ArrayIndex(key)
  }

  /** A tax id of eleven or more digits, such as a valid CPF or CNPJ, is an
      ordinary key: it is neither `total` nor an inherited name (each of
      which holds a letter) nor short enough to be an array index. */
  lemma DigitKeyIsOrdinary(key: string)
    requires |key| >= 11 && AllDecimalDigits(key)
    ensures OrdinaryKey(key)
  {
    assert IsDecimalDigit(key[0]);
    forall i | 0 <= i < |InheritedNames|
      ensures InheritedNames[i] != key
    {
      assert !IsDecimalDigit(InheritedNames[i][0]);
    }
    DigitsAreOneUnitEach(key);
    LongKeyNotArrayIndex(key);
  }

  /** The recorded shares, by tax id. */
  function Shares(t: Table): (m: map<string, real>)
    ensures forall k :: k in m <==> k in t.slots && k != "total" && t.slots[k].Finite?
  {
    map k | k in t.slots && k != "total" && t.slots[k].Finite? :: t.slots[k].r
  }

  /** `total` is the first property and holds the sum of the shares. */
  predicate TotalIsSum(t: Table) {
    |t.order| > 0 && t.order[0] == "total" && "total" in t.slots &&
    t.slots["total"] == Finite(SumShares(t.order, t.slots))
  }

  /** Every other property is an ordinary key holding a share in (0, 100]. */
  predicate SharesInRange(t: Table) {
    forall k :: k in t.slots && k != "total" ==>
      OrdinaryKey(k) && t.slots[k].Finite? && 0.0 < t.slots[k].r <= 100.0
  }

  /** The invariant the table keeps while only ordinary keys are used: `total`
      comes first and equals the sum of the recorded shares, each of which
      lies in (0, 100]. */
  predicate Healthy(t: Table) {
    WellFormed(t) && TotalIsSum(t) && SharesInRange(t)
  }

  lemma {:induction false} SumSharesUpdateElsewhere(keys: seq<string>, slots: map<string, Number>, k: string, n: Number)
    requires k !in keys || k == "total"
    ensures SumShares(keys, slots[k := n]) == SumShares(keys, slots)
  {
    if keys != [] {
      SumSharesUpdateElsewhere(keys[1..], slots, k, n);
    }
  }

  lemma {:induction false} SumSharesAppend(keys: seq<string>, slots: map<string, Number>, k: string, f: real)
    requires k !in keys && k != "total"
    ensures SumShares(keys + [k], slots[k := Finite(f)]) == SumShares(keys, slots) + f
  {
    if keys == [] {
      assert [k][1..] == [];
    } else {
      assert (keys + [k])[1..] == keys[1..] + [k];
      SumSharesAppend(keys[1..], slots, k, f);
    }
  }

  lemma {:induction false} SumSharesDropAbsent(keys: seq<string>, slots: map<string, Number>, k: string)
    requires k !in keys
    ensures SumShares(keys, slots - {k}) == SumShares(keys, slots)
  {
    if keys != [] {
      SumSharesDropAbsent(keys[1..], slots, k);
    }
  }

  lemma {:induction false} SumSharesRemove(keys: seq<string>, slots: map<string, Number>, k: string)
    requires Distinct(keys) && k in keys && k != "total" && k in slots && slots[k].Finite?
    ensures SumShares(Exclude(keys, k), slots - {k}) == SumShares(keys, slots) - slots[k].r
  {
    DistinctTail(keys);
    if keys[0] == k {
      ExcludeAbsent(keys[1..], k);
      SumSharesDropAbsent(keys[1..], slots, k);
    } else {
      assert k in keys[1..];
      SumSharesRemove(keys[1..], slots, k);
    }
  }

  /** Adding a property not yet held keeps the table well formed and appends
      the name. */
  lemma PutFresh(t: Table, key: string, n: Number)
    requires WellFormed(t) && key !in t.slots
    ensures Put(t, key, n).order == t.order + [key]
    ensures WellFormed(Put(t, key, n))
  {
    var o := t.order + [key];
    assert key !in t.order;
    assert Distinct(o) by {
      forall i, j | 0 <= i < j < |o|
        ensures o[i] != o[j]
      {
        if j == |t.order| {
          assert o[i] == t.order[i];
        } else {
          assert o[i] == t.order[i] && o[j] == t.order[j];
        }
      }
    }
  }

  /** Overwriting a held property leaves the names as they are. */
  lemma PutHeld(t: Table, key: string, n: Number)
    requires WellFormed(t) && key in t.slots
    ensures Put(t, key, n).order == t.order
    ensures WellFormed(Put(t, key, n))
  {
  }

  /** Deleting a held property keeps the table well formed. */
  lemma DeleteHeld(t: Table, key: string)
    requires WellFormed(t)
    ensures WellFormed(Delete(t, key))
  {
    var d := Delete(t, key);
    DistinctExclude(t.order, key);
    ExcludeMembers(t.order, key);
    forall i | 0 <= i < |d.order|
      ensures d.order[i] in d.slots
    {
      assert d.order[i] in Exclude(t.order, key);
    }
    forall k | k in d.slots
      ensures k in d.order
    {
      assert k in t.order && k != key;
    }
  }

  /** From the constructor's state the invariant holds. */
  lemma NewTableHealthy()
    ensures Healthy(NewTable) && Shares(NewTable) == map[]
  {
    assert WellFormed(NewTable);
    assert ["total"][1..] == [];
    assert TotalIsSum(NewTable);
    assert SharesInRange(NewTable);
  }

  /** The table `addPerson` leaves when it accepts a share. */
  function Added(t: Table, key: string, f: real): Table {
    Table(t.order + [key], t.slots[key := Finite(f)]["total" := Finite(SumShares(t.order, t.slots) + f)])
  }

  /** The table `removePerson` leaves when it finds a share. */
  function Removed(t: Table, key: string): Table
    requires key in t.slots && t.slots[key].Finite?
  {
    Table(Exclude(t.order, key), (t.slots["total" := Finite(SumShares(t.order, t.slots) - t.slots[key].r)]) - {key})
  }

  lemma {:induction false} AddAccepted(t: Table, key: string, f: real)
    requires Healthy(t) && OrdinaryKey(key) && key !in t.slots && 0.0 < f <= 100.0
    ensures AddPersonSpec(t, key, VNum(f)) == Added(t, key, f)
  {
    assert Read(t, key) == PUndefined;
    var t1 := Put(t, key, Finite(f));
    assert Read(t1, "total") == PNumber(Finite(SumShares(t.order, t.slots)));
  }

  lemma {:induction false} AddedWellFormed(t: Table, key: string, f: real)
    requires WellFormed(t) && "total" in t.slots && key !in t.slots
    ensures WellFormed(Added(t, key, f))
  {
    PutFresh(t, key, Finite(f));
    PutHeld(Put(t, key, Finite(f)), "total", Finite(SumShares(t.order, t.slots) + f));
    assert Added(t, key, f) == Put(Put(t, key, Finite(f)), "total", Finite(SumShares(t.order, t.slots) + f));
  }

  lemma {:induction false} AddedTotalIsSum(t: Table, key: string, f: real)
    requires TotalIsSum(t) && key !in t.order && key != "total"
    ensures TotalIsSum(Added(t, key, f))
  {
    var t2 := Added(t, key, f);
    SumSharesAppend(t.order, t.slots, key, f);
    SumSharesUpdateElsewhere(t.order + [key], t.slots[key := Finite(f)], "total", Finite(SumShares(t.order, t.slots) + f));
    assert t2.order[0] == t.order[0];
  }

  lemma {:induction false} AddedSharesInRange(t: Table, key: string, f: real)
    requires SharesInRange(t) && OrdinaryKey(key) && 0.0 < f <= 100.0
    ensures SharesInRange(Added(t, key, f))
  {
  }

  lemma {:induction false} AddedShares(t: Table, key: string, f: real)
    requires key != "total"
    ensures Shares(Added(t, key, f)) == Shares(t)[key := f]
  {
    assert Shares(Added(t, key, f)).Keys == Shares(t)[key := f].Keys;
  }

  /** `addPerson` with an ordinary key keeps the invariant; it records the
      share and raises `total` by it exactly when the key is absent and the
      fraction is a number in (0, 100], and otherwise changes nothing. */
  lemma {:induction false} AddPersonKeepsInvariant(t: Table, key: string, fraction: Value)
    requires Healthy(t) && OrdinaryKey(key)
    ensures Healthy(AddPersonSpec(t, key, fraction))
    ensures var accepted := fraction.VNum? && 0.0 < fraction.num <= 100.0 && key !in Shares(t);
            (accepted ==> Shares(AddPersonSpec(t, key, fraction)) == Shares(t)[key := fraction.num] &&
                          AddPersonSpec(t, key, fraction).slots["total"] == Finite(SumShares(t.order, t.slots) + fraction.num)) &&
            (!accepted ==> AddPersonSpec(t, key, fraction) == t)
  {
    if fraction.VNum? && 0.0 < fraction.num <= 100.0 && key !in t.slots {
      var f := fraction.num;
      AddAccepted(t, key, f);
      AddedWellFormed(t, key, f);
      AddedTotalIsSum(t, key, f);
      AddedSharesInRange(t, key, f);
      AddedShares(t, key, f);
    } else if key in t.slots {
      assert PropTruthy(Read(t, key));
    }
  }

  lemma {:induction false} RemoveHeld(t: Table, key: string)
    requires Healthy(t) && key != "total" && key in t.slots
    ensures RemovePersonSpec(t, key) == Removed(t, key)
  {
    assert PropTruthy(Read(t, key));
    assert Read(t, "total") == PNumber(Finite(SumShares(t.order, t.slots)));
  }

  lemma {:induction false} RemovedWellFormed(t: Table, key: string)
    requires WellFormed(t) && key in t.slots && t.slots[key].Finite? && "total" in t.slots
    ensures WellFormed(Removed(t, key))
  {
    var t1 := Put(t, "total", Finite(SumShares(t.order, t.slots) - t.slots[key].r));
    PutHeld(t, "total", t1.slots["total"]);
    DeleteHeld(t1, key);
    assert Removed(t, key) == Delete(t1, key);
  }

  lemma {:induction false} RemovedTotalIsSum(t: Table, key: string)
    requires WellFormed(t) && TotalIsSum(t) && key in t.slots && key != "total" && t.slots[key].Finite?
    ensures TotalIsSum(Removed(t, key))
  {
    var s := SumShares(t.order, t.slots);
    var r := t.slots[key].r;
    var n := Finite(s - r);
    var slots1 := t.slots["total" := n];
    SumSharesUpdateElsewhere(t.order, t.slots, "total", n);
    assert key in t.order && slots1[key] == t.slots[key];
    SumSharesRemove(t.order, slots1, key);
    ExcludeKeepsHead(t.order, key);
    var t2 := Removed(t, key);
    assert t2.order == Exclude(t.order, key) && t2.slots == slots1 - {key};
    assert SumShares(t2.order, t2.slots) == s - r;
    assert t2.slots["total"] == n;
  }

  lemma {:induction false} RemovedSharesInRange(t: Table, key: string)
    requires SharesInRange(t) && key in t.slots && t.slots[key].Finite?
    ensures SharesInRange(Removed(t, key))
  {
  }

  lemma {:induction false} RemovedShares(t: Table, key: string)
    requires key != "total" && key in t.slots && t.slots[key].Finite?
    ensures Shares(Removed(t, key)) == Shares(t) - {key}
  {
    assert Shares(Removed(t, key)).Keys == (Shares(t) - {key}).Keys;
  }

  /** `removePerson` of a recorded ordinary key keeps the invariant, drops the
      share and lowers `total` by it; an unrecorded ordinary key changes
      nothing. */
  lemma {:induction false} RemovePersonKeepsInvariant(t: Table, key: string)
    requires Healthy(t) && OrdinaryKey(key)
    ensures Healthy(RemovePersonSpec(t, key))
    ensures Shares(RemovePersonSpec(t, key)) == Shares(t) - {key}
    ensures key in Shares(t) ==>
            RemovePersonSpec(t, key).slots["total"] == Finite(SumShares(t.order, t.slots) - Shares(t)[key])
    ensures key !in Shares(t) ==> RemovePersonSpec(t, key) == t
  {
    if key in t.slots {
      RemoveHeld(t, key);
      RemovedWellFormed(t, key);
      RemovedTotalIsSum(t, key);
      RemovedSharesInRange(t, key);
      RemovedShares(t, key);
    } else {
      assert Read(t, key) == PUndefined;
      assert Shares(t) - {key} == Shares(t);
    }
  }

  /** Under the invariant, validity is the 98..100 band on the sum of the
      recorded shares. */
  lemma ValidIsShareSumInBand(t: Table)
    requires Healthy(t)
    ensures IsValidSpec(t) <==> 98.0 <= SumShares(t.order, t.slots) <= 100.0
  {
  }

  /** A party whose tax id reads "total" overwrites the running total: on a
      fresh table a share of 50 leaves `total` at 100, so the table is valid
      with no share recorded at all. */
  lemma TotalKeyCorruptsTable()
    ensures var t := AddPersonSpec(NewTable, "total", VNum(50.0));
            Shares(t) == map[] && t.slots["total"] == Finite(100.0) && IsValidSpec(t)
  {
    var t := AddPersonSpec(NewTable, "total", VNum(50.0));
    assert Shares(t) == map[];
  }

  /** `removePerson` of an inherited name such as "constructor" subtracts a
      function from `total`, which becomes NaN; afterwards no ordinary
      addition or removal makes the table valid again. */
  lemma {:induction false} InheritedNamePoisonsTotal(t: Table, key: string, fraction: Value)
    requires "total" in t.slots && "constructor" !in t.slots && OrdinaryKey(key)
    ensures var p := RemovePersonSpec(t, "constructor");
            p.slots["total"] == NaN && !IsValidSpec(p) &&
            AddPersonSpec(p, key, fraction).slots["total"] == NaN &&
            RemovePersonSpec(p, key).slots["total"] == NaN
  {
    assert InheritedNames[0] == "constructor";
    assert Read(t, "constructor") == PFunction;
    var p := RemovePersonSpec(t, "constructor");
    assert p.slots == t.slots["total" := NaN];
    assert Read(p, "total") == PNumber(NaN);
  }

  /** The table object shared by `Imovel` and `generateDoi`. */
  class Operacao {
    const host: Host
    var table: Table

    constructor (host: Host)
      ensures table == NewTable && this.host == host
    {
      this.host := host;
      table := NewTable;
    }

    /** `addPerson(person, fraction)`. */
    method AddPerson(person: RootSubject.Subject, fraction: Value)
      requires person.Valid()
      modifies this
      ensures table == AddPersonSpec(old(table), KeyOf(person.Ni(), host), fraction)
    {
      var key := KeyOf(person.Ni(), host);
      if fraction.VNum? && !PropTruthy(Read(table, key)) && fraction.num > 0.0 && fraction.num <= 100.0 {
        table := Put(table, key, Finite(fraction.num));
        table := Put(table, "total", NumAdd(PropNumber(Read(table, "total")), Finite(fraction.num)));
      }
    }

    /** `removePerson(ni)`. */
    method RemovePerson(ni: Value)
      modifies this
      ensures table == RemovePersonSpec(old(table), KeyOf(ni, host))
    {
      var key := KeyOf(ni, host);
      var current := Read(table, key);
      if PropTruthy(current) {
        table := Put(table, "total", NumSub(PropNumber(Read(table, "total")), PropNumber(current)));
        table := Delete(table, key);
      }
    }

    /** `isValid()`. */
    method IsValid() returns (valid: bool)
      ensures valid == IsValidSpec(table)
    {
      var total := PropNumber(Read(table, "total"));
      valid := total.Finite? && total.r >= 98.0 && total.r <= 100.0;
    }
  }
}
