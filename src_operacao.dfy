/** `Operacao` of src/doimaker.js: a transfer or an acquisition as the form
    shows it, a list of rows, each a chosen party and a percentage.  The
    table stores nothing else: `total` and `list` are computed from the rows
    every time they are read. */
module SrcOperacao {
  import opened JsValues
  import opened OrderedSets
  import opened TaxId

  /** One row: the label of the menu option chosen (none while the void
      option is selected) and the number in the percentage input. */
  datatype Row = Row(choice: Option<string>, fraction: real)

  /** `validate(ni, fraction)`: a valid CPF or CNPJ and a number in (0, 100]. */
  predicate ValidateShare(ni: Value, fraction: Value) {
    IsTaxId(ni) && fraction.VNum? && 0.0 < fraction.num <= 100.0
  }

  /** Row `i` contributes the share `fraction` under key `k` to `list`. */
  predicate Contributes(rows: seq<Row>, i: nat, k: string)
    requires i < |rows|
  {
    rows[i].choice == Some(k) && ValidateShare(VStr(k), VNum(rows[i].fraction))
  }

  /** The plain object `list` builds: its keys in insertion order and the
      share under each key. */
  datatype Shares = Shares(order: seq<string>, share: map<string, real>)

  /** The keys listed once each, and exactly the keys that hold a share. */
  predicate SharesWellFormed(s: Shares) {
    Distinct(s.order) &&
    (forall i :: 0 <= i < |s.order| ==> s.order[i] in s.share) &&
    (forall k :: k in s.share ==> k in s.order)
  }

  /** `operacao[k] = f`: a new key goes to the end, an existing one keeps its
      place and takes the new share. */
  function Put(s: Shares, k: string, f: real): (r: Shares)
    ensures SharesWellFormed(s) ==> SharesWellFormed(r)
    ensures r.share == s.share[k := f]
    ensures k in s.share ==> r.order == s.order
    ensures k !in s.share ==> r.order == s.order + [k]
  {
    if k in s.share then Shares(s.order, s.share[k := f]) else Shares(s.order + [k], s.share[k := f])
  }

  /** What `list` returns for the rows: each row with a chosen option whose
      label and number pass `validate` stores its number under the label. */
  function ListOf(rows: seq<Row>): Shares
  {
    if rows == [] then Shares([], map[])
    else
      var prev, r := ListOf(rows[..|rows| - 1]), rows[|rows| - 1];
      if r.choice.Some? && ValidateShare(VStr(r.choice.value), VNum(r.fraction))
      then Put(prev, r.choice.value, r.fraction)
      else prev
  }

  /** What `total` returns: the numbers of all rows, filtered or not. */
  function SumRows(rows: seq<Row>): real
  {
    if rows == [] then 0.0 else SumRows(rows[..|rows| - 1]) + rows[|rows| - 1].fraction
  }

  /** What `isValid()` returns. */
  predicate TableValid(rows: seq<Row>) {
    98.0 <= SumRows(rows) <= 100.0
  }

  lemma ListOfSnoc(rows: seq<Row>, i: nat)
    requires i < |rows|
    ensures ListOf(rows[..i + 1]) ==
              if rows[i].choice.Some? && ValidateShare(VStr(rows[i].choice.value), VNum(rows[i].fraction))
              then Put(ListOf(rows[..i]), rows[i].choice.value, rows[i].fraction)
              else ListOf(rows[..i])
  {
    assert rows[..i + 1][..i] == rows[..i];
  }

  lemma SumRowsSnoc(rows: seq<Row>, i: nat)
    requires i < |rows|
    ensures SumRows(rows[..i + 1]) == SumRows(rows[..i]) + rows[i].fraction
  {
    assert rows[..i + 1][..i] == rows[..i];
  }

  /** `list` names every key once, and every key it names holds a share. */
  lemma {:induction false} ListWellFormed(rows: seq<Row>)
    ensures SharesWellFormed(ListOf(rows))
  {
    if rows != [] {
      ListWellFormed(rows[..|rows| - 1]);
    }
  }

  /** Every key of `list` is a valid CPF or CNPJ and every share lies in
      (0, 100]. */
  lemma {:induction false} ListKeysAndSharesValid(rows: seq<Row>)
    ensures forall k :: k in ListOf(rows).share ==>
              IsTaxId(VStr(k)) && 0.0 < ListOf(rows).share[k] <= 100.0
  {
    if rows != [] {
      ListKeysAndSharesValid(rows[..|rows| - 1]);
    }
  }

  /** No key of `list` is an array index, so the object lists its keys in
      the order they were first assigned. */
  lemma ListKeysNotArrayIndices(rows: seq<Row>, k: string)
    requires k in ListOf(rows).share
    ensures !ArrayIndex(k)
  {
    ListKeysAndSharesValid(rows);
    DigitsAreOneUnitEach(k);
    LongKeyNotArrayIndex(k);
  }

  /** A label is a key of `list` exactly when some row contributes it. */
  lemma {:induction false} ListKeysExact(rows: seq<Row>, k: string)
    ensures k in ListOf(rows).share <==> exists i :: 0 <= i < |rows| && Contributes(rows, i, k)
  {
    if rows != [] {
      var init, n := rows[..|rows| - 1], |rows| - 1;
      ListKeysExact(init, k);
      assert forall i :: 0 <= i < n ==> (Contributes(init, i, k) <==> Contributes(rows, i, k));
      if Contributes(rows, n, k) {
        assert k in ListOf(rows).share;
      } else {
        assert ListOf(rows).share.Keys <= ListOf(init).share.Keys + (if rows[n].choice.Some? then {rows[n].choice.value} else {});
        assert k in ListOf(init).share ==> k in ListOf(rows).share;
      }
    }
  }

  /** A later row for the same label overwrites an earlier one: the share
      under a key is the number of the last row contributing it. */
  lemma {:induction false} ListLastRowWins(rows: seq<Row>, k: string, i: nat)
    requires i < |rows| && Contributes(rows, i, k)
    requires forall j :: i < j < |rows| ==> !Contributes(rows, j, k)
    ensures k in ListOf(rows).share && ListOf(rows).share[k] == rows[i].fraction
  {
    var init := rows[..|rows| - 1];
    if i < |init| {
      assert Contributes(init, i, k);
      forall j | i < j < |init|
        ensures !Contributes(init, j, k)
      {
        assert !Contributes(rows, j, k);
      }
      ListLastRowWins(init, k, i);
      assert !Contributes(rows, |rows| - 1, k);
    }
  }

  /** The total counts rows `list` drops: a table whose only row has no
      chosen party still passes `isValid`, while listing no share at all. */
  lemma ValidWithoutShares()
    ensures TableValid([Row(None, 99.0)]) && ListOf([Row(None, 99.0)]).order == []
  {
    assert [Row(None, 99.0)][..0] == [];
  }

  /** Deleting a row takes exactly its number off the total. */
  lemma {:induction false} SumRowsRemove(rows: seq<Row>, k: nat)
    requires k < |rows|
    ensures SumRows(rows[..k] + rows[k + 1..]) == SumRows(rows) - rows[k].fraction
  {
    var init := rows[..|rows| - 1];
    if k == |rows| - 1 {
      assert rows[..k] + rows[k + 1..] == init;
    } else {
      SumRowsRemove(init, k);
      assert rows[..k] + rows[k + 1..] == (init[..k] + init[k + 1..]) + [rows[|rows| - 1]];
      assert (init[..k] + init[k + 1..] + [rows[|rows| - 1]])[..|rows| - 2] == init[..k] + init[k + 1..];
    }
  }

  /** The `list` loop over a sequence of rows. */
  method ListRows(rows: seq<Row>) returns (s: Shares)
    ensures s == ListOf(rows)
  {
    s := Shares([], map[]);
    var i := 0;
    while i < |rows|
      invariant 0 <= i <= |rows|
      invariant s == ListOf(rows[..i])
    {
      ListOfSnoc(rows, i);
      var r := rows[i];
      if r.choice.Some? && ValidateShare(VStr(r.choice.value), VNum(r.fraction)) {
        s := Put(s, r.choice.value, r.fraction);
      }
      i := i + 1;
    }
    assert rows[..i] == rows;
  }

  /** The `total` loop over a sequence of rows. */
  method TotalRows(rows: seq<Row>) returns (sum: real)
    ensures sum == SumRows(rows)
  {
    sum := 0.0;
    var i := 0;
    while i < |rows|
      invariant 0 <= i <= |rows|
      invariant sum == SumRows(rows[..i])
    {
      SumRowsSnoc(rows, i);
      sum := sum + rows[i].fraction;
      i := i + 1;
    }
    assert rows[..i] == rows;
  }

  class Operacao {
    /** The rows of `inputs`, in insertion order. */
    var rows: seq<Row>

    /** `new Operacao(title, subjList)`: no rows. */
    constructor ()
      ensures rows == []
    {
      rows := [];
    }

    /** `add(loadedNi, loadedFraction)`: one more row, as the menu and the
        number input end up after their defaults are applied. */
    method Add(choice: Option<string>, fraction: real)
      modifies this
      ensures rows == old(rows) + [Row(choice, fraction)]
    {
      rows := rows + [Row(choice, fraction)];
    }

    /** The row's delete button: `inputs.delete(subject)`. */
    method Remove(k: nat)
      modifies this
      ensures rows == if k < |old(rows)| then old(rows)[..k] + old(rows)[k + 1..] else old(rows)
    {
      if k < |rows| {
        rows := rows[..k] + rows[k + 1..];
      }
    }

    /** The `total` getter. */
    method Total() returns (total: real)
      ensures total == SumRows(rows)
    {
      total := TotalRows(rows);
    }

    /** The `list` getter. */
    method List() returns (s: Shares)
      ensures s == ListOf(rows)
    {
      s := ListRows(rows);
    }

    /** `isValid()`: the total lies in the 98–100 band (read twice, as the
        source reads the getter twice). */
    method IsValid() returns (valid: bool)
      ensures valid <==> TableValid(rows)
    {
      var low := Total();
      if low < 98.0 {
        return false;
      }
      var high := Total();
      valid := high <= 100.0;
    }
  }
}
