/** Walking the varbind table row by row, as both send paths and the save
    routine do, and the table's round trip through a notification file. */
module Rows {
  import opened SnmpTypes
  import opened Text

  /** The table walk of a send path: rows are converted in table order, each
      by `step` given the row and its 1-based row number, and the first row
      that fails ends the walk with that row's failure. */
  function Collect<T>(rows: seq<Row>, step: (Row, nat) -> Result<T>): (r: Result<seq<T>>)
    decreases |rows|
  {
    if rows == [] then Ok([])
    else
      match Collect(rows[..|rows| - 1], step)
      case Err(f) => Err(f)
      case Ok(done) =>
        match step(rows[|rows| - 1], |rows|)
        case Err(f) => Err(f)
        case Ok(v) => Ok(done + [v])
  }

  /** The walk succeeds exactly when every row converts, and then yields one
      item per row, in table order. */
  lemma {:induction false} CollectSucceeds<T>(rows: seq<Row>, step: (Row, nat) -> Result<T>)
    ensures Collect(rows, step).Ok? <==> forall k :: 0 <= k < |rows| ==> step(rows[k], k + 1).Ok?
    ensures Collect(rows, step).Ok? ==>
      var vs := Collect(rows, step).value;
      |vs| == |rows| && forall k :: 0 <= k < |rows| ==> vs[k] == step(rows[k], k + 1).value
  {
    if rows != [] {
      var init := rows[..|rows| - 1];
      CollectSucceeds(init, step);
      assert forall k :: 0 <= k < |init| ==> init[k] == rows[k];
    }
  }

  /** A failed walk reports the failure of the first row that fails; every
      row before it converted. */
  lemma {:induction false} CollectReportsFirstBadRow<T>(rows: seq<Row>, step: (Row, nat) -> Result<T>)
    requires Collect(rows, step).Err?
    ensures exists k :: && 0 <= k < |rows|
                        && step(rows[k], k + 1) == Err(Collect(rows, step).failure)
                        && (forall j :: 0 <= j < k ==> step(rows[j], j + 1).Ok?)
  {
    var init := rows[..|rows| - 1];
    assert forall k :: 0 <= k < |init| ==> init[k] == rows[k];
    if Collect(init, step).Err? {
      CollectReportsFirstBadRow(init, step);
      var k :| 0 <= k < |init| && step(init[k], k + 1) == Err(Collect(init, step).failure)
        && forall j :: 0 <= j < k ==> step(init[j], j + 1).Ok?;
      assert step(rows[k], k + 1) == Err(Collect(rows, step).failure);
    } else {
      CollectSucceeds(init, step);
      var k := |rows| - 1;
      assert step(rows[k], k + 1) == Err(Collect(rows, step).failure);
    }
  }

  /** The position of the first row that fails, for a failed walk. */
  lemma FirstBadRow<T>(rows: seq<Row>, step: (Row, nat) -> Result<T>) returns (k: nat)
    requires Collect(rows, step).Err?
    ensures k < |rows| && step(rows[k], k + 1) == Err(Collect(rows, step).failure)
    ensures forall j :: 0 <= j < k ==> step(rows[j], j + 1).Ok?
  {
    CollectReportsFirstBadRow(rows, step);
    k :| 0 <= k < |rows| && step(rows[k], k + 1) == Err(Collect(rows, step).failure)
         && forall j :: 0 <= j < k ==> step(rows[j], j + 1).Ok?;
  }

  /** Walking one more row extends a successful walk by that row's item. */
  lemma CollectStep<T>(rows: seq<Row>, i: nat, step: (Row, nat) -> Result<T>)
    requires i < |rows|
    ensures rows[..i + 1][..i] == rows[..i] && rows[..i + 1][i] == rows[i]
    ensures Collect(rows[..i + 1], step) ==
      match Collect(rows[..i], step)
      case Err(f) => Err(f)
      case Ok(done) =>
        match step(rows[i], i + 1)
        case Err(f) => Err(f)
        case Ok(v) => Ok(done + [v])
  {
    assert rows[..i + 1][..i] == rows[..i];
  }

  /** A one-row table walks to that row's item alone. */
  lemma CollectSingle<T>(row: Row, step: (Row, nat) -> Result<T>)
    ensures Collect([row], step) ==
      match step(row, 1)
      case Err(f) => Err(f)
      case Ok(v) => Ok([v])
  {
    assert [row][..0] == [];
    assert [row][|[row]| - 1] == row;
    assert Collect([row][..0], step) == Ok([]);
    if step(row, 1).Ok? {
      assert [] + [step(row, 1).value] == [step(row, 1).value];
    }
  }

  /** Once a prefix of the table has failed, the whole walk fails the same way. */
  lemma {:induction false} CollectStaysFailed<T>(rows: seq<Row>, i: nat, step: (Row, nat) -> Result<T>)
    requires i <= |rows| && Collect(rows[..i], step).Err?
    ensures Collect(rows, step) == Collect(rows[..i], step)
    decreases |rows| - i
  {
    if i == |rows| {
      assert rows[..i] == rows;
    } else {
      CollectStep(rows, i, step);
      CollectStaysFailed(rows, i + 1, step);
    }
  }

  /** OID_TYPES[int(text)]: None when int() or the table lookup would raise. */
  function TypeOfCell(text: string): Option<OidType> {
    if IsDigits(text) && DigitsValue(text) < |OidTypes| then Some(OidTypes[DigitsValue(text)])
    else None
  }

  /** The type cell holds the index the type editor stored ("%s" % index);
      every index of the table reads back as its own entry. */
  lemma TypeOfCellReadsEditorIndex(i: nat)
    requires i < |OidTypes|
    ensures TypeOfCell(Decimal(i)) == Some(OidTypes[i])
  {
  }

  /** The table's letters are pairwise distinct, so a token's letter names
      exactly one type. */
  lemma OidTypeLettersDistinct(i: nat, j: nat)
    requires i < |OidTypes| && j < |OidTypes| && i != j
    ensures OidTypes[i].Letter() != OidTypes[j].Letter()
    ensures OidTypes[i].Name() != OidTypes[j].Name()
  {
  }

  /** One row as save_notification stores it: [oid, type, value], where a
      cell without an item is stored as ''. */
  datatype SavedRow = SavedRow(oid: string, typeText: string, value: string)

  function Saved(row: Row): SavedRow {
    SavedRow(row.oid.GetOr(""), row.typeText, row.value.GetOr(""))
  }

  /** The row open_notification rebuilds from a stored one: all three cells
      hold an item with the stored text. */
  function Reloaded(saved: SavedRow): Row {
    Row(Some(saved.oid), saved.typeText, Some(saved.value))
  }

  function ReloadedTable(saved: seq<SavedRow>): (rows: seq<Row>)
    ensures |rows| == |saved|
    ensures forall k :: 0 <= k < |saved| ==> rows[k] == Reloaded(saved[k])
  {
    seq(|saved|, k requires 0 <= k < |saved| => Reloaded(saved[k]))
  }

  /** The row loop of save_notification. */
  method SaveRows(rows: seq<Row>) returns (saved: seq<SavedRow>)
    ensures |saved| == |rows|
    ensures forall k :: 0 <= k < |rows| ==> saved[k] == Saved(rows[k])
  {
    saved := [];
    for i := 0 to |rows|
      invariant |saved| == i
      invariant forall k :: 0 <= k < i ==> saved[k] == Saved(rows[k])
    {
      var oid := if rows[i].oid.Some? then rows[i].oid.value else "";
      var typeText := rows[i].typeText;
      var data := if rows[i].value.Some? then rows[i].value.value else "";
      saved := saved + [SavedRow(oid, typeText, data)];
    }
  }

  /** Saving a reloaded table stores exactly what was loaded, and reloading a
      saved table gives back every row whose cells all held an item. */
  lemma SaveReloadRoundTrip(saved: seq<SavedRow>, rows: seq<Row>)
    ensures forall k :: 0 <= k < |saved| ==> Saved(ReloadedTable(saved)[k]) == saved[k]
    ensures forall k :: 0 <= k < |rows| && rows[k].oid.Some? && rows[k].value.Some? ==>
      Reloaded(Saved(rows[k])) == rows[k]
  {
  }
}
