/**
 * `parseModalContent` and `extractValuesFromAnyContent`: the four scores a
 * course's detail popup shows, read from the `#finalEval` container when the
 * popup has one and otherwise from the first table row that looks like it.
 */
module DetailParser {
  import opened Wrappers
  import opened NumberText
  import opened Markup

  /** The placeholder for a value the popup did not give. */
  const Dash := "-"

  /**
   * The four detail fields: colloquium average (`kollokviutOrta`), seminar
   * average (`seminarOrta`), current grade (`cariQiymet`) and absence
   * percentage (`qaibFaizi`).
   */
  datatype Detail = Detail(colloquiumAverage: string, seminarAverage: string, currentGrade: string, absencePercent: string)

  const AllDash := Detail(Dash, Dash, Dash, Dash)

  function Fields(d: Detail): (fs: seq<string>) {
    [d.colloquiumAverage, d.seminarAverage, d.currentGrade, d.absencePercent]
  }

  /** Some field holds something other than the placeholder. */
  predicate HasValue(d: Detail) {
    d.colloquiumAverage != Dash || d.seminarAverage != Dash || d.currentGrade != Dash || d.absencePercent != Dash
  }

  /** `cell || '-'`: an empty cell becomes the placeholder. */
  function OrDash(cell: string): (v: string) {
    if cell == "" then Dash else cell
  }

  /** The value the scan keeps from a cell: the cell if it is a plain decimal number, else the placeholder. */
  function Accept(cell: string): (v: string) {
    if cell != "" && IsPlainDecimal(cell) then cell else Dash
  }

  /** What the scan reads from a row of at least 15 cells: columns 4, 5, 9 and 14, numbers only. */
  function ScanRowValues(row: Row): (d: Detail)
    requires |row| >= 15
  {
    Detail(Accept(row[4]), Accept(row[5]), Accept(row[9]), Accept(row[14]))
  }

  /** A row at which the scan stops: wide enough, with at least one number in the four columns. */
  predicate Yields(row: Row) {
    |row| >= 15 && HasValue(ScanRowValues(row))
  }

  /** The scan over the rows of one table: the values of the first row that yields any. */
  function ScanRows(rows: seq<Row>): (d: Detail) {
    if rows == [] then AllDash
    else if Yields(rows[0]) then ScanRowValues(rows[0])
    else ScanRows(rows[1..])
  }

  /** The scan over all tables: the first table whose rows yield anything decides. */
  function ScanTables(tables: seq<Table>): (d: Detail) {
    if tables == [] then AllDash
    else if HasValue(ScanRows(tables[0])) then ScanRows(tables[0])
    else ScanTables(tables[1..])
  }

  /** The rows of all tables, table after table, in document order. */
  function Flatten(tables: seq<Table>): (rows: seq<Row>) {
    if tables == [] then [] else tables[0] + Flatten(tables[1..])
  }

  /** The whole of `parseModalContent`: primary container first, the scan only when the container is missing. */
  function ModalDetail(page: DetailPage): (d: Detail) {
    match page.finalEval
    case None => ScanTables(page.tables)
    case Some(container) =>
      if container.firstRow.Some? && |container.firstRow.value| >= 15 then
        var cells := container.firstRow.value;
        Detail(OrDash(cells[4]), OrDash(cells[5]), OrDash(cells[9]), OrDash(cells[14]))
      else AllDash
  }

  /** A value appears as a cell somewhere in the given rows. */
  ghost predicate OccursIn(v: string, rows: seq<Row>) {
    exists i, k :: 0 <= i < |rows| && 0 <= k < |rows[i]| && rows[i][k] == v
  }

  /** The scan keeps numbers only: every field it returns is the placeholder or matches `^\d+(\.\d+)?$`. */
  lemma {:induction false} ScanRowsNumeric(rows: seq<Row>)
    ensures forall f :: f in Fields(ScanRows(rows)) ==> f == Dash || IsPlainDecimal(f)
  {
    if rows != [] && !Yields(rows[0]) {
      ScanRowsNumeric(rows[1..]);
    }
  }

  /** The scan finds nothing exactly when no row yields, and then every field is the placeholder. */
  lemma {:induction false} ScanRowsEmpty(rows: seq<Row>)
    ensures !HasValue(ScanRows(rows)) <==> forall i :: 0 <= i < |rows| ==> !Yields(rows[i])
    ensures !HasValue(ScanRows(rows)) ==> ScanRows(rows) == AllDash
  {
    if rows != [] && !Yields(rows[0]) {
      ScanRowsEmpty(rows[1..]);
      assert forall i :: 1 <= i < |rows| ==> rows[i] == rows[1..][i - 1];
    }
  }

  /** First match, not best match: the scan returns the values of the first row that yields any. */
  lemma {:induction false} ScanRowsPicksFirst(rows: seq<Row>, i: nat)
    requires i < |rows| && Yields(rows[i])
    requires forall j :: 0 <= j < i ==> !Yields(rows[j])
    ensures ScanRows(rows) == ScanRowValues(rows[i])
  {
    if i > 0 {
      assert forall j :: 0 <= j < i - 1 ==> rows[1..][j] == rows[j + 1];
      ScanRowsPicksFirst(rows[1..], i - 1);
    }
  }

  /** Scanning two runs of rows: the second is looked at only when the first yields nothing. */
  lemma {:induction false} ScanRowsAppend(a: seq<Row>, b: seq<Row>)
    ensures ScanRows(a + b) == if HasValue(ScanRows(a)) then ScanRows(a) else ScanRows(b)
  {
    if a == [] {
      assert a + b == b;
    } else {
      assert (a + b)[1..] == a[1..] + b;
      if !Yields(a[0]) {
        ScanRowsAppend(a[1..], b);
      }
    }
  }

  /** Breaking out of both loops is the same as scanning the document's rows as one run. */
  lemma {:induction false} ScanTablesFlat(tables: seq<Table>)
    ensures ScanTables(tables) == ScanRows(Flatten(tables))
  {
    if tables != [] {
      ScanTablesFlat(tables[1..]);
      ScanRowsAppend(tables[0], Flatten(tables[1..]));
    }
  }

  /** Every field of a parsed popup is the placeholder or the text of a cell of the popup. */
  lemma ModalFieldsAreCells(page: DetailPage)
    ensures forall f :: f in Fields(ModalDetail(page)) ==>
      f == Dash ||
      (page.finalEval.Some? && page.finalEval.value.firstRow.Some? && f in page.finalEval.value.firstRow.value) ||
      (page.finalEval.None? && OccursIn(f, Flatten(page.tables)) && IsPlainDecimal(f))
  {
    if page.finalEval.None? {
      var rows := Flatten(page.tables);
      ScanTablesFlat(page.tables);
      ScanRowsNumeric(rows);
      if HasValue(ScanRows(rows)) {
        var i := FirstYield(rows);
        ScanRowsPicksFirst(rows, i);
        forall f | f in Fields(ScanRows(rows)) && f != Dash ensures OccursIn(f, rows) {
          var cells := rows[i];
          assert f == cells[4] || f == cells[5] || f == cells[9] || f == cells[14];
        }
      } else {
        ScanRowsEmpty(rows);
      }
    }
  }

  /** The position of the first row that yields, when some row does. */
  lemma {:induction false} FirstYield(rows: seq<Row>) returns (i: nat)
    requires HasValue(ScanRows(rows))
    ensures i < |rows| && Yields(rows[i])
    ensures forall j :: 0 <= j < i ==> !Yields(rows[j])
  {
    if Yields(rows[0]) {
      i := 0;
    } else {
      var k := FirstYield(rows[1..]);
      i := k + 1;
      assert forall j :: 1 <= j < i ==> rows[j] == rows[1..][j - 1];
    }
  }

  /** The nested table and row loops of offscreen.js:216-246, with their early exits. */
  method ExtractValuesFromAnyContent(tables: seq<Table>) returns (result: Detail)
    ensures result == ScanTables(tables)
  {
    result := AllDash;
    var t := 0;
    while t < |tables|
      invariant 0 <= t <= |tables|
      invariant result == AllDash
      invariant ScanTables(tables) == ScanTables(tables[t..])
    {
      var rows := tables[t];
      var r := 0;
      while r < |rows|
        invariant 0 <= r <= |rows|
        invariant result == AllDash
        invariant ScanRows(rows) == ScanRows(rows[r..])
      {
        var cells := rows[r];
        if |cells| >= 15 {
          var cell4, cell5, cell9, cell14 := cells[4], cells[5], cells[9], cells[14];
          if cell4 != "" && IsPlainDecimal(cell4) { result := result.(colloquiumAverage := cell4); }
          if cell5 != "" && IsPlainDecimal(cell5) { result := result.(seminarAverage := cell5); }
          if cell9 != "" && IsPlainDecimal(cell9) { result := result.(currentGrade := cell9); }
          if cell14 != "" && IsPlainDecimal(cell14) { result := result.(absencePercent := cell14); }
          if HasValue(result) {
            break;
          }
        }
        assert rows[r..][1..] == rows[r + 1..];
        r := r + 1;
      }
      assert result == ScanRows(rows);
      if HasValue(result) {
        break;
      }
      assert tables[t..][1..] == tables[t + 1..];
      t := t + 1;
    }
  }

  /** The primary extraction of offscreen.js:175-203, which hands over to the scan only when `#finalEval` is missing. */
  method ParseModalContent(page: DetailPage) returns (result: Detail)
    ensures page.finalEval.None? ==> result == ScanTables(page.tables)
    ensures page.finalEval.Some? && page.finalEval.value.firstRow.Some? && |page.finalEval.value.firstRow.value| >= 15 ==>
      var cells := page.finalEval.value.firstRow.value;
      result == Detail(OrDash(cells[4]), OrDash(cells[5]), OrDash(cells[9]), OrDash(cells[14]))
    ensures page.finalEval.Some? && !(page.finalEval.value.firstRow.Some? && |page.finalEval.value.firstRow.value| >= 15) ==>
      result == AllDash
    ensures result == ModalDetail(page)
  {
    result := AllDash;
    if page.finalEval.None? {
      result := ExtractValuesFromAnyContent(page.tables);
      return;
    }
    var firstRow := page.finalEval.value.firstRow;
    if firstRow.Some? {
      var cells := firstRow.value;
      if |cells| >= 15 {
        result := result.(colloquiumAverage := OrDash(cells[4]));
        result := result.(seminarAverage := OrDash(cells[5]));
        result := result.(currentGrade := OrDash(cells[9]));
        result := result.(absencePercent := OrDash(cells[14]));
      }
    }
  }
}
