/**
 * The first half of `parseCoursesFromHTML`: the rows of the grades table that
 * carry a course become listing records, in table order.
 */
module CourseListing {
  import opened Wrappers
  import opened Markup

  /** A course as the listing table describes it; `rowIndex` is its row's position in the table. */
  datatype Course = Course(name: string, credits: string, lessonId: string, eduFormId: string, rowIndex: nat)

  /** A row is a course row when it has six cells and cells 1, 5, 2 and 3 are non-empty. */
  predicate Qualifies(row: Row) {
    |row| >= 6 && row[1] != "" && row[5] != "" && row[2] != "" && row[3] != ""
  }

  /** The record a course row at position `i` becomes. */
  function CourseOf(row: Row, i: nat): (c: Course)
    requires |row| >= 6
  {
    Course(name := row[2], credits := row[3], lessonId := row[1], eduFormId := row[5], rowIndex := i)
  }

  /** The records of the qualifying rows, in table order. */
  function Extracted(rows: seq<Row>): (courses: seq<Course>) {
    if rows == [] then []
    else
      var i := |rows| - 1;
      Extracted(rows[..i]) + (if Qualifies(rows[i]) then [CourseOf(rows[i], i)] else [])
  }

  /** The scan of offscreen.js:73-94, pushing one record per qualifying row. */
  method ExtractCourses(rows: seq<Row>) returns (basic: seq<Course>)
    ensures basic == Extracted(rows)
  {
    basic := [];
    var i := 0;
    while i < |rows|
      invariant 0 <= i <= |rows|
      invariant basic == Extracted(rows[..i])
    {
      assert rows[..i + 1][..i] == rows[..i];
      var cells := rows[i];
      var lessonId := if |cells| > 1 then Some(cells[1]) else None;
      var eduFormId := if |cells| > 5 then Some(cells[5]) else None;
      if |cells| >= 6 && lessonId.Some? && lessonId.value != "" && eduFormId.Some? && eduFormId.value != "" {
        var courseName := cells[2];
        var credits := cells[3];
        if courseName != "" && credits != "" {
          basic := basic + [Course(courseName, credits, lessonId.value, eduFormId.value, i)];
        }
      }
      i := i + 1;
    }
    assert rows[..i] == rows;
  }

  /** Every record comes from a qualifying row of the table, at the position it names. */
  lemma {:induction false} ExtractedSound(rows: seq<Row>)
    ensures forall k :: 0 <= k < |Extracted(rows)| ==>
      var c := Extracted(rows)[k];
      c.rowIndex < |rows| && Qualifies(rows[c.rowIndex]) && c == CourseOf(rows[c.rowIndex], c.rowIndex)
  {
    if rows != [] {
      var i := |rows| - 1;
      ExtractedSound(rows[..i]);
      var prefix := Extracted(rows[..i]);
      forall k | 0 <= k < |prefix|
        ensures prefix[k].rowIndex < i && rows[prefix[k].rowIndex] == rows[..i][prefix[k].rowIndex]
      {
      }
    }
  }

  /** Records are in strictly increasing row order, so source order is kept and no row appears twice. */
  lemma {:induction false} ExtractedOrdered(rows: seq<Row>)
    ensures forall a, b :: 0 <= a < b < |Extracted(rows)| ==> Extracted(rows)[a].rowIndex < Extracted(rows)[b].rowIndex
  {
    if rows != [] {
      var i := |rows| - 1;
      ExtractedOrdered(rows[..i]);
      ExtractedSound(rows[..i]);
    }
  }

  /** Every qualifying row gives a record. */
  lemma {:induction false} ExtractedComplete(rows: seq<Row>, i: nat)
    requires i < |rows| && Qualifies(rows[i])
    ensures CourseOf(rows[i], i) in Extracted(rows)
  {
    var last := |rows| - 1;
    if i < last {
      assert rows[..last][i] == rows[i];
      ExtractedComplete(rows[..last], i);
    }
  }

  /** A row gives a record exactly when it qualifies. */
  lemma ExtractedKeepsExactly(rows: seq<Row>, i: nat)
    requires i < |rows|
    ensures (exists k :: 0 <= k < |Extracted(rows)| && Extracted(rows)[k].rowIndex == i) <==> Qualifies(rows[i])
  {
    ExtractedSound(rows);
    if Qualifies(rows[i]) {
      ExtractedComplete(rows, i);
    }
  }

  /** The extraction is empty exactly when no row qualifies. */
  lemma ExtractedEmpty(rows: seq<Row>)
    ensures Extracted(rows) == [] <==> forall i :: 0 <= i < |rows| ==> !Qualifies(rows[i])
  {
    ExtractedSound(rows);
    if i :| 0 <= i < |rows| && Qualifies(rows[i]) {
      ExtractedComplete(rows, i);
    }
  }
}
