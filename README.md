# UNEC grades scraper — a Dafny model of the offscreen pipeline

The browser extension reads a student's grades from the UNEC student portal
(`kabinet.unec.edu.az`). Its offscreen document does the scraping in four
steps:

1. `fetchCourseData` fetches the listing page for a year and semester.
2. `parseCoursesFromHTML` keeps the rows of the grades table that describe a
   course.
3. For each course in turn, `fetchCourseDetails` posts for the course's
   detail popup and `parseModalContent` reads four scores from it. The
   popup's `#finalEval` container is read first. When the container is
   missing, `extractValuesFromAnyContent` scans every table instead.
4. An absence count ("qaib sayı") is computed from the absence percentage
   and the course's credits. Every course is merged into one list.

This project models that pipeline in Dafny and proves what it does.

- The browser's HTML parser is abstracted away. A cell is the trimmed text
  of one `td`, a row is a sequence of cells, and a table is the sequence of
  rows its `tbody tr` selector finds (module `Markup`).
- The portal is abstracted as two functions from request to reply. A reply
  is an HTTP status with a parsed body, or a rejected request.
- Code that builds results step by step is written as methods with loops:
  the row scan of the listing table, the nested table/row scan of the
  popup, and the per-course loop. Each method is proved equal to a
  specification function. The properties are then proved as lemmas about
  those functions.
- `parseFloat` is written out on text (sign, digits, point, fraction,
  exponent). The absence formula works on exact reals.

Modules and files:

- `Wrappers` (wrappers.dfy): `Option` and `Result`.
- `NumberText` (number_text.dfy): the cell filter `/^\d+(\.\d+)?$/`,
  `parseFloat`, and the decimal text of a status code.
- `Markup` (markup.dfy): pages, tables, rows and replies.
- `CourseListing` (course_listing.dfy): the row filter of the listing table.
- `DetailParser` (detail_parser.dfy): `parseModalContent` and
  `extractValuesFromAnyContent`.
- `AbsenceMetric` (absence_metric.dfy): the absence count.
- `Offscreen` (offscreen.dfy): `fetchCourseDetails`, the per-course loop,
  `parseCoursesFromHTML` and `fetchCourseData`.

## Behaviour worth knowing

- No year or semester is validated. Both go into the requests as given.
- The listing page is judged by its table alone. A missing
  `#studentEvaluation-grid table` fails with "Kurs cədvəli tapılmadı"
  (offscreen.js:65-69), whatever else the page shows.
- A row is skipped only by the cell test of offscreen.js:80-84. No row text
  is treated specially.
- A table without a qualifying row fails with "Heç bir kurs tapılmadı"
  (offscreen.js:96-98). A successful run therefore always carries at least
  one course.
- The check at offscreen.js:41-43 can never fire, for the same reason
  (`Offscreen.NoCourseDataNeverReported`).
- A failed detail fetch fills the four fields with `Xəta`
  (offscreen.js:164-172). Its absence count is then `'-'`, because `Xəta`
  is not a number.
- Credits of 4 or more divide by 3.33 and credits of 3 or less by 4.44,
  including zero and negative credits. Credits strictly between 3 and 4
  give `'-'` (offscreen.js:113-117).
- When `#finalEval` exists but its first row has fewer than 15 cells, all
  four fields are `'-'`. The table scan runs only when `#finalEval` is
  missing (offscreen.js:187-202).
- The table scan keeps only cells of the form `^\d+(\.\d+)?$`
  (offscreen.js:230-233).
- The 200 ms pause follows every course, the last one included
  (offscreen.js:126). A run of N courses pauses N times.
- 13.32 is exactly 4 × 3.33, so a four-credit course with 13.32 % absence
  counts 4 absences (`AbsenceMetric.ExactMultiples`).

## Model

| member | source | states |
|---|---|---|
| `NumberText.PlainDecimalMatchesPattern` | offscreen.js:230-233 | the scanning test accepts exactly the strings of one or more digits, optionally followed by a point and one or more digits (both directions) |
| `NumberText.DigitRunEnd` | offscreen.js:230-233 | the returned position ends the longest run of digits from the start position: all before it are digits, the one at it is not |
| `NumberText.PlainDecimalParses` | offscreen.js:109-110 | a cell the scan accepts is read by `parseFloat` as a non-negative number |
| `NumberText.NonNumericStartIsNaN` | offscreen.js:109-112 | text starting with anything but a digit, sign or point (such as `Xəta`) is NaN to `parseFloat` |
| `NumberText.LoneSignIsNaN` | offscreen.js:108-112 | the placeholder `-` (or a lone `+`) is NaN to `parseFloat` |
| `NumberText.NatToString` | offscreen.js:34 | the status code in an HTTP error message is a non-empty run of decimal digits that denotes the status |
| `NumberText.ParseFloat` | offscreen.js:109-110 | `parseFloat` gives a number exactly when, after an optional sign, the text goes on with a digit, or with a point and a digit; otherwise NaN; the number it gives for the portal's cell forms is stated by `ParseFloatOfDigits` and `ParseFloatOfDecimal` |
| `NumberText.ParseFloatOfDigits` | offscreen.js:109-110 | a non-empty run of digits is read as the whole number it denotes |
| `NumberText.ParseFloatOfDecimal` | offscreen.js:109-110 | digits, a point and digits are read as the whole number of the first run plus the decimal fraction of the second |
| `CourseListing.ExtractCourses` | offscreen.js:73-94 | the row loop returns exactly the records of the qualifying rows, in table order, each tagged with its row index |
| `CourseListing.ExtractedSound` | offscreen.js:80-91 | every record comes from a row with at least 6 cells and non-empty cells 1, 5, 2, 3; the name, credits and ids are cells 2, 3, 1, 5 of the row at `rowIndex` |
| `CourseListing.ExtractedOrdered` | offscreen.js:73-90 | row indices strictly increase along the records: source order is kept and no row gives two records |
| `CourseListing.ExtractedComplete` | offscreen.js:77-92 | every qualifying row gives its record |
| `CourseListing.ExtractedKeepsExactly` | offscreen.js:77-93 | a row gives a record if and only if it qualifies |
| `CourseListing.ExtractedEmpty` | offscreen.js:73-98 | the extraction is empty if and only if no row qualifies |
| `AbsenceMetric.PointsPerAbsence` | offscreen.js:113-117 | a divisor exists exactly outside the gap 3 < credits < 4, and it is positive |
| `AbsenceMetric.CountFor` | offscreen.js:113-117 | a count exists exactly when the credits select a divisor; it is the integer n with n·rate ≤ percent < (n+1)·rate, for rate 3.33 at ≥ 4 credits and 4.44 at ≤ 3 credits |
| `AbsenceMetric.AbsenceCountOf` | offscreen.js:108-118 | the count is `'-'` unless both texts parse as numbers and the credits are outside (3, 4); otherwise it is the floor count above |
| `AbsenceMetric.CountIsUnique` | offscreen.js:113-117 | any integer in the same band as the percentage is the count |
| `AbsenceMetric.CountMonotone` | offscreen.js:113-117 | a higher percentage never gives fewer absences |
| `AbsenceMetric.HeavierCourseCountsMore` | offscreen.js:113-117 | for a non-negative percentage, a course of ≥ 4 credits counts at least as many absences as one of ≤ 3, and both counts are non-negative |
| `AbsenceMetric.ExactMultiples` | offscreen.js:109-117 | 13.32 % gives 4 absences at 4 credits and 3 at 3 credits |
| `DetailParser.ExtractValuesFromAnyContent` | offscreen.js:205-249 | the nested loops with their two early exits return the table-by-table first-match scan |
| `DetailParser.ParseModalContent` | offscreen.js:175-203 | without `#finalEval` the result is the scan; with it, and a first row of ≥ 15 cells, the fields are cells 4, 5, 9, 14 with `'-'` for empty ones; with it and no such row, all four are `'-'` |
| `DetailParser.ScanRowsNumeric` | offscreen.js:224-233 | every field the scan returns is `'-'` or a plain decimal number |
| `DetailParser.ScanRowsEmpty` | offscreen.js:206-246 | the scan finds nothing if and only if no row of ≥ 15 cells has a number in columns 4, 5, 9, 14, and then all four fields are `'-'` |
| `DetailParser.ScanRowsPicksFirst` | offscreen.js:221-239 | the scan returns the accepted values of the first row that yields any, not a later one |
| `DetailParser.ScanRowsAppend` | offscreen.js:218-246 | a later run of rows is read only when the earlier run yields nothing |
| `DetailParser.ScanTablesFlat` | offscreen.js:218-246 | leaving both loops at the first yielding row equals scanning all rows of all tables as one run in document order |
| `DetailParser.ModalFieldsAreCells` | offscreen.js:179-211 | all four fields are always present, each `'-'`, a cell of the `#finalEval` row, or (without the container) a numeric cell of some table row |
| `Offscreen.FetchCourseDetails` | offscreen.js:143-173 | an OK reply gives the parsed popup; a non-OK status or a rejected request gives `Xəta` in all four fields |
| `Offscreen.EnrichCourses` | offscreen.js:100-138 | one entry per course, in order, each keeping its course record, carrying the detail fetched for its own ids and its absence count; the pauses total 200 ms per course |
| `Offscreen.ParseCoursesFromHtml` | offscreen.js:59-141 | a missing table fails with "Kurs cədvəli tapılmadı", a table with no qualifying row with "Heç bir kurs tapılmadı"; otherwise the result has one enriched entry per extracted record, and it is never empty |
| `Offscreen.FetchCourseData` | offscreen.js:16-57 | a rejected listing request fails with its message, a non-OK status with "HTTP error! status: N", and otherwise the envelope is that of `parseCoursesFromHTML` |
| `Offscreen.FailedFetchGivesErrorMarks` | offscreen.js:164-172 | a course whose popup fails keeps its record, shows `Xəta` in all four fields and gets `'-'` as count |
| `Offscreen.MissingPercentGivesNoCount` | offscreen.js:108-112 | a popup whose absence percentage is `'-'` gives count `'-'` |
| `Offscreen.NoCourseDataNeverReported` | offscreen.js:41-43 | the run never fails with "Heç bir kurs məlumatı tapılmadı…"; a success carries at least one course |
| `Offscreen.SuccessFollowsListing` | offscreen.js:96-140 | a success came from an OK listing page with a table, has one entry per qualifying row, each carrying that row's record, in strictly increasing row order |
| `Offscreen.MessagesDistinguishFailures` | offscreen.js:33-68 | HTTP status failures, a missing table, an empty table and the empty-result check carry pairwise different messages |

## Left out

- The message listener (offscreen.js:1-14), popup.js and background.js. They are message routing, UI and browser setup.
- URL and request-body construction, request headers and credentials (offscreen.js:18-31, offscreen.js:145-155). A request is modelled by its key fields only.
- The portal is modelled as a function of the request. Within one run, two identical detail requests get the same reply.
- `DOMParser`, CSS selectors and `textContent.trim()`. Cells are given as trimmed text. A `td` nested inside another row's cell is not modelled.
- A rejected `response.text()` is folded into the rejected-request reply.
- The catch at offscreen.js:127-137 has no model. `fetchCourseDetails` catches every failure of its own, and nothing else in that try block can throw, so no input reaches it.
- The 200 ms pause is modelled only as a total of milliseconds. No time passes in the model.
- IEEE doubles. Numbers are exact reals. A decimal text such as `4.44` is read as its exact value, so a quotient that falls just below a whole number in double precision can give one absence fewer in the browser than in the model.
- `NumberText.ParseFloat` does not skip leading white space and reads `Infinity` as NaN. Every text it receives is a trimmed cell or a placeholder, and the portal's numeric columns do not hold `Infinity`.
