/**
 * The driver of offscreen.js: `fetchCourseData` fetches the listing page,
 * `parseCoursesFromHTML` extracts the course rows and enriches each one,
 * in order and one at a time, with its detail popup and absence count.
 * The portal is a pair of functions from request to reply.
 */
module Offscreen {
  import opened Wrappers
  import opened NumberText
  import opened Markup
  import opened CourseListing
  import opened DetailParser
  import opened AbsenceMetric

  /** The placeholder for every detail field of a popup that could not be fetched ("error"). */
  const ErrorMark := "Xəta"

  const AllError := Detail(ErrorMark, ErrorMark, ErrorMark, ErrorMark)

  /** The pause after each course's detail request, in milliseconds. */
  const PauseMs := 200

  /** The GET of the listing page for one year and semester. */
  datatype ListingRequest = ListingRequest(eduYear: string, eduSemester: string)

  /** The POST of one course's detail popup. */
  datatype DetailRequest = DetailRequest(lessonId: string, eduFormId: string, eduYear: string, eduSemester: string)

  type ListingServer = ListingRequest -> Reply<ListingPage>
  type DetailServer = DetailRequest -> Reply<DetailPage>

  /** A listing record merged with its detail fields and its absence count (`qaibSayi`). */
  datatype EnrichedCourse = EnrichedCourse(course: Course, detail: Detail, absenceCount: AbsenceCount)

  /** The errors `fetchCourseData` turns into its failure envelope. */
  datatype Failure =
    | HttpFailure(status: nat)
    | NetworkError(message: string)
    | TableNotFound
    | NoCourses
    | NoCourseData

  /** The `error.message` each failure carries. */
  function Message(f: Failure): (m: string) {
    match f
    case HttpFailure(status) => "HTTP error! status: " + NatToString(status)
    case NetworkError(message) => message
    case TableNotFound => "Kurs cədvəli tapılmadı"
    case NoCourses => "Heç bir kurs tapılmadı"
    case NoCourseData => "Heç bir kurs məlumatı tapılmadı." + " Giriş etdiyinizə əmin olun."
  }

  /** The object `fetchCourseData` resolves with. */
  datatype Envelope = Success(data: seq<EnrichedCourse>) | Failed(error: string)

  /** `fetchCourseDetails`: the parsed popup when the reply is OK, the error placeholders otherwise. */
  function DetailOf(reply: Reply<DetailPage>): (d: Detail) {
    if IsOk(reply) then ModalDetail(reply.body) else AllError
  }

  function RequestFor(c: Course, eduYear: string, eduSemester: string): (req: DetailRequest) {
    DetailRequest(c.lessonId, c.eduFormId, eduYear, eduSemester)
  }

  /** One step of the loop of offscreen.js:102-126: fetch, parse, count, merge. */
  function Enriched(c: Course, eduYear: string, eduSemester: string, server: DetailServer): (e: EnrichedCourse) {
    var detail := DetailOf(server(RequestFor(c, eduYear, eduSemester)));
    EnrichedCourse(c, detail, AbsenceCountOf(detail.absencePercent, c.credits))
  }

  /** The specification of `parseCoursesFromHTML`. */
  function CoursesOf(page: ListingPage, eduYear: string, eduSemester: string, server: DetailServer): (r: Result<seq<EnrichedCourse>, Failure>) {
    if page.mainTable.None? then Err(TableNotFound)
    else
      var basic := Extracted(page.mainTable.value);
      if basic == [] then Err(NoCourses)
      else Ok(seq(|basic|, i requires 0 <= i < |basic| => Enriched(basic[i], eduYear, eduSemester, server)))
  }

  /** The specification of `fetchCourseData`, before its errors become messages. */
  function CourseDataOf(eduYear: string, eduSemester: string, listing: ListingServer, server: DetailServer): (r: Result<seq<EnrichedCourse>, Failure>) {
    var reply := listing(ListingRequest(eduYear, eduSemester));
    if reply.NetworkFailure? then Err(NetworkError(reply.message))
    else if !IsOk(reply) then Err(HttpFailure(reply.status))
    else
      var courses := CoursesOf(reply.body, eduYear, eduSemester, server);
      if courses.Err? then courses
      else if |courses.value| == 0 then Err(NoCourseData)
      else courses
  }

  function EnvelopeOf(r: Result<seq<EnrichedCourse>, Failure>): (e: Envelope) {
    match r
    case Ok(data) => Success(data)
    case Err(f) => Failed(Message(f))
  }

  /** `fetchCourseDetails`: one POST, parsed when it succeeds; any failure becomes the error placeholders. */
  method FetchCourseDetails(server: DetailServer, lessonId: string, eduFormId: string, eduYear: string, eduSemester: string)
    returns (detail: Detail)
    ensures var reply := server(DetailRequest(lessonId, eduFormId, eduYear, eduSemester));
      (IsOk(reply) ==> detail == ModalDetail(reply.body)) && (!IsOk(reply) ==> detail == AllError)
  {
    var reply := server(DetailRequest(lessonId, eduFormId, eduYear, eduSemester));
    if IsOk(reply) {
      detail := ParseModalContent(reply.body);
    } else {
      detail := AllError;
    }
  }

  /**
   * The loop of offscreen.js:100-138: one entry per course, in order, each
   * request made after the previous one and followed by a pause.
   */
  method EnrichCourses(basic: seq<Course>, eduYear: string, eduSemester: string, server: DetailServer)
    returns (detailed: seq<EnrichedCourse>, pausedMs: nat)
    ensures |detailed| == |basic|
    ensures forall i :: 0 <= i < |basic| ==> detailed[i].course == basic[i]
    ensures forall i :: 0 <= i < |basic| ==> detailed[i] == Enriched(basic[i], eduYear, eduSemester, server)
    ensures pausedMs == PauseMs * |basic|
  {
    detailed := [];
    pausedMs := 0;
    for i := 0 to |basic|
      invariant |detailed| == i
      invariant forall j :: 0 <= j < i ==> detailed[j] == Enriched(basic[j], eduYear, eduSemester, server)
      invariant pausedMs == PauseMs * i
    {
      var course := basic[i];
      var detailedInfo := FetchCourseDetails(server, course.lessonId, course.eduFormId, eduYear, eduSemester);
      var absences := AbsenceCountOf(detailedInfo.absencePercent, course.credits);
      detailed := detailed + [EnrichedCourse(course, detailedInfo, absences)];
      pausedMs := pausedMs + PauseMs;
    }
  }

  /** `parseCoursesFromHTML`: a missing table or an empty extraction is an error; otherwise every course is enriched. */
  method ParseCoursesFromHtml(page: ListingPage, eduYear: string, eduSemester: string, server: DetailServer)
    returns (r: Result<seq<EnrichedCourse>, Failure>)
    ensures page.mainTable.None? ==> r == Err(TableNotFound)
    ensures page.mainTable.Some? && (forall i :: 0 <= i < |page.mainTable.value| ==> !Qualifies(page.mainTable.value[i])) ==>
      r == Err(NoCourses)
    ensures page.mainTable.Some? && Extracted(page.mainTable.value) != [] ==>
      r.Ok? && |r.value| == |Extracted(page.mainTable.value)| > 0
    ensures r == CoursesOf(page, eduYear, eduSemester, server)
  {
    if page.mainTable.None? {
      return Err(TableNotFound);
    }
    var rows := page.mainTable.value;
    var basic := ExtractCourses(rows);
    if |basic| == 0 {
      ExtractedEmpty(rows);
      return Err(NoCourses);
    }
    var detailed, _ := EnrichCourses(basic, eduYear, eduSemester, server);
    assert detailed == seq(|basic|, i requires 0 <= i < |basic| => Enriched(basic[i], eduYear, eduSemester, server));
    r := Ok(detailed);
    ExtractedEmpty(rows);
  }

  /** `fetchCourseData`: every path resolves to a success or a failure envelope. */
  method FetchCourseData(eduYear: string, eduSemester: string, listing: ListingServer, server: DetailServer)
    returns (envelope: Envelope)
    ensures var reply := listing(ListingRequest(eduYear, eduSemester));
      (reply.NetworkFailure? ==> envelope == Failed(reply.message)) &&
      (reply.Http? && !IsOk(reply) ==> envelope == Failed("HTTP error! status: " + NatToString(reply.status))) &&
      (IsOk(reply) ==> envelope == EnvelopeOf(CoursesOf(reply.body, eduYear, eduSemester, server)))
    ensures envelope == EnvelopeOf(CourseDataOf(eduYear, eduSemester, listing, server))
  {
    var response := listing(ListingRequest(eduYear, eduSemester));
    if response.NetworkFailure? {
      return Failed(Message(NetworkError(response.message)));
    }
    if !IsOk(response) {
      return Failed(Message(HttpFailure(response.status)));
    }
    var courses := ParseCoursesFromHtml(response.body, eduYear, eduSemester, server);
    if courses.Err? {
      return Failed(Message(courses.error));
    }
    if |courses.value| == 0 {
      return Failed(Message(NoCourseData));
    }
    envelope := Success(courses.value);
  }

  /** A course whose popup cannot be fetched keeps its row, shows the error placeholders and gets no absence count. */
  lemma FailedFetchGivesErrorMarks(c: Course, eduYear: string, eduSemester: string, server: DetailServer)
    requires !IsOk(server(RequestFor(c, eduYear, eduSemester)))
    ensures var e := Enriched(c, eduYear, eduSemester, server);
      e.course == c && e.detail == AllError && e.absenceCount == NoCount
  {
    NonNumericStartIsNaN(ErrorMark);
  }

  /** A popup without an absence percentage gives no absence count. */
  lemma MissingPercentGivesNoCount(c: Course, eduYear: string, eduSemester: string, server: DetailServer)
    requires DetailOf(server(RequestFor(c, eduYear, eduSemester))).absencePercent == Dash
    ensures Enriched(c, eduYear, eduSemester, server).absenceCount == NoCount
  {
    LoneSignIsNaN(Dash);
  }

  /**
   * The check of offscreen.js:41-43 never fires: `parseCoursesFromHTML`
   * already throws on an empty extraction, so success always carries at
   * least one course.
   */
  lemma NoCourseDataNeverReported(eduYear: string, eduSemester: string, listing: ListingServer, server: DetailServer)
    ensures CourseDataOf(eduYear, eduSemester, listing, server) != Err(NoCourseData)
    ensures CourseDataOf(eduYear, eduSemester, listing, server).Ok? ==> |CourseDataOf(eduYear, eduSemester, listing, server).value| > 0
  {
  }

  /**
   * A successful run has one entry per course row of the listing table, in
   * table order, each carrying the record of a qualifying row.
   */
  lemma SuccessFollowsListing(eduYear: string, eduSemester: string, listing: ListingServer, server: DetailServer)
    requires CourseDataOf(eduYear, eduSemester, listing, server).Ok?
    ensures var reply := listing(ListingRequest(eduYear, eduSemester));
      var data := CourseDataOf(eduYear, eduSemester, listing, server).value;
      IsOk(reply) && reply.body.mainTable.Some? &&
      var rows := reply.body.mainTable.value;
      |data| == |Extracted(rows)| &&
      (forall i :: 0 <= i < |data| ==>
        data[i].course.rowIndex < |rows| && Qualifies(rows[data[i].course.rowIndex]) &&
        data[i].course == CourseOf(rows[data[i].course.rowIndex], data[i].course.rowIndex)) &&
      (forall a, b :: 0 <= a < b < |data| ==> data[a].course.rowIndex < data[b].course.rowIndex)
  {
    var rows := listing(ListingRequest(eduYear, eduSemester)).body.mainTable.value;
    ExtractedSound(rows);
    ExtractedOrdered(rows);
  }

  /** The messages tell the failures apart, except a transport message, which is the browser's own text. */
  lemma MessagesDistinguishFailures(f: Failure, g: Failure)
    requires !f.NetworkError? && !g.NetworkError? && f != g
    ensures Message(f) != Message(g)
  {
    if f.HttpFailure? != g.HttpFailure? {
      var h, other := if f.HttpFailure? then f else g, if f.HttpFailure? then g else f;
      assert Message(h)[1] == 'T';
      match other {
        case TableNotFound => assert Message(other)[1] == 'u';
        case NoCourses => assert Message(other)[1] == 'e';
        case NoCourseData => assert Message(other)[1] == 'e';
      }
    } else if f.HttpFailure? {
      var prefix := "HTTP error! status: ";
      assert Message(f)[|prefix|..] == NatToString(f.status);
      assert Message(g)[|prefix|..] == NatToString(g.status);
    }
  }
}
