/** `insertCourse`: tee selection and the mapping from a course-detail payload
    to a row of the `courses` table. */
module Course {
  import opened Js
  import opened Api

  /** A row of the `courses` table. `id` is the client-generated UUID; the two
      timestamps are the instant the row was built. */
  datatype CourseRow = CourseRow(
    id: string,
    name: string,
    address: Option<string>,
    city: Option<string>,
    state: Option<string>,
    country: Option<string>,
    latitude: Option<real>,
    longitude: Option<real>,
    totalHoles: int,
    par: Option<int>,
    rating: Option<real>,
    slope: Option<int>,
    aggregateScore: Option<real>,
    confidenceRating: Option<real>,
    createdAt: string,
    updatedAt: string)

  /** `course.tees?.male || course.tees?.female || []`. A present `male` list is
      chosen even when it is empty, because JavaScript arrays are truthy. */
  function SelectTees(d: CourseDetail): (tees: seq<Tee>)
    ensures d.tees.Some? && d.tees.value.male.Some? ==> tees == d.tees.value.male.value
    ensures (d.tees.Some? && d.tees.value.male.None? && d.tees.value.female.Some?) ==>
              tees == d.tees.value.female.value
    ensures (d.tees.None? || (d.tees.value.male.None? && d.tees.value.female.None?)) ==> tees == []
  {
    if d.tees.None? then []
    else if d.tees.value.male.Some? then d.tees.value.male.value
    else if d.tees.value.female.Some? then d.tees.value.female.value
    else []
  }

  /** The main tee: the first selected tee, or none when the list is empty. */
  function MainTee(d: CourseDetail): (t: Option<Tee>)
    ensures t.Some? <==> |SelectTees(d)| > 0
    ensures t.Some? ==> t.value == SelectTees(d)[0]
  {
    var tees := SelectTees(d);
    if |tees| > 0 then Some(tees[0]) else None
  }

  /** The hole list the orchestrator hands to the hole writer: the holes of
      the same main tee the course row was built from, or `[]` without one. */
  function HoleList(d: CourseDetail): (holes: Option<seq<Hole>>)
    ensures MainTee(d).Some? ==> holes == MainTee(d).value.holes
    ensures MainTee(d).None? ==> holes == Some([])
  {
    var tees := SelectTees(d);
    if |tees| > 0 then tees[0].holes else Some([])
  }

  /** `${club_name} - ${course_name}`.trim(): equals the plain concatenation
      when both parts are present without surrounding whitespace. */
  function CourseName(d: CourseDetail): (name: string)
    ensures (&& d.clubName.Present? && d.courseName.Present?
             && d.clubName.value != [] && !IsWhitespace(d.clubName.value[0])
             && d.courseName.value != [] && !IsWhitespace(d.courseName.value[|d.courseName.value| - 1]))
            ==> name == d.clubName.value + " - " + d.courseName.value
  {
    Trim(Template(d.clubName) + " - " + Template(d.courseName))
  }

  /** Whatever the API sends, the course name is never empty: the separating
      dash always survives the trim. */
  lemma CourseNameKeepsDash(d: CourseDetail)
    ensures CourseName(d) != [] && '-' in CourseName(d)
  {
    var club := Template(d.clubName);
    var full := club + " - " + Template(d.courseName);
    assert full[|club| + 1] == '-';
    TrimKeepsNonWhitespace(full, |club| + 1);
  }

  /** A club name that is JSON `null` is rendered as "null", a missing one as
      "undefined": neither is dropped from the course name. */
  lemma CourseNameOfAbsentClub(d: CourseDetail)
    requires !d.clubName.Present?
    requires d.courseName.Present? && d.courseName.value != []
    requires !IsWhitespace(d.courseName.value[|d.courseName.value| - 1])
    ensures d.clubName.Null? ==> CourseName(d) == "null - " + d.courseName.value
    ensures d.clubName.Missing? ==> CourseName(d) == "undefined - " + d.courseName.value
  {
    var full := Template(d.clubName) + " - " + d.courseName.value;
    assert full[0] == Template(d.clubName)[0];
    assert full[|full| - 1] == d.courseName.value[|d.courseName.value| - 1];
  }

  /** One `location` property under `|| null`. */
  function LocationText(d: CourseDetail, field: Location -> Option<string>): (r: Option<string>)
    ensures r.Some? <==> d.location.Some? && Truthy(field(d.location.value), "")
    ensures r.Some? ==> r.value == field(d.location.value).value
  {
    if d.location.Some? then OrNull(field(d.location.value), "") else None
  }

  function LocationCoordinate(d: CourseDetail, field: Location -> Option<real>): (r: Option<real>)
    ensures r.Some? <==> d.location.Some? && Truthy(field(d.location.value), 0.0)
    ensures r.Some? ==> r.value == field(d.location.value).value
  {
    if d.location.Some? then OrNull(field(d.location.value), 0.0) else None
  }

  /** The row `insertCourse` builds: aggregates come from the main tee under
      `||` defaults, the scoring fields start null, and no optional column
      ever holds a falsy value. */
  function BuildCourseRow(d: CourseDetail, id: string, now: string): (row: CourseRow)
    ensures row.id == id && row.name == CourseName(d)
    ensures row.totalHoles != 0
    ensures MainTee(d).None? ==> row.totalHoles == 18 && row.par.None? && row.rating.None? && row.slope.None?
    ensures MainTee(d).Some? ==>
              && row.totalHoles == OrElse(MainTee(d).value.numberOfHoles, 0, 18)
              && row.par == OrNull(MainTee(d).value.parTotal, 0)
              && row.rating == OrNull(MainTee(d).value.courseRating, 0.0)
              && row.slope == OrNull(MainTee(d).value.slopeRating, 0)
    ensures row.par.Some? ==> row.par.value != 0
    ensures row.rating.Some? ==> row.rating.value != 0.0
    ensures row.slope.Some? ==> row.slope.value != 0
    ensures row.aggregateScore.None? && row.confidenceRating.None?
    ensures d.location.None? ==>
              row.address.None? && row.city.None? && row.state.None? && row.country.None?
              && row.latitude.None? && row.longitude.None?
    ensures d.location.Some? ==>
              var l := d.location.value;
              && row.address == OrNull(l.address, "") && row.city == OrNull(l.city, "")
              && row.state == OrNull(l.state, "") && row.country == OrNull(l.country, "")
              && row.latitude == OrNull(l.latitude, 0.0) && row.longitude == OrNull(l.longitude, 0.0)
    ensures row.createdAt == now && row.updatedAt == now
  {
    var main := MainTee(d);
    CourseRow(
      id := id,
      name := CourseName(d),
      address := LocationText(d, (l: Location) => l.address),
      city := LocationText(d, (l: Location) => l.city),
      state := LocationText(d, (l: Location) => l.state),
      country := LocationText(d, (l: Location) => l.country),
      latitude := LocationCoordinate(d, (l: Location) => l.latitude),
      longitude := LocationCoordinate(d, (l: Location) => l.longitude),
      totalHoles := if main.Some? then OrElse(main.value.numberOfHoles, 0, 18) else 18,
      par := if main.Some? then OrNull(main.value.parTotal, 0) else None,
      rating := if main.Some? then OrNull(main.value.courseRating, 0.0) else None,
      slope := if main.Some? then OrNull(main.value.slopeRating, 0) else None,
      aggregateScore := None,
      confidenceRating := None,
      createdAt := now,
      updatedAt := now)
  }

  /** `insertCourse` against a store whose answer is `storeOk`: the inserted
      row, carrying the generated id, on success, and null on a store error. */
  function InsertCourse(d: CourseDetail, id: string, now: string, storeOk: bool): (inserted: Option<CourseRow>)
    ensures inserted.Some? <==> storeOk
    ensures inserted.Some? ==> inserted.value == BuildCourseRow(d, id, now) && inserted.value.id == id
  {
    if storeOk then Some(BuildCourseRow(d, id, now)) else None
  }
}
