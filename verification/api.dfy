/** Shapes of the golf-course lookup API payloads, as the import page reads
    them. Every property the page reads with `?.` or `||` is optional. */
module Api {
  import opened Js

  /** One entry of a search response; only its id is used. */
  datatype CourseSummary = CourseSummary(id: int)

  /** One hole of a tee: par, yardage and handicap stroke index. */
  datatype Hole = Hole(par: Option<int>, yardage: Option<int>, handicap: Option<int>)

  /** One tee configuration with its aggregates and its ordered hole list. */
  datatype Tee = Tee(
    parTotal: Option<int>,
    courseRating: Option<real>,
    slopeRating: Option<int>,
    numberOfHoles: Option<int>,
    holes: Option<seq<Hole>>)

  /** The `tees` mapping keyed by gender. A present list is truthy even when empty. */
  datatype Tees = Tees(male: Option<seq<Tee>>, female: Option<seq<Tee>>)

  datatype Location = Location(
    address: Option<string>,
    city: Option<string>,
    state: Option<string>,
    country: Option<string>,
    latitude: Option<real>,
    longitude: Option<real>)

  /** The body of a course-detail response. */
  datatype CourseDetail = CourseDetail(
    clubName: Property<string>,
    courseName: Property<string>,
    location: Option<Location>,
    tees: Option<Tees>)

  /** Outcome of one search request: a transport error or non-success status,
      or a decoded body whose `courses` array may be missing. */
  datatype SearchResponse = SearchFailed | SearchOk(courses: Option<seq<CourseSummary>>)

  /** Outcome of one detail request. */
  datatype DetailResponse = DetailFailed | DetailOk(course: CourseDetail)

  /** `searchCourses`: a failed request and a body without `courses` both
      yield the empty list; otherwise the list is returned unchanged. */
  function SearchCourses(resp: SearchResponse): (courses: seq<CourseSummary>)
    ensures resp.SearchFailed? ==> courses == []
    ensures resp.SearchOk? && resp.courses.Some? ==> courses == resp.courses.value
    ensures resp.SearchOk? && resp.courses.None? ==> courses == []
  {
    match resp
    case SearchFailed => []
    case SearchOk(cs) => if cs.Some? then cs.value else []
  }

  /** `getCourseDetails`: errors surface as null rather than propagating. */
  function GetCourseDetails(resp: DetailResponse): (d: Option<CourseDetail>)
    ensures d.None? <==> resp.DetailFailed?
    ensures d.Some? ==> resp == DetailOk(d.value)
  {
    match resp
    case DetailFailed => None
    case DetailOk(c) => Some(c)
  }
}
