/** `populateDatabase`: the sequential import loop over the fixed search
    terms, as a pure fold. Every network call and store write is an oracle
    answer read from an `Env`; the fold returns the two running counters and
    the trace of external calls it issued, in order. */
module Populate {
  import opened Js
  import opened Api
  import opened Course
  import opened Holes

  /** The fixed search terms, walked in this order. */
  const SearchTerms: seq<string> := [
    "Pebble Beach", "Augusta", "St Andrews", "Pinehurst",
    "Bethpage", "Torrey Pines", "Whistling Straits", "Oakmont",
    "Muirfield", "Royal Melbourne", "TPC Sawgrass", "Kiawah Island"
  ]

  /** Everything the outside world decides about one retained course: the
      detail response, the UUIDs `uuidv4` hands out (hole ids by 0-based
      position), and whether the store accepts the course and hole inserts. */
  datatype CourseWorld = CourseWorld(
    detail: DetailResponse,
    courseUuid: string,
    holeUuid: nat -> string,
    courseInsertOk: bool,
    holesInsertOk: bool)

  /** The oracles of one run: search answers by term text, per-course worlds
      by (term index, position within the retained list), and the instant
      used for every timestamp. */
  datatype Env = Env(search: string -> SearchResponse, world: (nat, nat) -> CourseWorld, now: string)

  /** One external call, with its outcome. */
  datatype Event =
    | Searched(term: string, found: nat)
    | DetailRequested(courseId: int, obtained: bool)
    | CourseInsertAttempted(row: CourseRow, ok: bool)
    | HoleInsertAttempted(rows: seq<HoleRow>, ok: bool)

  /** `totalCoursesAdded` and `totalHolesAdded`. */
  datatype Totals = Totals(courses: nat, holes: nat)

  /** The counters after a stretch of the loop and the calls it made. */
  datatype Step = Step(totals: Totals, events: seq<Event>)

  function Min(a: nat, b: nat): nat {
    if a <= b then a else b
  }

  /** `courses.slice(0, cap)`: the first min(K, cap) summaries, in order. */
  function Retain(courses: seq<CourseSummary>, cap: nat): (kept: seq<CourseSummary>)
    ensures |kept| == Min(|courses|, cap) && |kept| <= cap
    ensures kept == courses[..|kept|]
  {
    if |courses| <= cap then courses else courses[..cap]
  }

  /** The calls one iteration of the inner loop may make: a detail request;
      then, only if details came back, a course insert; then, only if that
      insert succeeded, one non-empty hole insert for that course's rows. */
  predicate CourseTrace(e: seq<Event>) {
    && 1 <= |e| <= 3
    && e[0].DetailRequested?
    && (|e| >= 2 ==> e[0].obtained && e[1].CourseInsertAttempted?)
    && (|e| == 3 ==>
          && e[1].ok && e[2].HoleInsertAttempted? && e[2].rows != []
          && forall j :: 0 <= j < |e[2].rows| ==> e[2].rows[j].courseId == e[1].row.id)
  }

  /** The body of the inner loop for the course at position `pos` of term
      `term`. Its calls follow `CourseTrace`; the course counter moves
      exactly when details came back and the course insert succeeded,
      whatever happens to the holes; the hole counter moves by the rows of a
      successful hole insert, which is the length of the main tee's list. */
  function ProcessCourse(env: Env, term: nat, pos: nat, summary: CourseSummary, t: Totals): (s: Step)
    ensures CourseTrace(s.events)
    ensures var w := env.world(term, pos);
            var details := GetCourseDetails(w.detail);
            && s.events[0] == DetailRequested(summary.id, details.Some?)
            && (|s.events| >= 2 <==> details.Some?)
            && (|s.events| >= 2 ==> s.events[1].row == BuildCourseRow(details.value, w.courseUuid, env.now))
            && s.totals.courses == t.courses + (if details.Some? && w.courseInsertOk then 1 else 0)
            && s.totals.courses == t.courses + (if |s.events| >= 2 && s.events[1].ok then 1 else 0)
            && s.totals.holes == t.holes + HolesAddedBy(w)
            && s.totals.holes == t.holes + (if |s.events| == 3 && s.events[2].ok then |s.events[2].rows| else 0)
    ensures var w := env.world(term, pos);
            var details := GetCourseDetails(w.detail);
            && (|s.events| == 3 <==>
                  (&& details.Some? && w.courseInsertOk
                   && HoleList(details.value).Some? && |HoleList(details.value).value| > 0))
            && (details.Some? && |s.events| == 3 ==>
                  s.events[2].rows == MapHoles(w.courseUuid, HoleList(details.value).value, w.holeUuid, env.now))
  {
    var w := env.world(term, pos);
    var details := GetCourseDetails(w.detail);
    if details.None? then
      Step(t, [DetailRequested(summary.id, false)])
    else
      var d := details.value;
      var attempted := CourseInsertAttempted(BuildCourseRow(d, w.courseUuid, env.now), w.courseInsertOk);
      var inserted := InsertCourse(d, w.courseUuid, env.now, w.courseInsertOk);
      if inserted.None? then
        Step(t, [DetailRequested(summary.id, true), attempted])
      else
        var holes := HoleList(d);
        var write := InsertCourseHoles(inserted.value.id, holes, w.holeUuid, env.now, w.holesInsertOk);
        var holeEvents := if write.issued.Some? then [HoleInsertAttempted(write.issued.value, write.success)] else [];
        var added := if write.success then |holes.value| else 0;
        Step(Totals(t.courses + 1, t.holes + added), [DetailRequested(summary.id, true), attempted] + holeEvents)
  }

  /** The holes one course adds to `totalHolesAdded`: the length of its hole
      list when details, the course insert and the hole insert all succeed. */
  function HolesAddedBy(w: CourseWorld): nat {
    if w.detail.DetailOk? && w.courseInsertOk && w.holesInsertOk && HoleList(w.detail.course).Some?
    then |HoleList(w.detail.course).value|
    else 0
  }

  /** A `for (const x of items)` loop from position `from` on, threading the
      two counters through `body`, which also receives the position. */
  function ForEach<X>(items: seq<X>, from: nat, t: Totals, body: (nat, X, Totals) -> Step): Step
    requires from <= |items|
    decreases |items| - from
  {
    if from == |items| then Step(t, [])
    else
      var first := body(from, items[from], t);
      var rest := ForEach(items, from + 1, first.totals, body);
      Step(rest.totals, first.events + rest.events)
  }

  /** The body of the inner loop, for the term at index `term`. */
  function CourseLoopBody(env: Env, term: nat): (nat, CourseSummary, Totals) -> Step {
    (pos: nat, summary: CourseSummary, t: Totals) => ProcessCourse(env, term, pos, summary, t)
  }

  /** One iteration of the outer loop: search, truncate to `cap`, process. */
  function ProcessTerm(env: Env, cap: nat, i: nat, term: string, t: Totals): Step {
    var found := SearchCourses(env.search(term));
    var inner := ForEach(Retain(found, cap), 0, t, CourseLoopBody(env, i));
    Step(inner.totals, [Searched(term, |found|)] + inner.events)
  }

  /** The body of the outer loop. */
  function TermLoopBody(env: Env, cap: nat): (nat, string, Totals) -> Step {
    (i: nat, term: string, t: Totals) => ProcessTerm(env, cap, i, term, t)
  }

  /** A run over a list of terms; both counters start at zero. */
  function Run(env: Env, cap: nat, terms: seq<string>): Step {
    ForEach(terms, 0, Totals(0, 0), TermLoopBody(env, cap))
  }

  /** `populateDatabase`: a run over the fixed search terms. */
  function PopulateDatabase(env: Env, cap: nat): Step {
    Run(env, cap, SearchTerms)
  }

  // Reading the trace

  function Sum(trace: seq<Event>, weight: Event -> nat): nat {
    if trace == [] then 0 else weight(trace[0]) + Sum(trace[1..], weight)
  }

  function CourseCredit(e: Event): nat {
    if e.CourseInsertAttempted? && e.ok then 1 else 0
  }

  function HoleCredit(e: Event): nat {
    if e.HoleInsertAttempted? && e.ok then |e.rows| else 0
  }

  function FetchCredit(e: Event): nat {
    if e.DetailRequested? then 1 else 0
  }

  /** Successful course inserts in a trace. */
  function CoursesInserted(trace: seq<Event>): nat {
    Sum(trace, CourseCredit)
  }

  /** Rows written by successful hole inserts in a trace. */
  function HolesInserted(trace: seq<Event>): nat {
    Sum(trace, HoleCredit)
  }

  /** Detail requests in a trace. */
  function DetailRequests(trace: seq<Event>): nat {
    Sum(trace, FetchCredit)
  }

  /** The course id an event requested details for, if it is a detail request. */
  function FetchedId(e: Event): seq<int> {
    if e.DetailRequested? then [e.courseId] else []
  }

  /** The course ids of the detail requests in a trace, in order. */
  function FetchedIds(trace: seq<Event>): seq<int> {
    if trace == [] then [] else FetchedId(trace[0]) + FetchedIds(trace[1..])
  }

  /** The term an event searched for, if it is a search. */
  function SearchedTerm(e: Event): seq<string> {
    if e.Searched? then [e.term] else []
  }

  /** The terms searched for in a trace, in order. */
  function SearchedTerms(trace: seq<Event>): seq<string> {
    if trace == [] then [] else SearchedTerm(trace[0]) + SearchedTerms(trace[1..])
  }

  /** The ids of a list of search summaries, in order. */
  function SummaryIds(courses: seq<CourseSummary>): seq<int> {
    if courses == [] then [] else [courses[0].id] + SummaryIds(courses[1..])
  }

  /** The call discipline of the loop: a course insert only straight after a
      detail request that obtained details; a hole insert only straight after
      a successful course insert, with a non-empty batch of rows that all
      point at the course row just inserted. */
  predicate WellOrdered(trace: seq<Event>) {
    forall k :: 0 <= k < |trace| ==> Preceded(trace, k)
  }

  predicate Preceded(trace: seq<Event>, k: nat)
    requires k < |trace|
  {
    && (trace[k].CourseInsertAttempted? ==>
          k > 0 && trace[k - 1].DetailRequested? && trace[k - 1].obtained)
    && (trace[k].HoleInsertAttempted? ==>
          && k > 0 && trace[k - 1].CourseInsertAttempted? && trace[k - 1].ok
          && trace[k].rows != []
          && forall j :: 0 <= j < |trace[k].rows| ==> trace[k].rows[j].courseId == trace[k - 1].row.id)
  }

  /** A trace that may follow any other without breaking `WellOrdered`. */
  predicate StartsFresh(trace: seq<Event>) {
    trace == [] || trace[0].Searched? || trace[0].DetailRequested?
  }

  /** A stretch of the loop that started from counters `t` and issued
      `fetches` detail requests: the counters moved by exactly the
      successful inserts in its trace, and its calls are well ordered. */
  predicate Accounts(t: Totals, s: Step, fetches: nat) {
    && s.totals.courses == t.courses + CoursesInserted(s.events)
    && s.totals.holes == t.holes + HolesInserted(s.events)
    && DetailRequests(s.events) == fetches
    && WellOrdered(s.events)
    && StartsFresh(s.events)
  }

  /** The sum of `f` over the positions `from..|items|`. */
  function SumOf<X>(items: seq<X>, from: nat, f: (nat, X) -> nat): nat
    requires from <= |items|
    decreases |items| - from
  {
    if from == |items| then 0 else f(from, items[from]) + SumOf(items, from + 1, f)
  }

  /** Detail requests a term should cause when its search returns K
      summaries: min(K, cap). */
  function FetchesPerTerm(env: Env, cap: nat): (nat, string) -> nat {
    (i: nat, term: string) => Min(|SearchCourses(env.search(term))|, cap)
  }

  /** Detail requests a run over `terms` should cause. */
  function ExpectedFetches(env: Env, cap: nat, terms: seq<string>): nat {
    SumOf(terms, 0, FetchesPerTerm(env, cap))
  }

  /** A course whose details, course insert and hole insert all succeed, and
      whose main tee lists `n` holes. */
  predicate Succeeds(w: CourseWorld, n: nat) {
    && w.detail.DetailOk?
    && HoleList(w.detail.course).Some?
    && |HoleList(w.detail.course).value| == n
    && w.courseInsertOk
    && w.holesInsertOk
  }
}
