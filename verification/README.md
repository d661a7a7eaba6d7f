# Golf data populator: the import pipeline in Dafny

The golf data populator is a single-page tool. It fills a `courses` table and a
`course_holes` table from a public golf-course lookup API. One run walks a
fixed list of twelve search terms in order. For each term it searches the API
and keeps the first `cap` summaries, where `cap` is the "courses per term"
setting. For each kept summary it fetches the course details, builds and
inserts a course row, and then bulk-inserts one row per hole of the course's
main tee. It keeps two running counters, courses added and holes added.

This project models that pipeline as pure functions:

- `Js` covers the JavaScript value rules the page leans on:
  - `undefined`/`null` as `Option`, except for the two names a template
    literal renders, which are `Property` (missing, null or present);
  - falsy-coalescing `||` (`OrElse`, `OrNull`);
  - template-literal rendering of a missing value (`Template`);
  - `String.prototype.trim` (`Trim`).
- `Api` holds the payload shapes of the lookup API. It also holds the two fetch
  helpers with their error fallbacks: a failed search becomes the empty list,
  and a failed detail request becomes null.
- `Course` covers tee selection, the main tee, and the mapping from a course
  detail to a `courses` row (`insertCourse`).
- `Holes` covers the mapping from an ordered hole list to `course_holes` rows,
  including the yards-to-metres rounding, and the empty-list short circuit of
  `insertCourseHoles`.
- `Populate` is `populateDatabase` as a fold. Every outside answer comes from an
  `Env` of oracles:
  - the search response for each term;
  - for each (term index, position), the detail response, the UUIDs handed
    out, and whether each store write succeeds;
  - one timestamp.

  The fold returns the two counters and the trace of external calls it made,
  in order.
- `PopulateProofs` holds the properties of the loop, read off that trace:
  - the counters count exactly the successful inserts;
  - each term issues min(K, cap) detail requests, in search order;
  - a hole insert only ever follows a successful insert of its own course;
  - a run searches for each of its terms exactly once, in list order;
  - the all-success totals.

The course/hole selection follows the code, not its comment. The comment
describes the female tee list as a fallback for a missing male list. But
`tees?.male || tees?.female || []` keeps a present, empty `male` array, because
arrays are truthy in JavaScript. Such a course gets a row with
`total_holes = 18` and null aggregates, and no holes are inserted for it.
`SelectTees` models exactly that.

## Model

| member | source | states |
|---|---|---|
| Js.OrElse | golf-data-populator-src/app/page.tsx:98 | `v \|\| d` yields the value when it is truthy and the default otherwise; with a non-falsy default the result is never falsy |
| Js.OrNull | golf-data-populator-src/app/page.tsx:92-101 | `v \|\| null` is non-null exactly when `v` is truthy, and then it is `v` unchanged: a stored nullable column never holds 0, 0.0 or "" |
| Js.Template | golf-data-populator-src/app/page.tsx:91 | a present name renders as itself, a missing one as "undefined" and a JSON `null` one as "null" |
| Js.Trim | golf-data-populator-src/app/page.tsx:91 | the trimmed name neither starts nor ends with whitespace, is no longer than the input, and an already trimmed string is returned unchanged |
| Js.TrimStripsWhitespaceOnly | golf-data-populator-src/app/page.tsx:91 | trim removes a whitespace-only prefix and a whitespace-only suffix and keeps the middle contiguous and unchanged |
| Js.TrimKeepsNonWhitespace | golf-data-populator-src/app/page.tsx:91 | no non-whitespace character of the input is lost by trim |
| Api.SearchCourses | golf-data-populator-src/app/page.tsx:39-50 | a failed search and a body without `courses` both give the empty list; otherwise the summaries come back unchanged and in order |
| Api.GetCourseDetails | golf-data-populator-src/app/page.tsx:66-76 | the result is null exactly when the request failed, and otherwise is the decoded detail body |
| Course.SelectTees | golf-data-populator-src/app/page.tsx:82 | a present male list wins, even when empty; female is used only when male is absent; no tees gives the empty list |
| Course.MainTee | golf-data-populator-src/app/page.tsx:83 | a main tee exists exactly when the selected list is non-empty, and it is the list's first entry |
| Course.HoleList | golf-data-populator-src/app/page.tsx:208-209 | the orchestrator's hole list is the holes of the same main tee the course row was built from, and empty without one |
| Course.CourseName | golf-data-populator-src/app/page.tsx:91 | with both names present and no surrounding whitespace, the name is `club - course` verbatim |
| Course.CourseNameOfAbsentClub | golf-data-populator-src/app/page.tsx:91 | a JSON `null` club name puts "null" in front of the course name, a missing one puts "undefined" there; neither is dropped |
| Course.CourseNameKeepsDash | golf-data-populator-src/app/page.tsx:91 | for any payload, even one with both names missing, the course name is non-empty and contains the separating dash |
| Course.LocationText | golf-data-populator-src/app/page.tsx:92-95 | a location text column is present exactly when the location and the property are present and non-empty, and then equals the property |
| Course.LocationCoordinate | golf-data-populator-src/app/page.tsx:96-97 | a coordinate column is present exactly when the location and a non-zero coordinate are present, and then equals it |
| Course.BuildCourseRow | golf-data-populator-src/app/page.tsx:89-106 | the row carries the generated id and the trimmed name; the six location columns are null without a location and otherwise the `\|\| null` of its properties; without a main tee, total holes is 18 and par, rating and slope are null; with one, they come from the main tee under the `\|\|` defaults; total holes is never 0; no nullable aggregate holds a falsy value; the scoring fields start null; both timestamps are the same instant |
| Course.InsertCourse | golf-data-populator-src/app/page.tsx:110-122 | the result is non-null exactly when the store accepts the insert, and then it is the built row with the generated id |
| Holes.RoundToMeters | golf-data-populator-src/app/page.tsx:145 | the metre value is within half a metre of yards * 0.9144, with halves going up, as `Math.round` does |
| Holes.Meters | golf-data-populator-src/app/page.tsx:145 | metres are non-null exactly when the yardage is truthy, are then never 0, and are the rounding of the yardage |
| Holes.MapHole | golf-data-populator-src/app/page.tsx:139-149 | one hole row: owner course, id, number index + 1, par defaulting to 4, yardage and handicap kept only when truthy, and a well-formed row |
| Holes.MapHolesFrom | golf-data-populator-src/app/page.tsx:139-149 | mapping from a position on yields one row per remaining hole, each the mapping of the hole at the same position |
| Holes.MapHoles | golf-data-populator-src/app/page.tsx:139-149 | N holes give N rows, row k has hole number k + 1 and the given course id, and every row is well formed |
| Holes.HoleNumbersContiguous | golf-data-populator-src/app/page.tsx:142 | the hole numbers of the rows are exactly 1..N and strictly increase in input order |
| Holes.InsertCourseHoles | golf-data-populator-src/app/page.tsx:129-162 | an absent or empty list returns false without any insert; otherwise one bulk insert of exactly one row per hole is issued, and the result is true exactly when the store accepts it |
| Populate.Retain | golf-data-populator-src/app/page.tsx:196 | the kept summaries are a prefix of the search results of length min(K, cap) |
| Populate.ProcessCourse | golf-data-populator-src/app/page.tsx:198-224 | one course: one detail request for its id; a course insert of the built row exactly when details came back; a hole insert only after a successful course insert, with rows for that course; the course counter moves exactly on course-insert success, whatever happens to the holes; the hole counter moves by the hole-list length exactly on hole-insert success; a hole insert is issued exactly when details came back, the course insert succeeded and the main tee's hole list is non-empty, and its rows are the mapping of that list |
| Populate.HolesAddedBy | golf-data-populator-src/app/page.tsx:206-216 | holes one course adds, as an independent definition: its main-tee list length when details, course insert and hole insert all succeed, else 0; `Populate.ProcessCourse`'s contract equates the hole counter's step with it |
| Populate.ProcessTerm | golf-data-populator-src/app/page.tsx:191-200 | one iteration of the outer loop; its contract is stated by `PopulateProofs.TermFacts`, `PopulateProofs.TermFetchOrder` and `PopulateProofs.TermSearchesOnce` |
| Populate.Run | golf-data-populator-src/app/page.tsx:188-225 | the loop over a term list from zero counters; its contract is stated by `PopulateProofs.RunFacts`, `PopulateProofs.RunSearches` and `PopulateProofs.RunAllSucceed` |
| Populate.PopulateDatabase | golf-data-populator-src/app/page.tsx:182-225 | the loop over the twelve fixed terms; its contract is stated by `PopulateProofs.PopulateDatabaseFacts`, `PopulateProofs.PopulateDatabaseSearches` and `PopulateProofs.AllSucceedTotals` |
| PopulateProofs.CourseTraceAccounts | golf-data-populator-src/app/page.tsx:200-219 | an iteration with that call shape is accounted: its counter increments are its successful inserts and it makes one detail request |
| PopulateProofs.CourseStepFacts | golf-data-populator-src/app/page.tsx:198-224 | each course iteration is accounted and well ordered |
| PopulateProofs.TermFacts | golf-data-populator-src/app/page.tsx:191-225 | one term: the search comes first, exactly min(K, cap) detail requests follow, and a failed search makes no further call and leaves the counters unchanged |
| PopulateProofs.TermFetchOrder | golf-data-populator-src/app/page.tsx:193-200 | one term requests the details of the kept summaries one by one, in the order the search returned them |
| PopulateProofs.PebbleBeachScenario | golf-data-populator-src/app/page.tsx:182-225 | "Pebble Beach" with two results and cap 1 gives one detail request, for the first result; a fully successful course with n holes adds one course and n holes |
| PopulateProofs.TermSearchesOnce | golf-data-populator-src/app/page.tsx:191-200 | one outer iteration makes exactly one search, for its own term; the courses it processes make none |
| PopulateProofs.RunSearches | golf-data-populator-src/app/page.tsx:191-193 | a run over any term list searches for exactly those terms, each once, in list order, whatever the searches answer, so a failed search does not stop the later terms |
| PopulateProofs.PopulateDatabaseSearches | golf-data-populator-src/app/page.tsx:182-193 | `populateDatabase` searches for the twelve fixed terms, each once, in the listed order |
| PopulateProofs.RunFacts | golf-data-populator-src/app/page.tsx:188-225 | over any term list, the counters equal the successful course inserts and hole rows in the trace, detail requests total the per-term min(K, cap) and stay within cap per term, and calls are well ordered |
| PopulateProofs.PopulateDatabaseFacts | golf-data-populator-src/app/page.tsx:182-228 | the same for the fixed twelve terms, with at most 12 * cap detail requests |
| PopulateProofs.RunAllSucceed | golf-data-populator-src/app/page.tsx:191-225 | when every search returns at least cap results and every course fully succeeds with n holes, a run adds cap courses and cap * n holes per term |
| PopulateProofs.AllSucceedTotals | golf-data-populator-src/app/page.tsx:182-233 | with full success and 18 holes per course, the summary shows 12 * cap courses and 216 * cap holes |

## Left out

- The HTTP requests themselves are not modelled: URL building, query encoding, the API-key header and the status check. A search or detail request is an oracle answer. A thrown fetch, a non-success status and an undecodable body all fold into `SearchFailed` / `DetailFailed`.
- A detail body that is literally JSON `null` is not modelled separately. The page ends up treating it as "no details", the same as `DetailFailed`.
- The database client is not modelled. Each insert is an oracle boolean. A successful course insert is assumed to echo the row it was given, so `data[0].id` is the generated id.
- Exceptions other than store errors inside the two insert helpers are not modelled. The source catches them and turns them into the same null / false results.
- `uuidv4` and `new Date().toISOString()` become parameters. Every row of a run uses one timestamp string.
- The 2.5-second delay between courses is left out: it has no effect on data or counters.
- The React state (`step`, `isLoading`, `summary`), the log lines, the credential form and the page rendering are left out. They are UI, not pipeline.
- `next.config.ts` is left out: it is build configuration.
- JSON `null` and a missing property are both `None`, except for `club_name` and `course_name`. The page reads every other field with `?.` or `||`, which treat the two alike. The template literal that builds the course name renders them differently ("null" and "undefined"), so those two fields keep the distinction.
- Every entry of a payload is assumed well shaped: a summary, tee or hole is an object, and `courses` is an array. The page has no per-course `try`, so some malformed payloads make the loop body throw:
  - a `null` summary throws at `course.id` (page.tsx:200);
  - a truthy `courses` value that is neither an array nor a string throws at `.slice` (page.tsx:196). A string does not throw: its characters are walked as summaries with an undefined id, and each gives a failed detail request;
  - a `null` first tee is read as "no main tee" by `insertCourse`, so the course row is still built and stored. It then throws at `tees[0].holes` (page.tsx:209), after the insert succeeded (page.tsx:206). That stored course is never counted, because page.tsx:218 is not reached.

  Such a throw is caught only by the outer handler of `populateDatabase` (page.tsx:236-237), which ends the whole run: the remaining terms are skipped and the summary is never set. The model's types exclude such payloads, so this abort path is not modelled.
- API numbers are modelled as integers (par, yardage, handicap, slope, hole count) or reals (ratings, coordinates). Strings, booleans and other non-number values in those fields are not modelled, and neither are NaN and IEEE-754 rounding.
- Holes.RoundToMeters: computes `Math.round(yards * 0.9144)` in exact arithmetic, not in binary floating point. Where the exact product is a whole number plus one half, the double-precision product may fall on the other side of the half and round the other way.
- The per-term cap is any natural number. The form offers 1, 2, 3 or 5.
