/** Properties of the import loop, read off the trace it returns: the two
    counters count exactly the successful inserts, the number of detail
    requests is min(K, cap) per term, hole inserts only ever follow a
    successful course insert, and the all-success totals. */
module PopulateProofs {
  import opened Js
  import opened Api
  import opened Course
  import opened Holes
  import opened Populate

  /** Weights add up over concatenated traces. */
  lemma {:induction false} SumAppend(a: seq<Event>, b: seq<Event>, weight: Event -> nat)
    ensures Sum(a + b, weight) == Sum(a, weight) + Sum(b, weight)
    decreases |a|
  {
    if a == [] {
      assert a + b == b;
    } else {
      assert (a + b)[1..] == a[1..] + b;
      SumAppend(a[1..], b, weight);
    }
  }

  /** The weight of a trace of at most three events, spelled out. */
  lemma SumShort(e: seq<Event>, weight: Event -> nat)
    requires |e| <= 3
    ensures Sum(e, weight) == (if |e| > 0 then weight(e[0]) else 0)
                             + (if |e| > 1 then weight(e[1]) else 0)
                             + (if |e| > 2 then weight(e[2]) else 0)
  {
    if |e| > 0 {
      assert |e[1..]| == 0 || e[1..][0] == e[1];
      if |e| > 1 {
        assert |e[1..][1..]| == 0 || e[1..][1..][0] == e[2];
        if |e| > 2 {
          assert e[1..][1..][1..] == [];
        }
      }
    }
  }

  lemma CountsShort(e: seq<Event>)
    requires |e| <= 3
    ensures CoursesInserted(e) == (if |e| > 0 then CourseCredit(e[0]) else 0)
                                + (if |e| > 1 then CourseCredit(e[1]) else 0)
                                + (if |e| > 2 then CourseCredit(e[2]) else 0)
    ensures HolesInserted(e) == (if |e| > 0 then HoleCredit(e[0]) else 0)
                              + (if |e| > 1 then HoleCredit(e[1]) else 0)
                              + (if |e| > 2 then HoleCredit(e[2]) else 0)
    ensures DetailRequests(e) == (if |e| > 0 then FetchCredit(e[0]) else 0)
                               + (if |e| > 1 then FetchCredit(e[1]) else 0)
                               + (if |e| > 2 then FetchCredit(e[2]) else 0)
  {
    SumShort(e, CourseCredit);
    SumShort(e, HoleCredit);
    SumShort(e, FetchCredit);
  }

  lemma CountsAppend(a: seq<Event>, b: seq<Event>)
    ensures CoursesInserted(a + b) == CoursesInserted(a) + CoursesInserted(b)
    ensures HolesInserted(a + b) == HolesInserted(a) + HolesInserted(b)
    ensures DetailRequests(a + b) == DetailRequests(a) + DetailRequests(b)
  {
    SumAppend(a, b, CourseCredit);
    SumAppend(a, b, HoleCredit);
    SumAppend(a, b, FetchCredit);
  }

  /** Detail-request ids concatenate over concatenated traces. */
  lemma {:induction false} FetchedIdsAppend(a: seq<Event>, b: seq<Event>)
    ensures FetchedIds(a + b) == FetchedIds(a) + FetchedIds(b)
    decreases |a|
  {
    if a == [] {
      assert a + b == b;
    } else {
      var head := FetchedId(a[0]);
      assert (a + b)[0] == a[0];
      assert (a + b)[1..] == a[1..] + b;
      assert FetchedIds(a + b) == head + FetchedIds(a[1..] + b);
      assert FetchedIds(a) == head + FetchedIds(a[1..]);
      FetchedIdsAppend(a[1..], b);
      assert head + (FetchedIds(a[1..]) + FetchedIds(b)) == (head + FetchedIds(a[1..])) + FetchedIds(b);
    }
  }

  /** Searched terms concatenate over concatenated traces. */
  lemma {:induction false} SearchedTermsAppend(a: seq<Event>, b: seq<Event>)
    ensures SearchedTerms(a + b) == SearchedTerms(a) + SearchedTerms(b)
    decreases |a|
  {
    if a == [] {
      assert a + b == b;
    } else {
      var head := SearchedTerm(a[0]);
      assert (a + b)[0] == a[0];
      assert (a + b)[1..] == a[1..] + b;
      assert SearchedTerms(a + b) == head + SearchedTerms(a[1..] + b);
      assert SearchedTerms(a) == head + SearchedTerms(a[1..]);
      SearchedTermsAppend(a[1..], b);
      assert head + (SearchedTerms(a[1..]) + SearchedTerms(b)) == (head + SearchedTerms(a[1..])) + SearchedTerms(b);
    }
  }

  /** A trace without searches searches for nothing. */
  lemma {:induction false} NoSearches(e: seq<Event>)
    requires forall k :: 0 <= k < |e| ==> !e[k].Searched?
    ensures SearchedTerms(e) == []
    decreases |e|
  {
    if e != [] {
      NoSearches(e[1..]);
    }
  }

  /** A well-ordered trace followed by a fresh well-ordered one stays well ordered. */
  lemma WellOrderedAppend(a: seq<Event>, b: seq<Event>)
    requires WellOrdered(a) && WellOrdered(b) && StartsFresh(b)
    ensures WellOrdered(a + b)
  {
    var tr := a + b;
    forall k | 0 <= k < |tr| ensures Preceded(tr, k) {
      if k < |a| {
        assert Preceded(a, k);
      } else {
        assert Preceded(b, k - |a|);
      }
    }
  }

  /** Two accounted stretches of the loop, one after the other, account for
      their concatenation. */
  lemma AccountsAppend(t: Totals, first: Step, rest: Step, n1: nat, n2: nat)
    requires Accounts(t, first, n1) && Accounts(first.totals, rest, n2)
    ensures Accounts(t, Step(rest.totals, first.events + rest.events), n1 + n2)
  {
    CountsAppend(first.events, rest.events);
    WellOrderedAppend(first.events, rest.events);
    if first.events == [] {
      assert first.events + rest.events == rest.events;
    }
  }

  /** A loop whose every iteration is accounted is accounted as a whole, with
      the iterations' detail requests summed. */
  lemma {:induction false} ForEachAccounts<X>(items: seq<X>, from: nat, t: Totals,
                                              body: (nat, X, Totals) -> Step, fetches: (nat, X) -> nat)
    requires from <= |items|
    requires forall i, x, t' :: Accounts(t', body(i, x, t'), fetches(i, x))
    ensures Accounts(t, ForEach(items, from, t, body), SumOf(items, from, fetches))
    decreases |items| - from
  {
    if from == |items| {
      assert CoursesInserted([]) == 0 && HolesInserted([]) == 0 && DetailRequests([]) == 0;
    } else {
      var first := body(from, items[from], t);
      var rest := ForEach(items, from + 1, first.totals, body);
      ForEachAccounts(items, from + 1, first.totals, body, fetches);
      AccountsAppend(t, first, rest, fetches(from, items[from]), SumOf(items, from + 1, fetches));
      assert ForEach(items, from, t, body) == Step(rest.totals, first.events + rest.events);
    }
  }

  /** A loop whose every iteration adds `dc` courses and `dh` holes adds
      `dc` and `dh` per item. */
  lemma {:induction false} ForEachAdds<X>(items: seq<X>, from: nat, t: Totals,
                                          body: (nat, X, Totals) -> Step, dc: nat, dh: nat)
    requires from <= |items|
    requires forall i, x, t' ::
               body(i, x, t').totals.courses == t'.courses + dc && body(i, x, t').totals.holes == t'.holes + dh
    ensures ForEach(items, from, t, body).totals.courses == t.courses + (|items| - from) * dc
    ensures ForEach(items, from, t, body).totals.holes == t.holes + (|items| - from) * dh
    decreases |items| - from
  {
    if from < |items| {
      var first := body(from, items[from], t);
      ForEachAdds(items, from + 1, first.totals, body, dc, dh);
      assert ForEach(items, from, t, body).totals == ForEach(items, from + 1, first.totals, body).totals;
      assert (|items| - from) * dc == dc + (|items| - (from + 1)) * dc;
      assert (|items| - from) * dh == dh + (|items| - (from + 1)) * dh;
    }
  }

  /** A sum of terms each at most `bound` is at most `bound` per item. */
  lemma {:induction false} SumOfBounded<X>(items: seq<X>, from: nat, f: (nat, X) -> nat, bound: nat)
    requires from <= |items|
    requires forall i, x :: f(i, x) <= bound
    ensures SumOf(items, from, f) <= (|items| - from) * bound
    decreases |items| - from
  {
    if from < |items| {
      SumOfBounded(items, from + 1, f, bound);
      assert (|items| - from) * bound == bound + (|items| - (from + 1)) * bound;
    }
  }

  function OnePerCourse(pos: nat, summary: CourseSummary): nat {
    1
  }

  lemma {:induction false} SumOfOnes(items: seq<CourseSummary>, from: nat)
    requires from <= |items|
    ensures SumOf(items, from, OnePerCourse) == |items| - from
    decreases |items| - from
  {
    if from < |items| {
      SumOfOnes(items, from + 1);
    }
  }

  /** One iteration whose calls follow `CourseTrace` and whose counters
      moved by its successful inserts is accounted, with one detail request. */
  lemma CourseTraceAccounts(t: Totals, s: Step)
    requires CourseTrace(s.events)
    requires s.totals.courses == t.courses + (if |s.events| >= 2 && s.events[1].ok then 1 else 0)
    requires s.totals.holes == t.holes + (if |s.events| == 3 && s.events[2].ok then |s.events[2].rows| else 0)
    ensures Accounts(t, s, 1)
  {
    var e := s.events;
    CountsShort(e);
    if |e| >= 2 {
      assert Preceded(e, 1);
    }
    if |e| == 3 {
      assert Preceded(e, 2);
    }
  }

  /** A trace without detail requests fetches nothing. */
  lemma {:induction false} NoFetches(e: seq<Event>)
    requires forall k :: 0 <= k < |e| ==> !e[k].DetailRequested?
    ensures FetchedIds(e) == []
    decreases |e|
  {
    if e != [] {
      NoFetches(e[1..]);
    }
  }

  /** One iteration whose calls follow `CourseTrace` requests exactly the
      details of the course its first event names. */
  lemma CourseTraceFetches(e: seq<Event>)
    requires CourseTrace(e)
    ensures FetchedIds(e) == [e[0].courseId]
  {
    NoFetches(e[1..]);
  }

  /** A loop over summaries whose every iteration requests the details of its
      own summary requests them all, in order. */
  lemma {:induction false} ForEachFetchesInOrder(items: seq<CourseSummary>, from: nat, t: Totals,
                                                  body: (nat, CourseSummary, Totals) -> Step)
    requires from <= |items|
    requires forall i, x, t' :: FetchedIds(body(i, x, t').events) == [x.id]
    ensures FetchedIds(ForEach(items, from, t, body).events) == SummaryIds(items[from..])
    decreases |items| - from
  {
    if from == |items| {
      assert items[from..] == [];
    } else {
      var first := body(from, items[from], t);
      var rest := ForEach(items, from + 1, first.totals, body);
      ForEachFetchesInOrder(items, from + 1, first.totals, body);
      FetchedIdsAppend(first.events, rest.events);
      assert items[from..][1..] == items[from + 1..];
    }
  }

  /** One term fetches the details of the kept summaries, one by one, in the
      order the search returned them. */
  lemma TermFetchOrder(env: Env, cap: nat, i: nat, term: string, t: Totals)
    ensures FetchedIds(ProcessTerm(env, cap, i, term, t).events)
            == SummaryIds(Retain(SearchCourses(env.search(term)), cap))
  {
    var kept := Retain(SearchCourses(env.search(term)), cap);
    var body := CourseLoopBody(env, i);
    forall pos, summary, t' ensures FetchedIds(body(pos, summary, t').events) == [summary.id] {
      CourseTraceFetches(ProcessCourse(env, i, pos, summary, t').events);
    }
    ForEachFetchesInOrder(kept, 0, t, body);
    assert kept[0..] == kept;
    var inner := ForEach(kept, 0, t, body);
    FetchedIdsAppend([Searched(term, |SearchCourses(env.search(term))|)], inner.events);
  }

  /** A loop whose every iteration searches for nothing searches for nothing. */
  lemma {:induction false} ForEachSearchesNothing<X>(items: seq<X>, from: nat, t: Totals,
                                                     body: (nat, X, Totals) -> Step)
    requires from <= |items|
    requires forall i, x, t' :: SearchedTerms(body(i, x, t').events) == []
    ensures SearchedTerms(ForEach(items, from, t, body).events) == []
    decreases |items| - from
  {
    if from < |items| {
      var first := body(from, items[from], t);
      var rest := ForEach(items, from + 1, first.totals, body);
      ForEachSearchesNothing(items, from + 1, first.totals, body);
      SearchedTermsAppend(first.events, rest.events);
    }
  }

  /** A loop over terms whose every iteration searches for its own term
      searches for them all, in order. */
  lemma {:induction false} ForEachSearchesInOrder(items: seq<string>, from: nat, t: Totals,
                                                   body: (nat, string, Totals) -> Step)
    requires from <= |items|
    requires forall i, x, t' :: SearchedTerms(body(i, x, t').events) == [x]
    ensures SearchedTerms(ForEach(items, from, t, body).events) == items[from..]
    decreases |items| - from
  {
    if from == |items| {
      assert items[from..] == [];
    } else {
      var first := body(from, items[from], t);
      var rest := ForEach(items, from + 1, first.totals, body);
      assert SearchedTerms(first.events) == [items[from]];
      ForEachSearchesInOrder(items, from + 1, first.totals, body);
      SearchesStep(first.events, rest.events, items, from);
    }
  }

  /** One more iteration, searching for the next term, extends the searched
      suffix by one. */
  lemma SearchesStep(first: seq<Event>, rest: seq<Event>, items: seq<string>, from: nat)
    requires from < |items|
    requires SearchedTerms(first) == [items[from]]
    requires SearchedTerms(rest) == items[from + 1..]
    ensures SearchedTerms(first + rest) == items[from..]
  {
    SearchedTermsAppend(first, rest);
    assert items[from..] == [items[from]] + items[from + 1..];
  }

  /** One term searches exactly once, for that term: the courses it goes on to
      process make no searches. */
  lemma TermSearchesOnce(env: Env, cap: nat, i: nat, term: string, t: Totals)
    ensures SearchedTerms(ProcessTerm(env, cap, i, term, t).events) == [term]
  {
    var kept := Retain(SearchCourses(env.search(term)), cap);
    var body := CourseLoopBody(env, i);
    forall pos, summary, t' ensures SearchedTerms(body(pos, summary, t').events) == [] {
      CourseTraceSearchesNothing(ProcessCourse(env, i, pos, summary, t').events);
    }
    ForEachSearchesNothing(kept, 0, t, body);
    var inner := ForEach(kept, 0, t, body);
    SearchedTermsAppend([Searched(term, |SearchCourses(env.search(term))|)], inner.events);
  }

  /** The calls of one course iteration include no search. */
  lemma CourseTraceSearchesNothing(e: seq<Event>)
    requires CourseTrace(e)
    ensures SearchedTerms(e) == []
  {
    NoSearches(e);
  }

  /** Every iteration of the outer loop searches for its own term once. */
  lemma TermBodySearches(env: Env, cap: nat)
    ensures forall i, term, t' :: SearchedTerms(TermLoopBody(env, cap)(i, term, t').events) == [term]
  {
    forall i, term, t' ensures SearchedTerms(TermLoopBody(env, cap)(i, term, t').events) == [term] {
      TermSearchesOnce(env, cap, i, term, t');
    }
  }

  /** A run searches for each of its terms exactly once, in list order,
      whatever the searches answer: a failed search does not stop the run. */
  lemma RunSearches(env: Env, cap: nat, terms: seq<string>)
    ensures SearchedTerms(Run(env, cap, terms).events) == terms
  {
    TermBodySearches(env, cap);
    ForEachSearchesInOrder(terms, 0, Totals(0, 0), TermLoopBody(env, cap));
    assert terms[0..] == terms;
  }

  /** `populateDatabase` searches for the twelve fixed terms, once each, in order. */
  lemma PopulateDatabaseSearches(env: Env, cap: nat)
    ensures SearchedTerms(PopulateDatabase(env, cap).events) == SearchTerms
  {
    RunSearches(env, cap, SearchTerms);
  }

  /** One course: a single detail request, well-ordered calls, and counter
      increments that equal the successful inserts among those calls. */
  lemma CourseStepFacts(env: Env, term: nat, pos: nat, summary: CourseSummary, t: Totals)
    ensures Accounts(t, ProcessCourse(env, term, pos, summary, t), 1)
  {
    CourseTraceAccounts(t, ProcessCourse(env, term, pos, summary, t));
  }

  /** One term: exactly min(K, cap) detail requests for K search results,
      so a failed search issues none and leaves the counters alone. */
  lemma TermFacts(env: Env, cap: nat, i: nat, term: string, t: Totals)
    ensures var s := ProcessTerm(env, cap, i, term, t);
            var found := SearchCourses(env.search(term));
            && Accounts(t, s, Min(|found|, cap))
            && s.events[0] == Searched(term, |found|)
            && (env.search(term).SearchFailed? ==> s.events == [Searched(term, 0)] && s.totals == t)
  {
    var found := SearchCourses(env.search(term));
    var kept := Retain(found, cap);
    var body := CourseLoopBody(env, i);
    forall pos, summary, t' ensures Accounts(t', body(pos, summary, t'), OnePerCourse(pos, summary)) {
      CourseStepFacts(env, i, pos, summary, t');
    }
    ForEachAccounts(kept, 0, t, body, OnePerCourse);
    SumOfOnes(kept, 0);
    var inner := ForEach(kept, 0, t, body);
    var head := Step(t, [Searched(term, |found|)]);
    CountsShort(head.events);
    assert Preceded(head.events, 0);
    AccountsAppend(t, head, inner, 0, |kept|);
    assert ProcessTerm(env, cap, i, term, t) == Step(inner.totals, head.events + inner.events);
    if env.search(term).SearchFailed? {
      assert kept == [];
      assert inner == Step(t, []);
    }
  }

  /** Every iteration of the outer loop is accounted, with min(K, cap)
      detail requests. */
  lemma TermBodyAccounts(env: Env, cap: nat)
    ensures forall i, term, t' ::
              Accounts(t', TermLoopBody(env, cap)(i, term, t'), FetchesPerTerm(env, cap)(i, term))
  {
    forall i, term, t'
      ensures Accounts(t', TermLoopBody(env, cap)(i, term, t'), FetchesPerTerm(env, cap)(i, term))
    {
      TermFacts(env, cap, i, term, t');
    }
  }

  /** A run over any list of terms: the counters count exactly the successful
      inserts, the run issues min(K, cap) detail requests per term and so at
      most cap per term, and no hole insert is issued except right after a
      successful course insert, for that course. */
  lemma RunFacts(env: Env, cap: nat, terms: seq<string>)
    ensures var s := Run(env, cap, terms);
            && s.totals.courses == CoursesInserted(s.events)
            && s.totals.holes == HolesInserted(s.events)
            && DetailRequests(s.events) == ExpectedFetches(env, cap, terms)
            && DetailRequests(s.events) <= |terms| * cap
            && WellOrdered(s.events)
  {
    var body := TermLoopBody(env, cap);
    var fetches := FetchesPerTerm(env, cap);
    TermBodyAccounts(env, cap);
    ForEachAccounts(terms, 0, Totals(0, 0), body, fetches);
    SumOfBounded(terms, 0, fetches, cap);
  }

  /** `populateDatabase` itself: `totalCoursesAdded` counts exactly the
      successful course inserts and `totalHolesAdded` exactly the rows of
      successful hole inserts; at most 12 * cap detail requests; hole
      inserts only right after a successful course insert. */
  lemma PopulateDatabaseFacts(env: Env, cap: nat)
    ensures var s := PopulateDatabase(env, cap);
            && s.totals.courses == CoursesInserted(s.events)
            && s.totals.holes == HolesInserted(s.events)
            && DetailRequests(s.events) == ExpectedFetches(env, cap, SearchTerms)
            && DetailRequests(s.events) <= 12 * cap
            && WellOrdered(s.events)
  {
    RunFacts(env, cap, SearchTerms);
  }

  /** The first search term returning two summaries with cap 1: exactly one
      detail request, for the first summary; the term's calls and counters
      are those of that one course, so when it fully succeeds with n holes
      the totals grow by one course and n holes. */
  lemma PebbleBeachScenario(env: Env, a: CourseSummary, b: CourseSummary, t: Totals, n: nat)
    requires env.search("Pebble Beach") == SearchOk(Some([a, b]))
    ensures var s := ProcessTerm(env, 1, 0, "Pebble Beach", t);
            var c := ProcessCourse(env, 0, 0, a, t);
            && FetchedIds(s.events) == [a.id]
            && s.events == [Searched("Pebble Beach", 2)] + c.events
            && s.totals == c.totals
            && (Succeeds(env.world(0, 0), n) ==> s.totals == Totals(t.courses + 1, t.holes + n))
  {
    var kept := Retain([a, b], 1);
    assert kept == [a];
    var body := CourseLoopBody(env, 0);
    var c := body(0, a, t);
    assert ForEach(kept, 1, c.totals, body) == Step(c.totals, []);
    assert ForEach(kept, 0, t, body) == Step(c.totals, c.events + []);
    assert c.events + [] == c.events;
    TermFetchOrder(env, 1, 0, "Pebble Beach", t);
    assert SummaryIds([a]) == [a.id] + SummaryIds([]);
  }

  /** All-success run over any terms: every search returning at least cap
      courses and every course succeeding with n holes gives cap courses and
      cap * n holes per term. */
  lemma RunAllSucceed(env: Env, cap: nat, terms: seq<string>, n: nat)
    requires forall term :: |SearchCourses(env.search(term))| >= cap
    requires forall term, pos :: Succeeds(env.world(term, pos), n)
    ensures Run(env, cap, terms).totals.courses == |terms| * cap
    ensures Run(env, cap, terms).totals.holes == |terms| * (cap * n)
  {
    forall i, term, t' ensures
      && TermLoopBody(env, cap)(i, term, t').totals.courses == t'.courses + cap
      && TermLoopBody(env, cap)(i, term, t').totals.holes == t'.holes + cap * n
    {
      var kept := Retain(SearchCourses(env.search(term)), cap);
      var body := CourseLoopBody(env, i);
      forall pos, summary, t'' ensures
        && body(pos, summary, t'').totals.courses == t''.courses + 1
        && body(pos, summary, t'').totals.holes == t''.holes + n
      {
        assert Succeeds(env.world(i, pos), n);
      }
      ForEachAdds(kept, 0, t', body, 1, n);
    }
    ForEachAdds(terms, 0, Totals(0, 0), TermLoopBody(env, cap), cap, cap * n);
  }

  /** When every search returns at least cap courses and every course and
      hole insert succeeds with 18 holes, `populateDatabase` adds 12 * cap
      courses and 216 * cap holes (36 and 648 for cap 3). */
  lemma AllSucceedTotals(env: Env, cap: nat)
    requires forall term :: |SearchCourses(env.search(term))| >= cap
    requires forall term, pos :: Succeeds(env.world(term, pos), 18)
    ensures PopulateDatabase(env, cap).totals.courses == 12 * cap
    ensures PopulateDatabase(env, cap).totals.holes == 216 * cap
  {
    RunAllSucceed(env, cap, SearchTerms, 18);
  }
}
