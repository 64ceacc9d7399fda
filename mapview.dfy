/** The map page's display and filter rules: course autocomplete, which
    sessions are fetched, what a session marker shows, and the guards before
    a join request. */
module MapView {
  import opened Wrappers
  import opened Js
  import opened Db
  import opened Server
  import opened ClientApp

  /** A row of GET /api/courses. */
  datatype Course = Course(courseTitle: string, courseName: Option<string>)

  /** Which session list the page reloads. */
  datatype Fetch = FetchAll | FetchByCourse(course: string)

  /** What typing into the course box does. */
  datatype InputEffect = Refetch | Suggest(items: seq<Course>)

  /** What one session marker carries. */
  datatype Marker = Marker(title: Option<string>, course: Option<string>, courseName: Option<string>,
                           students: nat, sessionId: nat, description: string)

  /** What clicking "Join Group" leads to. */
  datatype JoinStep = InvalidSession | MustSignIn | PostJoin(sessionId: nat, netId: string)

  /** The autocomplete shows at most this many suggestions. */
  const MaxSuggestions: nat := 10

  // ---------------------------------------------------------------------------
  // Autocomplete

  /** A course matches a lower-cased query when its lower-cased title contains it. */
  predicate MatchesQuery(c: Course, query: string) {
    Includes(ToLower(c.courseTitle), query)
  }

  /** `courses.filter(...)`: the matching courses, in their order. */
  function Matching(courses: seq<Course>, query: string): (r: seq<Course>)
    ensures |r| <= |courses|
    ensures forall c :: c in r ==> c in courses && MatchesQuery(c, query)
    ensures forall c :: c in courses && MatchesQuery(c, query) ==> c in r
  {
    if courses == [] then []
    else (if MatchesQuery(courses[0], query) then [courses[0]] else []) + Matching(courses[1..], query)
  }

  /** `.slice(0, 10)` of the matches: the first ten, or all when fewer. */
  function Suggestions(courses: seq<Course>, query: string): (r: seq<Course>)
    ensures |r| <= MaxSuggestions
    ensures |r| == if |Matching(courses, query)| < MaxSuggestions then |Matching(courses, query)| else MaxSuggestions
    ensures forall c :: c in r ==> c in courses && MatchesQuery(c, query)
  {
    var m := Matching(courses, query);
    if |m| <= MaxSuggestions then m else m[..MaxSuggestions]
  }

  /** `a` is `b` with some elements left out, order kept. */
  predicate IsSubsequence<T(==)>(a: seq<T>, b: seq<T>)
    decreases |b|
  {
    a == [] || (b != [] && if a[0] == b[0] then IsSubsequence(a[1..], b[1..]) else IsSubsequence(a, b[1..]))
  }

  lemma {:induction false} MatchingAppend(a: seq<Course>, b: seq<Course>, query: string)
    ensures Matching(a + b, query) == Matching(a, query) + Matching(b, query)
    decreases |a|
  {
    if a == [] {
      assert a + b == b;
    } else {
      assert (a + b)[1..] == a[1..] + b;
      MatchingAppend(a[1..], b, query);
    }
  }

  lemma {:induction false} MatchingIsSubsequence(courses: seq<Course>, query: string)
    ensures IsSubsequence(Matching(courses, query), courses)
    decreases |courses|
  {
    if courses != [] {
      MatchingIsSubsequence(courses[1..], query);
      var rest := Matching(courses[1..], query);
      if !MatchesQuery(courses[0], query) {
        assert Matching(courses, query) == rest;
        SubsequenceDropHead(rest, courses);
      } else {
        assert Matching(courses, query) == [courses[0]] + rest;
        assert ([courses[0]] + rest)[1..] == rest;
      }
    }
  }

  /** A subsequence of the tail is a subsequence of the whole. */
  lemma {:induction false} SubsequenceDropHead<T>(a: seq<T>, b: seq<T>)
    requires b != [] && IsSubsequence(a, b[1..])
    ensures IsSubsequence(a, b)
    decreases |b|, 0
  {
    if a != [] && a[0] == b[0] {
      // a[1..] is a subsequence of a, so of b[1..]
      SubsequenceOfTail(a, b[1..]);
    }
  }

  /** Dropping the first element keeps a subsequence a subsequence. */
  lemma {:induction false} SubsequenceOfTail<T>(a: seq<T>, b: seq<T>)
    requires a != [] && IsSubsequence(a, b)
    ensures IsSubsequence(a[1..], b)
    decreases |b|, 1
  {
    if a[0] == b[0] {
      if a[1..] != [] && b[1..] != [] {
        SubsequenceDropHead(a[1..], b);
      } else if a[1..] != [] {
        assert false;
      }
    } else {
      SubsequenceOfTail(a, b[1..]);
      if a[1..] != [] { SubsequenceDropHead(a[1..], b); }
    }
  }

  /** A prefix of a subsequence is a subsequence. */
  lemma {:induction false} SubsequencePrefix<T>(a: seq<T>, b: seq<T>, n: nat)
    requires n <= |a| && IsSubsequence(a, b)
    ensures IsSubsequence(a[..n], b)
    decreases |b|
  {
    if n > 0 {
      if a[0] == b[0] {
        assert a[..n][1..] == a[1..][..n - 1];
        SubsequencePrefix(a[1..], b[1..], n - 1);
      } else {
        SubsequencePrefix(a, b[1..], n);
      }
    }
  }

  /** The suggestions keep the catalog's order. */
  lemma SuggestionsKeepOrder(courses: seq<Course>, query: string)
    ensures IsSubsequence(Suggestions(courses, query), courses)
  {
    MatchingIsSubsequence(courses, query);
    var m := Matching(courses, query);
    if |m| > MaxSuggestions {
      SubsequencePrefix(m, courses, MaxSuggestions);
    }
  }

  /** A matching course with fewer than ten matches before it is always
      suggested, in the position given by the matches before it. */
  lemma SuggestionsKeepEarlyMatches(courses: seq<Course>, query: string, i: nat)
    requires i < |courses| && MatchesQuery(courses[i], query)
    requires |Matching(courses[..i], query)| < MaxSuggestions
    ensures var k := |Matching(courses[..i], query)|;
      k < |Suggestions(courses, query)| && Suggestions(courses, query)[k] == courses[i]
  {
    var pre, rest := courses[..i], courses[i + 1..];
    assert courses == pre + ([courses[i]] + rest);
    MatchingAppend(pre, [courses[i]] + rest, query);
    assert ([courses[i]] + rest)[1..] == rest;
    assert Matching([courses[i]] + rest, query) == [courses[i]] + Matching(rest, query);
  }

  /** Typing into the course box: an empty value reloads every session; any
      other value is lower-cased and suggests the first matching courses. */
  function OnCourseInput(courses: seq<Course>, value: string): (r: InputEffect)
    ensures r == Refetch <==> value == ""
    ensures r.Suggest? ==> r.items == Suggestions(courses, ToLower(value))
  {
    ToLowerEmptyIff(value);
    var query := ToLower(value);
    if query == "" then Refetch else Suggest(Suggestions(courses, query))
  }

  /** filterMarkersByCourse: a non-empty course fetches that course's
      sessions, an empty one fetches all. */
  function FilterMarkersByCourse(course: string): (r: Fetch)
    ensures r == FetchAll <==> course == ""
    ensures r.FetchByCourse? ==> r.course == course
  {
    if course != "" then FetchByCourse(course) else FetchAll
  }

  /** Pressing Enter: the value is trimmed; blank fetches all, anything else
      filters by the trimmed value. */
  function OnCourseEnter(value: string): (r: Fetch)
    ensures r == FetchAll <==> forall k :: 0 <= k < |value| ==> IsWhitespace(value[k])
    ensures r.FetchByCourse? ==> r.course == Trim(value)
  {
    TrimEmptyIff(value);
    var query := Trim(value);
    if query == "" then FetchAll else FilterMarkersByCourse(query)
  }

  /** Enter does what filterMarkersByCourse does with the trimmed value, and
      the value it filters by carries no outer whitespace. */
  lemma EnterFiltersTrimmed(value: string)
    ensures OnCourseEnter(value) == FilterMarkersByCourse(Trim(value))
    ensures OnCourseEnter(value).FetchByCourse? ==>
      var c := OnCourseEnter(value).course; !IsWhitespace(c[0]) && !IsWhitespace(c[|c| - 1])
  {
    TrimEmptyIff(value);
    TrimEdges(value);
    var t := Trim(value);
    if t == "" {
      assert OnCourseEnter(value) == FetchAll == FilterMarkersByCourse(t);
    } else {
      assert OnCourseEnter(value) == FetchByCourse(t) == FilterMarkersByCourse(t);
    }
  }

  // ---------------------------------------------------------------------------
  // Markers and labels

  /** The marker drawn for one session: `students` is participantCount when
      that is truthy, else 1. */
  function MarkerOf(s: EnrichedSession): (m: Marker)
    ensures m.students >= 1
    ensures s.participantCount != 0 ==> m.students == s.participantCount
    ensures s.participantCount == 0 ==> m.students == 1
    ensures m.sessionId == s.session.sessionId && m.course == s.session.courseTitle
    ensures m.courseName == s.session.courseName && m.title == s.session.locationName
    ensures m.description == s.session.description
  {
    var v := s.session;
    Marker(v.locationName, v.courseTitle, v.courseName,
           if s.participantCount != 0 then s.participantCount else 1,
           v.sessionId, v.description)
  }

  /** A marker built from the backend's list shows the session's
      participant count, or 1 for an empty session. */
  lemma MarkerStudentsFromStore(rows: seq<SessionView>, users: map<NetId, User>, i: nat)
    requires i < |rows|
    ensures var n := |Participants(users, rows[i].sessionId)|;
      MarkerOf(EnrichSessions(rows, users)[i]).students == if n == 0 then 1 else n
  {
  }

  /** The course label: "Title - Name" when the name is truthy, else the title. */
  function CourseLabel(title: string, name: Option<string>): (r: string)
    ensures Truthy(name) ==> r == title + " - " + name.value
    ensures !Truthy(name) ==> r == title
  {
    if Truthy(name) then title + " - " + name.value else title
  }

  /** The label always begins with the title, and is the title alone exactly
      when there is no name to show. */
  lemma CourseLabelShape(title: string, name: Option<string>)
    ensures title <= CourseLabel(title, name)
    ensures CourseLabel(title, name) == title <==> !Truthy(name)
  {
    if Truthy(name) {
      assert |CourseLabel(title, name)| > |title|;
    }
  }

  /** A missing value prints as "null" in the info window's template. */
  function NullableText(s: Option<string>): string {
    if s.Some? then s.value else "null"
  }

  /** The course line of a marker's info window. */
  function InfoWindowCourse(m: Marker): (r: string)
    ensures m.course.Some? && !Truthy(m.courseName) ==> r == m.course.value
    ensures m.course.None? && !Truthy(m.courseName) ==> r == "null"
    ensures Truthy(m.courseName) ==> r == NullableText(m.course) + " - " + m.courseName.value
  {
    CourseLabel(NullableText(m.course), m.courseName)
  }

  /** The text of one entry of the course dropdown. */
  function DropdownLabel(c: Course): (r: string)
    ensures Truthy(c.courseName) ==> r == c.courseTitle + " - " + c.courseName.value
    ensures !Truthy(c.courseName) ==> r == c.courseTitle
  {
    CourseLabel(c.courseTitle, c.courseName)
  }

  // ---------------------------------------------------------------------------
  // Joining from a marker

  /** joinStudyGroup: a falsy session id is refused first, then a visitor who
      is not signed in; only then is the join posted, with the signed-in
      user's NetId. */
  function JoinStudyGroup(sessionId: nat, currentUser: Option<StoredUser>): (r: JoinStep)
    ensures r == InvalidSession <==> sessionId == 0
    ensures r == MustSignIn <==> sessionId != 0 && currentUser.None?
    ensures r.PostJoin? ==> r.sessionId == sessionId && r.netId == currentUser.value.netId
  {
    if sessionId == 0 then InvalidSession
    else if currentUser.None? then MustSignIn
    else PostJoin(sessionId, currentUser.value.netId)
  }
}
