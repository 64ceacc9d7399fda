/** The study-session store behind the StudyLync backend: the Users, Courses,
    Locations and StudySessions tables as maps, the read queries as functions
    over them, and the inserting and updating queries as methods of a
    Database object. */
module Db {
  import opened Wrappers
  import opened Js

  type NetId = string

  /** A row of Users, keyed by its UserNetId. SessionId is a nullable column. */
  datatype User = User(firstName: string, lastName: string, email: string, password: string,
                       sessionId: Option<nat>)

  /** The columns getUserByNetId selects; also the fields createUser inserts. */
  datatype Profile = Profile(netId: NetId, firstName: string, lastName: string, email: string,
                             password: string)

  /** The columns getUsersBySessionId selects: no Password. */
  datatype Member = Member(netId: NetId, firstName: string, lastName: string, email: string,
                           sessionId: nat)

  /** A row of Locations. The coordinates are kept as given; they are never computed with. */
  datatype Location = Location(name: Option<string>, longitude: Option<real>, latitude: Option<real>,
                               address: string)

  /** What createLocation is called with; every field may be undefined or null. */
  datatype LocationData = LocationData(name: Field<string>, longitude: Field<real>,
                                       latitude: Field<real>, address: Field<string>)

  /** A row of StudySessions, keyed by its SessionId. */
  datatype StudySession = StudySession(courseTitle: string, locationId: nat, status: string,
                                       description: string)

  /** One row of getTopCoursesByAttendance. */
  datatype CourseCount = CourseCount(courseTitle: string, studentCount: nat)

  /** A row of getSessionById: the session joined with its course and its
      location. `courseTitle` is the course's column: it is selected after
      the session's own CourseTitle and replaces it in the row object, so it
      is null when the LEFT JOIN finds no course. */
  datatype SessionView = SessionView(sessionId: nat, courseTitle: Option<string>,
                                     courseName: Option<string>, locationId: nat,
                                     locationName: Option<string>, latitude: Option<real>,
                                     longitude: Option<real>, status: string, description: string)

  /** The errors the queries throw. */
  datatype DbError =
    | CourseDoesNotExist(title: Option<string>)
    | LocationDoesNotExist(id: Option<nat>)
    | UserNotFound
    | UserAlreadyInSession
    | DuplicateNetId
    | UndefinedBindParameter   // the driver refuses to bind an undefined value

  // ---------------------------------------------------------------------------
  // Read queries

  /** getUserByNetId: the user's row, or null when there is none. */
  function GetUserByNetId(users: map<NetId, User>, netId: NetId): (r: Option<Profile>)
    ensures r.Some? <==> netId in users
    ensures r.Some? ==> var u := users[netId];
      r.value == Profile(netId, u.firstName, u.lastName, u.email, u.password)
  {
    if netId in users then
      var u := users[netId];
      Some(Profile(netId, u.firstName, u.lastName, u.email, u.password))
    else None
  }

  /** The NetIds whose SessionId equals `sid`; a null SessionId matches nothing. */
  function Participants(users: map<NetId, User>, sid: nat): set<NetId> {
    set n | n in users && users[n].sessionId == Some(sid)
  }

  /** getSessionParticipants: the full rows of the users in session `sid`. */
  function GetSessionParticipants(users: map<NetId, User>, sid: nat): (r: map<NetId, User>)
    ensures r.Keys == Participants(users, sid)
    ensures forall n :: n in r ==> n in users && r[n] == users[n] && r[n].sessionId == Some(sid)
  {
    map n | n in Participants(users, sid) :: users[n]
  }

  /** getUsersBySessionId: the users in session `sid`, without their passwords. */
  function GetUsersBySessionId(users: map<NetId, User>, sid: nat): (r: map<NetId, Member>)
    ensures r.Keys == Participants(users, sid)
    ensures forall n :: n in r ==>
      (n in users && r[n] == Member(n, users[n].firstName, users[n].lastName, users[n].email, sid))
  {
    var p := GetSessionParticipants(users, sid);
    map n | n in p :: Member(n, p[n].firstName, p[n].lastName, p[n].email, sid)
  }

  /** getSessionById: the joined row of session `id`, or no row. */
  function GetSessionById(courses: map<string, Option<string>>, locations: map<nat, Location>,
                          sessions: map<nat, StudySession>, id: nat): (r: Option<SessionView>)
    ensures r.Some? <==> id in sessions
    ensures r.Some? ==> var s := sessions[id];
      && r.value.sessionId == id && r.value.locationId == s.locationId
      && r.value.status == s.status && r.value.description == s.description
      && (r.value.courseTitle == if s.courseTitle in courses then Some(s.courseTitle) else None)
      && (r.value.courseName == if s.courseTitle in courses then courses[s.courseTitle] else None)
      && (r.value.locationName == if s.locationId in locations then locations[s.locationId].name else None)
      && (r.value.latitude == if s.locationId in locations then locations[s.locationId].latitude else None)
      && (r.value.longitude == if s.locationId in locations then locations[s.locationId].longitude else None)
  {
    if id !in sessions then None
    else
      var s := sessions[id];
      var course := if s.courseTitle in courses then Some(s.courseTitle) else None;
      var name := if s.courseTitle in courses then courses[s.courseTitle] else None;
      var loc := if s.locationId in locations then Some(locations[s.locationId]) else None;
      Some(SessionView(id, course, name, s.locationId,
                       if loc.Some? then loc.value.name else None,
                       if loc.Some? then loc.value.latitude else None,
                       if loc.Some? then loc.value.longitude else None,
                       s.status, s.description))
  }

  /** The course titles that have at least one session: the groups of
      getTopCoursesByAttendance. */
  function SessionTitles(sessions: map<nat, StudySession>): set<string> {
    set id | id in sessions :: sessions[id].courseTitle
  }

  /** The users sitting in some session of course `title`: the rows the LEFT
      JOIN pairs with that course's sessions. A SessionId that names no
      session pairs with nothing. */
  function Attendees(users: map<NetId, User>, sessions: map<nat, StudySession>, title: string): set<NetId> {
    set n | n in users && users[n].sessionId.Some? && users[n].sessionId.value in sessions
                       && sessions[users[n].sessionId.value].courseTitle == title
  }

  /** StudentCount of course `title`. */
  function Attendance(users: map<NetId, User>, sessions: map<nat, StudySession>, title: string): nat {
    |Attendees(users, sessions, title)|
  }

  function AttendanceCounts(users: map<NetId, User>, sessions: map<nat, StudySession>): map<string, nat> {
    map t | t in SessionTitles(sessions) :: Attendance(users, sessions, t)
  }

  /** A title of largest count. When several tie, SQL may return any of them;
      this picks one. */
  ghost function MostAttended(titles: set<string>, counts: map<string, nat>): (t: string)
    requires titles != {} && titles <= counts.Keys
    ensures t in titles
    ensures forall u :: u in titles ==> counts[u] <= counts[t]
    decreases titles
  {
    var x :| x in titles;
    if titles == {x} then x
    else
      var y := MostAttended(titles - {x}, counts);
      if counts[x] >= counts[y] then x else y
  }

  function RankedTitles(r: seq<CourseCount>): set<string> {
    set i | 0 <= i < |r| :: r[i].courseTitle
  }

  /** ORDER BY StudentCount DESC LIMIT k over the groups `titles`: repeatedly
      take a title of largest count. */
  ghost function TopByCount(titles: set<string>, counts: map<string, nat>, k: nat): (r: seq<CourseCount>)
    requires titles <= counts.Keys
    ensures |r| == if |titles| < k then |titles| else k
    decreases k
  {
    if k == 0 || titles == {} then []
    else
      var t := MostAttended(titles, counts);
      assert |titles - {t}| == |titles| - 1;
      [CourseCount(t, counts[t])] + TopByCount(titles - {t}, counts, k - 1)
  }

  /** Every row is a group of `titles` carrying that group's count. */
  ghost predicate RowsOf(r: seq<CourseCount>, titles: set<string>, counts: map<string, nat>) {
    forall i :: 0 <= i < |r| ==> r[i].courseTitle in titles && r[i].courseTitle in counts
                                 && r[i].studentCount == counts[r[i].courseTitle]
  }

  /** No title appears in two rows. */
  ghost predicate DistinctTitles(r: seq<CourseCount>) {
    forall i, j :: 0 <= i < j < |r| ==> r[i].courseTitle != r[j].courseTitle
  }

  /** StudentCount never increases down the rows. */
  ghost predicate NonIncreasing(r: seq<CourseCount>) {
    forall i, j :: 0 <= i < j < |r| ==> r[i].studentCount >= r[j].studentCount
  }

  /** A group left out of the k rows has no more students than the last row. */
  ghost predicate NoneBetterLeftOut(r: seq<CourseCount>, titles: set<string>, counts: map<string, nat>, k: nat)
    requires titles <= counts.Keys
  {
    forall u :: u in titles && u !in RankedTitles(r) ==>
      |r| == k && (k > 0 ==> counts[u] <= r[k - 1].studentCount)
  }

  /** What ORDER BY ... DESC LIMIT k promises of TopByCount: every row is a
      group with its own count, no title twice, counts non-increasing, and no
      group left out has more than the last row (so rows are missing only
      when there are fewer than k groups). */
  lemma {:induction false} TopByCountRanks(titles: set<string>, counts: map<string, nat>, k: nat)
    requires titles <= counts.Keys
    ensures var r := TopByCount(titles, counts, k);
      RowsOf(r, titles, counts) && DistinctTitles(r) && NonIncreasing(r)
      && NoneBetterLeftOut(r, titles, counts, k)
    decreases k
  {
    if k == 0 || titles == {} {
      assert RankedTitles([]) == {};
    } else {
      var t := MostAttended(titles, counts);
      var ts := titles - {t};
      var rest := TopByCount(ts, counts, k - 1);
      TopByCountRanks(ts, counts, k - 1);
      var c := CourseCount(t, counts[t]);
      var r := [c] + rest;
      assert TopByCount(titles, counts, k) == r;
      RankedPrepend(c, rest);
      assert RowsOf(r, titles, counts) by {
        forall i | 0 <= i < |r| ensures r[i].courseTitle in titles && r[i].courseTitle in counts
                                        && r[i].studentCount == counts[r[i].courseTitle] {
          if i > 0 { assert r[i] == rest[i - 1]; }
        }
      }
      assert DistinctTitles(r) by {
        forall i, j | 0 <= i < j < |r| ensures r[i].courseTitle != r[j].courseTitle {
          assert r[j] == rest[j - 1] && r[j].courseTitle in ts;
          if i > 0 { assert r[i] == rest[i - 1]; }
        }
      }
      assert NonIncreasing(r) by {
        forall i, j | 0 <= i < j < |r| ensures r[i].studentCount >= r[j].studentCount {
          assert r[j] == rest[j - 1] && r[j].courseTitle in ts;
          if i > 0 { assert r[i] == rest[i - 1]; }
        }
      }
      assert NoneBetterLeftOut(r, titles, counts, k) by {
        forall u | u in titles && u !in RankedTitles(r)
          ensures |r| == k && (k > 0 ==> counts[u] <= r[k - 1].studentCount)
        {
          assert u in ts && u !in RankedTitles(rest);
          if k - 1 > 0 { assert r[k - 1] == rest[k - 2]; }
        }
      }
    }
  }

  lemma RankedPrepend(c: CourseCount, rest: seq<CourseCount>)
    ensures RankedTitles([c] + rest) == {c.courseTitle} + RankedTitles(rest)
    ensures forall j :: 0 < j < |rest| + 1 ==> ([c] + rest)[j] == rest[j - 1]
  {
    var r := [c] + rest;
    assert r[0].courseTitle == c.courseTitle;
    forall u | u in RankedTitles(r) ensures u in {c.courseTitle} + RankedTitles(rest) {
      var i :| 0 <= i < |r| && r[i].courseTitle == u;
      if i > 0 { assert rest[i - 1].courseTitle == u; }
    }
    forall u | u in RankedTitles(rest) ensures u in RankedTitles(r) {
      var i :| 0 <= i < |rest| && rest[i].courseTitle == u;
      assert r[i + 1].courseTitle == u;
    }
  }

  /** getTopCoursesByAttendance: the three best-attended courses. */
  ghost function GetTopCoursesByAttendance(users: map<NetId, User>, sessions: map<nat, StudySession>): (r: seq<CourseCount>)
    ensures |r| <= 3
    ensures |r| == if |SessionTitles(sessions)| < 3 then |SessionTitles(sessions)| else 3
    ensures forall i, j :: 0 <= i < j < |r| ==> r[i].courseTitle != r[j].courseTitle
    ensures forall i :: 0 <= i < |r| ==>
              (r[i].courseTitle in SessionTitles(sessions)
               && r[i].studentCount == Attendance(users, sessions, r[i].courseTitle))
    ensures forall i, j :: 0 <= i < j < |r| ==> r[i].studentCount >= r[j].studentCount
    ensures forall u :: u in SessionTitles(sessions) && u !in RankedTitles(r) ==>
              |r| == 3 && Attendance(users, sessions, u) <= r[2].studentCount
  {
    var r := TopByCount(SessionTitles(sessions), AttendanceCounts(users, sessions), 3);
    TopByCountRanks(SessionTitles(sessions), AttendanceCounts(users, sessions), 3);
    assert forall i :: 0 <= i < |r| ==> r[i].courseTitle in RankedTitles(r);
    r
  }

  // ---------------------------------------------------------------------------
  // Updates, as functions of the table they change

  /** UPDATE Users SET SessionId = sid WHERE UserNetId = netId: the one row
      gets the new SessionId whatever it held; no row matches an unknown NetId. */
  function AssignSession(users: map<NetId, User>, netId: NetId, sid: nat): (r: map<NetId, User>)
    ensures r.Keys == users.Keys
    ensures netId in users ==> r[netId] == users[netId].(sessionId := Some(sid))
    ensures forall n :: n in users && n != netId ==> r[n] == users[n]
  {
    if netId in users then users[netId := users[netId].(sessionId := Some(sid))] else users
  }

  /** The callback addUserToSession runs inside its transaction: the SELECT,
      the two checks, then the UPDATE. A SessionId of 0 is falsy and passes. */
  function JoinCallback(users: map<NetId, User>, netId: NetId, sid: nat): (r: Result<map<NetId, User>, DbError>)
    ensures netId !in users <==> r == Err(UserNotFound)
    ensures netId in users && TruthyId(users[netId].sessionId) <==> r == Err(UserAlreadyInSession)
    ensures netId in users && !TruthyId(users[netId].sessionId) ==> r == Ok(AssignSession(users, netId, sid))
  {
    if netId !in users then Err(UserNotFound)
    else if TruthyId(users[netId].sessionId) then Err(UserAlreadyInSession)
    else Ok(AssignSession(users, netId, sid))
  }

  /** transaction(): commit what the callback produced, or roll back to the
      state it started from and rethrow. */
  function Transaction<S, E>(before: S, attempt: Result<S, E>): (r: (S, Outcome<E>))
    ensures attempt.Err? ==> r.0 == before && r.1 == Fail(attempt.error)
    ensures attempt.Ok? ==> r.0 == attempt.value && r.1 == Pass
  {
    match attempt
    case Ok(after) => (after, Pass)
    case Err(e) => (before, Fail(e))
  }

  /** An assignment moves `netId` into the participants of `sid` and out of
      every other session's; nobody else moves. */
  lemma ParticipantsAfterAssign(users: map<NetId, User>, netId: NetId, sid: nat, s: nat)
    requires netId in users
    ensures Participants(AssignSession(users, netId, sid), s) ==
            if s == sid then Participants(users, s) + {netId} else Participants(users, s) - {netId}
  {
  }

  /** participantCount after an assignment: session `sid` gains one unless
      the user was already in it, the session the user left loses one, and
      every other count stays. */
  lemma ParticipantCountAfterAssign(users: map<NetId, User>, netId: NetId, sid: nat, s: nat)
    requires netId in users
    ensures |Participants(AssignSession(users, netId, sid), s)| ==
            if s == sid && users[netId].sessionId != Some(sid) then |Participants(users, s)| + 1
            else if s != sid && users[netId].sessionId == Some(s) then |Participants(users, s)| - 1
            else |Participants(users, s)|
  {
    ParticipantsAfterAssign(users, netId, sid, s);
  }

  /** A successful addUserToSession raises the StudentCount of the joined
      session's course by one and leaves every other course's count alone,
      provided no session has id 0 (ids start at 1). */
  lemma AttendanceAfterJoin(users: map<NetId, User>, sessions: map<nat, StudySession>,
                            netId: NetId, sid: nat, title: string)
    requires JoinCallback(users, netId, sid).Ok?
    requires 0 !in sessions
    ensures Attendance(JoinCallback(users, netId, sid).value, sessions, title) ==
            Attendance(users, sessions, title) + (if sid in sessions && sessions[sid].courseTitle == title then 1 else 0)
  {
    var after := AssignSession(users, netId, sid);
    var a, b := Attendees(users, sessions, title), Attendees(after, sessions, title);
    assert netId !in a;
    if sid in sessions && sessions[sid].courseTitle == title {
      assert b == a + {netId};
    } else {
      assert b == a;
    }
  }

  // ---------------------------------------------------------------------------
  // Insert parameters

  /** The driver can bind every value of the Locations insert: the name and
      both coordinates are defined (the address always is, after `|| ""`). */
  predicate Bindable(data: LocationData) {
    !data.name.Undefined? && !data.longitude.Undefined? && !data.latitude.Undefined?
  }

  /** The row createLocation inserts: nulls stay NULL, and a falsy address becomes "". */
  function StoredLocation(data: LocationData): (l: Location)
    ensures l.name == AsOption(data.name) && l.longitude == AsOption(data.longitude)
    ensures l.latitude == AsOption(data.latitude)
    ensures Truthy(AsOption(data.address)) ==> l.address == data.address.value
    ensures !Truthy(AsOption(data.address)) ==> l.address == ""
  {
    Location(AsOption(data.name), AsOption(data.longitude), AsOption(data.latitude), Or(AsOption(data.address), ""))
  }

  /** `SELECT COUNT(*) FROM Courses WHERE CourseTitle = ?` is not 0; a null title matches no row. */
  predicate CourseExists(courses: map<string, Option<string>>, title: Field<string>) {
    title.Given? && title.value in courses
  }

  /** `SELECT COUNT(*) FROM Locations WHERE LocationId = ?` is not 0; a null id matches no row. */
  predicate LocationExists(locations: map<nat, Location>, id: Field<nat>) {
    id.Given? && id.value in locations
  }

  // ---------------------------------------------------------------------------
  // The database

  class Database {
    var users: map<NetId, User>
    var courses: map<string, Option<string>>  // CourseTitle -> CourseName
    var locations: map<nat, Location>
    var sessions: map<nat, StudySession>
    var nextLocationId: nat  // the AUTO_INCREMENT counters
    var nextSessionId: nat

    /** Ids are allocated from 1 upwards and never reused, and every session
        names an existing course and location. */
    ghost predicate Valid()
      reads this
    {
      && 1 <= nextLocationId && 1 <= nextSessionId
      && (forall id :: id in locations ==> 1 <= id < nextLocationId)
      && (forall id :: id in sessions ==> 1 <= id < nextSessionId)
      && (forall id :: id in sessions ==> sessions[id].courseTitle in courses
                                          && sessions[id].locationId in locations)
    }

    /** A database whose Courses table is loaded and whose other tables are empty. */
    constructor (catalog: map<string, Option<string>>)
      ensures Valid()
      ensures users == map[] && courses == catalog && locations == map[] && sessions == map[]
      ensures nextLocationId == 1 && nextSessionId == 1
    {
      users, courses, locations, sessions := map[], catalog, map[], map[];
      nextLocationId, nextSessionId := 1, 1;
    }

    /** createUser: insert the user with a null SessionId and return its row;
        a NetId already present violates the primary key and inserts nothing. */
    method CreateUser(p: Profile) returns (r: Result<Profile, DbError>)
      requires Valid()
      modifies this
      ensures Valid()
      ensures p.netId in old(users) ==> r == Err(DuplicateNetId) && users == old(users)
      ensures p.netId !in old(users) ==>
        (r == Ok(p) && users == old(users)[p.netId := User(p.firstName, p.lastName, p.email, p.password, None)])
      ensures courses == old(courses) && locations == old(locations) && sessions == old(sessions)
      ensures nextLocationId == old(nextLocationId) && nextSessionId == old(nextSessionId)
    {
      if p.netId in users {
        return Err(DuplicateNetId);
      }
      users := users[p.netId := User(p.firstName, p.lastName, p.email, p.password, None)];
      var row := GetUserByNetId(users, p.netId);
      r := Ok(row.value);
    }

    /** updateUserSession: overwrite the user's SessionId, unconditionally. */
    method UpdateUserSession(netId: NetId, sid: nat)
      requires Valid()
      modifies this
      ensures Valid()
      ensures users == AssignSession(old(users), netId, sid)
      ensures courses == old(courses) && locations == old(locations) && sessions == old(sessions)
      ensures nextLocationId == old(nextLocationId) && nextSessionId == old(nextSessionId)
    {
      users := AssignSession(users, netId, sid);
    }

    /** createLocation: insert one row under a fresh id (an empty or missing
        address is stored as "", a null name or coordinate as NULL) and return
        that id. An undefined name, longitude or latitude is refused by the
        driver before anything is inserted. */
    method CreateLocation(data: LocationData) returns (r: Result<nat, DbError>)
      requires Valid()
      modifies this
      ensures Valid()
      ensures !Bindable(data) ==>
        && r == Err(UndefinedBindParameter)
        && locations == old(locations) && nextLocationId == old(nextLocationId)
      ensures Bindable(data) ==>
        && r == Ok(old(nextLocationId)) && old(nextLocationId) >= 1 && old(nextLocationId) !in old(locations)
        && locations == old(locations)[old(nextLocationId) := StoredLocation(data)]
        && nextLocationId == old(nextLocationId) + 1
      ensures users == old(users) && courses == old(courses) && sessions == old(sessions)
      ensures nextSessionId == old(nextSessionId)
    {
      if !Bindable(data) {
        return Err(UndefinedBindParameter);
      }
      var id := nextLocationId;
      locations := locations[id := StoredLocation(data)];
      nextLocationId := nextLocationId + 1;
      r := Ok(id);
    }

    /** createStudySession: check the course, then the location, then insert
        one row under a fresh id and return that id. A failed check throws
        and inserts nothing; so does an undefined title or id, which the
        driver refuses to bind when that check's query runs. */
    method CreateStudySession(courseTitle: Field<string>, locationId: Field<nat>,
                              status: string, description: string)
      returns (r: Result<nat, DbError>)
      requires Valid()
      modifies this
      ensures Valid()
      ensures courseTitle.Undefined? ==> r == Err(UndefinedBindParameter)
      ensures !courseTitle.Undefined? && !CourseExists(courses, courseTitle) ==>
                r == Err(CourseDoesNotExist(AsOption(courseTitle)))
      ensures CourseExists(courses, courseTitle) && locationId.Undefined? ==> r == Err(UndefinedBindParameter)
      ensures CourseExists(courses, courseTitle) && !locationId.Undefined? && !LocationExists(locations, locationId) ==>
                r == Err(LocationDoesNotExist(AsOption(locationId)))
      ensures r.Ok? <==> CourseExists(courses, courseTitle) && LocationExists(locations, locationId)
      ensures r.Err? ==> sessions == old(sessions) && nextSessionId == old(nextSessionId)
      ensures r.Ok? ==>
                && r.value == old(nextSessionId) && old(nextSessionId) !in old(sessions)
                && sessions == old(sessions)[old(nextSessionId) :=
                     StudySession(courseTitle.value, locationId.value, status, description)]
                && nextSessionId == old(nextSessionId) + 1
      ensures users == old(users) && courses == old(courses) && locations == old(locations)
      ensures nextLocationId == old(nextLocationId)
    {
      if courseTitle.Undefined? {
        return Err(UndefinedBindParameter);
      }
      if !CourseExists(courses, courseTitle) {
        return Err(CourseDoesNotExist(AsOption(courseTitle)));
      }
      if locationId.Undefined? {
        return Err(UndefinedBindParameter);
      }
      if !LocationExists(locations, locationId) {
        return Err(LocationDoesNotExist(AsOption(locationId)));
      }
      var id := nextSessionId;
      sessions := sessions[id := StudySession(courseTitle.value, locationId.value, status, description)];
      nextSessionId := nextSessionId + 1;
      r := Ok(id);
    }

    /** addUserToSession: inside a transaction, refuse an unknown user and a
        user whose SessionId is truthy, otherwise assign. On either error the
        transaction rolls back and the tables are as before. */
    method AddUserToSession(netId: NetId, sid: nat) returns (r: Outcome<DbError>)
      requires Valid()
      modifies this
      ensures Valid()
      ensures netId !in old(users) ==> r == Fail(UserNotFound) && users == old(users)
      ensures netId in old(users) && TruthyId(old(users)[netId].sessionId) ==>
                r == Fail(UserAlreadyInSession) && users == old(users)
      ensures netId in old(users) && !TruthyId(old(users)[netId].sessionId) ==>
                r == Pass && users == AssignSession(old(users), netId, sid)
      ensures courses == old(courses) && locations == old(locations) && sessions == old(sessions)
      ensures nextLocationId == old(nextLocationId) && nextSessionId == old(nextSessionId)
    {
      var (after, outcome) := Transaction(users, JoinCallback(users, netId, sid));
      users := after;
      r := outcome;
    }
  }
}
