/** The HTTP routes of the StudyLync backend that decide something: each
    handler maps a request and the store to a response and the new store. */
module Server {
  import opened Wrappers
  import opened Js
  import opened Db

  /** A session row with the number of its participants added. */
  datatype EnrichedSession = EnrichedSession(session: SessionView, participantCount: nat)

  /** The JSON bodies the routes answer with. */
  datatype Body =
    | ErrorBody(error: string)
    | CourseBody(courseTitle: string, courseName: Option<string>)
    | SessionBody(session: Option<SessionView>, participants: map<NetId, Member>)
    | CreatedSession(session: Option<SessionView>)
    | SessionList(sessions: seq<EnrichedSession>)
    | UserBody(user: Profile)
    | UserList(users: map<NetId, User>)
    | UndefinedJson    // res.json(undefined): a 200 response with no JSON value
    | NoContent

  datatype Response = Response(status: nat, body: Body)

  /** The body of POST /api/study-sessions. `locationId` and `courseTitle`
      reach a bind parameter, so undefined and null are told apart there;
      `location` is read only when it is a (truthy) object; the other fields
      are only tested for truthiness. */
  datatype CreateSessionRequest = CreateSessionRequest(
    locationId: Field<nat>, location: Option<LocationData>, courseTitle: Field<string>,
    status: Option<string>, description: Option<string>, creatorNetId: Option<string>)

  /** Which query GET /api/study-sessions runs. */
  datatype SessionQuery = AllSessions | SessionsOfCourse(courseTitle: string)

  // ---------------------------------------------------------------------------
  // Read routes

  /** GET /api/courses/:title: 404 when no row has that title, else the row. */
  function GetCourseRoute(courses: map<string, Option<string>>, title: string): (r: Response)
    ensures r.status == 404 <==> title !in courses
    ensures title !in courses ==> r.body == ErrorBody("Course not found")
    ensures title in courses ==> r == Response(200, CourseBody(title, courses[title]))
  {
    if title !in courses then Response(404, ErrorBody("Course not found"))
    else Response(200, CourseBody(title, courses[title]))
  }

  /** GET /api/study-sessions/:id: 404 when the session does not exist, else
      its joined row together with its participants. */
  function GetSessionRoute(db: Database, id: nat): (r: Response)
    reads db
    ensures r.status == 404 <==> id !in db.sessions
    ensures id !in db.sessions ==> r.body == ErrorBody("Study session not found")
    ensures id in db.sessions ==>
      r == Response(200, SessionBody(GetSessionById(db.courses, db.locations, db.sessions, id),
                                     GetUsersBySessionId(db.users, id)))
    ensures id in db.sessions ==>
      (r.body.session.Some? && r.body.session.value.sessionId == id &&
       r.body.participants.Keys == Participants(db.users, id))
  {
    var row := GetSessionById(db.courses, db.locations, db.sessions, id);
    if row.None? then Response(404, ErrorBody("Study session not found"))
    else Response(200, SessionBody(row, GetUsersBySessionId(db.users, id)))
  }

  /** GET /api/study-sessions filters by course exactly when `?course=` is truthy. */
  function ListSessionsQuery(course: Option<string>): (q: SessionQuery)
    ensures q.SessionsOfCourse? <==> Truthy(course)
    ensures q.SessionsOfCourse? ==> q.courseTitle == course.value
  {
    if Truthy(course) then SessionsOfCourse(course.value) else AllSessions
  }

  /** GET /api/study-sessions: every row the query returned, in the order it
      returned them, unchanged, with participantCount set to the number of
      users whose SessionId is that row's id. */
  function EnrichSessions(rows: seq<SessionView>, users: map<NetId, User>): (r: seq<EnrichedSession>)
    ensures |r| == |rows|
    ensures forall i :: 0 <= i < |rows| ==> r[i].session == rows[i]
    ensures forall i :: 0 <= i < |rows| ==>
      r[i].participantCount == |Participants(users, rows[i].sessionId)|
  {
    seq(|rows|, i requires 0 <= i < |rows| =>
      EnrichedSession(rows[i], |GetUsersBySessionId(users, rows[i].sessionId)|))
  }

  /** After a user is assigned to session `sid`, re-enriching the same rows
      raises the count of every row of `sid` by one (unless the user was
      already there), lowers the rows of the session the user left, and
      leaves the rest. */
  lemma EnrichAfterAssign(rows: seq<SessionView>, users: map<NetId, User>, netId: NetId, sid: nat, i: nat)
    requires netId in users && i < |rows|
    ensures var before, after := EnrichSessions(rows, users), EnrichSessions(rows, AssignSession(users, netId, sid));
      && after[i].session == before[i].session
      && after[i].participantCount ==
           if rows[i].sessionId == sid && users[netId].sessionId != Some(sid) then before[i].participantCount + 1
           else if rows[i].sessionId != sid && users[netId].sessionId == Some(rows[i].sessionId) then before[i].participantCount - 1
           else before[i].participantCount
  {
    ParticipantCountAfterAssign(users, netId, sid, rows[i].sessionId);
  }

  // ---------------------------------------------------------------------------
  // Create and join

  /** A new location is created only when the body has no truthy locationId
      but does carry location data. */
  predicate CreatesLocation(req: CreateSessionRequest) {
    !TruthyId(AsOption(req.locationId)) && req.location.Some?
  }

  /** What the route passes to createLocation: the body's name and
      coordinates as they are, and the address defaulted to "N/A". */
  function LocationRequest(req: CreateSessionRequest): (d: LocationData)
    requires req.location.Some?
    ensures d.name == req.location.value.name && d.longitude == req.location.value.longitude
    ensures d.latitude == req.location.value.latitude
    ensures d.address == Given(Or(AsOption(req.location.value.address), "N/A"))
  {
    var l := req.location.value;
    LocationData(l.name, l.longitude, l.latitude, Given(Or(AsOption(l.address), "N/A")))
  }

  /** The location insert is attempted but the driver refuses it: the body's
      location lacks a name or a coordinate. */
  predicate LocationRejected(req: CreateSessionRequest) {
    CreatesLocation(req) && !Bindable(LocationRequest(req))
  }

  /** The row inserted for the body's location data: a null name or
      coordinate is stored as NULL, and a falsy address becomes "N/A". */
  function NewLocationRow(req: CreateSessionRequest): (l: Location)
    requires req.location.Some?
    ensures l.name == AsOption(req.location.value.name)
    ensures l.longitude == AsOption(req.location.value.longitude)
    ensures l.latitude == AsOption(req.location.value.latitude)
    ensures Truthy(AsOption(req.location.value.address)) ==> l.address == req.location.value.address.value
    ensures !Truthy(AsOption(req.location.value.address)) ==> l.address == "N/A"
  {
    StoredLocation(LocationRequest(req))
  }

  /** The location id the session is created with: the new location's id when
      one is inserted, the body's locationId otherwise. */
  function LocationIdUsed(req: CreateSessionRequest, newLocationId: nat): (r: Field<nat>)
    ensures CreatesLocation(req) ==> r == Given(newLocationId)
    ensures !CreatesLocation(req) ==> r == req.locationId
  {
    if CreatesLocation(req) then Given(newLocationId) else req.locationId
  }

  /** The row POST /api/study-sessions asks createStudySession to insert;
      status defaults to "active", description to "". */
  function RequestedSession(req: CreateSessionRequest, locationId: nat): (s: StudySession)
    requires req.courseTitle.Given?
    ensures s.courseTitle == req.courseTitle.value && s.locationId == locationId
    ensures Truthy(req.status) ==> s.status == req.status.value
    ensures !Truthy(req.status) ==> s.status == "active"
    ensures Truthy(req.description) ==> s.description == req.description.value
    ensures !Truthy(req.description) ==> s.description == ""
  {
    StudySession(req.courseTitle.value, locationId, Or(req.status, "active"), Or(req.description, ""))
  }

  /** The location insert, when the route makes one: on success the new row
      is stored under the next id, and the (possibly new) location id is returned. */
  method InsertRequestedLocation(db: Database, req: CreateSessionRequest) returns (locationId: Result<Field<nat>, DbError>)
    requires db.Valid()
    modifies db
    ensures db.Valid()
    ensures LocationRejected(req) ==> locationId.Err? && db.locations == old(db.locations)
                                      && db.nextLocationId == old(db.nextLocationId)
    ensures !LocationRejected(req) ==>
      && locationId == Ok(LocationIdUsed(req, old(db.nextLocationId)))
      && db.locations == (if CreatesLocation(req)
                          then old(db.locations)[old(db.nextLocationId) := NewLocationRow(req)]
                          else old(db.locations))
      && db.nextLocationId == old(db.nextLocationId) + (if CreatesLocation(req) then 1 else 0)
    ensures db.users == old(db.users) && db.courses == old(db.courses) && db.sessions == old(db.sessions)
    ensures db.nextSessionId == old(db.nextSessionId)
  {
    if !CreatesLocation(req) {
      return Ok(req.locationId);
    }
    var inserted := db.CreateLocation(LocationRequest(req));
    if inserted.Err? {
      return Err(inserted.error);
    }
    locationId := Ok(Given(inserted.value));
  }

  /** POST /api/study-sessions, as it is meant to run (with createStudySession):
      insert a location first when none is given, then create the session;
      when either fails answer 500 (a location already inserted is not
      undone), else assign the creator, when named, to the new session and
      answer 201 with the new session's row. */
  method CreateSessionRoute(db: Database, req: CreateSessionRequest) returns (resp: Response)
    requires db.Valid()
    modifies db
    ensures db.Valid()
    ensures db.courses == old(db.courses)
    ensures LocationRejected(req) ==>
      && resp == Response(500, ErrorBody("Failed to create study session"))
      && db.locations == old(db.locations) && db.nextLocationId == old(db.nextLocationId)
      && db.sessions == old(db.sessions) && db.nextSessionId == old(db.nextSessionId)
      && db.users == old(db.users)
    ensures !LocationRejected(req) ==>
      var locId := LocationIdUsed(req, old(db.nextLocationId));
      var ok := CourseExists(db.courses, req.courseTitle) && LocationExists(db.locations, locId);
      && db.locations == (if CreatesLocation(req)
                          then old(db.locations)[old(db.nextLocationId) := NewLocationRow(req)]
                          else old(db.locations))
      && db.nextLocationId == old(db.nextLocationId) + (if CreatesLocation(req) then 1 else 0)
      && (resp.status == 201 <==> ok)
      && (ok ==>
            && db.sessions == old(db.sessions)[old(db.nextSessionId) := RequestedSession(req, locId.value)]
            && old(db.nextSessionId) !in old(db.sessions)
            && db.nextSessionId == old(db.nextSessionId) + 1
            && db.users == (if Truthy(req.creatorNetId)
                            then AssignSession(old(db.users), req.creatorNetId.value, old(db.nextSessionId))
                            else old(db.users))
            && resp.body == CreatedSession(GetSessionById(db.courses, db.locations, db.sessions, old(db.nextSessionId))))
      && (!ok ==>
            && resp == Response(500, ErrorBody("Failed to create study session"))
            && db.sessions == old(db.sessions) && db.nextSessionId == old(db.nextSessionId)
            && db.users == old(db.users))
  {
    var locationId := InsertRequestedLocation(db, req);
    if locationId.Err? {
      return Response(500, ErrorBody("Failed to create study session"));
    }
    var created := db.CreateStudySession(req.courseTitle, locationId.value,
                                         Or(req.status, "active"), Or(req.description, ""));
    if created.Err? {
      return Response(500, ErrorBody("Failed to create study session"));
    }
    if Truthy(req.creatorNetId) {
      db.UpdateUserSession(req.creatorNetId.value, created.value);
    }
    resp := Response(201, CreatedSession(GetSessionById(db.courses, db.locations, db.sessions, created.value)));
  }

  /** POST /api/study-sessions as written: after the optional location insert
      it calls sessionQueries.createSession, which is not defined, so the
      call throws and every request answers 500. A location the driver
      accepted stays inserted; no session is ever created. */
  method CreateSessionRouteAsWritten(db: Database, req: CreateSessionRequest) returns (resp: Response)
    requires db.Valid()
    modifies db
    ensures db.Valid()
    ensures resp == Response(500, ErrorBody("Failed to create study session"))
    ensures LocationRejected(req) ==> db.locations == old(db.locations) && db.nextLocationId == old(db.nextLocationId)
    ensures !LocationRejected(req) ==>
      && db.locations == (if CreatesLocation(req)
                          then old(db.locations)[old(db.nextLocationId) := NewLocationRow(req)]
                          else old(db.locations))
      && db.nextLocationId == old(db.nextLocationId) + (if CreatesLocation(req) then 1 else 0)
    ensures db.sessions == old(db.sessions) && db.users == old(db.users) && db.courses == old(db.courses)
    ensures db.nextSessionId == old(db.nextSessionId)
  {
    var locationId := InsertRequestedLocation(db, req);
    // Success or not, the next statement calls sessionQueries.createSession,
    // which is undefined: the TypeError lands in the same catch.
    resp := Response(500, ErrorBody("Failed to create study session"));
  }

  /** POST /api/study-sessions/:id/join: a missing or empty netId answers 400
      and changes nothing; otherwise the user's SessionId is overwritten by
      updateUserSession (no check that the user was free, nor that the
      session exists) and the answer is the session's row, if any, with its
      participants. */
  method JoinRoute(db: Database, id: nat, netId: Option<string>) returns (resp: Response)
    requires db.Valid()
    modifies db
    ensures db.Valid()
    ensures !Truthy(netId) ==> resp == Response(400, ErrorBody("User NetID is required"))
                               && db.users == old(db.users)
    ensures Truthy(netId) ==>
      (db.users == AssignSession(old(db.users), netId.value, id)
       && resp == Response(200, SessionBody(GetSessionById(db.courses, db.locations, db.sessions, id),
                                            GetUsersBySessionId(db.users, id))))
    ensures db.courses == old(db.courses) && db.locations == old(db.locations)
    ensures db.sessions == old(db.sessions)
    ensures db.nextLocationId == old(db.nextLocationId) && db.nextSessionId == old(db.nextSessionId)
  {
    if !Truthy(netId) {
      return Response(400, ErrorBody("User NetID is required"));
    }
    db.UpdateUserSession(netId.value, id);
    var session := GetSessionById(db.courses, db.locations, db.sessions, id);
    var participants := GetUsersBySessionId(db.users, id);
    resp := Response(200, SessionBody(session, participants));
  }

  /** The join route does not keep a user to one session: where
      addUserToSession refuses a user who is already in another session,
      the route's update moves that user anyway. */
  lemma JoinRouteBypassesMembershipCheck(users: map<NetId, User>, netId: NetId, from: nat, to: nat)
    requires netId in users && users[netId].sessionId == Some(from) && from != 0 && from != to
    ensures JoinCallback(users, netId, to) == Err(UserAlreadyInSession)
    ensures AssignSession(users, netId, to)[netId].sessionId == Some(to)
    ensures netId in Participants(users, from) && netId !in Participants(AssignSession(users, netId, to), from)
  {
  }

  /** DELETE /api/study-sessions/:id as written: sessionQueries.deleteSession
      is not defined, so every request answers 500 and nothing changes. */
  function DeleteSessionRoute(id: nat): (r: Response)
    ensures r.status == 500 && r.body == ErrorBody("Failed to delete study session")
  {
    Response(500, ErrorBody("Failed to delete study session"))
  }

  // ---------------------------------------------------------------------------
  // User routes

  /** GET /api/users as written: userQueries.getAllUsers is not defined, so
      the route always answers 500. */
  function ListUsersRouteAsWritten(users: map<NetId, User>): (r: Response)
    ensures r == Response(500, ErrorBody("Failed to fetch users"))
  {
    Response(500, ErrorBody("Failed to fetch users"))
  }

  /** GET /api/users as meant: every user. */
  function ListUsersRoute(users: map<NetId, User>): (r: Response)
    ensures r.status == 200 && r.body.UserList? && r.body.users.Keys == users.Keys
    ensures forall n :: n in users ==> r.body.users[n] == users[n]
  {
    Response(200, UserList(users))
  }

  /** GET /api/users/:netId as written: getUserByNetId returns a row or null,
      but the route reads `.length` and `[0]` of it. For null, `null.length`
      throws and the answer is 500; a row has no `length`, so the 404 branch
      is never taken and the answer is 200 with `row[0]`, which is undefined. */
  function GetUserRouteAsWritten(users: map<NetId, User>, netId: NetId): (r: Response)
    ensures r.status != 404
    ensures netId !in users ==> r == Response(500, ErrorBody("Failed to fetch user"))
    ensures netId in users ==> r == Response(200, UndefinedJson)
  {
    match GetUserByNetId(users, netId)
    case None => Response(500, ErrorBody("Failed to fetch user"))
    case Some(_) => Response(200, UndefinedJson)
  }

  /** GET /api/users/:netId as meant: 404 for an unknown NetId, else the row. */
  function GetUserRoute(users: map<NetId, User>, netId: NetId): (r: Response)
    ensures r.status == 404 <==> netId !in users
    ensures netId !in users ==> r.body == ErrorBody("User not found")
    ensures netId in users ==>
      (r.status == 200 && r.body.UserBody? && r.body.user.netId == netId
       && r.body.user.email == users[netId].email && r.body.user.password == users[netId].password)
  {
    match GetUserByNetId(users, netId)
    case None => Response(404, ErrorBody("User not found"))
    case Some(row) => Response(200, UserBody(row))
  }

  /** Where the two user routes part: an unknown NetId gets 500 instead of 404,
      a known one gets no user at all. */
  lemma GetUserRouteDiscrepancy(users: map<NetId, User>, netId: NetId)
    ensures netId !in users ==> GetUserRouteAsWritten(users, netId).status == 500
                                && GetUserRoute(users, netId).status == 404
    ensures netId in users ==> GetUserRouteAsWritten(users, netId).body == UndefinedJson
                               && GetUserRoute(users, netId).body == UserBody(GetUserByNetId(users, netId).value)
  {
  }

  /** One request that shows createSession's absence: on an empty store with
      the course present, a body with a named, located place and no
      locationId makes the route as written answer 500 with the new location
      left behind, where the intended route creates session 1 there. */
  method CreateSessionCounterexample()
  {
    var catalog := map["CS411" := Some("Database Systems")];
    var place := LocationData(Given("Grainger"), Given(-88.2269), Given(40.1125), Undefined);
    var req := CreateSessionRequest(Undefined, Some(place), Given("CS411"), None, None, None);
    assert CreatesLocation(req) && !LocationRejected(req);
    var written := new Database(catalog);
    var r1 := CreateSessionRouteAsWritten(written, req);
    assert r1.status == 500 && written.sessions == map[] && 1 in written.locations;
    var meant := new Database(catalog);
    var r2 := CreateSessionRoute(meant, req);
    assert meant.locations == map[1 := Location(Some("Grainger"), Some(-88.2269), Some(40.1125), "N/A")];
    assert r2.status == 201 && meant.sessions == map[1 := StudySession("CS411", 1, "active", "")];
  }

  /** A body whose location has no coordinates is refused by the driver
      before anything is inserted, by the route as written and as meant alike. */
  method UnlocatedBodyCounterexample()
  {
    var catalog := map["CS411" := Some("Database Systems")];
    var req := CreateSessionRequest(Undefined, Some(LocationData(Given("Grainger"), Undefined, Undefined, Undefined)),
                                    Given("CS411"), None, None, None);
    assert LocationRejected(req);
    var written := new Database(catalog);
    var r1 := CreateSessionRouteAsWritten(written, req);
    assert r1.status == 500 && written.locations == map[];
    var meant := new Database(catalog);
    var r2 := CreateSessionRoute(meant, req);
    assert r2.status == 500 && meant.locations == map[] && meant.sessions == map[];
  }
}
