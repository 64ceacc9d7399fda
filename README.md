# StudyLync study sessions in Dafny

StudyLync lets students post study sessions on a campus map and join them.
The backend is an Express server over a MySQL database. The frontend is a map
page and an account/review page. This project models the decisions these
parts make:

- `Db` (`db.dfy`): the Users, Courses, Locations and StudySessions tables,
  held as maps in a `Database` object. The read queries are functions over the
  maps. `createUser`, `updateUserSession`, `createLocation`,
  `createStudySession` and `addUserToSession` are methods that state the whole
  new state: what each one changes, and that every other table and id counter
  stays the same. `transaction` is modelled as "commit the callback's result,
  or roll back to the old state".
- `Server` (`server.dfy`): the route handlers of `index.js` that decide
  something. That covers the 404 checks, the participant-count enrichment, the
  create-session and join routes, and the user and delete routes, which call
  queries that do not exist.
- `MapView` (`mapview.dfy`): the map page's course autocomplete, the choice
  of which sessions to fetch, the session-to-marker mapping, the course
  labels, and the guards before a join request.
- `ClientApp` (`client.dfy`): the signup, login and review form guards. It
  also holds the page's signed-in state as a `ClientState` object: sign-in,
  logout, and the record update after a join.
- `Js` (`js.dfy`): the JavaScript semantics the code leans on:
  - truthiness of strings and ids (0 is falsy);
  - `x || default`;
  - `String.prototype.trim` over the ECMAScript whitespace and line-terminator
    set;
  - `toLowerCase`, for ASCII only;
  - `includes`.
- `Wrappers` (`wrappers.dfy`): `Option`, `Result` and `Outcome`.

Modelling choices:

- A nullable column is an `Option`. A request field that reaches a bind
  parameter is a `Js.Field`, which tells an undefined field from a JSON null.
  The database driver refuses to bind an undefined value, so such a query
  throws before it runs. A null is bound as NULL.
- AUTO_INCREMENT ids are counters that start at 1.
- The order in which MySQL returns session rows is not specified. The
  enrichment therefore takes the rows as a sequence and is proved to keep that
  order.

What the code does and does not enforce:

- **One session per user.** `addUserToSession` (db.js:246-265) refuses a user
  who is already in a session, but no route calls it. The join route
  (index.js:245) calls `updateUserSession`, which overwrites the user's session
  (`Server.JoinRouteBypassesMembershipCheck`).
- **Deleting a session.** The delete route (index.js:110-119) calls
  `sessionQueries.deleteSession`, which db.js does not define. Every delete
  fails with 500 and changes nothing, and no participant's SessionId is
  cleared.
- **Creating a session.** The create route (index.js:209) calls
  `sessionQueries.createSession`, which db.js does not define. db.js defines
  `createStudySession` (db.js:212-241), and that is what the corrected route
  calls.
- **Leaving a session.** No route or query removes a user from a session.

## Model

| member | source | states |
|---|---|---|
| Db.GetUserByNetId | root/Backend/db.js:91-97 | a row exactly when the NetId is a user, holding that user's NetId, names, email and password; null otherwise |
| Db.GetSessionParticipants | root/Backend/db.js:243-244 | exactly the users whose SessionId is the given id, with their full rows |
| Db.GetUsersBySessionId | root/Backend/db.js:110-115 | exactly the users whose SessionId equals the argument, with the selected columns and no password |
| Db.GetSessionById | root/Backend/db.js:188-198 | a row exactly when the session exists, carrying its id, location id, status and description; the course title and name come from the course row and the location name and coordinates from the location row, each null when that row is missing |
| Db.MostAttended | root/Backend/db.js:167-170 | a group with the largest StudentCount among the given ones |
| Db.TopByCount | root/Backend/db.js:169-171 | ORDER BY ... DESC LIMIT k returns min(k, number of groups) rows |
| Db.TopByCountRanks | root/Backend/db.js:158-172 | the LIMIT k rows are groups with their own counts, have distinct titles and non-increasing counts, and leave out no group with more students than the last row |
| Db.RankedPrepend | root/Backend/db.js:169-171 | putting a row in front of the ranking adds its title to the ranked titles and shifts the other rows by one |
| Db.GetTopCoursesByAttendance | root/Backend/db.js:158-172 | at most 3 rows; each row is a course that has a session, with StudentCount equal to the number of users in that course's sessions; counts are non-increasing; a course left out means 3 rows were returned and it has no more students than the third |
| Db.AssignSession | root/Backend/db.js:118-123 | the UPDATE sets the named user's SessionId whatever it held before; no other row changes and no row is added |
| Db.JoinCallback | root/Backend/db.js:247-265 | "User not found" exactly when the NetId is unknown; "already in another session" exactly when the SessionId is truthy; otherwise the assignment |
| Db.Transaction | root/Backend/db.js:71-86 | a failing callback leaves the state as it was and rethrows its error; a succeeding one commits its result |
| Db.ParticipantsAfterAssign | root/Backend/db.js:118-123 | after an assignment the user is among the participants of the target session and of no other; no other user moves |
| Db.ParticipantCountAfterAssign | root/Backend/db.js:118-123 | the target session gains one participant unless the user was already in it, the session left loses one, and all other counts stay |
| Db.AttendanceAfterJoin | root/Backend/db.js:158-172 | a successful addUserToSession raises the joined course's StudentCount by one and leaves every other course's count unchanged |
| Db.Database.CreateUser | root/Backend/db.js:100-107 | inserts the user with a null SessionId and returns a row equal to the inserted fields; a duplicate NetId fails and inserts nothing; the other tables stay |
| Db.Database.UpdateUserSession | root/Backend/db.js:118-123 | the user table becomes the unconditional overwrite; every other table stays |
| Db.StoredLocation | root/Backend/db.js:149-152 | the inserted row keeps the name and coordinates, with null as NULL, and stores a falsy address as "" |
| Db.Database.CreateLocation | root/Backend/db.js:141-153 | an undefined name, longitude or latitude is refused and nothing is inserted; otherwise one row is added under a fresh id and that id is returned; the other tables stay |
| Db.Database.CreateStudySession | root/Backend/db.js:212-241 | an undefined title, then a null or unknown course ("Course ... does not exist"), then an undefined location id, then a null or unknown location ("Location ... does not exist"), each fails and inserts nothing; it succeeds exactly when both exist; on success exactly one row with the given fields is added under a fresh id, and Users, Courses and Locations stay |
| Db.Database.AddUserToSession | root/Backend/db.js:246-265 | an unknown user and a user with a truthy SessionId fail and leave the store unchanged (rollback); otherwise only that user's SessionId changes |
| Server.GetCourseRoute | root/Backend/index.js:42-53 | 404 "Course not found" exactly when no course has the title; otherwise 200 with the course row |
| Server.GetSessionRoute | root/Backend/index.js:169-190 | 404 exactly when the session does not exist; otherwise 200 with the session's joined row and its participants' records |
| Server.ListSessionsQuery | root/Backend/index.js:125-147 | filters by course exactly when the course parameter is truthy |
| Server.EnrichSessions | root/Backend/index.js:131-160 | same length and order as the rows; each row is kept unchanged and gains participantCount, the number of users with that SessionId |
| Server.EnrichAfterAssign | root/Backend/index.js:131-160 | after an assignment, re-enrichment changes only the counts of the joined session and of the session the user left, each by one |
| Server.LocationRequest | root/Backend/index.js:199-204 | createLocation receives the body's name and coordinates unchanged, with a falsy address replaced by "N/A" |
| Server.NewLocationRow | root/Backend/index.js:199-204 | the stored location keeps the body's name and coordinates, with null as NULL; a falsy address becomes "N/A" |
| Server.LocationIdUsed | root/Backend/index.js:195-206 | the new location's insert id when a location is created, and the body's locationId otherwise |
| Server.RequestedSession | root/Backend/index.js:209-214 | the requested course and location id; status defaults to "active" and description to "" when they are falsy |
| Server.InsertRequestedLocation | root/Backend/index.js:195-206 | without a truthy locationId but with location data, the location is inserted under the next id, which becomes the session's location; a location lacking a name or coordinate is refused and nothing is inserted; with a locationId nothing is inserted |
| Server.CreateSessionRoute | root/Backend/index.js:192-234 | a refused location insert gives 500 with nothing changed; otherwise the location step is done, and the route answers 201 exactly when the course and location exist; on 201 exactly one session is added under the next id, the creator, when named, is assigned to it, and the body is the new row; otherwise 500 with sessions, users and the session counter unchanged |
| Server.CreateSessionRouteAsWritten | root/Backend/index.js:192-234 | always 500 "Failed to create study session"; a location the driver accepted stays inserted under the next id, while a refused one leaves the store as it was; no session is created, no user changes and the session counter stays |
| Server.JoinRoute | root/Backend/index.js:236-259 | a missing or empty netId gives 400 "User NetID is required" and changes nothing; otherwise the user's SessionId is overwritten, even if already set, and the answer is the session row with its participants; the other tables and both id counters stay |
| Server.JoinRouteBypassesMembershipCheck | root/Backend/index.js:245 | a user already in another session, whom addUserToSession would refuse, is moved by the join route and leaves the old session |
| Server.DeleteSessionRoute | root/Backend/index.js:110-119 | every delete answers 500 "Failed to delete study session" |
| Server.ListUsersRouteAsWritten | root/Backend/index.js:56-64 | every request answers 500 "Failed to fetch users" |
| Server.ListUsersRoute | root/Backend/index.js:56-64 | 200 with every user's row |
| Server.GetUserRouteAsWritten | root/Backend/index.js:66-77 | never 404: an unknown NetId gives 500 and a known one gives 200 with no body value |
| Server.GetUserRoute | root/Backend/index.js:66-77 | 404 "User not found" exactly when the NetId is unknown; otherwise 200 with that user's row |
| Server.GetUserRouteDiscrepancy | root/Backend/index.js:69-72 | where getUserByNetId's row-or-null result and the route's array handling part: 500 instead of 404, and no body instead of the row |
| Js.Or | root/Backend/index.js:212-213 | `s \|\| d` is s when s is truthy and d otherwise |
| Js.TrimStart | root/Frontend/app.js:152 | a suffix of the input, every dropped character is whitespace, and the result does not start with whitespace |
| Js.TrimEnd | root/Frontend/app.js:152 | a prefix of the input, every dropped character is whitespace, and the result does not end with whitespace |
| Js.TrimSpec | root/Frontend/map.js:447 | trim's result occurs in the input with only whitespace on both sides of it, and has no whitespace at either end |
| Js.TrimEmptyIff | root/Frontend/map.js:447-449 | trim gives "" exactly when the input is all whitespace |
| Js.TrimIdempotent | root/Frontend/app.js:152 | trimming twice is trimming once |
| Js.LowerChar | root/Frontend/map.js:418 | upper-case ASCII letters become lower case; every other character stays |
| Js.ToLower | root/Frontend/map.js:418 | same length; each character lower-cased |
| Js.ToLowerEmptyIff | root/Frontend/map.js:418-421 | the lower-cased query is empty exactly when the input is |
| Js.IncludesIff | root/Frontend/map.js:427 | `includes` holds exactly when the substring occurs at some index |
| MapView.Matching | root/Frontend/map.js:426-427 | a subset of the courses: each one matches the query, and every matching course is present |
| MapView.Suggestions | root/Frontend/map.js:426-428 | at most 10 entries, each a matching course; exactly min(10, number of matches) of them |
| MapView.MatchingAppend | root/Frontend/map.js:426-427 | filtering distributes over concatenation |
| MapView.MatchingIsSubsequence | root/Frontend/map.js:426-427 | the matches keep the catalogue's order |
| MapView.SubsequenceDropHead | root/Frontend/map.js:426-428 | a subsequence of the tail is a subsequence of the whole |
| MapView.SubsequenceOfTail | root/Frontend/map.js:426-428 | dropping the first element keeps a subsequence |
| MapView.SubsequencePrefix | root/Frontend/map.js:428 | a prefix of a subsequence is a subsequence |
| MapView.SuggestionsKeepOrder | root/Frontend/map.js:426-428 | the suggestions are the matching courses in catalogue order |
| MapView.SuggestionsKeepEarlyMatches | root/Frontend/map.js:426-428 | a matching course with fewer than 10 matches before it is suggested, at the position given by those earlier matches |
| MapView.OnCourseInput | root/Frontend/map.js:417-428 | an empty value refetches every session; any other value suggests from the lower-cased query |
| MapView.FilterMarkersByCourse | root/Frontend/map.js:173-179 | fetches by course exactly when the course is non-empty, and fetches all otherwise |
| MapView.OnCourseEnter | root/Frontend/map.js:444-455 | a value of only whitespace fetches everything; anything else filters by the trimmed value |
| MapView.EnterFiltersTrimmed | root/Frontend/map.js:447-453 | Enter acts like filterMarkersByCourse on the trimmed value, and the course it filters by has no outer whitespace |
| MapView.MarkerOf | root/Frontend/map.js:46-58 | students is participantCount when that is truthy, else 1, so always at least 1; the other marker fields are the session's |
| MapView.MarkerStudentsFromStore | root/Frontend/map.js:55 | a marker from the backend list shows the session's number of participants, or 1 for an empty session |
| MapView.CourseLabel | root/Frontend/map.js:134-136 | "Title - Name" when the name is truthy, otherwise the title |
| MapView.CourseLabelShape | root/Frontend/map.js:134-136 | the label starts with the title, and equals the title exactly when there is no truthy name |
| MapView.InfoWindowCourse | root/Frontend/map.js:134-142 | the info window's course line; a missing course prints as "null" |
| MapView.DropdownLabel | root/Frontend/map.js:225-228 | "CourseTitle - CourseName" when CourseName is truthy, otherwise CourseTitle |
| MapView.JoinStudyGroup | root/Frontend/map.js:350-373 | a falsy session id is refused first, then a missing current user; only then is a join posted, with the user's NetId |
| ClientApp.SignupRequest | root/Frontend/app.js:152-168 | accepted exactly when the trimmed NetId, first name, last name and email and the untrimmed password are all non-empty; otherwise "All fields are required." |
| ClientApp.SignupBlankFields | root/Frontend/app.js:152-160 | a NetId or email of only whitespace is refused, while a password of one space is accepted |
| ClientApp.SignupFieldsTrimmed | root/Frontend/app.js:152-155 | the posted NetId, names and email have no outer whitespace |
| ClientApp.LoginRequest | root/Frontend/app.js:76-90 | nothing happens without both inputs; the user is fetched exactly when the trimmed NetId and the password are both non-empty |
| ClientApp.ReviewRequest | root/Frontend/app.js:242-262 | refused when no user is logged in, then when the SessionId is not truthy; otherwise the user's NetId and SessionId are posted with the trimmed comment |
| ClientApp.ReviewAfterJoin | root/Frontend/app.js:54-58 | after a join the user can review exactly when the joined id is not 0, and the review is for that session |
| ClientApp.ReviewNoun | root/Frontend/app.js:304-306 | "review" exactly when the count is 1, otherwise "reviews" |
| ClientApp.ClientState.constructor | root/Frontend/app.js:8-11 | a stored user record becomes the current user on page load |
| ClientApp.ClientState.CurrentUserNetId | root/Frontend/app.js:223-225 | the NetId when a user is signed in, null otherwise |
| ClientApp.ClientState.SignIn | root/Frontend/app.js:98-99 | the signed-in record becomes both the current user and the stored record |
| ClientApp.ClientState.Logout | root/Frontend/app.js:190-192 | no current user, nothing stored, and no current NetId |
| ClientApp.ClientState.JoinStudySession | root/Frontend/app.js:35-70 | no request without a stored record; after a successful join, the stored record and the current user are the old record with only SessionId replaced; a failed join changes nothing |

## Left out

- Connection pool, configuration, `query` logging, `testConnection` and `verifyDatabaseSetup`: database I/O and environment plumbing.
- Transaction isolation and concurrent joins: the model is sequential. `transaction` commits or rolls back one callback at a time.
- The stored procedures `CreateStudySessionAndAssignUser` and `GetSessionDetailsWithParticipants`: their bodies are in the database, not in the code.
- MySQL's own foreign-key and NOT NULL constraints: the schema is not part of this model. Only the checks the JavaScript makes and the primary key of Users are modelled.
- Collation: NetIds and course titles are compared as exact strings. MySQL compares them under the columns' collation, which may ignore case or accents. That matching depends on the schema, which is not part of this model.
- Route parameters: `:id` arrives as a string, and MySQL converts it to a number when comparing. The model takes the id as a natural number, so non-numeric ids are not represented.
- The review queries and the review route: they average floating-point ratings and order by database timestamps. There is no review route in the backend.
- `getAllCourses`, `getAllLocations`, `getAllSessions`, `getSessionsByCourse` and the plain list routes: they return rows without deciding anything. The order of their rows is the database's, so `Server.EnrichSessions` takes the rows as its input.
- POST `/api/users` and POST `/api/locations`: they forward to `createUser` and `createLocation`, which `Db.Database` models.
- Express app setup, static files, the debug schema routes and server start: framework glue.
- Google Maps markers, info-window HTML, geolocation, `prompt`, `alert`, `fetch`, the DOM, `localStorage` serialization and `parseFloat` of coordinates: UI, I/O and floating point. Network answers are parameters (`responseOk`).
- The global `markers` array and its clearing, the sample study groups shown when fetching fails, the create dialog on the map, and the temporary marker shown when creating fails: UI state.
- The "testuser" login fallback and the plaintext password comparison.
- The session id that the account page's `joinStudySession` receives is taken as a natural number. `parseInt` of the review rating is left out, and the rating is taken as an integer.
- Js.LowerChar: maps only the ASCII letters A-Z, because Unicode case mapping is outside Dafny's strings.
- Js.ToLower: lower-cases only the ASCII letters A-Z, because Unicode case mapping is outside Dafny's strings.
- Db.GetTopCoursesByAttendance: when courses tie, SQL may return them in any order. The model picks one order. Its contract states what every order satisfies: one row per course, min(3, number of courses) rows, each with its true count, in non-increasing order, and none left out that has more students than the third.
- Db.Database.CreateStudySession: status and description are taken as strings. The route always supplies them through its defaults, so an undefined or null status or description is not represented.
- Db.Database.CreateUser: the five fields are taken as strings. The signup form always sends all five, so an undefined field, which the driver would refuse to bind, is not represented. The driver's own error text for a duplicate key is not modelled; only the failure is.

## Findings

| source | as written | input that shows it | evidently intended | confidence | as-written member | corrected member |
|---|---|---|---|---|---|---|
| root/Backend/index.js:209 | POST `/api/study-sessions` calls `sessionQueries.createSession`, which `db.js` does not define; every request throws and answers 500, after a location may already have been inserted | catalogue {CS411}, empty store, body `{location: {name: "Grainger", longitude: -88.2269, latitude: 40.1125}, courseTitle: "CS411"}`: as written 500 with location 1 left behind; as intended 201 with session 1 at location 1 (`Server.CreateSessionCounterexample`) | call `createStudySession`, which checks the course and location and inserts the session | not executed | Server.CreateSessionRouteAsWritten | Server.CreateSessionRoute |
| root/Backend/index.js:58 | GET `/api/users` calls `userQueries.getAllUsers`, which does not exist; every request answers 500 | any request, even with users stored | answer 200 with every user | not executed | Server.ListUsersRouteAsWritten | Server.ListUsersRoute |
| root/Backend/index.js:69-72 | GET `/api/users/:netId` treats `getUserByNetId`'s row-or-null result as an array: `null.length` throws, and a row has no `length` so `user[0]` is undefined | an unknown NetId gives 500, not 404; a known NetId gives 200 with no user (`Server.GetUserRouteDiscrepancy`) | 404 for an unknown NetId, otherwise the row | not executed | Server.GetUserRouteAsWritten | Server.GetUserRoute |
