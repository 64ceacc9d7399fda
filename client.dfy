/** The StudyLync page script: the form guards that decide whether a request
    is sent, and the signed-in user record the page keeps. */
module ClientApp {
  import opened Wrappers
  import opened Js
  import opened Db

  /** The user record held in `currentUser` and, as JSON, in localStorage
      under "studylync_user". */
  datatype StoredUser = StoredUser(netId: string, firstName: Option<string>, lastName: Option<string>,
                                   email: Option<string>, sessionId: Option<nat>)

  /** The raw values of the five signup inputs. */
  datatype SignupForm = SignupForm(netId: string, firstName: string, lastName: string,
                                   email: string, password: string)

  /** What a submit of the login form leads to. */
  datatype LoginStep = InputsMissing | LoginRejected(message: string) | FetchUser(netId: string, password: string)

  /** What a submit of the review form leads to. */
  datatype ReviewStep =
    | ReviewRejected(message: string)
    | PostReview(userNetId: string, sessionId: nat, reviewText: string, rating: int)

  /** handleSignup: every field but the password is trimmed; the user is
      posted only when all five values are non-empty. */
  function SignupRequest(f: SignupForm): (r: Result<Profile, string>)
    ensures r.Ok? <==> Trim(f.netId) != "" && Trim(f.firstName) != "" && Trim(f.lastName) != ""
                       && Trim(f.email) != "" && f.password != ""
    ensures r.Err? ==> r.error == "All fields are required."
    ensures r.Ok? ==> r.value == Profile(Trim(f.netId), Trim(f.firstName), Trim(f.lastName), Trim(f.email), f.password)
  {
    var netId, first, last, email := Trim(f.netId), Trim(f.firstName), Trim(f.lastName), Trim(f.email);
    if netId == "" || first == "" || last == "" || email == "" || f.password == "" then
      Err("All fields are required.")
    else Ok(Profile(netId, first, last, email, f.password))
  }

  /** A signup field of whitespace only is refused, while a password of
      whitespace only is accepted, since only the password is not trimmed. */
  lemma SignupBlankFields(f: SignupForm)
    ensures (forall k :: 0 <= k < |f.netId| ==> IsWhitespace(f.netId[k])) ==> SignupRequest(f).Err?
    ensures (forall k :: 0 <= k < |f.email| ==> IsWhitespace(f.email[k])) ==> SignupRequest(f).Err?
    ensures (f.password == " " && Trim(f.netId) != "" && Trim(f.firstName) != ""
             && Trim(f.lastName) != "" && Trim(f.email) != "") ==>
              SignupRequest(f).Ok? && SignupRequest(f).value.password == " "
  {
    TrimEmptyIff(f.netId);
    TrimEmptyIff(f.email);
  }

  /** The record a signup posts has no whitespace at either end of its NetId,
      names and email. */
  lemma SignupFieldsTrimmed(f: SignupForm)
    requires SignupRequest(f).Ok?
    ensures var p := SignupRequest(f).value;
      && !IsWhitespace(p.netId[0]) && !IsWhitespace(p.netId[|p.netId| - 1])
      && !IsWhitespace(p.email[0]) && !IsWhitespace(p.email[|p.email| - 1])
      && !IsWhitespace(p.firstName[0]) && !IsWhitespace(p.firstName[|p.firstName| - 1])
      && !IsWhitespace(p.lastName[0]) && !IsWhitespace(p.lastName[|p.lastName| - 1])
  {
    var p := SignupRequest(f).value;
    assert p.netId == Trim(f.netId) && p.email == Trim(f.email)
        && p.firstName == Trim(f.firstName) && p.lastName == Trim(f.lastName);
    TrimEdges(f.netId);
    TrimEdges(f.email);
    TrimEdges(f.firstName);
    TrimEdges(f.lastName);
  }

  /** handleLogin: without both inputs on the page nothing happens; the NetId
      is trimmed and the password is not; both must be non-empty before the
      user is fetched. */
  function LoginRequest(netIdInput: Option<string>, passwordInput: Option<string>): (r: LoginStep)
    ensures r == InputsMissing <==> netIdInput.None? || passwordInput.None?
    ensures r.FetchUser? <==> netIdInput.Some? && passwordInput.Some?
                              && Trim(netIdInput.value) != "" && passwordInput.value != ""
    ensures r.LoginRejected? ==> r.message == "Please enter your NetID and password"
    ensures r.FetchUser? ==> r.netId == Trim(netIdInput.value) && r.password == passwordInput.value
  {
    if netIdInput.None? || passwordInput.None? then InputsMissing
    else
      var netId, password := Trim(netIdInput.value), passwordInput.value;
      if netId == "" || password == "" then LoginRejected("Please enter your NetID and password")
      else FetchUser(netId, password)
  }

  /** handleReviewSubmit: a review needs a signed-in user, checked first, and
      a truthy SessionId, checked second; the comment is trimmed. */
  function ReviewRequest(user: Option<StoredUser>, rating: int, comment: string): (r: ReviewStep)
    ensures user.None? ==> r == ReviewRejected("You must be logged in to leave a review.")
    ensures user.Some? && !TruthyId(user.value.sessionId) ==>
              r == ReviewRejected("You must be in a study session to leave a review.")
    ensures r.PostReview? <==> user.Some? && TruthyId(user.value.sessionId)
    ensures r.PostReview? ==> r == PostReview(user.value.netId, user.value.sessionId.value, Trim(comment), rating)
  {
    if user.None? then ReviewRejected("You must be logged in to leave a review.")
    else if !TruthyId(user.value.sessionId) then ReviewRejected("You must be in a study session to leave a review.")
    else PostReview(user.value.netId, user.value.sessionId.value, Trim(comment), rating)
  }

  /** After joining session `sid` the user can review exactly when `sid` is
      not 0, and the review is posted for that session. */
  lemma ReviewAfterJoin(u: StoredUser, sid: nat, rating: int, comment: string)
    ensures var r := ReviewRequest(Some(u.(sessionId := Some(sid))), rating, comment);
      (r.PostReview? <==> sid != 0) && (r.PostReview? ==> r.sessionId == sid && r.userNetId == u.netId)
  {
  }

  /** The noun after a session's review count: "review" for exactly one,
      "reviews" for every other count, 0 included. */
  function ReviewNoun(count: nat): (r: string)
    ensures r == "review" <==> count == 1
    ensures r == "reviews" <==> count != 1
  {
    "review" + (if count == 1 then "" else "s")
  }

  /** The page's signed-in state: the `currentUser` global and the record in
      localStorage. */
  class ClientState {
    var currentUser: Option<StoredUser>
    var stored: Option<StoredUser>

    /** Page load: the stored record, when there is one, becomes the current user. */
    constructor (saved: Option<StoredUser>)
      ensures currentUser == saved && stored == saved
    {
      currentUser, stored := saved, saved;
    }

    /** getCurrentUserNetId: the signed-in user's NetId, or null. */
    function CurrentUserNetId(): (r: Option<string>)
      reads this
      ensures r.Some? <==> currentUser.Some?
      ensures r.Some? ==> r.value == currentUser.value.netId
    {
      if currentUser.Some? then Some(currentUser.value.netId) else None
    }

    /** A successful login or signup: the returned record becomes the current
        user and is stored. */
    method SignIn(user: StoredUser)
      modifies this
      ensures currentUser == Some(user) && stored == Some(user)
    {
      currentUser, stored := Some(user), Some(user);
    }

    /** handleLogout: nobody is signed in and nothing is stored. */
    method Logout()
      modifies this
      ensures currentUser == None && stored == None
      ensures CurrentUserNetId() == None
    {
      currentUser, stored := None, None;
    }

    /** joinStudySession: without a stored record no request is sent. When the
        join request succeeds (`responseOk`, the answer of the network), the
        stored record with only its SessionId replaced becomes both the stored
        record and the current user; a failed request changes nothing. */
    method JoinStudySession(sessionId: nat, responseOk: bool) returns (sent: bool)
      modifies this
      ensures sent <==> old(stored).Some?
      ensures sent && responseOk ==>
                stored == Some(old(stored).value.(sessionId := Some(sessionId))) && currentUser == stored
      ensures !(sent && responseOk) ==> stored == old(stored) && currentUser == old(currentUser)
    {
      if stored.None? {
        return false;
      }
      sent := true;
      if responseOk {
        var updated := stored.value.(sessionId := Some(sessionId));
        stored := Some(updated);
        currentUser := Some(updated);
      }
    }
  }
}
