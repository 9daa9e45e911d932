/** The older local mock of the services: a signed-in user held in memory, and the
    `pendingUser`, `user`, `interviews` and `reports` keys of the browser's local
    storage, each modelled as a field of one object. */
module MockApi {
  import opened Common
  import opened PlanRules
  import AuthService
  import InterviewService
  import InterviewRoom

  /** `User`; `verificationToken` is `None` once the property has been deleted. */
  datatype MockUser = MockUser(
    id: string, email: string, name: string, subscription: Plan,
    interviewsRemaining: int, emailVerified: bool, verificationToken: Option<string>)

  /** The mock only knows English and Arabic interviews. */
  datatype MockLang = English | Arabic

  function AsLang(l: MockLang): Lang {
    match l
    case English => En
    case Arabic => Ar
  }

  datatype MockStatus = MockCompleted | MockInProgress

  datatype MockInterview = MockInterview(
    id: string, userId: string, jobTitle: string, jobDescription: string,
    avatarType: Avatar, language: MockLang, date: string,
    duration: int, score: int, status: MockStatus)

  datatype MockReport = MockReport(
    interviewId: string, overallScore: int, communication: int, confidence: int,
    technical: int, structure: int,
    strengths: seq<string>, weaknesses: seq<string>, suggestions: seq<string>)

  /** What `createInterview` receives from the setup form. */
  datatype NewMockInterview = NewMockInterview(
    jobTitle: string, jobDescription: string, avatarType: Avatar, language: MockLang)

  datatype MockError =
    | EmailNotVerified        // "EMAIL_NOT_VERIFIED" from signIn
    | UserNotFound            // "User not found or invalid credentials"
    | NoCurrentUser           // "Not authenticated" from createInterview
    | UnverifiedCreator       // "Email not verified" from createInterview
    | UnknownInterview        // "Interview not found"

  /** The user `signUp` keeps pending until its email is verified. */
  function PendingUser(id: string, email: string, name: string, token: string): (u: MockUser)
    ensures u.subscription == Free && u.interviewsRemaining == 2
    ensures !u.emailVerified && u.verificationToken == Some(token)
    ensures u.id == id && u.email == email && u.name == name
  {
    MockUser(id, email, name, Free, 2, false, Some(token))
  }

  /** The pending user once `verifyEmail` accepted its token. */
  function Verified(u: MockUser): (v: MockUser)
    ensures v.emailVerified && v.verificationToken.None?
    ensures v == u.(emailVerified := true, verificationToken := None)
  {
    u.(emailVerified := true, verificationToken := None)
  }

  /** `currentUser` after `updateSubscription`: the plan and its fresh quota. */
  function Subscribed(u: MockUser, plan: Plan): (v: MockUser)
    ensures v.subscription == plan
    ensures v.interviewsRemaining == (if plan == Premium then 999 else 2)
    ensures v == u.(subscription := plan, interviewsRemaining := AuthService.Quota(plan))
  {
    u.(subscription := plan, interviewsRemaining := AuthService.Quota(plan))
  }

  /** The user after a completed interview: one fewer interview left for a free
      user with some left, unchanged otherwise. */
  function AfterCompletion(u: MockUser): (v: MockUser)
    ensures u.subscription == Free && u.interviewsRemaining > 0 ==>
              v == u.(interviewsRemaining := u.interviewsRemaining - 1)
    ensures !(u.subscription == Free && u.interviewsRemaining > 0) ==> v == u
    ensures u.interviewsRemaining >= 0 ==> v.interviewsRemaining >= 0
  {
    if u.subscription == Free && u.interviewsRemaining > 0
    then u.(interviewsRemaining := u.interviewsRemaining - 1)
    else u
  }

  /** `interviews.find(i => i.id === interviewId)`, as the position of the first match. */
  function FindInterview(rows: seq<MockInterview>, id: string): (r: Option<nat>)
    ensures r.Some? ==> r.value < |rows| && rows[r.value].id == id
                        && forall k :: 0 <= k < r.value ==> rows[k].id != id
    ensures r.None? <==> forall k :: 0 <= k < |rows| ==> rows[k].id != id
    decreases |rows|
  {
    if rows == [] then None
    else if rows[0].id == id then Some(0)
    else
      match FindInterview(rows[1..], id)
      case None => None
      case Some(k) => Some(k + 1)
  }

  /** `reports.find(r => r.interviewId === interviewId) || null` */
  function FindReport(reports: seq<MockReport>, id: string): (r: Option<MockReport>)
    ensures r.Some? ==> r.value.interviewId == id
    ensures r.Some? ==> exists k :: (0 <= k < |reports| && reports[k] == r.value
                                     && forall j :: 0 <= j < k ==> reports[j].interviewId != id)
    ensures r.None? <==> forall k :: 0 <= k < |reports| ==> reports[k].interviewId != id
    decreases |reports|
  {
    if reports == [] then None
    else if reports[0].interviewId == id then Some(reports[0])
    else
      var rest := FindReport(reports[1..], id);
      if rest.Some? then
        ghost var k :| 0 <= k < |reports[1..]| && reports[1..][k] == rest.value
                       && forall j :: 0 <= j < k ==> reports[1..][j].interviewId != id;
        assert reports[k + 1] == rest.value;
        assert forall j :: 0 <= j < k + 1 ==> reports[j].interviewId != id by {
          forall j | 0 <= j < k + 1 ensures reports[j].interviewId != id {
            if j > 0 { assert reports[j] == reports[1..][j - 1]; }
          }
        }
        rest
      else rest
  }

  /** The report `completeInterview` makes up: every score lies in 65..94. */
  function MakeReport(interviewId: string, d: InterviewService.Draws): (rep: MockReport)
    requires InterviewService.ValidDraws(d)
    ensures rep.interviewId == interviewId
    ensures 65 <= rep.overallScore <= 94 && 65 <= rep.communication <= 94
    ensures 65 <= rep.confidence <= 94 && 65 <= rep.technical <= 94 && 65 <= rep.structure <= 94
  {
    MockReport(interviewId, d.overall + 65, d.communication + 65, d.confidence + 65,
               d.technical + 65, d.structure + 65,
               Strengths, Weaknesses, Suggestions)
  }

  const Strengths: seq<string> := [
    "Clear and articulate communication",
    "Good understanding of the role requirements",
    "Confident body language and eye contact"]
  const Weaknesses: seq<string> := [
    "Could provide more specific examples",
    "Some answers were too brief"]
  const Suggestions: seq<string> := [
    "Practice the STAR method for behavioral questions",
    "Research the company more thoroughly",
    "Prepare more technical examples from past experience"]

  /** The interviews with row `k` completed in place, with its duration and score. */
  function Complete(rows: seq<MockInterview>, k: nat, duration: int, score: int): (r: seq<MockInterview>)
    requires k < |rows|
    ensures |r| == |rows| && r[k].status == MockCompleted
    ensures r[k].duration == duration && r[k].score == score
    ensures r[k] == rows[k].(status := MockCompleted, duration := duration, score := score)
    ensures forall j :: 0 <= j < |rows| && j != k ==> r[j] == rows[j]
  {
    rows[k := rows[k].(status := MockCompleted, duration := duration, score := score)]
  }

  /** `getInterviewQuestions`: the mock's tables are the English and Arabic tables of
      the interview room, 4, 5 and 6 questions per difficulty. */
  function MockQuestions(avatar: Avatar, lang: MockLang): (qs: seq<string>)
    ensures qs == InterviewRoom.Questions(avatar, AsLang(lang))
    ensures |qs| == InterviewRoom.QuestionCount(avatar)
  {
    InterviewRoom.QuestionCounts(avatar, AsLang(lang));
    InterviewRoom.Questions(avatar, AsLang(lang))
  }

  /** `getAvatarDuration`: 300, 600 and 900 seconds. */
  function MockDuration(avatar: Avatar): (d: nat)
    ensures avatar == Easy ==> d == 300
    ensures avatar == Medium ==> d == 600
    ensures avatar == Hard ==> d == 900
  {
    InterviewRoom.AvatarDuration(avatar)
  }

  /** A pending user is unverified and carries a token; a stored or current user is
      verified; nobody has a negative count. */
  predicate UserInvariant(pending: Option<MockUser>, stored: Option<MockUser>, current: Option<MockUser>) {
    && (pending.Some? ==> !pending.value.emailVerified && pending.value.verificationToken.Some?
                          && pending.value.interviewsRemaining >= 0)
    && (stored.Some? ==> stored.value.emailVerified && stored.value.interviewsRemaining >= 0)
    && (current.Some? ==> current.value.emailVerified && current.value.interviewsRemaining >= 0)
  }

  /** Every report belongs to a stored interview. */
  predicate ReportsKnown(reports: seq<MockReport>, interviews: seq<MockInterview>) {
    forall k :: 0 <= k < |reports| ==> FindInterview(interviews, reports[k].interviewId).Some?
  }

  /** The users after `completeInterview` charged the user it found: the one in memory,
      else the stored one; storage is rewritten only when the count changed. */
  predicate Charged(current0: Option<MockUser>, stored0: Option<MockUser>,
                    current: Option<MockUser>, stored: Option<MockUser>) {
    var user := if current0.Some? then current0 else stored0;
    && (user.None? ==> current.None? && stored == stored0)
    && (user.Some? ==>
          && current == Some(AfterCompletion(user.value))
          && stored == (if AfterCompletion(user.value) == user.value then stored0 else current))
  }

  class MockApp {
    var currentUser: Option<MockUser>
    var pendingUser: Option<MockUser>
    var storedUser: Option<MockUser>
    var interviews: seq<MockInterview>
    var reports: seq<MockReport>

    /** The states the mock's own operations lead to from empty storage. */
    ghost predicate Valid()
      reads this
    {
      UserInvariant(pendingUser, storedUser, currentUser) && ReportsKnown(reports, interviews)
    }

    /** A page load: nobody is signed in in memory, and storage holds what it held. */
    constructor (pending: Option<MockUser>, stored: Option<MockUser>,
                 interviews0: seq<MockInterview>, reports0: seq<MockReport>)
      ensures currentUser.None? && pendingUser == pending && storedUser == stored
      ensures interviews == interviews0 && reports == reports0
    {
      currentUser := None;
      pendingUser := pending;
      storedUser := stored;
      interviews := interviews0;
      reports := reports0;
    }

    /** `signUp`: the new user waits, unverified, under `pendingUser`; the id and token
        are parameters standing for the random strings. */
    method SignUp(email: string, name: string, id: string, token: string) returns (u: MockUser)
      modifies this`pendingUser
      ensures u == PendingUser(id, email, name, token) && pendingUser == Some(u)
      ensures old(Valid()) ==> Valid()
    {
      u := PendingUser(id, email, name, token);
      pendingUser := Some(u);
    }

    /** `verifyEmail`: the pending user whose token matches becomes the verified,
        stored and current user; anything else changes nothing and answers false. */
    method VerifyEmail(token: string) returns (ok: bool)
      modifies this`currentUser, this`storedUser, this`pendingUser
      ensures ok <==> old(pendingUser).Some? && old(pendingUser).value.verificationToken == Some(token)
      ensures ok ==> var v := Verified(old(pendingUser).value);
        currentUser == Some(v) && storedUser == Some(v) && pendingUser.None?
      ensures !ok ==> currentUser == old(currentUser) && storedUser == old(storedUser)
                      && pendingUser == old(pendingUser)
      ensures old(Valid()) ==> Valid()
    {
      if pendingUser.None? {
        return false;
      }
      var user := pendingUser.value;
      if user.verificationToken == Some(token) {
        var v := Verified(user);
        currentUser := Some(v);
        storedUser := Some(v);
        pendingUser := None;
        return true;
      }
      return false;
    }

    /** `signIn`: the stored user when it is verified and has this email; otherwise an
        unverified pending user with this email is told to verify; otherwise not found. */
    method SignIn(email: string) returns (r: Result<MockUser, MockError>)
      modifies this`currentUser
      ensures old(storedUser).Some? && old(storedUser).value.email == email
              && old(storedUser).value.emailVerified ==>
                r == Ok(old(storedUser).value) && currentUser == old(storedUser)
      ensures !(storedUser.Some? && storedUser.value.email == email && storedUser.value.emailVerified) ==>
        && currentUser == old(currentUser)
        && (r == Err(EmailNotVerified) <==>
              pendingUser.Some? && pendingUser.value.email == email && !pendingUser.value.emailVerified)
        && (r.Err? && r.error != EmailNotVerified ==> r == Err(UserNotFound))
        && r.Err?
      ensures old(Valid()) ==> Valid()
    {
      if storedUser.Some? {
        var user := storedUser.value;
        if user.email == email && user.emailVerified {
          currentUser := Some(user);
          return Ok(user);
        }
      }
      if pendingUser.Some? {
        var user := pendingUser.value;
        if user.email == email && !user.emailVerified {
          return Err(EmailNotVerified);
        }
      }
      return Err(UserNotFound);
    }

    /** `signInWithGoogle`: a verified free user is signed in and stored at once. */
    method SignInWithGoogle(id: string) returns (u: MockUser)
      modifies this`currentUser, this`storedUser
      ensures u == MockUser(id, "user@gmail.com", "Google User", Free, 2, true, None)
      ensures currentUser == Some(u) && storedUser == Some(u)
      ensures old(Valid()) ==> Valid()
    {
      u := MockUser(id, "user@gmail.com", "Google User", Free, 2, true, None);
      currentUser := Some(u);
      storedUser := Some(u);
    }

    /** `signOut` */
    method SignOut()
      modifies this`currentUser, this`storedUser
      ensures currentUser.None? && storedUser.None?
      ensures old(Valid()) ==> Valid()
    {
      currentUser := None;
      storedUser := None;
    }

    /** `getCurrentUser`: the user in memory, else the stored one, which is then kept
        in memory. */
    method GetCurrentUser() returns (u: Option<MockUser>)
      modifies this`currentUser
      ensures u == (if old(currentUser).Some? then old(currentUser) else storedUser)
      ensures currentUser == u
      ensures old(Valid()) ==> Valid()
    {
      if currentUser.Some? {
        return currentUser;
      }
      currentUser := storedUser;
      return storedUser;
    }

    /** `updateSubscription`: acts on the user in memory only, which is also stored;
        without one nothing happens, even when storage holds a user. */
    method UpdateSubscription(plan: Plan)
      modifies this`currentUser, this`storedUser
      ensures old(currentUser).Some? ==>
        var v := Subscribed(old(currentUser).value, plan);
        currentUser == Some(v) && storedUser == Some(v)
      ensures old(currentUser).None? ==> currentUser.None? && storedUser == old(storedUser)
      ensures old(Valid()) ==> Valid()
    {
      if currentUser.Some? {
        var v := Subscribed(currentUser.value, plan);
        currentUser := Some(v);
        storedUser := Some(v);
      }
    }

    /** `createInterview`: a verified current user gets one new in-progress interview
        appended; the id and date stand for the random id and the clock. */
    method CreateInterview(data: NewMockInterview, id: string, date: string)
      returns (r: Result<MockInterview, MockError>)
      modifies this`currentUser, this`interviews
      ensures var user := if old(currentUser).Some? then old(currentUser) else storedUser;
        && currentUser == user
        && (user.None? ==> r == Err(NoCurrentUser) && interviews == old(interviews))
        && (user.Some? && !user.value.emailVerified ==>
              r == Err(UnverifiedCreator) && interviews == old(interviews))
        && (user.Some? && user.value.emailVerified ==>
              && r == Ok(MockInterview(id, user.value.id, data.jobTitle, data.jobDescription,
                                       data.avatarType, data.language, date, 0, 0, MockInProgress))
              && interviews == old(interviews) + [r.value])
      ensures old(Valid()) ==> Valid()
    {
      var user := GetCurrentUser();
      if user.None? {
        return Err(NoCurrentUser);
      }
      if !user.value.emailVerified {
        return Err(UnverifiedCreator);
      }
      var interview := MockInterview(id, user.value.id, data.jobTitle, data.jobDescription,
                                     data.avatarType, data.language, date, 0, 0, MockInProgress);
      ghost var before := interviews;
      interviews := interviews + [interview];
      if old(Valid()) {
        forall k | 0 <= k < |reports| ensures FindInterview(interviews, reports[k].interviewId).Some? {
          FindInAppended(before, interview, reports[k].interviewId);
        }
      }
      return Ok(interview);
    }

    /** `completeInterview`: the first interview with this id is completed with the
        duration and the report's overall score, whatever its status, the report is
        appended, and a free current user with interviews left loses one. */
    method CompleteInterview(interviewId: string, duration: int, draws: InterviewService.Draws)
      returns (r: Result<MockReport, MockError>)
      requires InterviewService.ValidDraws(draws)
      modifies this`currentUser, this`storedUser, this`interviews, this`reports
      ensures var found := FindInterview(old(interviews), interviewId);
        && (found.None? ==>
              && r == Err(UnknownInterview) && interviews == old(interviews)
              && reports == old(reports) && currentUser == old(currentUser)
              && storedUser == old(storedUser))
        && (found.Some? ==>
              var rep := MakeReport(interviewId, draws);
              && r == Ok(rep)
              && interviews == Complete(old(interviews), found.value, duration, rep.overallScore)
              && reports == old(reports) + [rep]
              && Charged(old(currentUser), old(storedUser), currentUser, storedUser))
      ensures old(Valid()) ==> Valid()
    {
      var found := FindInterview(interviews, interviewId);
      if found.None? {
        return Err(UnknownInterview);
      }
      var rep := MakeReport(interviewId, draws);
      RecordCompletion(found.value, interviewId, duration, rep);
      ChargeCompletion();
      return Ok(rep);
    }

    /** The interview at `k` completed and its report appended. */
    method RecordCompletion(k: nat, interviewId: string, duration: int, rep: MockReport)
      requires k < |interviews| && interviews[k].id == interviewId && rep.interviewId == interviewId
      modifies this`interviews, this`reports
      ensures interviews == Complete(old(interviews), k, duration, rep.overallScore)
      ensures reports == old(reports) + [rep]
      ensures old(ReportsKnown(reports, interviews)) ==> ReportsKnown(reports, interviews)
    {
      ghost var before := interviews;
      interviews := Complete(interviews, k, duration, rep.overallScore);
      reports := reports + [rep];
      if old(ReportsKnown(reports, interviews)) {
        assert FindInterview(before, interviewId).Some?;
        forall j | 0 <= j < |reports| ensures FindInterview(interviews, reports[j].interviewId).Some? {
          FindInCompleted(before, k, duration, rep.overallScore, reports[j].interviewId);
        }
      }
    }

    /** The user part of `completeInterview`: the current user, loaded from storage if
        need be, is charged one interview when free with some left. */
    method ChargeCompletion()
      modifies this`currentUser, this`storedUser
      ensures Charged(old(currentUser), old(storedUser), currentUser, storedUser)
      ensures old(UserInvariant(pendingUser, storedUser, currentUser)) ==>
        UserInvariant(pendingUser, storedUser, currentUser)
    {
      var user := GetCurrentUser();
      if user.Some? && user.value.subscription == Free && user.value.interviewsRemaining > 0 {
        var v := AfterCompletion(user.value);
        currentUser := Some(v);
        storedUser := Some(v);
      }
    }

    /** `getReport` */
    function GetReport(interviewId: string): (r: Option<MockReport>)
      reads this
      ensures r.Some? ==> r.value.interviewId == interviewId && r.value in reports
      ensures r.Some? ==> exists k :: (0 <= k < |reports| && reports[k] == r.value
                                       && forall j :: 0 <= j < k ==> reports[j].interviewId != interviewId)
      ensures r.None? <==> forall k :: 0 <= k < |reports| ==> reports[k].interviewId != interviewId
    {
      FindReport(reports, interviewId)
    }
  }

  /** Appending an interview keeps every id that was found. */
  lemma FindInAppended(rows: seq<MockInterview>, row: MockInterview, id: string)
    ensures FindInterview(rows, id).Some? ==> FindInterview(rows + [row], id).Some?
  {
    if FindInterview(rows, id).Some? {
      var k := FindInterview(rows, id).value;
      assert (rows + [row])[k] == rows[k];
    }
  }

  /** Completing a row in place keeps every id that was found. */
  lemma FindInCompleted(rows: seq<MockInterview>, k: nat, duration: int, score: int, id: string)
    requires k < |rows|
    ensures FindInterview(rows, id).Some? ==> FindInterview(Complete(rows, k, duration, score), id).Some?
  {
    if FindInterview(rows, id).Some? {
      var j := FindInterview(rows, id).value;
      assert Complete(rows, k, duration, score)[j].id == id;
    }
  }

  /** Signing up, then verifying with the token that was issued, lets the same email
      sign in, as the verified user. */
  method SignUpVerifySignIn(app: MockApp, email: string, name: string, id: string, token: string)
    returns (r: Result<MockUser, MockError>)
    modifies app
    ensures r == Ok(Verified(PendingUser(id, email, name, token)))
    ensures app.currentUser == Some(r.value) && app.pendingUser.None?
  {
    var u := app.SignUp(email, name, id, token);
    var ok := app.VerifyEmail(token);
    r := app.SignIn(email);
  }
}
