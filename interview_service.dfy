/** The interview store: creating an interview with its opening question, recording
    turns, reading them back in order, completing an interview behind its guard chain,
    and listing and loading interviews. */
module InterviewService {
  import opened Common
  import opened Strings
  import opened Backend
  import opened AuthService

  datatype ServiceError = AuthFailed(cause: AuthError) | OutOfInterviews | InterviewNotFound
                        | Unauthorized | AlreadyCompleted

  /** What `createInterview` receives from the setup page. */
  datatype NewInterview = NewInterview(
    jobTitle: string, jobDescription: string, avatarType: Avatar, language: Lang,
    cvText: Option<string>)

  /** The opening question stored with every new interview; it depends on the
      language only. */
  function FirstQuestion(lang: Lang): (q: string)
    ensures lang == Ar ==> q == "أخبرني عن نفسك."
    ensures lang == Fr ==> q == "Parlez-moi de vous."
    ensures lang == Es ==> q == "Háblame de ti."
    ensures lang == En ==> q == "Tell me about yourself."
  {
    if lang == Ar then "أخبرني عن نفسك."
    else if lang == Fr then "Parlez-moi de vous."
    else if lang == Es then "Háblame de ti."
    else "Tell me about yourself."
  }

  /** A free account with no interviews left may not start another one. */
  predicate OutOf(profile: UserProfile) {
    profile.subscription == "free" && profile.interviewsRemaining <= 0
  }

  /** `addTurn`: appends one row for the session user, stamped with the clock. */
  method AddTurn(db: Db, interviewId: nat, role: Role, text: string) returns (r: Result<(), ServiceError>)
    requires db.Valid()
    modifies db`users, db`turns, db`clock
    ensures db.Valid()
    ensures db.session.None? ==>
      r == Err(AuthFailed(NotAuthenticated)) && db.users == old(db.users)
      && db.turns == old(db.turns) && db.clock == old(db.clock)
    ensures db.session.Some? ==>
      && r == Ok(())
      && db.users == WithProfile(old(db.users), db.session.value)
      && db.turns == old(db.turns) + [TurnRow(old(db.clock), interviewId, db.session.value.id, role, text, old(db.clock))]
      && db.clock == old(db.clock) + 1
  {
    var user := GetCurrentUser(db);
    if user.Err? {
      return Err(AuthFailed(NotAuthenticated));
    }
    var row := TurnRow(db.clock, interviewId, user.value.id, role, text, db.clock);
    AppendTurn(db.turns, db.clock, row);
    db.turns := db.turns + [row];
    db.clock := db.clock + 1;
    r := Ok(());
  }

  /** `createInterview`: refuses an exhausted free account before inserting anything;
      otherwise inserts an in-progress interview with zero duration and score and then
      its opening question as the first turn. */
  method CreateInterview(db: Db, data: NewInterview) returns (r: Result<InterviewRow, ServiceError>)
    requires db.Valid()
    modifies db`users, db`interviews, db`turns, db`clock
    ensures db.Valid()
    ensures db.session.None? ==>
      r == Err(AuthFailed(NotAuthenticated)) && db.users == old(db.users) && db.interviews == old(db.interviews)
      && db.turns == old(db.turns) && db.clock == old(db.clock)
    ensures db.session.Some? ==>
      var u := db.session.value;
      && db.users == WithProfile(old(db.users), u)
      && (r == Err(OutOfInterviews) <==> OutOf(ToProfile(db.users[u.id], u)))
      && (r.Err? ==> r == Err(OutOfInterviews) && db.interviews == old(db.interviews)
                     && db.turns == old(db.turns) && db.clock == old(db.clock))
      && (r.Ok? ==>
            var iv := r.value;
            && iv == InterviewRow(old(db.clock), u.id, data.jobTitle, data.jobDescription,
                                  data.avatarType, data.language, data.cvText, InProgress,
                                  old(db.clock), 0, 0)
            && db.interviews == old(db.interviews) + [iv]
            && db.turns == old(db.turns) + [TurnRow(old(db.clock) + 1, iv.id, u.id, Ai,
                                                    FirstQuestion(data.language), old(db.clock) + 1)]
            && db.clock == old(db.clock) + 2)
  {
    var user := GetCurrentUser(db);
    if user.Err? {
      return Err(AuthFailed(NotAuthenticated));
    }
    if OutOf(user.value) {
      return Err(OutOfInterviews);
    }
    ghost var users1 := db.users;
    var created := InterviewRow(db.clock, user.value.id, data.jobTitle, data.jobDescription,
                                data.avatarType, data.language, data.cvText, InProgress,
                                db.clock, 0, 0);
    AppendInterview(db.interviews, db.clock, created);
    db.interviews := db.interviews + [created];
    db.clock := db.clock + 1;
    // `addTurn` fails only without a session, which was checked above.
    var added := AddTurn(db, created.id, Ai, FirstQuestion(data.language));
    assert added.Ok?;
    assert db.users == users1;
    r := Ok(created);
  }

  /** The turns of one interview, in table order. */
  function TurnsOf(rows: seq<TurnRow>, interviewId: nat): (r: seq<TurnRow>)
    ensures forall t :: t in r <==> t in rows && t.interviewId == interviewId
    ensures |r| <= |rows|
    decreases |rows|
  {
    if rows == [] then []
    else
      var init := TurnsOf(rows[..|rows| - 1], interviewId);
      var last := rows[|rows| - 1];
      assert forall t :: t in rows <==> t in rows[..|rows| - 1] || t == last;
      if last.interviewId == interviewId then init + [last] else init
  }

  predicate SortedByCreation(ts: seq<TurnRow>) {
    forall i, j :: 0 <= i < j < |ts| ==> ts[i].createdAt < ts[j].createdAt
  }

  /** A filtered table keeps the strict ordering of its creation times. */
  lemma {:induction false} TurnsOfOrdered(rows: seq<TurnRow>, interviewId: nat)
    requires SortedByCreation(rows)
    ensures SortedByCreation(TurnsOf(rows, interviewId))
    ensures forall t :: t in TurnsOf(rows, interviewId) ==> exists k :: 0 <= k < |rows| && rows[k] == t
    decreases |rows|
  {
    if rows != [] {
      var init := rows[..|rows| - 1];
      assert SortedByCreation(init);
      TurnsOfOrdered(init, interviewId);
      var last := rows[|rows| - 1];
      var f := TurnsOf(init, interviewId);
      forall t | t in f ensures t.createdAt < last.createdAt {
        var k :| 0 <= k < |init| && init[k] == t;
      }
    }
  }

  /** `getTurnsByInterview`: exactly the interview's turns, oldest first. */
  function GetTurnsByInterview(db: Db, interviewId: nat): (r: seq<TurnRow>)
    reads db
    ensures forall t :: t in r <==> t in db.turns && t.interviewId == interviewId
    ensures db.Valid() ==> SortedByCreation(r)
  {
    if SortedByCreation(db.turns) then
      TurnsOfOrdered(db.turns, interviewId);
      TurnsOf(db.turns, interviewId)
    else TurnsOf(db.turns, interviewId)
  }

  /** The guard chain of `completeInterview`, in its order: a missing interview, then
      another user's interview, then an interview already completed. An aborted
      interview passes. */
  function CompletionCheck(found: Option<InterviewRow>, userId: string): (r: Result<InterviewRow, ServiceError>)
    ensures r == Err(InterviewNotFound) <==> found.None?
    ensures r == Err(Unauthorized) <==> found.Some? && found.value.userId != userId
    ensures r == Err(AlreadyCompleted) <==>
      found.Some? && found.value.userId == userId && found.value.status == Completed
    ensures r.Ok? <==> found.Some? && found.value.userId == userId && found.value.status != Completed
    ensures r.Ok? ==> r.value == found.value
  {
    if found.None? then Err(InterviewNotFound)
    else if found.value.userId != userId then Err(Unauthorized)
    else if found.value.status == Completed then Err(AlreadyCompleted)
    else Ok(found.value)
  }

  /** `getInterviewById`: the interview with this id, or `None`. */
  function GetInterviewById(db: Db, id: nat): (r: Option<InterviewRow>)
    reads db
    ensures r.Some? ==> r.value in db.interviews && r.value.id == id
    ensures r.None? ==> forall iv :: iv in db.interviews ==> iv.id != id
  {
    match FindInterview(db.interviews, id)
    case None => None
    case Some(k) => Some(db.interviews[k])
  }

  /** The five draws of `Math.floor(Math.random() * 30)` behind a mock report's scores. */
  datatype Draws = Draws(overall: nat, communication: nat, confidence: nat, technical: nat, structure: nat)

  predicate ValidDraws(d: Draws) {
    d.overall < 30 && d.communication < 30 && d.confidence < 30 && d.technical < 30 && d.structure < 30
  }

  /** The mock report for an interview: every score lies in 65..94. */
  function MockReport(interviewId: nat, d: Draws): (rep: Report)
    requires ValidDraws(d)
    ensures rep.interviewId == interviewId
    ensures 65 <= rep.overallScore <= 94 && 65 <= rep.communication <= 94
    ensures 65 <= rep.confidence <= 94 && 65 <= rep.technical <= 94 && 65 <= rep.structure <= 94
  {
    Report(interviewId, d.overall + 65, d.communication + 65, d.confidence + 65,
           d.technical + 65, d.structure + 65,
           Strengths, Weaknesses, Suggestions)
  }

  const Strengths: seq<string> := ["Clear communication", "Good role understanding"]
  const Weaknesses: seq<string> := ["Need more examples", "Some answers too short"]
  const Suggestions: seq<string> := ["Use STAR method", "Prepare technical examples"]

  /** The interviews table with row `k` marked completed, with its duration and score. */
  function MarkCompleted(rows: seq<InterviewRow>, k: nat, duration: int, score: int): (r: seq<InterviewRow>)
    requires k < |rows|
    ensures |r| == |rows| && r[k] == rows[k].(status := Completed, duration := duration, score := score)
    ensures forall j :: 0 <= j < |rows| && j != k ==> r[j] == rows[j]
    ensures forall j :: 0 <= j < |rows| ==> r[j].id == rows[j].id && r[j].date == rows[j].date
  {
    rows[k := rows[k].(status := Completed, duration := duration, score := score)]
  }

  /** The effect of one `completeInterview(interviewId, duration)` call with result `r`:
      without a session it fails and writes nothing; when a guard fails, only the missing
      profile row may have been created; otherwise the interview is completed with the
      duration and the report's overall score, the report is inserted and one free-quota
      decrement is applied. */
  twostate predicate CompletedAs(db: Db, interviewId: nat, duration: int, draws: Draws,
                                 new r: Result<Report, ServiceError>)
    requires ValidDraws(draws)
    reads db
  {
    && (db.session.None? ==>
          r == Err(AuthFailed(NotAuthenticated)) && db.users == old(db.users)
          && db.interviews == old(db.interviews) && db.reports == old(db.reports))
    && (db.session.Some? ==>
          var u := db.session.value;
          var found := FindInterview(old(db.interviews), interviewId);
          var check := CompletionCheck(if found.Some? then Some(old(db.interviews)[found.value]) else None, u.id);
          && (check.Err? ==>
                r == Err(check.error) && db.users == WithProfile(old(db.users), u)
                && db.interviews == old(db.interviews) && db.reports == old(db.reports))
          && (check.Ok? ==>
                var rep := MockReport(interviewId, draws);
                && r == Ok(rep)
                && db.interviews == MarkCompleted(old(db.interviews), found.value, duration, rep.overallScore)
                && db.reports == old(db.reports) + [ReportRow(u.id, rep)]
                && db.users == AfterDecrement(old(db.users), u)))
  }

  /** `completeInterview`: after the guard chain, marks the interview completed with the
      given duration and the report's overall score, inserts the report and applies one
      free-quota decrement. */
  method CompleteInterview(db: Db, interviewId: nat, duration: int, draws: Draws)
    returns (r: Result<Report, ServiceError>)
    requires db.Valid() && ValidDraws(draws)
    modifies db`users, db`interviews, db`reports
    ensures db.Valid()
    ensures db.session == old(db.session)
    ensures CompletedAs(db, interviewId, duration, draws, r)
  {
    var user := GetCurrentUser(db);
    if user.Err? {
      return Err(AuthFailed(NotAuthenticated));
    }
    var found := FindInterview(db.interviews, interviewId);
    var check := CompletionCheck(if found.Some? then Some(db.interviews[found.value]) else None, user.value.id);
    if check.Err? {
      return Err(check.error);
    }
    var report := MockReport(interviewId, draws);
    db.interviews := MarkCompleted(db.interviews, found.value, duration, report.overallScore);
    db.reports := db.reports + [ReportRow(user.value.id, report)];
    var _ := DecrementFreeInterview(db);
    r := Ok(report);
  }

  /** Once an interview is completed, completing it again fails with
      `AlreadyCompleted` for its owner, so the quota is decremented once per interview. */
  lemma CompletedStaysCompleted(rows: seq<InterviewRow>, k: nat, duration: int, score: int, userId: string)
    requires k < |rows| && rows[k].userId == userId
    requires forall j :: 0 <= j < k ==> rows[j].id != rows[k].id
    ensures var after := MarkCompleted(rows, k, duration, score);
      var found := FindInterview(after, rows[k].id);
      found == Some(k) && CompletionCheck(Some(after[k]), userId) == Err(AlreadyCompleted)
  {
    var after := MarkCompleted(rows, k, duration, score);
    var found := FindInterview(after, rows[k].id);
    assert after[k].id == rows[k].id;
    assert found.Some? && found.value <= k;
  }

  /** The interviews of one user, newest first (the table holds them oldest first). */
  function InterviewsOf(rows: seq<InterviewRow>, uid: string): (r: seq<InterviewRow>)
    ensures forall iv :: iv in r <==> iv in rows && iv.userId == uid
    decreases |rows|
  {
    if rows == [] then []
    else
      var rest := InterviewsOf(rows[1..], uid);
      assert forall iv :: iv in rows <==> iv == rows[0] || iv in rows[1..];
      if rows[0].userId == uid then rest + [rows[0]] else rest
  }

  predicate NewestFirst(ivs: seq<InterviewRow>) {
    forall i, j :: 0 <= i < j < |ivs| ==> ivs[i].date > ivs[j].date
  }

  /** An ordered table lists each user's interviews by date, newest first. */
  lemma {:induction false} InterviewsOfNewestFirst(rows: seq<InterviewRow>, uid: string)
    requires forall i, j :: 0 <= i < j < |rows| ==> rows[i].date < rows[j].date
    ensures NewestFirst(InterviewsOf(rows, uid))
    decreases |rows|
  {
    if rows != [] {
      var tail := rows[1..];
      InterviewsOfNewestFirst(tail, uid);
      var rest := InterviewsOf(tail, uid);
      forall iv | iv in rest ensures iv.date > rows[0].date {
        var k :| 0 <= k < |tail| && tail[k] == iv;
        assert tail[k] == rows[k + 1];
      }
    }
  }

  /** `getInterviewsByUser`: exactly the user's interviews, newest first. */
  function GetInterviewsByUser(db: Db, uid: string): (r: seq<InterviewRow>)
    reads db
    ensures forall iv :: iv in r <==> iv in db.interviews && iv.userId == uid
    ensures db.Valid() ==> NewestFirst(r)
  {
    if forall i, j :: 0 <= i < j < |db.interviews| ==> db.interviews[i].date < db.interviews[j].date then
      InterviewsOfNewestFirst(db.interviews, uid);
      InterviewsOf(db.interviews, uid)
    else InterviewsOf(db.interviews, uid)
  }
}
