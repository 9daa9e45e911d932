/** The hosted backend the services talk to, as an in-memory store: the signed-in
    session and the `users`, `interviews`, `interview_turns` and `reports` tables.
    Row ids and timestamps come from one counter that every insert advances, which
    stands for the database's generated ids and its clock. */
module Backend {
  import opened Common

  /** The session's user as the authentication service reports it. */
  datatype AuthUser = AuthUser(
    id: string, email: Option<string>,
    metaName: Option<string>, metaFullName: Option<string>,
    emailConfirmed: bool)

  /** A `users` row; `streak` and `last_practice_date` may be null. Days are numbered. */
  datatype UserRow = UserRow(
    id: string, name: string, email: Option<string>, subscription: string,
    interviewsRemaining: int, streak: Option<int>, lastPracticeDate: Option<int>)

  /** `InterviewStatus` */
  datatype Status = InProgress | Completed | Aborted

  /** An `interviews` row. */
  datatype InterviewRow = InterviewRow(
    id: nat, userId: string, jobTitle: string, jobDescription: string,
    avatarType: Avatar, language: Lang, cvText: Option<string>,
    status: Status, date: nat, duration: int, score: int)

  /** An `interview_turns` row. */
  datatype TurnRow = TurnRow(
    id: nat, interviewId: nat, userId: string, role: Role, text: string, createdAt: nat)

  /** `InterviewReport`, as stored in `reports` together with its owner. */
  datatype Report = Report(
    interviewId: nat, overallScore: int, communication: int, confidence: int,
    technical: int, structure: int,
    strengths: seq<string>, weaknesses: seq<string>, suggestions: seq<string>)

  datatype ReportRow = ReportRow(userId: string, report: Report)

  /** Ids (and creation dates) strictly increase along the table and stay below `clock`. */
  predicate InterviewsOrdered(rows: seq<InterviewRow>, clock: nat) {
    && (forall i :: 0 <= i < |rows| ==> rows[i].id < clock && rows[i].date == rows[i].id)
    && (forall i, j :: 0 <= i < j < |rows| ==> rows[i].id < rows[j].id)
  }

  /** Creation times strictly increase along the table and stay below `clock`. */
  predicate TurnsOrdered(rows: seq<TurnRow>, clock: nat) {
    && (forall i :: 0 <= i < |rows| ==> rows[i].createdAt < clock && rows[i].id == rows[i].createdAt)
    && (forall i, j :: 0 <= i < j < |rows| ==> rows[i].createdAt < rows[j].createdAt)
  }

  predicate UsersKeyed(users: map<string, UserRow>) {
    forall k :: k in users ==> users[k].id == k
  }

  class Db {
    var session: Option<AuthUser>
    var users: map<string, UserRow>
    var interviews: seq<InterviewRow>
    var turns: seq<TurnRow>
    var reports: seq<ReportRow>
    var clock: nat

    ghost predicate Valid()
      reads this
    {
      UsersKeyed(users) && InterviewsOrdered(interviews, clock) && TurnsOrdered(turns, clock)
    }

    constructor (session: Option<AuthUser>)
      ensures this.session == session && users == map[] && interviews == [] && turns == []
      ensures reports == [] && clock == 0
      ensures Valid()
    {
      this.session := session;
      users := map[];
      interviews := [];
      turns := [];
      reports := [];
      clock := 0;
    }
  }

  /** Appending a row stamped with the clock keeps the table ordered under the advanced clock. */
  lemma AppendInterview(rows: seq<InterviewRow>, clock: nat, r: InterviewRow)
    requires InterviewsOrdered(rows, clock) && r.id == clock && r.date == clock
    ensures InterviewsOrdered(rows + [r], clock + 1)
  {
  }

  lemma AppendTurn(rows: seq<TurnRow>, clock: nat, r: TurnRow)
    requires TurnsOrdered(rows, clock) && r.id == clock && r.createdAt == clock
    ensures TurnsOrdered(rows + [r], clock + 1)
  {
  }

  /** The position of the interview with id `id`, if there is one (ids are unique). */
  function FindInterview(rows: seq<InterviewRow>, id: nat): (r: Option<nat>)
    ensures r.Some? ==> r.value < |rows| && rows[r.value].id == id
    ensures r.Some? ==> forall k :: 0 <= k < r.value ==> rows[k].id != id
    ensures r.None? ==> forall k :: 0 <= k < |rows| ==> rows[k].id != id
    decreases |rows|
  {
    if rows == [] then None
    else if rows[0].id == id then Some(0)
    else match FindInterview(rows[1..], id)
      case None => None
      case Some(k) => Some(k + 1)
  }
}
