/** The profile side of the authentication service: loading or creating the signed-in
    user's profile row, sign-up and sign-in, the subscription switch, the free-quota
    decrement and the day streak. The authentication calls themselves are outside the
    model: their outcome is a parameter. */
module AuthService {
  import opened Common
  import opened Strings
  import opened Backend
  import opened PlanRules

  /** `UserProfile` */
  datatype UserProfile = UserProfile(
    id: string, name: string, email: Option<string>, subscription: string,
    interviewsRemaining: int, emailVerified: bool, streak: int, lastPracticeDate: Option<int>)

  datatype AuthError = NotAuthenticated | SignUpFailed | ProfileInsertFailed
                     | InvalidCredentials | EmailNotVerified

  /** JavaScript truthiness of an optional string. */
  predicate Truthy(f: Option<string>) {
    f.Some? && f.value != ""
  }

  /** The name of a profile created on first load: the metadata name, else the metadata
      full name, else the part of the e-mail address before its first "@", else "User". */
  function DefaultName(u: AuthUser): (name: string)
    ensures Truthy(u.metaName) ==> name == u.metaName.value
    ensures !Truthy(u.metaName) && Truthy(u.metaFullName) ==> name == u.metaFullName.value
    ensures !Truthy(u.metaName) && !Truthy(u.metaFullName) && u.email.Some? ==>
      var e := u.email.value;
      '@' !in name && StartsWith(e, name) && (name == e || e[|name|] == '@')
    ensures !Truthy(u.metaName) && !Truthy(u.metaFullName) && u.email.None? ==> name == "User"
  {
    if Truthy(u.metaName) then u.metaName.value
    else if Truthy(u.metaFullName) then u.metaFullName.value
    else if u.email.Some? then
      SplitFirst(u.email.value, '@');
      var h := Split(u.email.value, '@')[0];
      assert |h| == |u.email.value| ==> h == u.email.value;
      h
    else "User"
  }

  /** Every new profile row, whichever way it is created: free, two interviews, no streak. */
  predicate FreshRow(row: UserRow) {
    row.subscription == "free" && row.interviewsRemaining == 2
    && row.streak == Some(0) && row.lastPracticeDate == None
  }

  /** The profile row `getCurrentUser` creates for a user without one. */
  function DefaultRow(u: AuthUser): (row: UserRow)
    ensures FreshRow(row) && row.id == u.id && row.name == DefaultName(u) && row.email == u.email
  {
    UserRow(u.id, DefaultName(u), u.email, "free", 2, Some(0), None)
  }

  /** The profile the app sees for a row, read under the session of `u`. */
  function ToProfile(row: UserRow, u: AuthUser): (p: UserProfile)
    ensures p.id == row.id && p.name == row.name && p.email == row.email
    ensures p.subscription == row.subscription
    ensures p.interviewsRemaining == row.interviewsRemaining
    ensures p.emailVerified == u.emailConfirmed
    ensures p.streak == row.streak.GetOr(0) && p.lastPracticeDate == row.lastPracticeDate
  {
    UserProfile(row.id, row.name, row.email, row.subscription, row.interviewsRemaining,
                u.emailConfirmed, row.streak.GetOr(0), row.lastPracticeDate)
  }

  /** The users table once the user of `u` is sure to have a profile row. */
  function WithProfile(users: map<string, UserRow>, u: AuthUser): (r: map<string, UserRow>)
    ensures u.id in r && r.Keys == users.Keys + {u.id}
    ensures forall k :: k in users ==> r[k] == users[k]
    ensures u.id !in users ==> r[u.id] == DefaultRow(u)
    ensures UsersKeyed(users) ==> UsersKeyed(r)
  {
    if u.id in users then users else users[u.id := DefaultRow(u)]
  }

  /** `getCurrentUser`: fails without a session; otherwise loads the session user's
      profile, creating the default row first when there is none. */
  method GetCurrentUser(db: Db) returns (r: Result<UserProfile, AuthError>)
    modifies db`users
    ensures db.session.None? ==> r == Err(NotAuthenticated) && db.users == old(db.users)
    ensures db.session.Some? ==>
      var u := db.session.value;
      db.users == WithProfile(old(db.users), u) && r == Ok(ToProfile(db.users[u.id], u))
  {
    if db.session.None? {
      return Err(NotAuthenticated);
    }
    var u := db.session.value;
    if u.id !in db.users {
      db.users := db.users[u.id := DefaultRow(u)];
    }
    r := Ok(ToProfile(db.users[u.id], u));
  }

  /** `signUp`: `created` is the account the authentication service returned, if any.
      The new profile row is free with two interviews; inserting it fails when the id
      already has a row. */
  method SignUp(db: Db, created: Option<AuthUser>, email: string, name: string)
    returns (r: Result<UserProfile, AuthError>)
    modifies db`users
    ensures created.None? ==> r == Err(SignUpFailed) && db.users == old(db.users)
    ensures created.Some? && created.value.id in old(db.users) ==>
      r == Err(ProfileInsertFailed) && db.users == old(db.users)
    ensures created.Some? && created.value.id !in old(db.users) ==>
      var u := created.value;
      var row := UserRow(u.id, name, Some(email), "free", 2, Some(0), None);
      && FreshRow(row)
      && db.users == old(db.users)[u.id := row]
      && r == Ok(ToProfile(row, u))
  {
    if created.None? {
      return Err(SignUpFailed);
    }
    var u := created.value;
    if u.id in db.users {
      return Err(ProfileInsertFailed);
    }
    var row := UserRow(u.id, name, Some(email), "free", 2, Some(0), None);
    db.users := db.users[u.id := row];
    r := Ok(ToProfile(row, u));
  }

  /** `signIn`: `authenticated` is the account the password check returned, if any. The
      session it opens stays open when the e-mail address is unconfirmed. */
  method SignIn(db: Db, authenticated: Option<AuthUser>) returns (r: Result<UserProfile, AuthError>)
    modifies db`session, db`users
    ensures authenticated.None? ==>
      r == Err(InvalidCredentials) && db.session == old(db.session) && db.users == old(db.users)
    ensures authenticated.Some? ==> db.session == authenticated
    ensures authenticated.Some? && !authenticated.value.emailConfirmed ==>
      r == Err(EmailNotVerified) && db.users == old(db.users)
    ensures authenticated.Some? && authenticated.value.emailConfirmed ==>
      var u := authenticated.value;
      db.users == WithProfile(old(db.users), u) && r == Ok(ToProfile(db.users[u.id], u))
      && r.value.emailVerified
  {
    if authenticated.None? {
      return Err(InvalidCredentials);
    }
    db.session := authenticated;
    if !authenticated.value.emailConfirmed {
      return Err(EmailNotVerified);
    }
    r := GetCurrentUser(db);
  }

  /** The interviews a plan grants on switching to it. */
  function Quota(plan: Plan): (n: int)
    ensures n == 999 <==> plan.Premium?
    ensures n == 2 <==> plan.Free?
  {
    match plan
    case Premium => 999
    case Free => 2
  }

  /** `users` after the session user `u` switches to `plan`. */
  function Subscribed(users: map<string, UserRow>, u: AuthUser, plan: Plan): (r: map<string, UserRow>)
    ensures r.Keys == users.Keys + {u.id}
    ensures r[u.id].subscription == PlanCode(plan) && r[u.id].interviewsRemaining == Quota(plan)
    ensures r[u.id] == WithProfile(users, u)[u.id].(subscription := PlanCode(plan), interviewsRemaining := Quota(plan))
    ensures forall k :: k in users && k != u.id ==> r[k] == users[k]
  {
    var w := WithProfile(users, u);
    w[u.id := w[u.id].(subscription := PlanCode(plan), interviewsRemaining := Quota(plan))]
  }

  /** `updateSubscription` */
  method UpdateSubscription(db: Db, plan: Plan) returns (r: Result<(), AuthError>)
    modifies db`users
    ensures db.session.None? ==> r == Err(NotAuthenticated) && db.users == old(db.users)
    ensures db.session.Some? ==> r == Ok(()) && db.users == Subscribed(old(db.users), db.session.value, plan)
  {
    var p := GetCurrentUser(db);
    if p.Err? {
      return Err(p.error);
    }
    var u := db.session.value;
    db.users := db.users[u.id := db.users[u.id].(subscription := PlanCode(plan), interviewsRemaining := Quota(plan))];
    r := Ok(());
  }

  /** The remaining count after one `decrementFreeInterview`. */
  function Decremented(subscription: string, remaining: int): int {
    if subscription != "free" || remaining <= 0 then remaining else remaining - 1
  }

  /** The count after `n` decrements. */
  function DecrementedTimes(subscription: string, remaining: int, n: nat): int {
    if n == 0 then remaining else Decremented(subscription, DecrementedTimes(subscription, remaining, n - 1))
  }

  /** Decrements only ever touch the free plan and stop at zero: after `n` of them a free
      count `k >= 0` is max(0, k - n), and any other plan's count is as it was. */
  lemma {:induction false} DecrementedTimesValue(subscription: string, k: int, n: nat)
    requires k >= 0
    ensures subscription == "free" ==>
      DecrementedTimes(subscription, k, n) == (if k >= n then k - n else 0)
    ensures subscription != "free" ==> DecrementedTimes(subscription, k, n) == k
  {
    if n > 0 {
      DecrementedTimesValue(subscription, k, n - 1);
    }
  }

  /** `users` after one `decrementFreeInterview` by the session user `u`. */
  function AfterDecrement(users: map<string, UserRow>, u: AuthUser): (r: map<string, UserRow>)
    ensures r.Keys == users.Keys + {u.id}
    ensures forall k :: k in users && k != u.id ==> r[k] == users[k]
    ensures var before := WithProfile(users, u)[u.id];
      r[u.id] == before.(interviewsRemaining := Decremented(before.subscription, before.interviewsRemaining))
  {
    var w := WithProfile(users, u);
    var row := w[u.id];
    w[u.id := row.(interviewsRemaining := Decremented(row.subscription, row.interviewsRemaining))]
  }

  /** `decrementFreeInterview`: nothing happens for a plan other than "free" or once the
      count is down to zero; otherwise the count drops by one. */
  method DecrementFreeInterview(db: Db) returns (r: Result<(), AuthError>)
    modifies db`users
    ensures db.session.None? ==> r == Err(NotAuthenticated) && db.users == old(db.users)
    ensures db.session.Some? ==> r == Ok(()) && db.users == AfterDecrement(old(db.users), db.session.value)
  {
    var p := GetCurrentUser(db);
    if p.Err? {
      return Err(p.error);
    }
    var profile := p.value;
    if profile.subscription != "free" {
      return Ok(());
    }
    if profile.interviewsRemaining <= 0 {
      return Ok(());
    }
    var u := db.session.value;
    db.users := db.users[u.id := db.users[u.id].(interviewsRemaining := profile.interviewsRemaining - 1)];
    r := Ok(());
  }

  /** The streak after practising on day `today`, given the last practice day and the
      stored streak (either may be null). */
  function NextStreak(last: Option<int>, today: int, streak: Option<int>): int {
    if last == Some(today) then streak.GetOr(1)
    else if last.Some? then
      if last.value == today - 1 then streak.GetOr(0) + 1 else 1
    else 1
  }

  /** Practising again the same day keeps the streak (1 when none is stored), practising
      the next day extends it (from 0 when none is stored), and a first practice or a gap
      of more than a day restarts it at 1. */
  lemma NextStreakCases(last: Option<int>, today: int, streak: Option<int>)
    ensures last == Some(today) ==> NextStreak(last, today, streak) == streak.GetOr(1)
    ensures last == Some(today - 1) ==> NextStreak(last, today, streak) == streak.GetOr(0) + 1
    ensures last.None? || last.value < today - 1 || last.value > today ==>
      NextStreak(last, today, streak) == 1
  {
  }

  /** The (last day, streak) pair after practising on each of `days` in turn. */
  function Practise(last: Option<int>, streak: Option<int>, days: seq<int>): (r: (Option<int>, Option<int>))
    decreases |days|
  {
    if days == [] then (last, streak)
    else
      var d := days[0];
      Practise(Some(d), Some(NextStreak(last, d, streak)), days[1..])
  }

  /** Practising on `n` consecutive days, starting the day after the last practice, adds
      `n` to the streak. */
  lemma {:induction false} ConsecutiveDays(last: int, streak: int, n: nat)
    ensures Practise(Some(last), Some(streak), seq(n, i => last + 1 + i))
            == (if n == 0 then Some(last) else Some(last + n), Some(streak + n))
    decreases n
  {
    if n > 0 {
      var days := seq(n, i => last + 1 + i);
      assert days[0] == last + 1;
      assert days[1..] == seq(n - 1, i => (last + 1) + 1 + i);
      ConsecutiveDays(last + 1, streak + 1, n - 1);
    }
  }

  /** A practised user (a last day recorded) has a streak of at least one, and practising
      keeps it so: the streak stays positive from the first practice on. */
  lemma StreakStaysPositive(last: Option<int>, today: int, streak: Option<int>)
    requires last.Some? ==> streak.Some? && streak.value >= 1
    ensures NextStreak(last, today, streak) >= 1
  {
  }

  /** `updateStreakAfterInterview`: nothing happens when the user has no row (the failure
      is only logged); otherwise the streak advances and today becomes the last practice day. */
  method UpdateStreakAfterInterview(db: Db, userId: string, today: int)
    modifies db`users
    ensures userId !in old(db.users) ==> db.users == old(db.users)
    ensures userId in old(db.users) ==>
      var row := old(db.users)[userId];
      db.users == old(db.users)[userId := row.(
        streak := Some(NextStreak(row.lastPracticeDate, today, row.streak)),
        lastPracticeDate := Some(today))]
  {
    if userId !in db.users {
      return;
    }
    var row := db.users[userId];
    var newStreak := NextStreak(row.lastPracticeDate, today, row.streak);
    db.users := db.users[userId := row.(streak := Some(newStreak), lastPracticeDate := Some(today))];
  }
}
