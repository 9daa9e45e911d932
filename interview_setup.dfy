/** The interview setup page: the guard chain in front of interview creation and the
    premium-only realistic mode switch. */
module InterviewSetup {
  import opened Common
  import opened Strings
  import opened Backend
  import opened AuthService
  import opened InterviewService

  /** The form fields that reach `createInterview`; the CV file is never sent. */
  datatype Form = Form(jobTitle: string, jobDescription: string, avatarType: Avatar, language: Lang)

  /** The outcome of the guards of `handleStartInterview`. */
  datatype Gate = ToAuth | MissingInformation | ToPricing | Create

  /** The guards in the order the page checks them: a signed-in user, both job
      fields filled in, then the free quota. */
  function StartGate(user: Option<UserProfile>, form: Form): (g: Gate)
    ensures g == ToAuth <==> user.None?
    ensures g == MissingInformation <==>
      user.Some? && (form.jobTitle == "" || form.jobDescription == "")
    ensures g == ToPricing <==>
      user.Some? && form.jobTitle != "" && form.jobDescription != "" && OutOf(user.value)
    ensures g == Create <==>
      user.Some? && form.jobTitle != "" && form.jobDescription != "" && !OutOf(user.value)
  {
    if user.None? then ToAuth
    else if form.jobTitle == "" || form.jobDescription == "" then MissingInformation
    else if user.value.subscription == "free" && user.value.interviewsRemaining <= 0 then ToPricing
    else Create
  }

  /** The room of an interview. */
  function RoomPath(id: nat): (path: string)
    ensures StartsWith(path, "/room/")
    ensures AllDigits(path[6..]) && ParseNat(path[6..]) == id
  {
    ParseNatToString(id);
    assert ("/room/" + NatToString(id))[6..] == NatToString(id);
    "/room/" + NatToString(id)
  }

  /** `handleStartInterview`: where the page navigates, if anywhere. Only when every
      guard passes is `createInterview` called; when it fails the page stays. */
  method StartInterview(db: Db, user: Option<UserProfile>, form: Form) returns (nav: Option<string>)
    requires db.Valid()
    modifies db`users, db`interviews, db`turns, db`clock
    ensures db.Valid()
    ensures var g := StartGate(user, form);
      && (g == ToAuth ==> nav == Some("/auth"))
      && (g == MissingInformation ==> nav.None?)
      && (g == ToPricing ==> nav == Some("/pricing"))
      && (g != Create ==> db.interviews == old(db.interviews) && db.turns == old(db.turns)
                          && db.users == old(db.users) && db.clock == old(db.clock))
      && (g == Create ==>
            || (nav.None? && db.interviews == old(db.interviews))
            || (|db.interviews| == |old(db.interviews)| + 1
                && var iv := db.interviews[|db.interviews| - 1];
                && db.interviews == old(db.interviews) + [iv]
                && iv.jobTitle == form.jobTitle && iv.jobDescription == form.jobDescription
                && iv.avatarType == form.avatarType && iv.language == form.language
                && iv.cvText.None? && iv.status == InProgress
                && nav == Some(RoomPath(iv.id))))
  {
    var gate := StartGate(user, form);
    match gate
    case ToAuth =>
      nav := Some("/auth");
    case MissingInformation =>
      nav := None;
    case ToPricing =>
      nav := Some("/pricing");
    case Create =>
      var data := NewInterview(form.jobTitle, form.jobDescription, form.avatarType, form.language, None);
      var r := CreateInterview(db, data);
      if r.Ok? {
        nav := Some(RoomPath(r.value.id));
      } else {
        nav := None;
      }
  }

  /** The page state that the realistic mode switch touches. */
  class SetupPage {
    var user: Option<UserProfile>
    var realisticMode: bool
    var showPremiumDialog: bool

    /** Realistic mode is only ever on for a premium user. */
    ghost predicate Valid()
      reads this
    {
      realisticMode ==> user.Some? && user.value.subscription == "premium"
    }

    /** The page as loaded for `user`: the switch off and the dialog closed. */
    constructor (user0: Option<UserProfile>)
      ensures user == user0 && !realisticMode && !showPremiumDialog
      ensures Valid()
    {
      user := user0;
      realisticMode := false;
      showPremiumDialog := false;
    }

    /** `handleToggleRealisticMode`: ignored without a user; a non-premium user gets
        the premium dialog and the switch stays; a premium user sets the switch. */
    method ToggleRealisticMode(checked: bool)
      requires Valid()
      modifies this`realisticMode, this`showPremiumDialog
      ensures Valid()
      ensures user.None? ==>
        realisticMode == old(realisticMode) && showPremiumDialog == old(showPremiumDialog)
      ensures user.Some? && user.value.subscription != "premium" ==>
        showPremiumDialog && realisticMode == old(realisticMode)
      ensures user.Some? && user.value.subscription == "premium" ==>
        realisticMode == checked && showPremiumDialog == old(showPremiumDialog)
    {
      if user.None? {
        return;
      }
      if user.value.subscription != "premium" {
        showPremiumDialog := true;
        return;
      }
      realisticMode := checked;
    }
  }
}
