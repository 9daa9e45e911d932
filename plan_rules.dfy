/** The plan capability table and the normalisation of a stored subscription value. */
module PlanRules {
  import opened Common

  /** `SubscriptionType` */
  datatype Plan = Free | Premium

  function PlanCode(p: Plan): string {
    match p
    case Free => "free"
    case Premium => "premium"
  }

  datatype AnalysisDepth = Basic | Advanced
  datatype InterviewRealism = Simple | Realistic

  /** `PlanCapabilities` */
  datatype Capabilities = Capabilities(
    maxQuestions: nat,
    maxFollowUpsPerQuestion: nat,
    interviewDurationMinutes: nat,
    showExactScores: bool,
    showExactMatchPercentage: bool,
    allowPdfDownload: bool,
    analysisDepth: AnalysisDepth,
    interviewRealism: InterviewRealism,
    allowMultipleLanguages: bool)

  /** `PLAN_RULES[plan]` */
  function Rules(plan: Plan): (c: Capabilities)
    ensures plan == Free ==> c.maxQuestions == 5 && c.maxFollowUpsPerQuestion == 1
                             && c.interviewDurationMinutes == 6
    ensures plan == Premium ==> c.maxQuestions == 15 && c.maxFollowUpsPerQuestion == 3
                                && c.interviewDurationMinutes == 15
  {
    match plan
    case Free =>
      Capabilities(5, 1, 6, false, false, false, Basic, Simple, false)
    case Premium =>
      Capabilities(15, 3, 15, true, true, true, Advanced, Realistic, true)
  }

  /** `getUserPlan`: only the exact value "premium" is the premium plan; any other value,
      a missing one included, is the free plan. */
  function GetUserPlan(subscription: Option<string>): (p: Plan)
    ensures p == Premium <==> subscription == Some("premium")
    ensures p == Free <==> subscription != Some("premium")
  {
    if subscription == Some("premium") then Premium else Free
  }

  /** Normalising an already normalised plan changes nothing. */
  lemma GetUserPlanIdempotent(subscription: Option<string>)
    ensures GetUserPlan(Some(PlanCode(GetUserPlan(subscription)))) == GetUserPlan(subscription)
  {
  }

  /** `getCapabilities`: the premium row for "premium" and the free row for anything else. */
  function GetCapabilities(subscription: Option<string>): (c: Capabilities)
    ensures c == Rules(Premium) <==> subscription == Some("premium")
    ensures c == Rules(Free) <==> subscription != Some("premium")
    ensures AtLeast(Rules(Premium), c)
  {
    PremiumDominates();
    AtLeastReflexive(Rules(Premium));
    Rules(GetUserPlan(subscription))
  }

  /** `hi` grants at least what `lo` grants: no smaller numeric cap, every flag `lo`
      sets, and the deeper analysis and realistic mode whenever `lo` has them. */
  predicate AtLeast(hi: Capabilities, lo: Capabilities) {
    && hi.maxQuestions >= lo.maxQuestions
    && hi.maxFollowUpsPerQuestion >= lo.maxFollowUpsPerQuestion
    && hi.interviewDurationMinutes >= lo.interviewDurationMinutes
    && (lo.showExactScores ==> hi.showExactScores)
    && (lo.showExactMatchPercentage ==> hi.showExactMatchPercentage)
    && (lo.allowPdfDownload ==> hi.allowPdfDownload)
    && (lo.analysisDepth == Advanced ==> hi.analysisDepth == Advanced)
    && (lo.interviewRealism == Realistic ==> hi.interviewRealism == Realistic)
    && (lo.allowMultipleLanguages ==> hi.allowMultipleLanguages)
  }

  lemma AtLeastReflexive(c: Capabilities)
    ensures AtLeast(c, c)
  {
  }

  /** Premium grants at least what free grants, and strictly more of every numeric cap. */
  lemma PremiumDominates()
    ensures AtLeast(Rules(Premium), Rules(Free))
    ensures !AtLeast(Rules(Free), Rules(Premium))
    ensures Rules(Premium).maxQuestions > Rules(Free).maxQuestions
    ensures Rules(Premium).maxFollowUpsPerQuestion > Rules(Free).maxFollowUpsPerQuestion
    ensures Rules(Premium).interviewDurationMinutes > Rules(Free).interviewDurationMinutes
  {
  }
}
