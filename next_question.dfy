/** The "next question" serverless handler: it counts the follow-up questions the
    interviewer has already asked, composes the instruction for the text-generation
    service and answers the HTTP request with the question that service returns. */
module NextQuestion {
  import opened Common
  import opened Strings

  /** A transcript turn as the client sends it; `role` is "ai" or "user". */
  datatype Turn = Turn(role: string, text: string)

  // ---------------------------------------------------------------------------
  // Language and difficulty

  function LanguageName(lang: string): (name: string)
    ensures lang == "ar" ==> name == "Arabic"
    ensures lang == "fr" ==> name == "French"
    ensures lang == "es" ==> name == "Spanish"
    ensures lang != "ar" && lang != "fr" && lang != "es" ==> name == "English"
  {
    if lang == "ar" then "Arabic"
    else if lang == "fr" then "French"
    else if lang == "es" then "Spanish"
    else "English"
  }

  function DifficultyLabel(avatarType: string): (d: string)
    ensures avatarType == "easy" ==> d == "Junior / friendly"
    ensures avatarType == "medium" ==> d == "Mid-level / professional"
    ensures avatarType != "easy" && avatarType != "medium" ==> d == "Senior / challenging"
  {
    if avatarType == "easy" then "Junior / friendly"
    else if avatarType == "medium" then "Mid-level / professional"
    else "Senior / challenging"
  }

  // ---------------------------------------------------------------------------
  // Transcript

  const TranscriptWindow: nat := 10

  /** `turns.slice(-10)` */
  function Window(turns: seq<Turn>): seq<Turn> {
    if |turns| <= TranscriptWindow then turns else turns[|turns| - TranscriptWindow..]
  }

  function Speaker(t: Turn): string {
    if t.role == "ai" then "Interviewer" else "Candidate"
  }

  function Line(t: Turn): string {
    Speaker(t) + ": " + t.text
  }

  function Lines(turns: seq<Turn>): (r: seq<string>)
    ensures |r| == |turns|
    ensures forall k :: 0 <= k < |turns| ==> r[k] == Line(turns[k])
  {
    if turns == [] then [] else [Line(turns[0])] + Lines(turns[1..])
  }

  function Transcript(turns: seq<Turn>): string {
    Join(Lines(Window(turns)), "\n")
  }

  /** The window is the last min(10, n) turns, in their original order. */
  lemma WindowIsSuffix(turns: seq<Turn>)
    ensures |Window(turns)| == (if |turns| <= 10 then |turns| else 10)
    ensures forall k :: 0 <= k < |Window(turns)| ==>
              Window(turns)[k] == turns[|turns| - |Window(turns)| + k]
  {
  }

  /** Read line by line, the transcript is one line per windowed turn, labelled
      "Interviewer: " exactly for the ai turns and "Candidate: " for all others,
      when no turn text holds a line break. */
  lemma TranscriptLines(turns: seq<Turn>)
    requires turns != []
    requires forall t :: t in turns ==> '\n' !in t.text
    ensures var w := Window(turns);
      && Split(Transcript(turns), '\n') == Lines(w)
      && |Lines(w)| == (if |turns| <= 10 then |turns| else 10)
      && forall k :: 0 <= k < |w| ==>
           (StartsWith(Lines(w)[k], "Interviewer: ") <==> w[k].role == "ai")
  {
    var w := Window(turns);
    forall k | 0 <= k < |w| ensures '\n' !in Lines(w)[k] {
      assert w[k] in turns;
      LineHasNoBreak(w[k]);
    }
    SplitJoin(Lines(w), '\n');
    forall k | 0 <= k < |w|
      ensures StartsWith(Lines(w)[k], "Interviewer: ") <==> w[k].role == "ai"
    {
      LineLabel(w[k]);
    }
  }

  /** A line starts with "Interviewer: " exactly when its turn is an ai turn. */
  lemma LineLabel(t: Turn)
    ensures StartsWith(Line(t), "Interviewer: ") <==> t.role == "ai"
  {
    var l := Line(t);
    assert l == Speaker(t) + (": " + t.text);
    if t.role != "ai" {
      assert l[0] == "Candidate"[0];
    }
  }

  lemma LineHasNoBreak(t: Turn)
    requires '\n' !in t.text
    ensures '\n' !in Line(t)
  {
    var l := Line(t);
    var head := Speaker(t) + ": ";
    assert '\n' !in head;
    assert l == head + t.text;
    forall k | 0 <= k < |l| ensures l[k] != '\n' {
      if k < |head| {
        assert l[k] == head[k];
      } else {
        assert l[k] == t.text[k - |head|];
      }
    }
  }

  // ---------------------------------------------------------------------------
  // Follow-up classifier

  /** The cues whose presence in a lower-cased interviewer question marks it as a follow-up. */
  const FollowUpCues: seq<string> := [
    "you said", "you mentioned", "elaborate", "clarify", "can you explain",
    "pourquoi", "pouvez-vous", "¿puedes", "¿podrías", "لماذا", "هل يمكنك"
  ]

  predicate HasCue(q: string) {
    exists i :: 0 <= i < |FollowUpCues| && Contains(q, FollowUpCues[i])
  }

  /** `turns.filter(t => t.role === "ai").map(t => t.text.toLowerCase())` */
  function AiQuestions(turns: seq<Turn>): seq<string>
    decreases |turns|
  {
    if turns == [] then []
    else
      var last := turns[|turns| - 1];
      AiQuestions(turns[..|turns| - 1]) + (if last.role == "ai" then [ToLower(last.text)] else [])
  }

  function AiCount(turns: seq<Turn>): nat
    decreases |turns|
  {
    if turns == [] then 0
    else AiCount(turns[..|turns| - 1]) + (if turns[|turns| - 1].role == "ai" then 1 else 0)
  }

  /** `.filter(q => q.includes(cue) || ...).length` */
  function CountCued(qs: seq<string>): nat
    decreases |qs|
  {
    if qs == [] then 0
    else CountCued(qs[..|qs| - 1]) + (if HasCue(qs[|qs| - 1]) then 1 else 0)
  }

  /** Whether an interviewer turn text counts as a follow-up. */
  predicate IsFollowUp(t: Turn) {
    t.role == "ai" && HasCue(ToLower(t.text))
  }

  function FollowUpsUsed(turns: seq<Turn>): nat {
    CountCued(AiQuestions(turns))
  }

  /** Every interviewer turn of `turns` is a follow-up. */
  predicate AllAiFollowUps(turns: seq<Turn>) {
    forall k :: 0 <= k < |turns| && turns[k].role == "ai" ==> IsFollowUp(turns[k])
  }

  /** Only interviewer turns are counted: 0 <= followUpsUsed <= number of ai turns,
      with equality at the top exactly when every interviewer turn carries a cue. */
  lemma {:induction false} FollowUpsBounded(turns: seq<Turn>)
    ensures FollowUpsUsed(turns) <= AiCount(turns)
    ensures FollowUpsUsed(turns) == AiCount(turns) <==> AllAiFollowUps(turns)
    decreases |turns|
  {
    if turns != [] {
      var init := turns[..|turns| - 1];
      var last := turns[|turns| - 1];
      FollowUpsBounded(init);
      assert turns == init + [last];
      FollowUpsAppend(init, last);
      AllAiFollowUpsAppend(init, last);
    }
  }

  lemma AllAiFollowUpsAppend(turns: seq<Turn>, t: Turn)
    ensures AllAiFollowUps(turns + [t]) <==> AllAiFollowUps(turns) && (t.role == "ai" ==> IsFollowUp(t))
  {
    var s := turns + [t];
    assert forall k :: 0 <= k < |turns| ==> s[k] == turns[k];
    assert s[|turns|] == t;
  }

  /** The count grows by one exactly when the appended turn is a cued interviewer turn;
      a candidate turn never changes it. */
  lemma FollowUpsAppend(turns: seq<Turn>, t: Turn)
    ensures FollowUpsUsed(turns + [t]) == FollowUpsUsed(turns) + (if IsFollowUp(t) then 1 else 0)
  {
    var s := turns + [t];
    assert s[..|s| - 1] == turns;
    var qs := AiQuestions(turns);
    if t.role == "ai" {
      var qs' := qs + [ToLower(t.text)];
      assert AiQuestions(s) == qs';
      assert qs'[..|qs'| - 1] == qs;
    } else {
      assert AiQuestions(s) == qs;
    }
  }

  /** An interviewer turn whose text holds a cue, written without capitals, anywhere
      in it counts as a follow-up, whatever surrounds the cue. */
  lemma CuedTextIsFollowUp(a: string, i: nat, b: string)
    requires i < |FollowUpCues| && ToLower(FollowUpCues[i]) == FollowUpCues[i]
    ensures IsFollowUp(Turn("ai", a + FollowUpCues[i] + b))
  {
    var cue := FollowUpCues[i];
    ToLowerConcat(a + cue, b);
    ToLowerConcat(a, cue);
    ContainsInfix(ToLower(a), cue, ToLower(b));
  }

  /** The question "Can you elaborate on that last point?" counts as a follow-up. */
  lemma ElaborateIsFollowUp()
    ensures IsFollowUp(Turn("ai", "Can you " + "elaborate" + " on that last point?"))
  {
    assert FollowUpCues[2] == "elaborate";
    assert ToLower("elaborate") == "elaborate";
    CuedTextIsFollowUp("Can you ", 2, " on that last point?");
  }

  // ---------------------------------------------------------------------------
  // Follow-up rule and prompt

  const FreeRuleHead := "Free plan rule: You may ask a follow-up ONLY if followUpsUsed < followUpsLimit "
  const NewQuestionOrder := "you MUST ask a NEW main interview question"
  const FreeRuleTail := ". If followUpsUsed >= followUpsLimit, " + NewQuestionOrder + " (not a follow-up)."
  const PremiumRule := "Premium plan: You may ask follow-ups as needed."

  /** The "(currently used/limit)" budget quoted in the free plan's rule. */
  function Budget(used: nat, limit: nat): string {
    "(currently " + NatToString(used) + "/" + NatToString(limit) + ")"
  }

  function FollowUpRule(plan: string, used: nat, limit: nat): string {
    if plan == "free" then FreeRuleHead + Budget(used, limit) + FreeRuleTail
    else PremiumRule
  }

  /** The free plan's rule quotes the budget as "used/limit" and orders a new main
      question once it is spent; every other plan value, the empty string included,
      gets the premium rule, whatever the numbers. */
  lemma FollowUpRuleContents(plan: string, used: nat, limit: nat)
    ensures plan == "free" ==>
      && Contains(FollowUpRule(plan, used, limit), Budget(used, limit))
      && Contains(FollowUpRule(plan, used, limit), NewQuestionOrder)
    ensures plan != "free" ==> FollowUpRule(plan, used, limit) == PremiumRule
  {
    if plan == "free" {
      var budget := Budget(used, limit);
      ContainsInfix(FreeRuleHead, budget, FreeRuleTail);
      var pre := FreeRuleHead + budget + ". If followUpsUsed >= followUpsLimit, ";
      var post := " (not a follow-up).";
      assert FollowUpRule(plan, used, limit) == pre + NewQuestionOrder + post;
      ContainsInfix(pre, NewQuestionOrder, post);
    }
  }

  /** What `buildPrompt` receives. */
  datatype PromptParams = PromptParams(
    jobTitle: string, jobDescription: string, avatarType: string, language: string,
    turns: seq<Turn>, plan: string, followUpsUsed: nat, followUpsLimit: nat)

  /** The persona line; its opening word is a separate piece so that the first
      character of the prompt is evident from the definition. */
  const Persona := "You " + "are a realistic job interviewer conducting a structured interview."
  const TaskIntro := "Task:\nAsk ONE single next interview question.\n- Output MUST be only the question text (no quotes, no bullets, no explanations).\n- "
  const TaskRules := "\n- Must feel natural and realistic.\n- If last answer is weak/short and follow-ups are allowed, ask one probing follow-up.\n- If follow-ups are NOT allowed, move to a new topic/question relevant to the job."

  /** The task block's line naming the output language. */
  function LanguageOrder(langName: string): string {
    "Must be in " + langName + "."
  }

  /** The parts of the prompt, in the order the template holds them: the persona line,
      the role, difficulty and language lines, the job description, the transcript,
      the follow-up rule and the task block. */
  function Sections(p: PromptParams): (s: seq<string>)
    ensures |s| == 8
  {
    var langName := LanguageName(p.language);
    [ Persona,
      "Role: " + p.jobTitle,
      "Difficulty: " + DifficultyLabel(p.avatarType),
      "Language: " + langName,
      "Job Description:\n" + p.jobDescription,
      "Recent transcript:\n" + Transcript(p.turns),
      FollowUpRule(p.plan, p.followUpsUsed, p.followUpsLimit),
      TaskIntro + LanguageOrder(langName) + TaskRules ]
  }

  /** The line structure of the template: the first four parts on consecutive lines
      after a blank line under the persona, and blank lines between the rest. */
  function Layout(s: seq<string>): string
    requires |s| == 8
  {
    s[0] + "\n\n" + s[1] + "\n" + s[2] + "\n" + s[3] + "\n\n" + s[4]
    + "\n\n" + s[5] + "\n\n" + s[6] + "\n\n" + s[7]
  }

  /** The template literal before `.trim()`: it opens and closes with a line break. */
  function Template(p: PromptParams): string {
    "\n" + Layout(Sections(p)) + "\n"
  }

  function BuildPrompt(p: PromptParams): string {
    Trim(Template(p))
  }

  const LayoutGaps: seq<string> := ["", "\n\n", "\n", "\n", "\n\n", "\n\n", "\n\n", "\n\n", ""]

  /** The layout holds its parts in order, separated by the template's line breaks. */
  lemma {:induction false} LayoutWoven(s: seq<string>)
    requires |s| == 8
    ensures Layout(s) == Weave(LayoutGaps, s)
  {
    var g := LayoutGaps;
    var w4 := Weave(g[4..], s[4..]);
    LayoutWovenTail(s);
    var w3 := Weave(g[3..], s[3..]);
    assert w3 == "\n" + s[3] + w4 by { assert g[3..][1..] == g[4..] && s[3..][1..] == s[4..]; }
    var w2 := Weave(g[2..], s[2..]);
    assert w2 == "\n" + s[2] + w3 by { assert g[2..][1..] == g[3..] && s[2..][1..] == s[3..]; }
    var w1 := Weave(g[1..], s[1..]);
    assert w1 == "\n\n" + s[1] + w2 by { assert g[1..][1..] == g[2..] && s[1..][1..] == s[2..]; }
    assert Weave(g, s) == "" + s[0] + w1;
    // Re-associate the left-nested layout one part at a time.
    var l0 := s[0];
    var l1 := l0 + "\n\n" + s[1];
    var l2 := l1 + "\n" + s[2];
    var l3 := l2 + "\n" + s[3];
    var l4 := l3 + "\n\n" + s[4];
    var l5 := l4 + "\n\n" + s[5];
    var l6 := l5 + "\n\n" + s[6];
    var l7 := l6 + "\n\n" + s[7];
    assert Layout(s) == l7;
    assert l7 == l3 + w4;
    assert l3 + w4 == l2 + w3;
    assert l2 + w3 == l1 + w2;
    assert l1 + w2 == l0 + w1;
  }

  /** The last four parts of the layout, each after a blank line. */
  lemma {:induction false} LayoutWovenTail(s: seq<string>)
    requires |s| == 8
    ensures Weave(LayoutGaps[4..], s[4..]) == "\n\n" + s[4] + "\n\n" + s[5] + "\n\n" + s[6] + "\n\n" + s[7]
  {
    var g := LayoutGaps;
    var w8 := Weave(g[8..], s[8..]);
    assert w8 == "";
    var w7 := Weave(g[7..], s[7..]);
    assert w7 == "\n\n" + s[7] + w8;
    var w6 := Weave(g[6..], s[6..]);
    assert w6 == "\n\n" + s[6] + w7 by { assert g[6..][1..] == g[7..] && s[6..][1..] == s[7..]; }
    var w5 := Weave(g[5..], s[5..]);
    assert w5 == "\n\n" + s[5] + w6 by { assert g[5..][1..] == g[6..] && s[5..][1..] == s[6..]; }
    var w4 := Weave(g[4..], s[4..]);
    assert w4 == "\n\n" + s[4] + w5 by { assert g[4..][1..] == g[5..] && s[4..][1..] == s[5..]; }
    assert w4 == "\n\n" + s[4] + ("\n\n" + s[5] + ("\n\n" + s[6] + ("\n\n" + s[7] + "")));
  }

  lemma PersonaStart()
    ensures Persona != [] && Persona[0] == 'Y'
  {
    assert Persona[0] == "You "[0];
  }

  lemma TaskRulesEnd()
    ensures TaskRules != [] && TaskRules[|TaskRules| - 1] == '.'
  {
  }

  /** Trimming the line-broken layout removes just the two outer line breaks, when the
      first part starts and the last part ends with visible characters. */
  lemma TrimLayout(s: seq<string>)
    requires |s| == 8
    requires s[0] != [] && !IsSpace(s[0][0])
    requires s[7] != [] && !IsSpace(s[7][|s[7]| - 1])
    ensures Trim("\n" + Layout(s) + "\n") == Layout(s)
    ensures StartsWith(Layout(s), s[0])
  {
    var body := Layout(s);
    LayoutWoven(s);
    var w1 := Weave(LayoutGaps[1..], s[1..]);
    assert body == s[0] + w1;
    assert body[0] == s[0][0];
    assert body[..|s[0]|] == s[0];
    var front := s[0] + "\n\n" + s[1] + "\n" + s[2] + "\n" + s[3] + "\n\n" + s[4]
      + "\n\n" + s[5] + "\n\n" + s[6] + "\n\n";
    assert body == front + s[7];
    assert body[|body| - 1] == s[7][|s[7]| - 1];
    TrimPadded("\n", body, "\n");
  }

  /** `.trim()` removes exactly the template's opening and closing line breaks, whatever
      the interpolated values, so the prompt starts with the persona line and holds the
      persona, the role, difficulty and language lines, the job description, the
      transcript, the follow-up rule and the task block, in this order. */
  lemma PromptLayout(p: PromptParams)
    ensures var prompt := BuildPrompt(p);
      && prompt == Template(p)[1..|Template(p)| - 1]
      && StartsWith(prompt, Persona)
      && InOrder(prompt, Sections(p))
  {
    var s := Sections(p);
    var task := TaskIntro + LanguageOrder(LanguageName(p.language));
    assert s[0] == Persona;
    assert s[7] == task + TaskRules;
    PersonaStart();
    TaskRulesEnd();
    assert s[7][|s[7]| - 1] == TaskRules[|TaskRules| - 1];
    TrimLayout(s);
    var body := Layout(s);
    assert Template(p) == "\n" + body + "\n";
    assert Template(p)[1..|Template(p)| - 1] == body;
    LayoutWoven(s);
  }

  /** Whatever the plan, the prompt orders output in the interview's language; on the
      free plan it also quotes the follow-up budget and orders a new main question once
      the budget is spent. */
  lemma PromptOrders(p: PromptParams)
    ensures Contains(BuildPrompt(p), LanguageOrder(LanguageName(p.language)))
    ensures p.plan == "free" ==>
      && Contains(BuildPrompt(p), Budget(p.followUpsUsed, p.followUpsLimit))
      && Contains(BuildPrompt(p), NewQuestionOrder)
  {
    PromptInOrder(p);
    SectionsOrders(BuildPrompt(p), Sections(p), LanguageName(p.language),
                   p.plan, p.followUpsUsed, p.followUpsLimit);
  }

  lemma PromptInOrder(p: PromptParams)
    ensures InOrder(BuildPrompt(p), Sections(p))
  {
    PromptLayout(p);
  }

  /** A text holding the sections in order holds the language order of the task block
      and, for the free plan, the budget and the new-question order of the rule. */
  lemma SectionsOrders(prompt: string, s: seq<string>, langName: string, plan: string, used: nat, limit: nat)
    requires |s| == 8 && InOrder(prompt, s)
    requires s[6] == FollowUpRule(plan, used, limit)
    requires s[7] == TaskIntro + LanguageOrder(langName) + TaskRules
    ensures Contains(prompt, LanguageOrder(langName))
    ensures plan == "free" ==>
      && Contains(prompt, Budget(used, limit))
      && Contains(prompt, NewQuestionOrder)
  {
    ContainsInfix(TaskIntro, LanguageOrder(langName), TaskRules);
    InOrderPart(prompt, s, 7, LanguageOrder(langName));
    if plan == "free" {
      FollowUpRuleContents(plan, used, limit);
      InOrderPart(prompt, s, 6, Budget(used, limit));
      InOrderPart(prompt, s, 6, NewQuestionOrder);
    }
  }

  /** What a part of the prompt contains, the prompt contains. */
  lemma InOrderPart(prompt: string, s: seq<string>, k: nat, sub: string)
    requires InOrder(prompt, s) && k < |s| && Contains(s[k], sub)
    ensures Contains(prompt, sub)
  {
    InOrderContains(prompt, s, k);
    ContainsTransitive(prompt, s[k], sub);
  }

  // ---------------------------------------------------------------------------
  // Request handling

  /** The JSON body fields; `None` stands for a field that is missing or null. */
  datatype Body = Body(
    jobTitle: Option<string>, jobDescription: Option<string>, avatarType: Option<string>,
    language: Option<string>, turns: Option<seq<Turn>>, plan: Option<string>)

  /** `body` is `None` when reading the body's fields throws: its text is not JSON, or it
      is the JSON value `null`. Any other JSON value, an object or not, is read field by
      field, so a number, a string, a boolean or an array arrives with every field `None`. */
  datatype Request = Request(httpMethod: string, body: Option<Body>)

  datatype Fault = InvalidJson | UpstreamFailed | NoQuestionReturned

  datatype Response = Question(text: string) | MethodNotAllowed | MissingFields | ServerError(fault: Fault)

  function Status(r: Response): int {
    match r
    case Question(_) => 200
    case MethodNotAllowed => 405
    case MissingFields => 400
    case ServerError(_) => 500
  }

  /** Server rule: free plans get 2 follow-ups. */
  const FollowUpsLimit: nat := 2

  /** JavaScript truthiness of an optional string: present and not empty. */
  predicate Present(f: Option<string>) {
    f.Some? && f.value != ""
  }

  /** The `buildPrompt` parameters for a request body, or `None` when a required
      field is missing or empty. */
  function Validate(b: Body): (r: Option<PromptParams>)
    ensures r.Some? <==> Present(b.jobTitle) && Present(b.jobDescription)
                         && Present(b.avatarType) && Present(b.language)
    ensures r.Some? ==> var p := r.value;
      && p.jobTitle == b.jobTitle.value && p.jobDescription == b.jobDescription.value
      && p.avatarType == b.avatarType.value && p.language == b.language.value
      && p.turns == (if b.turns.Some? then b.turns.value else [])
      && p.plan == (if b.plan.Some? then b.plan.value else "free")
      && p.followUpsUsed == FollowUpsUsed(p.turns) && p.followUpsLimit == 2
  {
    var turns := b.turns.GetOr([]);
    var plan := b.plan.GetOr("free");
    var used := FollowUpsUsed(turns);
    if !Present(b.jobTitle) || !Present(b.jobDescription) || !Present(b.avatarType) || !Present(b.language)
    then None
    else Some(PromptParams(b.jobTitle.value, b.jobDescription.value, b.avatarType.value,
                           b.language.value, turns, plan, used, FollowUpsLimit))
  }

  /** The prompt the handler sends to the text-generation service, if it sends one. */
  function PromptFor(req: Request): (prompt: Option<string>)
    ensures prompt.Some? <==> Answerable(req)
  {
    if !Answerable(req) then None
    else Some(BuildPrompt(Validate(req.body.value).value))
  }

  /** A POST whose JSON body carries every required field: the requests that reach the
      text-generation service. */
  predicate Answerable(req: Request) {
    req.httpMethod == "POST" && req.body.Some? && Validate(req.body.value).Some?
  }

  /** `callOpenAI`'s result for the service's reply (`None`: the call failed). */
  function FromReply(reply: Option<string>): (r: Response)
    ensures r.Question? || r.ServerError?
    ensures r.Question? ==> r.text != "" && Trim(r.text) == r.text
    ensures r.ServerError? && r.fault == NoQuestionReturned <==> reply.Some? && AllSpace(reply.value)
  {
    match reply
    case None => ServerError(UpstreamFailed)
    case Some(content) =>
      TrimEmptyIff(content);
      TrimIdempotent(content);
      var text := Trim(content);
      if text == "" then ServerError(NoQuestionReturned) else Question(text)
  }

  /** The response for a request, given what the service replies if it is asked: the
      service's outcome exactly when a prompt is built, and a 405, an unreadable body or
      a 400 otherwise. */
  function Respond(req: Request, reply: Option<string>): (r: Response)
    ensures Answerable(req) <==> r.Question? || (r.ServerError? && r.fault != InvalidJson)
    ensures Answerable(req) ==> r == FromReply(reply)
  {
    if req.httpMethod != "POST" then MethodNotAllowed
    else if req.body.None? then ServerError(InvalidJson)
    else if Validate(req.body.value).None? then MissingFields
    else FromReply(reply)
  }

  /** 405 exactly for non-POST requests. */
  lemma MethodNotAllowedIff(req: Request, reply: Option<string>)
    ensures Status(Respond(req, reply)) == 405 <==> req.httpMethod != "POST"
  {
    var _ := FromReply(reply);
  }

  /** 400 exactly for a POST whose JSON body lacks a required field or has it empty. */
  lemma MissingFieldsIff(req: Request, reply: Option<string>)
    ensures Status(Respond(req, reply)) == 400 <==>
      req.httpMethod == "POST" && req.body.Some? &&
      !(Present(req.body.value.jobTitle) && Present(req.body.value.jobDescription)
        && Present(req.body.value.avatarType) && Present(req.body.value.language))
  {
    var _ := FromReply(reply);
  }

  /** A JSON value other than an object or `null` has none of the fields, so a POST of
      it is answered 400, not 500. */
  lemma FieldlessBodyMissingFields(reply: Option<string>)
    ensures Status(Respond(Request("POST", Some(Body(None, None, None, None, None, None))), reply)) == 400
  {
  }

  /** When no prompt is built, the service's reply has no bearing on the response. */
  lemma NoPromptNoCall(req: Request, reply: Option<string>, other: Option<string>)
    requires PromptFor(req).None?
    ensures Respond(req, reply) == Respond(req, other)
  {
  }

  /** A 200 response carries the trimmed, non-empty reply to a prompt that was built. */
  lemma QuestionOnlyFromPrompt(req: Request, reply: Option<string>)
    requires Status(Respond(req, reply)) == 200
    ensures PromptFor(req).Some? && reply.Some?
    ensures reply.Some? && Respond(req, reply) == Question(Trim(reply.value)) && Trim(reply.value) != ""
  {
    var r := Respond(req, reply);
    assert req.httpMethod == "POST" && req.body.Some?;
    assert Validate(req.body.value).Some?;
    assert r == FromReply(reply);
  }

  /** The text-generation service, replaying scripted replies and recording every prompt. */
  class Oracle {
    var replies: seq<Option<string>>
    var prompts: seq<string>

    constructor (script: seq<Option<string>>)
      ensures replies == script && prompts == []
    {
      replies := script;
      prompts := [];
    }

    method Complete(prompt: string) returns (reply: Option<string>)
      modifies this
      ensures prompts == old(prompts) + [prompt]
      ensures reply == Head(old(replies)) && replies == Tail(old(replies))
    {
      prompts := prompts + [prompt];
      reply := Head(replies);
      replies := Tail(replies);
    }
  }

  /** The next scripted reply; an exhausted script fails like a failed call. */
  function Head(replies: seq<Option<string>>): Option<string> {
    if replies == [] then None else replies[0]
  }

  function Tail(replies: seq<Option<string>>): seq<Option<string>> {
    if replies == [] then [] else replies[1..]
  }

  /** The `Deno.serve` request handler. */
  method Handle(req: Request, oracle: Oracle) returns (resp: Response)
    modifies oracle
    ensures PromptFor(req).None? ==>
      && resp == Respond(req, None)
      && oracle.prompts == old(oracle.prompts) && oracle.replies == old(oracle.replies)
    ensures PromptFor(req).Some? ==>
      && resp == Respond(req, Head(old(oracle.replies)))
      && oracle.prompts == old(oracle.prompts) + [PromptFor(req).value]
      && oracle.replies == Tail(old(oracle.replies))
  {
    if req.httpMethod != "POST" {
      return MethodNotAllowed;
    }
    if req.body.None? {
      return ServerError(InvalidJson);
    }
    var body := req.body.value;
    var turns := body.turns.GetOr([]);
    var plan := body.plan.GetOr("free");
    var followUpsUsed := FollowUpsUsed(turns);
    if !Present(body.jobTitle) || !Present(body.jobDescription) || !Present(body.avatarType) || !Present(body.language) {
      return MissingFields;
    }
    var prompt := BuildPrompt(PromptParams(body.jobTitle.value, body.jobDescription.value,
      body.avatarType.value, body.language.value, turns, plan, followUpsUsed, FollowUpsLimit));
    var reply := oracle.Complete(prompt);
    resp := FromReply(reply);
  }
}
