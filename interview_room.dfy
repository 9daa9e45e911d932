/** The interview room: the local question tables and durations, the clock display,
    the countdown, the opening of a room from the stored turns and the turn loop that
    records an answer and asks the next question. */
module InterviewRoom {
  import opened Common
  import opened Strings
  import opened Backend
  import opened InterviewService

  // ---------------------------------------------------------------------------
  // Question tables and durations

  /** The local question lists, one per difficulty and language. */
  const EasyEn: seq<string> := [
    "Tell me about yourself.",
    "Why are you interested in this position?",
    "What are your greatest strengths?",
    "Where do you see yourself in 5 years?"]
  const EasyAr: seq<string> := [
    "أخبرني عن نفسك.",
    "لماذا أنت مهتم بهذا المنصب؟",
    "ما هي أعظم نقاط قوتك؟",
    "أين ترى نفسك بعد 5 سنوات؟"]
  const EasyFr: seq<string> := [
    "Parlez-moi de vous.",
    "Pourquoi êtes-vous intéressé par ce poste ?",
    "Quelles sont vos plus grandes forces ?",
    "Où vous voyez-vous dans 5 ans ?"]
  const EasyEs: seq<string> := [
    "Háblame de ti.",
    "¿Por qué te interesa este puesto?",
    "¿Cuáles son tus mayores fortalezas?",
    "¿Dónde te ves en 5 años?"]
  const MediumEn: seq<string> := [
    "Describe a challenging project you worked on.",
    "How do you handle conflict in a team?",
    "What is your approach to problem-solving?",
    "Tell me about a time you failed and what you learned.",
    "How do you prioritize tasks when everything is urgent?"]
  const MediumAr: seq<string> := [
    "صف مشروعًا صعبًا عملت عليه.",
    "كيف تتعامل مع الصراع في الفريق؟",
    "ما هو نهجك في حل المشكلات؟",
    "أخبرني عن وقت فشلت فيه وماذا تعلمت.",
    "كيف تحدد أولويات المهام عندما يكون كل شيء عاجلاً؟"]
  const MediumFr: seq<string> := [
    "Décrivez un projet difficile sur lequel vous avez travaillé.",
    "Comment gérez-vous un conflit dans une équipe ?",
    "Quelle est votre approche de résolution de problèmes ?",
    "Parlez-moi d’un échec et de ce que vous en avez appris.",
    "Comment priorisez-vous quand tout est urgent ?"]
  const MediumEs: seq<string> := [
    "Describe un proyecto difícil en el que trabajaste.",
    "¿Cómo manejas un conflicto en un equipo?",
    "¿Cuál es tu enfoque para resolver problemas?",
    "Cuéntame de un fracaso y lo que aprendiste.",
    "¿Cómo priorizas cuando todo es urgente?"]
  const HardEn: seq<string> := [
    "Walk me through a complex technical decision you made.",
    "How would you design a system to handle millions of users?",
    "Describe a situation where you had to influence without authority.",
    "What would you do if you disagreed with your manager on a critical decision?",
    "How do you stay current with industry trends and technologies?",
    "Tell me about a time when you had to make a decision with incomplete information."]
  const HardAr: seq<string> := [
    "اشرح لي قرارًا تقنيًا معقدًا اتخذته.",
    "كيف ستصمم نظامًا للتعامل مع ملايين المستخدمين؟",
    "صف موقفًا كان عليك فيه التأثير بدون سلطة.",
    "ماذا ستفعل إذا اختلفت مع مديرك في قرار حاسم؟",
    "كيف تبقى على اطلاع دائم باتجاهات الصناعة والتقنيات؟",
    "أخبرني عن وقت كان عليك فيه اتخاذ قرار بمعلومات غير كاملة."]
  const HardFr: seq<string> := [
    "Expliquez une décision technique complexe que vous avez prise.",
    "Comment concevriez-vous un système pour des millions d’utilisateurs ?",
    "Décrivez une situation où vous avez influencé sans autorité.",
    "Que faites-vous si vous n’êtes pas d’accord avec votre manager sur une décision critique ?",
    "Comment restez-vous à jour sur les tendances et technologies ?",
    "Parlez-moi d’une décision prise avec des informations incomplètes."]
  const HardEs: seq<string> := [
    "Explica una decisión técnica compleja que tomaste.",
    "¿Cómo diseñarías un sistema para millones de usuarios?",
    "Describe una situación donde influiste sin autoridad.",
    "¿Qué harías si no estás de acuerdo con tu manager en una decisión crítica?",
    "¿Cómo te mantienes al día con tendencias y tecnologías?",
    "Cuéntame de una decisión con información incompleta."]

  /** `getInterviewQuestions` */
  function Questions(avatar: Avatar, lang: Lang): seq<string> {
    match avatar
    case Easy => (match lang case En => EasyEn case Ar => EasyAr case Fr => EasyFr case Es => EasyEs)
    case Medium => (match lang case En => MediumEn case Ar => MediumAr case Fr => MediumFr case Es => MediumEs)
    case Hard => (match lang case En => HardEn case Ar => HardAr case Fr => HardFr case Es => HardEs)
  }

  /** The number of questions per difficulty: 4, 5 and 6. */
  function QuestionCount(avatar: Avatar): nat {
    match avatar
    case Easy => 4
    case Medium => 5
    case Hard => 6
  }

  /** Every language has the same number of questions for a difficulty, and harder
      interviews have more of them. */
  lemma QuestionCounts(avatar: Avatar, lang: Lang)
    ensures |Questions(avatar, lang)| == QuestionCount(avatar)
    ensures |Questions(Easy, lang)| < |Questions(Medium, lang)| < |Questions(Hard, lang)|
  {
  }

  /** The stored opening question is the first question of the easy table in every
      language. */
  lemma OpenerIsFirstEasyQuestion(lang: Lang)
    ensures FirstQuestion(lang) == Questions(Easy, lang)[0]
  {
  }

  /** `getAvatarDuration`, in seconds. */
  function AvatarDuration(avatar: Avatar): (d: nat)
    ensures avatar == Easy ==> d == 300
    ensures avatar == Medium ==> d == 600
    ensures avatar == Hard ==> d == 900
  {
    match avatar
    case Easy => 5 * 60
    case Medium => 10 * 60
    case Hard => 15 * 60
  }

  // ---------------------------------------------------------------------------
  // Clock display

  /** `formatTime`: minutes and seconds, each padded to two digits, around a colon. */
  function FormatTime(s: nat): string {
    PadStart2(NatToString(s / 60)) + ":" + PadStart2(NatToString(s % 60))
  }

  /** The display always splits at its one colon into a minutes and a seconds field of
      digits that read back as `s`; it is five characters long exactly below 100 minutes. */
  lemma FormatTimeRoundTrip(s: nat)
    ensures var parts := Split(FormatTime(s), ':');
      && |parts| == 2 && AllDigits(parts[0]) && AllDigits(parts[1]) && |parts[1]| == 2
      && ParseNat(parts[0]) * 60 + ParseNat(parts[1]) == s
    ensures |FormatTime(s)| == 5 <==> s < 6000
  {
    var mm := PadStart2(NatToString(s / 60));
    var ss := PadStart2(NatToString(s % 60));
    PadStart2Digits(NatToString(s / 60));
    PadStart2Digits(NatToString(s % 60));
    ParseNatToString(s / 60);
    ParseNatToString(s % 60);
    DigitsExclude(mm, ':');
    DigitsExclude(ss, ':');
    SplitCons(mm, ':', ss);
    SplitNoSep(ss, ':');
    assert FormatTime(s) == mm + [':'] + ss;
  }

  // ---------------------------------------------------------------------------
  // Countdown

  /** The countdown updater: at one second or less it stops at zero and ends the
      interview; otherwise it takes one second off. */
  function CountdownStep(prev: int): (r: (int, bool))
    ensures r.1 <==> prev <= 1
    ensures r.0 >= 0 && (prev >= 0 ==> r.0 <= prev)
    ensures r.1 ==> r.0 == 0
    ensures !r.1 ==> r.0 == prev - 1
  {
    if prev <= 1 then (0, true) else (prev - 1, false)
  }

  /** The time left after `n` seconds; the interval runs only while time remains. */
  function Countdown(t: int, n: nat): int {
    if n == 0 || t <= 0 then t else Countdown(CountdownStep(t).0, n - 1)
  }

  /** From `t >= 0` seconds, `n` seconds later max(0, t - n) remain. */
  lemma {:induction false} CountdownValue(t: int, n: nat)
    requires t >= 0
    ensures Countdown(t, n) == (if t >= n then t - n else 0)
  {
    if n > 0 && t > 0 {
      CountdownValue(CountdownStep(t).0, n - 1);
    }
  }

  /** `totalDuration - timeRemaining` */
  function ActualDuration(avatar: Avatar, timeRemaining: int): (d: int)
    ensures 0 <= timeRemaining <= AvatarDuration(avatar) ==> 0 <= d <= AvatarDuration(avatar)
    ensures d + timeRemaining == AvatarDuration(avatar)
  {
    AvatarDuration(avatar) - timeRemaining
  }

  // ---------------------------------------------------------------------------
  // Opening the room

  /** `ChatMsg` */
  datatype ChatMsg = ChatMsg(role: Role, text: string)

  function AsMessages(rows: seq<TurnRow>): (m: seq<ChatMsg>)
    ensures |m| == |rows|
    ensures forall k :: 0 <= k < |rows| ==> m[k] == ChatMsg(rows[k].role, rows[k].text)
  {
    seq(|rows|, k requires 0 <= k < |rows| => ChatMsg(rows[k].role, rows[k].text))
  }

  function CountAi(m: seq<ChatMsg>): nat
    decreases |m|
  {
    if m == [] then 0 else CountAi(m[..|m| - 1]) + (if m[|m| - 1].role == Ai then 1 else 0)
  }

  lemma CountAiAppend(m: seq<ChatMsg>, x: ChatMsg)
    ensures CountAi(m + [x]) == CountAi(m) + (if x.role == Ai then 1 else 0)
  {
    assert (m + [x])[..|m + [x]| - 1] == m;
  }

  /** The messages and question index a room opens with: the stored turns and the index
      of the last interviewer turn among them, or the first local question when no turns
      could be read. */
  function Resume(stored: Option<seq<TurnRow>>, qs: seq<string>): (r: (seq<ChatMsg>, nat))
    requires |qs| > 0
    ensures stored.None? || stored.value == [] ==> r == ([ChatMsg(Ai, qs[0])], 0)
    ensures stored.Some? && stored.value != [] ==>
      var m := AsMessages(stored.value);
      r.0 == m && r.1 == (if CountAi(m) == 0 then 0 else CountAi(m) - 1)
  {
    if stored.None? || stored.value == [] then ([ChatMsg(Ai, qs[0])], 0)
    else
      var m := AsMessages(stored.value);
      var aiTurns := CountAi(m);
      (m, if aiTurns - 1 > 0 then aiTurns - 1 else 0)
  }

  /** The index matches the messages: it is the position, in the question list, of the
      last interviewer message. */
  predicate InSync(messages: seq<ChatMsg>, index: nat, qs: seq<string>) {
    CountAi(messages) == index + 1 && index < |qs|
  }

  /** A room opens in sync with its messages when it falls back to the first question,
      and when the stored turns hold between one and as many interviewer turns as
      there are questions. */
  lemma ResumeInSync(stored: Option<seq<TurnRow>>, qs: seq<string>)
    requires |qs| > 0
    requires stored.Some? && stored.value != [] ==> 1 <= CountAi(AsMessages(stored.value)) <= |qs|
    ensures InSync(Resume(stored, qs).0, Resume(stored, qs).1, qs)
  {
    if stored.None? || stored.value == [] {
      assert [ChatMsg(Ai, qs[0])][..0] == [];
    }
  }

  /** The stored turns `rows` belong to interview `id` and read as the messages `m`. */
  predicate Mirrors(rows: seq<TurnRow>, m: seq<ChatMsg>, id: nat) {
    |rows| == |m| &&
    forall k :: 0 <= k < |rows| ==> rows[k].interviewId == id && ChatMsg(rows[k].role, rows[k].text) == m[k]
  }

  lemma MirrorsConcat(a: seq<TurnRow>, b: seq<TurnRow>, x: seq<ChatMsg>, y: seq<ChatMsg>, id: nat)
    requires Mirrors(a, x, id) && Mirrors(b, y, id)
    ensures Mirrors(a + b, x + y, id)
  {
  }

  /** `t` is `t0` with rows appended that mirror the messages appended to `m0` in `m`. */
  predicate Appended(t0: seq<TurnRow>, t: seq<TurnRow>, m0: seq<ChatMsg>, m: seq<ChatMsg>, id: nat) {
    |t0| <= |t| && t[..|t0|] == t0 && |m0| <= |m| && m[..|m0|] == m0 && Mirrors(t[|t0|..], m[|m0|..], id)
  }

  lemma AppendedNothing(t: seq<TurnRow>, m: seq<ChatMsg>, id: nat)
    ensures Appended(t, t, m, m, id)
  {
    assert t[|t|..] == [] && m[|m|..] == [];
  }

  lemma AppendedOne(t0: seq<TurnRow>, row: TurnRow, m0: seq<ChatMsg>, msg: ChatMsg, id: nat)
    requires row.interviewId == id && ChatMsg(row.role, row.text) == msg
    ensures Appended(t0, t0 + [row], m0, m0 + [msg], id)
  {
    assert (t0 + [row])[..|t0|] == t0 && (t0 + [row])[|t0|..] == [row];
    assert (m0 + [msg])[..|m0|] == m0 && (m0 + [msg])[|m0|..] == [msg];
  }

  lemma AppendedTransitive(t0: seq<TurnRow>, t1: seq<TurnRow>, t2: seq<TurnRow>,
                           m0: seq<ChatMsg>, m1: seq<ChatMsg>, m2: seq<ChatMsg>, id: nat)
    requires Appended(t0, t1, m0, m1, id) && Appended(t1, t2, m1, m2, id)
    ensures Appended(t0, t2, m0, m2, id)
  {
    assert t2[..|t0|] == t1[..|t0|];
    assert t2[|t0|..] == t1[|t0|..] + t2[|t1|..];
    assert m2[..|m0|] == m1[..|m0|];
    assert m2[|m0|..] == m1[|m0|..] + m2[|m1|..];
    MirrorsConcat(t1[|t0|..], t2[|t1|..], m1[|m0|..], m2[|m1|..], id);
  }

  // ---------------------------------------------------------------------------
  // The room

  class Room {
    var interview: InterviewRow
    var questions: seq<string>
    var messages: seq<ChatMsg>
    var currentQuestionIndex: nat
    var timeRemaining: int
    var liveTranscript: string

    ghost predicate Valid()
      reads this
    {
      && |questions| > 0
      && 0 <= timeRemaining <= AvatarDuration(interview.avatarType)
    }

    /** Loading the found interview: its questions, its full duration and the messages
        resumed from its stored turns (`None`: they could not be read). */
    constructor Open(found: InterviewRow, stored: Option<seq<TurnRow>>)
      ensures interview == found
      ensures questions == Questions(found.avatarType, found.language)
      ensures timeRemaining == AvatarDuration(found.avatarType)
      ensures (messages, currentQuestionIndex) == Resume(stored, questions)
      ensures liveTranscript == ""
      ensures Valid()
    {
      QuestionCounts(found.avatarType, found.language);
      interview := found;
      var qs := Questions(found.avatarType, found.language);
      questions := qs;
      timeRemaining := AvatarDuration(found.avatarType);
      var resumed := Resume(stored, qs);
      messages := resumed.0;
      currentQuestionIndex := resumed.1;
      liveTranscript := "";
    }

    /** The speech recogniser's latest transcript. */
    method Hear(text: string)
      modifies this`liveTranscript
      ensures liveTranscript == text
    {
      liveTranscript := text;
    }

    /** One second of the countdown. Returns whether the interview must end. */
    method Tick() returns (end: bool)
      requires Valid()
      modifies this`timeRemaining
      ensures Valid()
      ensures old(timeRemaining) <= 0 ==> !end && timeRemaining == old(timeRemaining)
      ensures old(timeRemaining) > 0 ==>
        (timeRemaining, end) == CountdownStep(old(timeRemaining))
      ensures timeRemaining == Countdown(old(timeRemaining), 1)
    {
      if timeRemaining <= 0 {
        return false;
      }
      var step := CountdownStep(timeRemaining);
      timeRemaining := step.0;
      end := step.1;
    }

    /** One message of the conversation: written to the store as a turn of this
        interview, where a failed write is ignored, and shown in the chat either way. */
    method Say(db: Db, role: Role, text: string)
      requires db.Valid()
      modifies this`messages, db`users, db`turns, db`clock
      ensures db.Valid()
      ensures messages == old(messages) + [ChatMsg(role, text)]
      ensures CountAi(messages) == CountAi(old(messages)) + (if role == Ai then 1 else 0)
      ensures db.session.None? ==> db.turns == old(db.turns)
      ensures db.session.Some? ==> Appended(old(db.turns), db.turns, old(messages), messages, interview.id)
    {
      ghost var turns0 := db.turns;
      ghost var clock0 := db.clock;
      var _ := AddTurn(db, interview.id, role, text);
      if db.session.Some? {
        AppendedOne(turns0, TurnRow(clock0, interview.id, db.session.value.id, role, text, clock0),
                    messages, ChatMsg(role, text), interview.id);
      }
      CountAiAppend(messages, ChatMsg(role, text));
      messages := messages + [ChatMsg(role, text)];
    }

    /** The first half of `handleFinishAnswer`: the transcript is trimmed and cleared,
        and a non-empty answer becomes a candidate message. */
    method RecordAnswer(db: Db) returns (answer: string)
      requires db.Valid()
      modifies this`messages, this`liveTranscript, db`users, db`turns, db`clock
      ensures db.Valid()
      ensures answer == Trim(old(liveTranscript)) && liveTranscript == ""
      ensures messages == old(messages) + (if answer != "" then [ChatMsg(User, answer)] else [])
      ensures CountAi(messages) == CountAi(old(messages))
      ensures db.session.None? ==> db.turns == old(db.turns)
      ensures db.session.Some? ==> Appended(old(db.turns), db.turns, old(messages), messages, interview.id)
    {
      answer := Trim(liveTranscript);
      liveTranscript := "";
      if answer != "" {
        Say(db, User, answer);
      } else {
        AppendedNothing(db.turns, messages, interview.id);
      }
    }

    /** The second half of `handleFinishAnswer`: the next question is asked when there
        is one; otherwise the interview must end. */
    method AskNext(db: Db) returns (end: bool)
      requires db.Valid()
      modifies this`messages, this`currentQuestionIndex, db`users, db`turns, db`clock
      ensures db.Valid()
      ensures var next := old(currentQuestionIndex) + 1;
        && (end <==> next >= |questions|)
        && messages == old(messages) + (if next < |questions| then [ChatMsg(Ai, questions[next])] else [])
        && currentQuestionIndex == (if end then old(currentQuestionIndex) else next)
      ensures CountAi(messages) == CountAi(old(messages)) + (if end then 0 else 1)
      ensures db.session.None? ==> db.turns == old(db.turns)
      ensures db.session.Some? ==> Appended(old(db.turns), db.turns, old(messages), messages, interview.id)
    {
      var nextIndex := currentQuestionIndex + 1;
      if nextIndex < |questions| {
        Say(db, Ai, questions[nextIndex]);
        currentQuestionIndex := nextIndex;
        end := false;
      } else {
        AppendedNothing(db.turns, messages, interview.id);
        end := true;
      }
    }

    /** `handleFinishAnswer`: records the trimmed answer when there is one, then either
        asks the next question or reports that the interview must end. Each message is
        also written to the store as a turn of this interview. */
    method FinishAnswer(db: Db) returns (end: bool)
      requires Valid() && db.Valid()
      modifies this`messages, this`currentQuestionIndex, this`liveTranscript
      modifies db`users, db`turns, db`clock
      ensures Valid() && db.Valid()
      ensures liveTranscript == ""
      ensures var answer := Trim(old(liveTranscript));
        var next := old(currentQuestionIndex) + 1;
        && (end <==> next >= |questions|)
        && messages == old(messages)
             + (if answer != "" then [ChatMsg(User, answer)] else [])
             + (if next < |questions| then [ChatMsg(Ai, questions[next])] else [])
        && currentQuestionIndex == (if end then old(currentQuestionIndex) else next)
      ensures db.session.None? ==> db.turns == old(db.turns)
      ensures db.session.Some? ==> Appended(old(db.turns), db.turns, old(messages), messages, interview.id)
      ensures InSync(old(messages), old(currentQuestionIndex), questions) && !end ==>
        InSync(messages, currentQuestionIndex, questions)
    {
      ghost var t0, m0 := db.turns, messages;
      var answer := RecordAnswer(db);
      ghost var t1, m1 := db.turns, messages;
      end := AskNext(db);
      if db.session.Some? {
        AppendedTransitive(t0, t1, db.turns, m0, m1, messages, interview.id);
      }
    }

    /** `handleEndInterview`, run by a handler of the render that saw `seen` seconds
        remaining: completes the interview with the time spent by then. After the last
        answer that is the current `timeRemaining`; see `TimerFires` for the timeout. */
    method EndInterview(db: Db, draws: Draws, seen: int) returns (r: Result<Report, ServiceError>)
      requires db.Valid() && ValidDraws(draws)
      modifies db`users, db`interviews, db`reports
      ensures db.Valid()
      ensures CompletedAs(db, interview.id, ActualDuration(interview.avatarType, seen), draws, r)
    {
      var actualDuration := ActualDuration(interview.avatarType, seen);
      r := CompleteInterview(db, interview.id, actualDuration, draws);
    }

    /** One firing of the countdown interval. Each interval belongs to the render that
        saw the current `timeRemaining`, and on reaching zero it calls that render's
        `handleEndInterview`, which saw 1 second left: a timed-out interview is recorded
        with one second less than its full duration. */
    method TimerFires(db: Db, draws: Draws) returns (end: bool, r: Option<Result<Report, ServiceError>>)
      requires Valid() && db.Valid() && ValidDraws(draws)
      modifies this`timeRemaining, db`users, db`interviews, db`reports
      ensures Valid() && db.Valid()
      ensures timeRemaining == Countdown(old(timeRemaining), 1)
      ensures end <==> old(timeRemaining) == 1
      ensures !end ==>
        r.None? && db.users == old(db.users) && db.interviews == old(db.interviews)
        && db.reports == old(db.reports)
      ensures end ==>
        r.Some? && CompletedAs(db, interview.id, AvatarDuration(interview.avatarType) - 1, draws, r.value)
    {
      var seen := timeRemaining;
      end := Tick();
      if end {
        var result := EndInterview(db, draws, seen);
        r := Some(result);
      } else {
        r := None;
      }
    }
  }
}
