/**
 * The first-run interview (backend/services/onboarding.py) and its endpoints
 * (backend/api/endpoints/onboarding.py): four fixed questions asked in order, after
 * which the user counts as onboarded, and the personalised system prompt.
 */
module OnboardingService {
  import opened Wrappers
  import opened Text
  import opened UserModel

  const InterviewQuestions: seq<string> := [
    "Välkommen. Jag är Lexi. För att jag ska kunna vara din strategiska partner behöver jag förstå dig. Vad är din nuvarande roll och vad är din största utmaning just nu?",
    "Hur skulle du beskriva din ledarskapsstil? Är du mer visionär eller operativ?",
    "Hur föredrar du att ta emot information? Korta sammanfattningar eller djupgående analyser?",
    "Vilka är dina viktigaste värderingar i arbetet? (t.ex. transparens, effektivitet, innovation)"
  ]

  const ClosingMessage: string := "Tack. Jag har nu en bild av vem du är och hur vi ska arbeta. Låt oss börja."

  /** The error Python raises for an index outside the list. */
  const IndexError: string := "IndexError: list index out of range"

  /**
   * `get_next_question`: the question at the step, or the closing message once every
   * question is asked. A negative step indexes from the end of the list, as a Python index
   * does, and one below minus the number of questions raises.
   */
  function GetNextQuestion(step: int): (r: Result<string, string>)
    ensures 0 <= step < |InterviewQuestions| ==> r == Ok(InterviewQuestions[step])
    ensures step >= |InterviewQuestions| ==> r == Ok(ClosingMessage)
    ensures -|InterviewQuestions| <= step < 0 ==> r == Ok(InterviewQuestions[|InterviewQuestions| + step])
    ensures step < -|InterviewQuestions| ==> r == Err(IndexError)
    ensures r.Ok? ==> r.value in InterviewQuestions + [ClosingMessage]
  {
    if step < |InterviewQuestions| then
      if step >= 0 then Ok(InterviewQuestions[step])
      else if step >= -|InterviewQuestions| then Ok(InterviewQuestions[|InterviewQuestions| + step])
      else Err(IndexError)
    else Ok(ClosingMessage)
  }

  /** The closing message is not one of the questions, so a client can tell the end of the interview from its text. */
  lemma ClosingIsNotAQuestion()
    ensures ClosingMessage !in InterviewQuestions
  {
    assert |ClosingMessage| != |InterviewQuestions[0]|;
    assert |ClosingMessage| != |InterviewQuestions[1]|;
    assert |ClosingMessage| != |InterviewQuestions[2]|;
    assert |ClosingMessage| != |InterviewQuestions[3]|;
  }

  /** How `generate_system_prompt` renders an optional column: Python prints an absent value as `None`. */
  function Rendered(v: Option<string>): (r: string)
    ensures v.Some? ==> r == v.value
    ensures v.None? ==> r == "None"
  {
    v.GetOr("None")
  }

  const PromptIntro: string := "Du är Lexi, en senior organisationspsykolog och strategisk rådgivare.\n"
  const PromptMission: string := "Ditt uppdrag är att vara en 'Sparringpartner' - utmana, stötta och analysera."

  const RoleLabel: string := "Din användare har rollen: "
  const LeadershipLabel: string := "Ledarskapsstil: "
  const CommunicationLabel: string := "Kommunikationsstil: "

  function RoleLine(u: User): string { RoleLabel + u.role + ".\n" }
  function LeadershipLine(u: User): string { LeadershipLabel + Rendered(u.leadershipStyle) + ".\n" }
  function CommunicationLine(u: User): string { CommunicationLabel + Rendered(u.communicationStyle) + ".\n" }

  /** A line of the prompt is its label, the value, then a full stop and a line break. */
  predicate LabelledLine(line: string, caption: string, value: string) {
    |line| == |caption| + |value| + 2 && StartsWith(line, caption)
    && line[|caption|..|line| - 2] == value && line[|line| - 2..] == ".\n"
  }

  /** The three lines name the role and the two styles, an absent style as `None`. */
  lemma PromptLinesParts(u: User)
    ensures LabelledLine(RoleLine(u), RoleLabel, u.role)
    ensures LabelledLine(LeadershipLine(u), LeadershipLabel, Rendered(u.leadershipStyle))
    ensures LabelledLine(CommunicationLine(u), CommunicationLabel, Rendered(u.communicationStyle))
  {
    var role, lead, comm := RoleLine(u), LeadershipLine(u), CommunicationLine(u);
    assert role[..|RoleLabel|] == RoleLabel && role[|RoleLabel|..|role| - 2] == u.role;
    assert lead[..|LeadershipLabel|] == LeadershipLabel;
    assert lead[|LeadershipLabel|..|lead| - 2] == Rendered(u.leadershipStyle);
    assert comm[..|CommunicationLabel|] == CommunicationLabel;
    assert comm[|CommunicationLabel|..|comm| - 2] == Rendered(u.communicationStyle);
  }

  /** Where each of five concatenated parts sits in the whole. */
  lemma ConcatParts(a: string, b: string, c: string, d: string, e: string)
    ensures var r := a + b + c + d + e;
      && |r| == |a| + |b| + |c| + |d| + |e|
      && StartsWith(r, a) && OccursAt(r, b, |a|) && OccursAt(r, c, |a| + |b|) && OccursAt(r, d, |a| + |b| + |c|)
      && r[|r| - |e|..] == e
  {
    var r := a + b + c + d + e;
    assert r[..|a|] == a;
    assert r[|a|..|a| + |b|] == b;
    assert r[|a| + |b|..|a| + |b| + |c|] == c;
    assert r[|a| + |b| + |c|..|a| + |b| + |c| + |d|] == d;
  }

  /** `generate_system_prompt`: the fixed introduction, the user's role and styles, and the fixed mission, in that order. */
  function GenerateSystemPrompt(u: User): (r: string)
    ensures StartsWith(r, PromptIntro)
    ensures OccursAt(r, RoleLine(u), |PromptIntro|)
    ensures OccursAt(r, LeadershipLine(u), |PromptIntro| + |RoleLine(u)|)
    ensures OccursAt(r, CommunicationLine(u), |PromptIntro| + |RoleLine(u)| + |LeadershipLine(u)|)
    ensures |r| == |PromptIntro| + |RoleLine(u)| + |LeadershipLine(u)| + |CommunicationLine(u)| + |PromptMission|
    ensures r[|r| - |PromptMission|..] == PromptMission
  {
    var r := PromptIntro + RoleLine(u) + LeadershipLine(u) + CommunicationLine(u) + PromptMission;
    ConcatParts(PromptIntro, RoleLine(u), LeadershipLine(u), CommunicationLine(u), PromptMission);
    r
  }

  /** Two users whose role and styles agree get the same prompt: nothing else of the profile is used. */
  lemma SystemPromptUsesOnlyRoleAndStyles(u: User, v: User)
    requires u.role == v.role && u.leadershipStyle == v.leadershipStyle && u.communicationStyle == v.communicationStyle
    ensures GenerateSystemPrompt(u) == GenerateSystemPrompt(v)
  {
  }

  /** The prompt of a new user names the default role and styles. */
  lemma DefaultUserPrompt(now: string)
    ensures Contains(GenerateSystemPrompt(NewUser("Executive", now)), "Din användare har rollen: Executive.\n")
  {
    var u := NewUser("Executive", now);
    var r := GenerateSystemPrompt(u);
    assert RoleLine(u) == "Din användare har rollen: Executive.\n";
    assert OccursAt(r, RoleLine(u), |PromptIntro|);
    ContainsIff(r, RoleLine(u));
  }
}

module OnboardingEndpoints {
  import opened Wrappers
  import opened Http
  import opened UserModel
  import opened UserEndpoints
  import opened OnboardingService

  /** The body `submit_answer` returns. */
  datatype OnboardingResponse = OnboardingResponse(message: string, nextStep: int, complete: bool)

  /** The body `start_interview` returns. */
  datatype StartResponse = StartResponse(message: string, step: int)

  const UserNotInitialized: HttpError := HttpError(NotFound, "User not initialized")
  /** An exception the endpoint does not catch becomes a 500 response. */
  const InternalServerError: HttpError := HttpError(500, "Internal Server Error")

  /** The reply to an answer given at `step` (the answer itself is not used). */
  function AnswerResponse(step: int): (r: Result<OnboardingResponse, HttpError>)
    ensures step + 1 < -|InterviewQuestions| <==> r.Err?
    ensures r.Err? ==> r.error == InternalServerError
    ensures r.Ok? ==> r.value.nextStep == step + 1 && (r.value.complete <==> step + 1 >= |InterviewQuestions|)
    ensures r.Ok? && r.value.complete ==> r.value.message == ClosingMessage
  {
    match GetNextQuestion(step + 1)
    case Err(_) => Err(InternalServerError)
    case Ok(q) => Ok(OnboardingResponse(q, step + 1, step + 1 >= |InterviewQuestions|))
  }

  /** Walking the interview from step 0: each answer brings the next question, the fourth answer completes it. */
  lemma InterviewInOrder(step: nat)
    requires step < |InterviewQuestions|
    ensures step + 1 < |InterviewQuestions| ==>
              AnswerResponse(step) == Ok(OnboardingResponse(InterviewQuestions[step + 1], step + 1, false))
    ensures step + 1 == |InterviewQuestions| ==>
              AnswerResponse(step) == Ok(OnboardingResponse(ClosingMessage, step + 1, true))
  {
  }

  /** `submit_answer`: 404 without a user; otherwise the reply, and completion marks the user onboarded. */
  method SubmitAnswer(table: UserTable, step: int, answer: string) returns (r: Result<OnboardingResponse, HttpError>)
    modifies table
    ensures old(table.users) == [] ==> r == Err(UserNotInitialized) && table.users == old(table.users)
    ensures old(table.users) != [] ==> r == AnswerResponse(step)
    ensures old(table.users) != [] && r.Ok? && r.value.complete ==>
              table.users == old(table.users)[0 := old(table.users)[0].(isOnboarded := true)]
    ensures !(old(table.users) != [] && r.Ok? && r.value.complete) ==> table.users == old(table.users)
  {
    if table.users == [] {
      return Err(UserNotInitialized);
    }
    r := AnswerResponse(step);
    if r.Ok? && r.value.complete {
      table.users := table.users[0 := table.users[0].(isOnboarded := true)];
    }
  }

  /** `start_interview`: makes sure a user exists and returns the first question at step 0. */
  method StartInterview(table: UserTable, now: string) returns (r: StartResponse)
    modifies table
    ensures r == StartResponse(InterviewQuestions[0], 0)
    ensures old(table.users) != [] ==> table.users == old(table.users)
    ensures old(table.users) == [] ==> table.users == [NewUser(DefaultName, now)]
  {
    if table.users == [] {
      table.users := [NewUser(DefaultName, now)];
    }
    var q := GetNextQuestion(0);
    r := StartResponse(q.value, 0);
  }
}
