/**
 * The skill dispatcher (skills/skill_dispatcher.py): picks a skill by explicit name or by
 * trigger, validates it, runs it, and turns a missing skill, a failed validation, an
 * exception raised by `execute` and a cancellation into a failed result; it can be
 * cancelled while a skill runs, and describes the skills to the language model. An
 * exception raised by `validate` or by the status callback happens outside the `try` and
 * escapes `dispatch`; here `validate` always returns its pair and the callback never raises.
 *
 * A skill's `validate` and `execute` are parameters: `validate` gives the pair it would
 * return, `execute` the result or the message of the exception it raised. Whether
 * `cancel` is called while the skill runs is the flag `cancelDuringExecute`. The status
 * callback is modelled by the list of messages it received.
 */
module Dispatch {
  import opened Wrappers
  import opened Text
  import opened Dicts
  import opened SkillBase
  import opened SkillPackage

  const NoMatchingSkill: string := "No matching skill found for this request"
  const CancelledMessage: string := "Skill execution was cancelled"
  const NoSkillsPrompt: string := "No skills are currently available."
  const PromptHeader: string := "Available skills:"
  const DefaultSessionId: string := "default"

  function NotFoundMessage(name: string): (r: string)
    ensures |r| == |name| + 18
  {
    "Skill '" + name + "' not found"
  }

  function FailedMessage(cause: string): (r: string)
    ensures |r| == |cause| + 24
  {
    "Skill execution failed: " + cause
  }

  function RunningMessage(skill: Skill): (r: string)
    ensures |r| == |skill.displayName| + 11
  {
    "Running " + skill.displayName + "..."
  }

  /**
   * The skill a request goes to: the one with the given name when a non-empty name is
   * given (and an error when there is none), otherwise the first whose trigger matches.
   */
  function Choose(skills: Dict<string, Skill>, userInput: string, skillName: Option<string>): (r: Result<Skill, string>)
    requires WellKeyed(skills)
    ensures skillName.Some? && skillName.value != "" ==>
              (r.Ok? <==> Get(skills, skillName.value).Some?)
              && (r.Ok? ==> r.value.name == skillName.value)
              && (r.Err? ==> r.error == NotFoundMessage(skillName.value))
    ensures !(skillName.Some? && skillName.value != "") ==>
              (r.Ok? <==> FirstMatch(Values(skills), userInput).Some?)
              && (r.Ok? ==> MatchesTrigger(r.value, userInput))
              && (r.Err? ==> r.error == NoMatchingSkill)
  {
    GetInValues(skills, skillName.GetOr(""));
    if skillName.Some? && skillName.value != "" then
      match Get(skills, skillName.value)
      case None => Err(NotFoundMessage(skillName.value))
      case Some(s) => Ok(s)
    else
      match FirstMatch(Values(skills), userInput)
      case None => Err(NoMatchingSkill)
      case Some(s) => Ok(s)
  }

  /** The context `dispatch` builds: an absent or empty preferences or history becomes empty. */
  function MakeContext(userInput: string, sessionId: string, userPreferences: Option<seq<(string, Value)>>,
                       conversationHistory: Option<seq<seq<(string, string)>>>): (c: SkillContext)
    ensures c.userInput == userInput && c.sessionId == sessionId
    ensures c.userPreferences == userPreferences.GetOr([])
    ensures c.conversationHistory == conversationHistory.GetOr([])
  {
    SkillContext(userInput, sessionId, userPreferences.GetOr([]), conversationHistory.GetOr([]))
  }

  /** Whether a request gets as far as running its skill. */
  predicate Runs(chosen: Result<Skill, string>, context: SkillContext, validate: (Skill, SkillContext) -> (bool, string)) {
    chosen.Ok? && validate(chosen.value, context).0
  }

  /**
   * What `dispatch` returns: a failure for a missing skill, a failed validation, an
   * exception or a cancellation during a run that did not raise; otherwise what the skill
   * returned.
   */
  function Outcome(chosen: Result<Skill, string>, context: SkillContext,
                   validate: (Skill, SkillContext) -> (bool, string),
                   execute: (Skill, SkillContext) -> Result<SkillResult, string>,
                   cancelDuringExecute: bool): (r: SkillResult)
    ensures chosen.Err? ==> r == Failure(chosen.error)
    ensures chosen.Ok? && !validate(chosen.value, context).0 ==> r == Failure(validate(chosen.value, context).1)
    ensures Runs(chosen, context, validate) && execute(chosen.value, context).Err? ==>
              r == Failure(FailedMessage(execute(chosen.value, context).error))
    ensures Runs(chosen, context, validate) && execute(chosen.value, context).Ok? ==>
              r == (if cancelDuringExecute then Failure(CancelledMessage) else execute(chosen.value, context).value)
    ensures r.success ==> Runs(chosen, context, validate) && !cancelDuringExecute
  {
    match chosen
    case Err(e) => Failure(e)
    case Ok(skill) =>
      var (valid, message) := validate(skill, context);
      if !valid then Failure(message)
      else match execute(skill, context)
        case Err(e) => Failure(FailedMessage(e))
        case Ok(result) => if cancelDuringExecute then Failure(CancelledMessage) else result
  }

  /** A successful run cancelled while it ran is still reported as cancelled. */
  lemma CancelOverridesSuccess(skill: Skill, context: SkillContext,
                               validate: (Skill, SkillContext) -> (bool, string),
                               execute: (Skill, SkillContext) -> Result<SkillResult, string>)
    requires validate(skill, context).0 && execute(skill, context).Ok?
    ensures Outcome(Ok(skill), context, validate, execute, true) == Failure(CancelledMessage)
  {
  }

  /** An exception is reported as a failed run even when the run was also cancelled. */
  lemma ExceptionBeatsCancel(skill: Skill, context: SkillContext,
                             validate: (Skill, SkillContext) -> (bool, string),
                             execute: (Skill, SkillContext) -> Result<SkillResult, string>)
    requires validate(skill, context).0 && execute(skill, context).Err?
    ensures Outcome(Ok(skill), context, validate, execute, true) == Failure(FailedMessage(execute(skill, context).error))
  {
  }

  /** An empty skill name counts as no name: the request goes by trigger. */
  lemma EmptyNameMeansTrigger(skills: Dict<string, Skill>, userInput: string)
    requires WellKeyed(skills)
    ensures Choose(skills, userInput, Some("")) == Choose(skills, userInput, None)
  {
  }

  /** With the base class's validation, a request that finds a skill always runs it. */
  lemma DefaultValidationRuns(chosen: Result<Skill, string>, context: SkillContext)
    requires chosen.Ok?
    ensures Runs(chosen, context, Validate)
  {
  }

  /** `f'"{t}"'`. */
  function Quoted(t: string): (r: string)
    ensures |r| == |t| + 2
  {
    "\"" + t + "\""
  }

  /** A quoted trigger is the whole trigger between two double quotes. */
  lemma QuotedParts(t: string)
    ensures var r := Quoted(t); r[0] == '"' && r[|r| - 1] == '"' && r[1..|r| - 1] == t
  {
  }

  /** The quoted first three triggers, separated by commas. */
  function TriggerList(triggers: seq<string>): (r: string)
    ensures r == "" <==> triggers == []
  {
    var quoted := QuotedTriggers(triggers);
    if quoted == [] then "" else JoinStartsWithFirst(", ", quoted); Join(", ", quoted)
  }

  /** The trigger list is the quoted triggers joined by `, `. */
  lemma TriggerListJoins(triggers: seq<string>)
    ensures TriggerList(triggers) == Join(", ", QuotedTriggers(triggers))
  {
  }

  function QuotedTriggers(triggers: seq<string>): (r: seq<string>)
    ensures |r| == |PyPrefix(triggers, 3)|
  {
    var first := PyPrefix(triggers, 3);
    seq(|first|, i requires 0 <= i < |first| => Quoted(first[i]))
  }

  /** The first three triggers (all of them when there are fewer), each in quotes, in order. */
  lemma QuotedTriggersAt(triggers: seq<string>)
    ensures |QuotedTriggers(triggers)| == Min(3, |triggers|)
    ensures forall i :: 0 <= i < |QuotedTriggers(triggers)| ==> QuotedTriggers(triggers)[i] == Quoted(triggers[i])
  {
  }

  /** With three triggers or more, the list is the first three in quotes, separated by `, `. */
  lemma TriggerListOfThree(triggers: seq<string>)
    requires |triggers| >= 3
    ensures TriggerList(triggers) == Quoted(triggers[0]) + ", " + Quoted(triggers[1]) + ", " + Quoted(triggers[2])
  {
    var q := QuotedTriggers(triggers);
    QuotedTriggersAt(triggers);
    assert q == [Quoted(triggers[0]), Quoted(triggers[1]), Quoted(triggers[2])];
    TriggerListJoins(triggers);
    JoinThree(", ", q);
  }

  /** Three elements joined: each separated from the next by `sep`. */
  lemma JoinThree(sep: string, ws: seq<string>)
    requires |ws| == 3
    ensures Join(sep, ws) == ws[0] + sep + ws[1] + sep + ws[2]
  {
    assert ws[1..][1..] == [ws[2]];
    assert Join(sep, ws[1..]) == ws[1] + sep + ws[2];
    assert Join(sep, ws) == ws[0] + sep + (ws[1] + sep + ws[2]);
  }

  /** The list opens with the first trigger in quotes. */
  lemma TriggerListFirst(triggers: seq<string>)
    requires triggers != []
    ensures StartsWith(TriggerList(triggers), Quoted(triggers[0]))
  {
    JoinStartsWithFirst(", ", QuotedTriggers(triggers));
  }

  /** Only the first three triggers are shown: later ones change nothing. */
  lemma OnlyFirstThreeTriggers(triggers: seq<string>, later: seq<string>)
    requires |triggers| >= 3
    ensures TriggerList(triggers + later) == TriggerList(triggers)
  {
    assert PyPrefix(triggers + later, 3) == PyPrefix(triggers, 3);
  }

  /** `f"- {display_name}: {description}"`. */
  function DescriptionLine(s: Skill): (r: string)
    ensures StartsWith(r, "- ")
  {
    "- " + s.displayName + ": " + s.description
  }

  /** The description line shows the display name, then ": ", then the whole description. */
  lemma DescriptionLineParts(s: Skill)
    ensures var r := DescriptionLine(s);
      |r| == |s.displayName| + |s.description| + 4 &&
      r[2..2 + |s.displayName|] == s.displayName &&
      r[2 + |s.displayName|..4 + |s.displayName|] == ": " &&
      r[4 + |s.displayName|..] == s.description
  {
  }

  /** `f"  Triggers: {triggers}"`. */
  function TriggerLine(s: Skill): (r: string)
    ensures StartsWith(r, "  Triggers: ")
  {
    "  Triggers: " + TriggerList(s.triggers)
  }

  /** After its fixed label, the trigger line is exactly the trigger list. */
  lemma TriggerLineParts(s: Skill)
    ensures TriggerLine(s)[12..] == TriggerList(s.triggers)
  {
  }

  /** Two lines per skill, in order: its description, then its first triggers. */
  function SkillLines(skills: seq<Skill>): (r: seq<string>)
    ensures |r| == 2 * |skills|
  {
    if skills == [] then []
    else SkillLines(skills[..|skills| - 1]) + [DescriptionLine(skills[|skills| - 1]), TriggerLine(skills[|skills| - 1])]
  }

  /** Adding one skill adds its two lines at the end. */
  lemma SkillLinesSnoc(skills: seq<Skill>, i: nat)
    requires i < |skills|
    ensures SkillLines(skills[..i + 1]) == SkillLines(skills[..i]) + [DescriptionLine(skills[i]), TriggerLine(skills[i])]
  {
    assert skills[..i + 1][..i] == skills[..i];
  }

  /** Line `2 i` describes skill `i` and line `2 i + 1` lists its triggers. */
  lemma {:induction false} SkillLinesAt(skills: seq<Skill>, i: nat)
    requires i < |skills|
    ensures SkillLines(skills)[2 * i] == DescriptionLine(skills[i])
    ensures SkillLines(skills)[2 * i + 1] == TriggerLine(skills[i])
  {
    var init := skills[..|skills| - 1];
    var last := [DescriptionLine(skills[|skills| - 1]), TriggerLine(skills[|skills| - 1])];
    assert SkillLines(skills) == SkillLines(init) + last;
    if i < |init| {
      SkillLinesAt(init, i);
      assert init[i] == skills[i];
    } else {
      assert 2 * i == |SkillLines(init)|;
    }
  }

  /** The skills prompt: a fixed sentence when there are no skills, otherwise a header and two lines per skill. */
  function SkillsPrompt(skills: seq<Skill>): (r: string)
    ensures skills == [] ==> r == NoSkillsPrompt
    ensures skills != [] ==> StartsWith(r, PromptHeader) && r == Join("\n", [PromptHeader] + SkillLines(skills))
    ensures r == NoSkillsPrompt <==> skills == []
  {
    if skills == [] then NoSkillsPrompt
    else
      var lines := [PromptHeader] + SkillLines(skills);
      JoinStartsWithFirst("\n", lines);
      var r := Join("\n", lines);
      assert r[0] == 'A' && NoSkillsPrompt[0] == 'N';
      r
  }

  class SkillDispatcher {
    const loader: SkillLoader
    const reportsStatus: bool
    var statusMessages: seq<string>
    var activeSkill: Option<Skill>
    var cancelled: bool

    ghost predicate Valid()
      reads this, loader
    {
      loader.Valid()
    }

    /** `__init__`: the shared loader; `reportsStatus` says whether a status callback was given. */
    constructor (loader: SkillLoader, reportsStatus: bool)
      ensures this.loader == loader && this.reportsStatus == reportsStatus
      ensures statusMessages == [] && activeSkill == None && !cancelled
    {
      this.loader := loader;
      this.reportsStatus := reportsStatus;
      statusMessages := [];
      activeSkill := None;
      cancelled := false;
    }

    /** `dispatch`. */
    method Dispatch(userInput: string, sessionId: string, userPreferences: Option<seq<(string, Value)>>,
                    conversationHistory: Option<seq<seq<(string, string)>>>, skillName: Option<string>,
                    validate: (Skill, SkillContext) -> (bool, string),
                    execute: (Skill, SkillContext) -> Result<SkillResult, string>,
                    cancelDuringExecute: bool)
      returns (r: SkillResult)
      requires Valid()
      modifies this
      ensures var chosen := Choose(loader.skills, userInput, skillName);
              var context := MakeContext(userInput, sessionId, userPreferences, conversationHistory);
              r == Outcome(chosen, context, validate, execute, cancelDuringExecute)
              && (Runs(chosen, context, validate) ==>
                    activeSkill == None && cancelled == cancelDuringExecute
                    && statusMessages == old(statusMessages) + (if reportsStatus then [RunningMessage(chosen.value)] else []))
              && (!Runs(chosen, context, validate) ==>
                    activeSkill == old(activeSkill) && !cancelled && statusMessages == old(statusMessages))
    {
      cancelled := false;
      ghost var chosen := Choose(loader.skills, userInput, skillName);
      var skill: Skill;
      if skillName.Some? && skillName.value != "" {
        var found := loader.GetSkill(skillName.value);
        assert found == Get(loader.skills, skillName.value);
        if found.None? {
          return Failure(NotFoundMessage(skillName.value));
        }
        skill := found.value;
      } else {
        var found := loader.FindMatchingSkill(userInput);
        if found.None? {
          return Failure(NoMatchingSkill);
        }
        skill := found.value;
      }
      assert chosen == Ok(skill);
      var context := MakeContext(userInput, sessionId, userPreferences, conversationHistory);
      r := RunChosen(skill, context, validate, execute, cancelDuringExecute);
    }

    /** The second half of `dispatch`: validate the chosen skill, then run it. */
    method RunChosen(skill: Skill, context: SkillContext,
                     validate: (Skill, SkillContext) -> (bool, string),
                     execute: (Skill, SkillContext) -> Result<SkillResult, string>,
                     cancelDuringExecute: bool)
      returns (r: SkillResult)
      requires !cancelled
      modifies this
      ensures r == Outcome(Ok(skill), context, validate, execute, cancelDuringExecute)
      ensures Runs(Ok(skill), context, validate) ==>
                activeSkill == None && cancelled == cancelDuringExecute
                && statusMessages == old(statusMessages) + (if reportsStatus then [RunningMessage(skill)] else [])
      ensures !Runs(Ok(skill), context, validate) ==>
                activeSkill == old(activeSkill) && !cancelled && statusMessages == old(statusMessages)
    {
      var (valid, message) := validate(skill, context);
      if !valid {
        return Failure(message);
      }
      activeSkill := Some(skill);
      if reportsStatus {
        statusMessages := statusMessages + [RunningMessage(skill)];
      }
      var outcome := execute(skill, context);
      if cancelDuringExecute {
        cancelled := true;
      }
      match outcome {
        case Err(e) =>
          r := Failure(FailedMessage(e));
        case Ok(result) =>
          r := if cancelled then Failure(CancelledMessage) else result;
      }
      activeSkill := None;
    }

    /** `cancel`. */
    method Cancel()
      modifies this
      ensures cancelled
      ensures statusMessages == old(statusMessages) && activeSkill == old(activeSkill)
    {
      cancelled := true;
    }

    /** `get_available_skills`. */
    function GetAvailableSkills(): (r: seq<Value>)
      reads this, loader
      ensures |r| == |loader.skills|
      ensures forall j :: 0 <= j < |r| ==> r[j] == ToDict(loader.skills[j].1)
    {
      loader.GetSkillsContext()
    }

    /** `get_skills_prompt`. */
    method GetSkillsPrompt() returns (r: string)
      requires Valid()
      ensures r == SkillsPrompt(loader.GetAllSkills())
    {
      var skills := loader.GetAllSkills();
      if skills == [] {
        return NoSkillsPrompt;
      }
      var lines := [PromptHeader];
      var i := 0;
      while i < |skills|
        invariant 0 <= i <= |skills|
        invariant lines == [PromptHeader] + SkillLines(skills[..i])
      {
        SkillLinesSnoc(skills, i);
        lines := lines + [DescriptionLine(skills[i]), TriggerLine(skills[i])];
        i := i + 1;
      }
      assert skills[..i] == skills;
      r := Join("\n", lines);
    }
  }
}
