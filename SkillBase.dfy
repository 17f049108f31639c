/**
 * The skills framework (_legacy_v2/skills/base_skill.py): what a skill declares about
 * itself, the context it runs in and the result it returns, trigger matching, the
 * default validation and the metadata dictionary given to the language model.
 *
 * A skill class is modelled by the values of its class attributes; `execute` belongs
 * to each concrete skill and is modelled in that skill's module.
 */
module SkillBase {
  import opened Wrappers
  import opened Text

  datatype SkillStatus = Pending | Running | Completed | Failed | Cancelled

  /** Distinct statuses have distinct values. */
  lemma StatusValueInjective(a: SkillStatus, b: SkillStatus)
    requires StatusValue(a) == StatusValue(b)
    ensures a == b
  {
  }

  function StatusValue(s: SkillStatus): (r: string)
    ensures r == "pending" <==> s == Pending
    ensures r == "running" <==> s == Running
    ensures r == "completed" <==> s == Completed
    ensures r == "failed" <==> s == Failed
    ensures r == "cancelled" <==> s == Cancelled
  {
    match s
    case Pending => "pending"
    case Running => "running"
    case Completed => "completed"
    case Failed => "failed"
    case Cancelled => "cancelled"
  }

  /** A JSON-like value: what the programs put in dictionaries and results. */
  datatype Value =
    | Null
    | Bool(b: bool)
    | Int(i: int)
    | Str(s: string)
    | List(items: seq<Value>)
    | Object(fields: seq<(string, Value)>)

  /** What a skill gets to work with; the three UI callbacks are left out. */
  datatype SkillContext = SkillContext(
    userInput: string,
    sessionId: string,
    userPreferences: seq<(string, Value)>,
    conversationHistory: seq<seq<(string, string)>>)

  /** What a skill returns. */
  datatype SkillResult = SkillResult(
    success: bool,
    data: Option<Value>,
    message: string,
    filePath: Option<string>,
    error: Option<string>)

  /** `SkillResult(success=False, error=...)`: every other field keeps its default. */
  function Failure(error: string): (r: SkillResult)
    ensures !r.success && r.error == Some(error)
    ensures r.data == None && r.message == "" && r.filePath == None
  {
    SkillResult(false, None, "", None, Some(error))
  }

  /** The class attributes of a skill. */
  datatype Skill = Skill(
    className: string,
    name: string,
    displayName: string,
    description: string,
    triggers: seq<string>,
    requiresConfirmation: bool,
    maxExecutionTime: int)

  const DefaultMaxExecutionTime: int := 300

  /** The message of the `ValueError` a skill class without a name raises when instantiated. */
  function MissingNameMessage(className: string): (r: string)
    ensures |r| == |className| + 25
  {
    "Skill " + className + " must define 'name'"
  }

  /** `BaseSkill.__init__`: instantiation fails exactly when the class declares no name. */
  function Instantiate(className: string, name: string, displayName: string, description: string,
                       triggers: seq<string>, requiresConfirmation: bool, maxExecutionTime: int)
    : (r: Result<Skill, string>)
    ensures r.Err? <==> name == ""
    ensures r.Err? ==> r.error == MissingNameMessage(className)
    ensures r.Ok? ==> r.value.name == name && r.value.className == className && r.value.triggers == triggers
  {
    if name == "" then Err(MissingNameMessage(className))
    else Ok(Skill(className, name, displayName, description, triggers, requiresConfirmation, maxExecutionTime))
  }

  /** Some trigger, lower-cased, occurs in the lower-cased text. */
  function AnyTriggerIn(triggers: seq<string>, loweredText: string): (r: bool)
    ensures r <==> exists i :: 0 <= i < |triggers| && Contains(loweredText, Lower(triggers[i]))
  {
    if triggers == [] then false
    else if Contains(loweredText, Lower(triggers[0])) then true
    else
      var rest := AnyTriggerIn(triggers[1..], loweredText);
      assert forall i :: 1 <= i < |triggers| ==> triggers[i] == triggers[1..][i - 1];
      rest
  }

  /** `matches_trigger`: some trigger occurs in the text, ignoring case. */
  function MatchesTrigger(skill: Skill, text: string): (r: bool)
    ensures r <==> exists i :: 0 <= i < |skill.triggers| && Contains(Lower(text), Lower(skill.triggers[i]))
  {
    AnyTriggerIn(skill.triggers, Lower(text))
  }

  /** Lower-casing keeps an occurrence where it is. */
  lemma LowerOccurs(s: string, p: string, i: int)
    requires OccursAt(s, p, i)
    ensures OccursAt(Lower(s), Lower(p), i)
  {
    assert Lower(s)[i..i + |p|] == Lower(p) by {
      forall k | 0 <= k < |p| ensures Lower(s)[i + k] == Lower(p)[k] {
        assert s[i + k] == p[k];
      }
    }
  }

  /** A text that contains a trigger as written matches, whatever the case of either. */
  lemma ContainedTriggerMatches(skill: Skill, text: string, i: nat)
    requires i < |skill.triggers| && Contains(text, skill.triggers[i])
    ensures MatchesTrigger(skill, text)
  {
    ContainsIff(text, skill.triggers[i]);
    var k :| OccursAt(text, skill.triggers[i], k);
    LowerOccurs(text, skill.triggers[i], k);
    ContainsIff(Lower(text), Lower(skill.triggers[i]));
  }

  /** Matching ignores the case of the text. */
  lemma MatchIgnoresCase(skill: Skill, text: string)
    ensures MatchesTrigger(skill, Lower(text)) == MatchesTrigger(skill, text)
  {
    LowerIdempotent(text);
  }

  /** A skill without triggers never matches. */
  lemma NoTriggersNoMatch(skill: Skill, text: string)
    requires skill.triggers == []
    ensures !MatchesTrigger(skill, text)
  {
  }

  /** `validate` as the base class defines it: always valid, with an empty message. */
  function Validate(skill: Skill, context: SkillContext): (r: (bool, string))
    ensures r.0 && r.1 == ""
  {
    (true, "")
  }

  /** The keys of `to_dict`, in order. */
  const DictKeys: seq<string> := ["name", "display_name", "description", "triggers", "requires_confirmation"]

  function TriggerValues(triggers: seq<string>): (r: seq<Value>)
    ensures |r| == |triggers| && forall i :: 0 <= i < |triggers| ==> r[i] == Str(triggers[i])
  {
    seq(|triggers|, i requires 0 <= i < |triggers| => Str(triggers[i]))
  }

  /** `to_dict`: the five metadata entries the language model sees. */
  function ToDict(skill: Skill): (r: Value)
    ensures r.Object? && |r.fields| == |DictKeys|
    ensures forall i :: 0 <= i < |DictKeys| ==> r.fields[i].0 == DictKeys[i]
    ensures r.fields[0].1 == Str(skill.name) && r.fields[1].1 == Str(skill.displayName)
    ensures r.fields[2].1 == Str(skill.description) && r.fields[4].1 == Bool(skill.requiresConfirmation)
    ensures r.fields[3].1 == List(TriggerValues(skill.triggers))
  {
    Object([("name", Str(skill.name)),
            ("display_name", Str(skill.displayName)),
            ("description", Str(skill.description)),
            ("triggers", List(TriggerValues(skill.triggers))),
            ("requires_confirmation", Bool(skill.requiresConfirmation))])
  }

  /** `__repr__`. */
  function Repr(skill: Skill): (r: string)
    ensures StartsWith(r, "<Skill:") && r[|r| - 1] == '>' && |r| == |skill.name| + 8
    ensures r[7..|r| - 1] == skill.name
  {
    "<Skill:" + skill.name + ">"
  }
}
