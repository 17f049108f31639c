/**
 * The skill loader (_legacy_v2/skills/__init__.py): instantiates every skill class it
 * discovers, keeps them by name in discovery order, and answers lookups by name and by
 * trigger.
 *
 * Discovery (globbing `*_skill.py`, importing modules, inspecting classes) is replaced by
 * the sequence of its outcomes, in discovery order: a skill that was instantiated, or
 * the message of the exception that made a module or a class fail. Failures are logged
 * and skipped.
 */
module SkillPackage {
  import opened Wrappers
  import opened Dicts
  import opened SkillBase

  /** The table kept by name: distinct names, each skill stored under its own name. */
  predicate WellKeyed(d: Dict<string, Skill>) {
    DistinctKeys(d) && forall j :: 0 <= j < |d| ==> d[j].1.name == d[j].0
  }

  /** One discovery outcome taken into the table. */
  function LoadOne(d: Dict<string, Skill>, c: Result<Skill, string>): (r: Dict<string, Skill>)
    requires WellKeyed(d)
    ensures WellKeyed(r)
  {
    match c
    case Err(_) => d
    case Ok(s) =>
      var r := Put(d, s.name, s);
      assert forall j :: 0 <= j < |r| ==> r[j].1.name == r[j].0 by {
        forall j | 0 <= j < |r| ensures r[j].1.name == r[j].0 {
          if j < |d| && d[j].0 != s.name { assert r[j] == d[j]; }
        }
      }
      r
  }

  /** The table after taking the outcomes in order. */
  function Loaded(cs: seq<Result<Skill, string>>): (r: Dict<string, Skill>)
    ensures WellKeyed(r)
  {
    if cs == [] then [] else LoadOne(Loaded(cs[..|cs| - 1]), cs[|cs| - 1])
  }

  /** The last skill instantiated under the name, if any: the one a later class replaced an earlier one with. */
  function LastNamed(cs: seq<Result<Skill, string>>, name: string): (r: Option<Skill>)
    ensures r.Some? ==> r.value.name == name && Ok(r.value) in cs
    ensures r.None? ==> forall i :: 0 <= i < |cs| && cs[i].Ok? ==> cs[i].value.name != name
  {
    if cs == [] then None
    else
      var last := cs[|cs| - 1];
      if last.Ok? && last.value.name == name then Some(last.value)
      else
        var r := LastNamed(cs[..|cs| - 1], name);
        assert forall i :: 0 <= i < |cs| - 1 ==> cs[..|cs| - 1][i] == cs[i];
        r
  }

  /** Looking a name up after loading finds the last skill instantiated under it, and only failures are lost. */
  lemma {:induction false} LoadedGet(cs: seq<Result<Skill, string>>, name: string)
    ensures Get(Loaded(cs), name) == LastNamed(cs, name)
  {
    if cs != [] {
      var init := cs[..|cs| - 1];
      LoadedGet(init, name);
    }
  }

  /** A skill found by name is one of the listed skills and carries that name. */
  lemma GetInValues(d: Dict<string, Skill>, name: string)
    requires WellKeyed(d)
    ensures Get(d, name).Some? ==> Get(d, name).value.name == name && Get(d, name).value in Values(d)
  {
    if IndexOf(d, name).Some? {
      var j := IndexOf(d, name).value;
      assert Values(d)[j] == d[j].1;
    }
  }

  /** The first skill of the list one of whose triggers occurs in the text. */
  function FirstMatch(skills: seq<Skill>, text: string): (r: Option<Skill>)
    ensures r.Some? ==> exists j :: 0 <= j < |skills| && skills[j] == r.value && MatchesTrigger(r.value, text)
                                    && forall k :: 0 <= k < j ==> !MatchesTrigger(skills[k], text)
    ensures r.None? <==> forall j :: 0 <= j < |skills| ==> !MatchesTrigger(skills[j], text)
  {
    if skills == [] then None
    else if MatchesTrigger(skills[0], text) then Some(skills[0])
    else
      var r := FirstMatch(skills[1..], text);
      assert forall j :: 1 <= j < |skills| ==> skills[j] == skills[1..][j - 1];
      r
  }

  /** `SkillLoader`: the skills by name, in the order their names were first loaded. */
  class SkillLoader {
    var skills: Dict<string, Skill>

    ghost predicate Valid()
      reads this
    {
      WellKeyed(skills)
    }

    /** `__init__` with `_load_skills`: takes the discovery outcomes in order. */
    constructor (candidates: seq<Result<Skill, string>>)
      ensures Valid()
      ensures skills == Loaded(candidates)
    {
      skills := [];
      new;
      var i := 0;
      while i < |candidates|
        invariant 0 <= i <= |candidates|
        invariant skills == Loaded(candidates[..i])
      {
        assert candidates[..i + 1][..i] == candidates[..i];
        match candidates[i]
        case Ok(s) =>
          skills := Put(skills, s.name, s);
          i := i + 1;
        case Err(_) =>
          i := i + 1;
      }
      assert candidates[..i] == candidates;
    }

    /** `get_skill`. */
    function GetSkill(name: string): (r: Option<Skill>)
      reads this
      requires Valid()
      ensures r.Some? <==> exists j :: 0 <= j < |skills| && skills[j].0 == name
      ensures r.Some? ==> r.value.name == name && r.value in Values(skills)
    {
      GetInValues(skills, name);
      Get(skills, name)
    }

    /** `get_all_skills`: every loaded skill once, in load order. */
    function GetAllSkills(): (r: seq<Skill>)
      reads this
      requires Valid()
      ensures |r| == |skills|
      ensures forall j :: 0 <= j < |r| ==> r[j] == skills[j].1
      ensures forall i, j :: 0 <= i < j < |r| ==> r[i].name != r[j].name
    {
      Values(skills)
    }

    /** `find_matching_skill`: the first skill, in load order, one of whose triggers occurs in the text. */
    method FindMatchingSkill(text: string) returns (r: Option<Skill>)
      ensures r == FirstMatch(Values(skills), text)
    {
      var i := 0;
      while i < |skills|
        invariant 0 <= i <= |skills|
        invariant FirstMatch(Values(skills), text) == FirstMatch(Values(skills)[i..], text)
      {
        if MatchesTrigger(skills[i].1, text) {
          return Some(skills[i].1);
        }
        assert Values(skills)[i..][1..] == Values(skills)[i + 1..];
        i := i + 1;
      }
      return None;
    }

    /** `get_skills_context`: the metadata dictionary of every skill, in load order. */
    function GetSkillsContext(): (r: seq<Value>)
      reads this
      ensures |r| == |skills|
      ensures forall j :: 0 <= j < |skills| ==> r[j] == ToDict(skills[j].1)
    {
      seq(|skills|, j requires 0 <= j < |skills| reads this => ToDict(skills[j].1))
    }
  }
}
