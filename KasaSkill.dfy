/**
 * The smart-home skill (_legacy_v2/skills/kasa_skill.py): reads an action and a device
 * name out of the lower-cased request, picks a discovered device, and switches it.
 *
 * Discovery and the devices themselves belong to python-kasa and are replaced by their
 * outcomes: whether the library can be imported, the devices found in discovery order
 * (each with its name and whether it was on when it reported), and the message of an
 * exception raised while talking to a device.
 */
module KasaSkill {
  import opened Wrappers
  import opened Text
  import opened SkillBase

  const Attributes: Skill := Skill(
    "KasaSkill", "kasa", "Smart Home", "Styr smarta lampor och enheter (Kasa/TP-Link)",
    ["tänd lampan", "släck lampan", "tänd ljuset", "släck ljuset", "turn on light", "turn off light",
     "dim", "dimma"],
    false, DefaultMaxExecutionTime)

  // ---------------------------------------------------------------- action

  datatype Action = On | Off | Toggle

  function ActionName(a: Action): (r: string)
    ensures r in {"on", "off", "toggle"}
  {
    match a
    case On => "on"
    case Off => "off"
    case Toggle => "toggle"
  }

  const OnWords: seq<string> := ["tänd", "on", "sätt på"]
  const OffWords: seq<string> := ["släck", "off", "stäng av"]

  /** `any(w in text for w in words)`. */
  predicate AnyIn(words: seq<string>, text: string): (b: bool)
    ensures b <==> exists w :: w in words && Contains(text, w)
    ensures words == [] ==> !b
  {
    assert (exists w :: w in words && Contains(text, w)) ==> exists i :: 0 <= i < |words| && Contains(text, words[i]) by {
      if w :| w in words && Contains(text, w) {
        var i :| 0 <= i < |words| && words[i] == w;
      }
    }
    exists i :: 0 <= i < |words| && Contains(text, words[i])
  }

  /** `_parse_action`: a word for "on" wins over a word for "off"; neither means toggle. */
  function ParseAction(text: string): (r: Action)
    ensures r == On <==> AnyIn(OnWords, text)
    ensures r == Off <==> !AnyIn(OnWords, text) && AnyIn(OffWords, text)
    ensures r == Toggle <==> !AnyIn(OnWords, text) && !AnyIn(OffWords, text)
  {
    if AnyIn(OnWords, text) then On
    else if AnyIn(OffWords, text) then Off
    else Toggle
  }

  /**
   * The words are looked for anywhere, not as whole words: "kontoret" holds "on", so
   * asking to switch off the lamp in the office switches it on.
   */
  lemma OfficeLampTurnsOn()
    ensures ParseAction("släck lampan på kontoret") == On
  {
    var text := "släck lampan på kontoret";
    assert text[17..19] == "on";
    OccursContains(text, "on", 17);
    assert Contains(text, OnWords[1]);
  }

  // ---------------------------------------------------------------- device name

  const Keywords: seq<string> := ["lampan", "ljuset", "light"]

  /** `text.split(keyword)[1]` for a keyword that occurs: the text between its first and second occurrences. */
  function SecondPart(text: string, keyword: string): (r: string)
    requires keyword != [] && Contains(text, keyword)
    ensures IndexOfSub(text, keyword).Some?
    ensures var start := IndexOfSub(text, keyword).value + |keyword|;
      && start + |r| <= |text| && r == text[start..start + |r|]
      && (start + |r| == |text| || OccursAt(text, keyword, start + |r|))
  {
    IndexOfSubContains(text, keyword);
    var start := IndexOfSub(text, keyword).value + |keyword|;
    var next := IndexOfSub(text[start..], keyword);
    OccursInSuffix(text, keyword, start, next);
    var len := if next.Some? then next.value else |text| - start;
    text[start..start + len]
  }

  /** An occurrence in a suffix, shifted back to the whole text. */
  lemma OccursInSuffix(s: string, p: string, k: nat, j: Option<nat>)
    requires k <= |s| && (j.Some? ==> OccursAt(s[k..], p, j.value))
    ensures j.Some? ==> OccursAt(s, p, k + j.value)
  {
    if j.Some? {
      assert s[k..][j.value..j.value + |p|] == s[k + j.value..k + j.value + |p|];
    }
  }

  /** Text with a non-blank character splits into at least one word. */
  lemma SplitOfStripped(s: string)
    requires Strip(s) != []
    ensures Split(Strip(s)) != []
  {
    var t := Strip(s);
    assert TrimStart(t) == t;
  }

  /** The first word of a non-blank text: `s.strip().split()[0]`. */
  function FirstWord(s: string): (r: string)
    requires Strip(s) != []
    ensures IsWord(r)
  {
    SplitOfStripped(s);
    Split(Strip(s))[0]
  }

  /** The keyword occurs and the text after its first occurrence, up to the next, is not blank. */
  predicate NamesDevice(text: string, keyword: string) {
    keyword != [] && Contains(text, keyword) && Strip(SecondPart(text, keyword)) != []
  }

  /** For each keyword in order, whether it names a device in the text. */
  function Namings(text: string): (r: seq<bool>)
    ensures |r| == |Keywords| && forall j :: 0 <= j < |Keywords| ==> r[j] == NamesDevice(text, Keywords[j])
  {
    seq(|Keywords|, j requires 0 <= j < |Keywords| => NamesDevice(text, Keywords[j]))
  }

  /** The loop over the keywords: the first one from the `k`-th on that names a device. */
  function FirstNaming(names: seq<bool>, k: nat): (r: Option<nat>)
    requires k <= |names|
    ensures r.Some? ==> k <= r.value < |names| && names[r.value]
                        && forall j :: k <= j < r.value ==> !names[j]
    ensures r.None? ==> forall j :: k <= j < |names| ==> !names[j]
    decreases |names| - k
  {
    if k == |names| then None
    else if names[k] then Some(k)
    else FirstNaming(names, k + 1)
  }

  /**
   * `_extract_device_name`: the first word after the first keyword, in the order lampan,
   * ljuset, light, that is followed by something; None when no keyword is.
   */
  function ExtractDeviceName(text: string): (r: Option<string>)
    ensures r.None? <==> forall j :: 0 <= j < |Keywords| ==> !NamesDevice(text, Keywords[j])
    ensures r.Some? ==> IsWord(r.value)
    ensures r.Some? ==> FirstNaming(Namings(text), 0).Some?
                        && r.value == FirstWord(SecondPart(text, Keywords[FirstNaming(Namings(text), 0).value]))
  {
    match FirstNaming(Namings(text), 0)
    case None => None
    case Some(j) => Some(FirstWord(SecondPart(text, Keywords[j])))
  }

  // ---------------------------------------------------------------- device selection

  /** What a discovered device reports after `update`. */
  datatype Device = Device(alias: string, isOn: bool)

  predicate AliasMatches(d: Device, name: Option<string>): (b: bool)
    ensures b ==> name.Some? && name.value != []
    ensures name == Some(d.alias) && d.alias != [] ==> b
  {
    name.Some? && name.value != [] && Contains(Lower(d.alias), Lower(name.value))
  }

  /** Matching ignores case on both sides: lower-casing the alias or the name changes nothing. */
  lemma AliasMatchIgnoresCase(d: Device, name: string)
    ensures AliasMatches(d, Some(name)) == AliasMatches(Device(Lower(d.alias), d.isOn), Some(Lower(name)))
  {
    LowerIdempotent(d.alias);
    LowerIdempotent(name);
  }

  /** The first device whose name contains the requested one, ignoring case. */
  function FirstMatching(devices: seq<Device>, name: Option<string>): (r: Option<nat>)
    ensures r.Some? ==> r.value < |devices| && AliasMatches(devices[r.value], name)
                        && forall j :: 0 <= j < r.value ==> !AliasMatches(devices[j], name)
    ensures r.None? ==> forall j :: 0 <= j < |devices| ==> !AliasMatches(devices[j], name)
  {
    if devices == [] then None
    else if AliasMatches(devices[0], name) then Some(0)
    else match FirstMatching(devices[1..], name)
      case None => None
      case Some(j) => Some(j + 1)
  }

  /** The device the request is for: the first matching one, or else the first one found. */
  function Chosen(devices: seq<Device>, name: Option<string>): (r: Device)
    requires devices != []
    ensures r in devices
    ensures (exists j :: 0 <= j < |devices| && AliasMatches(devices[j], name)) ==> AliasMatches(r, name)
    ensures (forall j :: 0 <= j < |devices| ==> !AliasMatches(devices[j], name)) ==> r == devices[0]
  {
    match FirstMatching(devices, name)
    case Some(i) => devices[i]
    case None => devices[0]
  }

  /** The selection loop of `execute`: it keeps the first device until a matching one is found. */
  method SelectDevice(devices: seq<Device>, name: Option<string>) returns (target: Option<Device>)
    ensures devices == [] ==> target == None
    ensures devices != [] ==> target == Some(Chosen(devices, name))
  {
    target := None;
    var i := 0;
    while i < |devices|
      invariant 0 <= i <= |devices|
      invariant FirstMatching(devices, name) == None || FirstMatching(devices, name).value >= i
      invariant i == 0 <==> target == None
      invariant i > 0 ==> target == Some(devices[0])
      invariant forall j :: 0 <= j < i ==> !AliasMatches(devices[j], name)
    {
      if AliasMatches(devices[i], name) {
        return Some(devices[i]);
      }
      if target == None {
        target := Some(devices[i]);
      }
      i := i + 1;
    }
  }

  // ---------------------------------------------------------------- execute

  datatype Command = TurnOn | TurnOff

  /** The command an action sends to a device that reported `isOn`: toggling flips it. */
  function CommandFor(action: Action, isOn: bool): (r: Command)
    ensures action == On ==> r == TurnOn
    ensures action == Off ==> r == TurnOff
    ensures action == Toggle ==> (r == TurnOff <==> isOn)
  {
    match action
    case On => TurnOn
    case Off => TurnOff
    case Toggle => if isOn then TurnOff else TurnOn
  }

  /** The message names what was done and to which device. */
  function DoneMessage(c: Command, alias: string): (r: string)
    ensures c == TurnOn ==> r == "Tände " + alias
    ensures c == TurnOff ==> r == "Släckte " + alias
  {
    match c
    case TurnOn => "Tände " + alias
    case TurnOff => "Släckte " + alias
  }

  /** What the library and the network contribute. */
  datatype Environment = Environment(
    kasaAvailable: bool,
    discovery: Result<seq<Device>, string>,
    deviceFailure: Option<string>)

  const NotInstalled: string := "python-kasa är inte installerat"
  const NoDevices: string := "Inga Kasa-enheter hittades på nätverket"

  function ErrorMessage(e: string): (r: string)
    ensures |r| == |e| + 16
  {
    "Smart Home-fel: " + e
  }

  /**
   * `execute`: also returns the command sent to the chosen device, if any. The reported
   * `is_on` is the state the device reported before the command.
   */
  method Execute(context: SkillContext, env: Environment) returns (r: SkillResult, sent: Option<(Device, Command)>)
    ensures !env.kasaAvailable ==> r == Failure(NotInstalled) && sent == None
    ensures env.kasaAvailable && env.discovery.Err? ==> r == Failure(ErrorMessage(env.discovery.error)) && sent == None
    ensures env.kasaAvailable && env.discovery == Ok([]) ==> r == Failure(NoDevices) && sent == None
    ensures env.kasaAvailable && env.discovery.Ok? && env.discovery.value != [] && env.deviceFailure.Some? ==>
              r == Failure(ErrorMessage(env.deviceFailure.value)) && sent == None
    ensures env.kasaAvailable && env.discovery.Ok? && env.discovery.value != [] && env.deviceFailure.None? ==>
              var text := Lower(context.userInput);
              var action := ParseAction(text);
              var d := Chosen(env.discovery.value, ExtractDeviceName(text));
              var c := CommandFor(action, d.isOn);
              && sent == Some((d, c))
              && r == SkillResult(true,
                                  Some(Object([("device", Str(d.alias)), ("action", Str(ActionName(action))),
                                               ("is_on", Bool(d.isOn))])),
                                  DoneMessage(c, d.alias), None, None)
  {
    sent := None;
    if !env.kasaAvailable {
      return Failure(NotInstalled), None;
    }
    if env.discovery.Err? {
      return Failure(ErrorMessage(env.discovery.error)), None;
    }
    var devices := env.discovery.value;
    if devices == [] {
      return Failure(NoDevices), None;
    }
    var userInput := Lower(context.userInput);
    var action := ParseAction(userInput);
    var deviceName := ExtractDeviceName(userInput);
    var target := SelectDevice(devices, deviceName);
    if env.deviceFailure.Some? {
      return Failure(ErrorMessage(env.deviceFailure.value)), None;
    }
    var device := target.value;
    var command := CommandFor(action, device.isOn);
    r := SkillResult(true,
                     Some(Object([("device", Str(device.alias)), ("action", Str(ActionName(action))),
                                  ("is_on", Bool(device.isOn))])),
                     DoneMessage(command, device.alias), None, None);
    sent := Some((device, command));
  }
}
