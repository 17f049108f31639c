/**
 * The LinkedIn skill (_legacy_v2/skills/linkedin_skill.py): reads a topic out of the
 * request, fills the post template with it, appends up to five hashtags chosen by the
 * topic, and writes the post to a text file named after the topic and a time stamp.
 *
 * The tone preference is read but the template does not use it; writing the file is
 * replaced by the message of the exception it may raise.
 */
module LinkedInSkill {
  import opened Wrappers
  import opened Text
  import opened SkillBase
  import opened SkillText

  const Attributes: Skill := Skill(
    "LinkedInSkill", "linkedin", "LinkedIn-assistent",
    "Skapar professionella LinkedIn-inlägg på svenska",
    ["skriv linkedin", "linkedin inlägg", "linkedin post", "skapa linkedin", "write linkedin",
     "skriv ett inlägg"],
    false, DefaultMaxExecutionTime)

  const TopicPhrases: seq<string> := ["skriv linkedin", "linkedin inlägg", "linkedin om", "inlägg om"]

  const FallbackTopic: string := "professionell utveckling"

  // ---------------------------------------------------------------- post

  const Hook: string := "\U{1F3AF} "
  const Body: string := "\n\nJag har funderat mycket på detta ämne senaste tiden.\n\nDet som slog mig är att vi ofta underskattar vikten av:\n\n• Att vara konsekvent i vårt arbete\n• Att lyssna mer än vi pratar\n• Att fira små framgångar\n\nVad är dina tankar om "
  const CallToAction: string := "?\n\nDela gärna i kommentarerna! \U{1F447}"

  /** `_generate_post`: the title-cased topic after the hook, the topic again in the closing question. */
  function GeneratePost(topic: string): (r: string)
    ensures StartsWith(r, Hook + Title(topic))
    ensures OccursAt(r, topic, 2 + |topic| + 228)
    ensures |r| == 2 * |topic| + 262
  {
    var r := Hook + Title(topic) + Body + topic + CallToAction;
    assert r[..2 + |topic|] == Hook + Title(topic);
    assert r[2 + |topic| + 228..2 + |topic| + 228 + |topic|] == topic;
    r
  }

  // ---------------------------------------------------------------- hashtags

  const BaseTags: seq<string> := ["#LinkedIn", "#Karriär", "#Utveckling"]

  /** The tags the topic adds, by the first matching branch. */
  function TopicTags(topicLower: string): (r: seq<string>)
    ensures 2 <= |r| <= 3
  {
    if Contains(topicLower, "ledar") then ["#Ledarskap", "#Management"]
    else if Contains(topicLower, "tech") || Contains(topicLower, "ai") then ["#Tech", "#AI", "#Innovation"]
    else if Contains(topicLower, "försälj") then ["#Försäljning", "#Sales"]
    else ["#Inspiration", "#Tips"]
  }

  /** The two tags that survive the cut to five. */
  function LastTwo(topicLower: string): (r: seq<string>)
    ensures PyPrefix(BaseTags + TopicTags(topicLower), 5) == BaseTags + r
    ensures |r| == 2 && "#Innovation" !in r
  {
    var r := if Contains(topicLower, "ledar") then ["#Ledarskap", "#Management"]
      else if Contains(topicLower, "tech") || Contains(topicLower, "ai") then ["#Tech", "#AI"]
      else if Contains(topicLower, "försälj") then ["#Försäljning", "#Sales"]
      else ["#Inspiration", "#Tips"];
    assert (BaseTags + TopicTags(topicLower))[..5] == BaseTags + r;
    r
  }

  /** Printable ASCII and the Latin-1 letters: no whitespace among them. */
  predicate Visible(c: char) {
    ('!' <= c <= '~') || ('\U{C0}' <= c <= '\U{FF}')
  }

  lemma VisibleWord(w: string)
    requires w != [] && forall i :: 0 <= i < |w| ==> Visible(w[i])
    ensures IsWord(w)
  {
  }

  /** Every tag is a single word. */
  lemma TagsAreWords(topicLower: string)
    ensures forall k :: 0 <= k < 5 ==> IsWord((BaseTags + LastTwo(topicLower))[k])
  {
    VisibleWord("#LinkedIn");
    VisibleWord("#Karriär");
    VisibleWord("#Utveckling");
    VisibleWord("#Ledarskap");
    VisibleWord("#Management");
    VisibleWord("#Tech");
    VisibleWord("#AI");
    VisibleWord("#Försäljning");
    VisibleWord("#Sales");
    VisibleWord("#Inspiration");
    VisibleWord("#Tips");
  }

  /**
   * `_generate_hashtags`: five tags separated by single spaces, the three base tags
   * first and the two the topic picks after them.
   */
  function GenerateHashtags(topic: string): (r: string)
    ensures Split(r) == BaseTags + LastTwo(Lower(topic))
    ensures |Split(r)| == 5 && "#Innovation" !in Split(r)
  {
    var tags := PyPrefix(BaseTags + TopicTags(Lower(topic)), 5);
    var kept := BaseTags + LastTwo(Lower(topic));
    TagsAreWords(Lower(topic));
    SplitJoin(kept);
    assert tags == kept;
    Join(" ", tags)
  }

  /**
   * The branches in priority order: "ledar", then "tech" or "ai", then "försälj", then the
   * default; the third tag of the tech branch is cut off.
   */
  lemma HashtagBranches(topic: string)
    ensures var t := Lower(topic); var last := Split(GenerateHashtags(topic))[3..];
      && (Contains(t, "ledar") ==> last == ["#Ledarskap", "#Management"])
      && (!Contains(t, "ledar") && (Contains(t, "tech") || Contains(t, "ai")) ==> last == ["#Tech", "#AI"])
      && (!Contains(t, "ledar") && !Contains(t, "tech") && !Contains(t, "ai") && Contains(t, "försälj") ==>
            last == ["#Försäljning", "#Sales"])
      && (!Contains(t, "ledar") && !Contains(t, "tech") && !Contains(t, "ai") && !Contains(t, "försälj") ==>
            last == ["#Inspiration", "#Tips"])
  {
    assert Split(GenerateHashtags(topic))[3..] == LastTwo(Lower(topic));
  }

  /** The tags always open with the three base tags, whatever the topic. */
  lemma HashtagsStartWithBase(topic: string)
    ensures StartsWith(GenerateHashtags(topic), "#LinkedIn #Karriär #Utveckling")
  {
    var two := LastTwo(Lower(topic));
    var tags := BaseTags + two;
    assert tags[1..][1..][1..] == two;
    var rest := Join(" ", two);
    assert Join(" ", tags[1..][1..]) == "#Utveckling" + " " + rest;
    assert Join(" ", tags[1..]) == "#Karriär" + " " + ("#Utveckling" + " " + rest);
    assert Join(" ", tags) == "#LinkedIn" + " " + ("#Karriär" + " " + ("#Utveckling" + " " + rest));
    assert Join(" ", tags)[..30] == "#LinkedIn #Karriär #Utveckling";
  }

  /** The published text: the post, a blank line, the hashtags. */
  function FullPost(topic: string): (r: string)
    ensures |r| == 2 * |topic| + 264 + |GenerateHashtags(topic)|
    ensures StartsWith(r, GeneratePost(topic))
    ensures r[|r| - |GenerateHashtags(topic)|..] == GenerateHashtags(topic)
  {
    var r := GeneratePost(topic) + "\n\n" + GenerateHashtags(topic);
    assert r[..|GeneratePost(topic)|] == GeneratePost(topic);
    r
  }

  // ---------------------------------------------------------------- execute

  /** What the clock and the file system contribute. */
  datatype Environment = Environment(writeFailure: Option<string>, timestamp: string, outputDir: string)

  function ErrorMessage(e: string): (r: string)
    ensures |r| == |e| + 14
  {
    "LinkedIn-fel: " + e
  }

  /** `f"LinkedIn_{safe_topic}_{timestamp}.txt"`. */
  function Filename(safe: string, timestamp: string): (r: string)
    ensures |r| == |safe| + |timestamp| + 14 && StartsWith(r, "LinkedIn_")
    ensures r[9..9 + |safe|] == safe && r[|r| - 4..] == ".txt"
  {
    "LinkedIn_" + safe + "_" + timestamp + ".txt"
  }

  /** `f"LinkedIn-inlägg skapat ({len(full_post)} tecken)"`. */
  function CreatedMessage(count: nat): (r: string)
    ensures |r| == |NatToString(count)| + 32
    ensures StartsWith(r, "LinkedIn-inlägg skapat (") && r[|r| - 8..] == " tecken)"
    ensures r[24..|r| - 8] == NatToString(count)
  {
    "LinkedIn-inlägg skapat (" + NatToString(count) + " tecken)"
  }

  /** The reported count can be read back from the message, so different counts give different messages. */
  lemma CreatedMessageCount(count: nat)
    ensures ParseNat(CreatedMessage(count)[24..|CreatedMessage(count)| - 8]) == count
  {
    ParseNatToString(count);
  }

  /** `execute`: the character count reported is the length of the whole published text. */
  method Execute(context: SkillContext, env: Environment) returns (r: SkillResult)
    ensures env.writeFailure.Some? ==> r == Failure(ErrorMessage(env.writeFailure.value))
    ensures env.writeFailure.None? ==>
              var topic := TopicOf(context.userInput, TopicPhrases, FallbackTopic);
              var post := FullPost(topic);
              var name := Filename(SafeTopic(topic, 20), env.timestamp);
              r == SkillResult(true,
                               Some(Object([("topic", Str(topic)), ("post", Str(post)),
                                            ("hashtags", Str(GenerateHashtags(topic))),
                                            ("character_count", Int(|post|))])),
                               CreatedMessage(|post|), Some(JoinPath(env.outputDir, name)), None)
  {
    var topic := ExtractTopic(context.userInput, TopicPhrases, FallbackTopic);
    var postContent := GeneratePost(topic);
    var hashtags := GenerateHashtags(topic);
    var fullPost := postContent + "\n\n" + hashtags;
    var safeTopic := SafeTopic(topic, 20);
    var filename := Filename(safeTopic, env.timestamp);
    if env.writeFailure.Some? {
      return Failure(ErrorMessage(env.writeFailure.value));
    }
    r := SkillResult(true,
                     Some(Object([("topic", Str(topic)), ("post", Str(fullPost)),
                                  ("hashtags", Str(hashtags)), ("character_count", Int(|fullPost|))])),
                     CreatedMessage(|fullPost|), Some(JoinPath(env.outputDir, filename)), None);
  }
}
