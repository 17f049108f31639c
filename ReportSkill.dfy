/**
 * The report skill (_legacy_v2/skills/report_skill.py): reads a topic out of the
 * request, fills the Markdown report template with it and the date, and writes the
 * report to a file named after the topic and a time stamp.
 *
 * The date and the time stamp come from the clock and are parameters; writing the file
 * is replaced by the message of the exception it may raise.
 */
module ReportSkill {
  import opened Wrappers
  import opened Text
  import opened SkillBase
  import opened SkillText

  const Attributes: Skill := Skill(
    "ReportSkill", "report", "Rapport-sammanställare",
    "Sammanställer rapporter från dokument, anteckningar och länkar",
    ["skriv rapport", "sammanställ rapport", "skapa rapport", "gör en rapport", "write report",
     "compile report", "sammanfatta"],
    false, DefaultMaxExecutionTime)

  const TopicPhrases: seq<string> := ["skriv rapport", "sammanställ rapport", "rapport om", "rapport över"]

  const FallbackTopic: string := "Rapport"

  /** A request that is only "rapport om" has nothing left and falls back. */
  lemma BareRequestFallsBack()
    ensures TopicOf("rapport om", TopicPhrases, FallbackTopic) == FallbackTopic
  {
    BareIsLower("rapport om");
    PhrasesTakeAll("rapport om");
  }

  lemma BareIsLower(text: string)
    requires text == "rapport om"
    ensures Lower(text) == text
  {
  }

  /** Only the third phrase occurs, and it takes the whole request. */
  lemma PhrasesTakeAll(text: string)
    requires text == "rapport om"
    ensures RemovePhrases(text, TopicPhrases) == []
  {
    LongerPhrasesFindNothing(text);
    assert RemovePhrases(text, TopicPhrases) == RemovePhrases(text, TopicPhrases[1..]);
    assert TopicPhrases[1..][1..] == TopicPhrases[2..];
    assert RemovePhrases(text, TopicPhrases[1..]) == RemovePhrases(text, TopicPhrases[2..]);
    ThirdPhraseTakesAll(text);
  }

  /** The first two phrases are longer than "rapport om", so they leave it alone. */
  lemma LongerPhrasesFindNothing(text: string)
    requires text == "rapport om"
    ensures DeleteAll(text, TopicPhrases[0]) == text && DeleteAll(text, TopicPhrases[1]) == text
  {
    NoRoomNoOccurrence(text, TopicPhrases[0]);
    NoRoomNoOccurrence(text, TopicPhrases[1]);
  }

  /** The third phrase is the whole of "rapport om", and nothing is left for the fourth. */
  lemma ThirdPhraseTakesAll(text: string)
    requires text == "rapport om"
    ensures RemovePhrases(text, TopicPhrases[2..]) == []
  {
    assert text[..|TopicPhrases[2]|] == TopicPhrases[2];
    assert DeleteAll(text, TopicPhrases[2]) == [];
    assert TopicPhrases[2..][1..] == TopicPhrases[3..];
    assert |RemovePhrases([], TopicPhrases[3..])| == 0;
  }

  // ---------------------------------------------------------------- report

  const Dated: string := "\n\n**Datum:** "
  const Summary: string := "  \n**Skapad av:** Lexi AI-assistent\n\n---\n\n## Sammanfattning\n\nDetta är en automatiskt genererad rapport om "
  const Background: string := ". I en fullständig implementation \nskulle Lexi analysera tillhandahållna dokument, anteckningar och källor för att \nskapa en omfattande sammanställning.\n\n## Bakgrund\n\nRapporten behandlar ämnet "
  const RemainderBody: string := " och dess relevans för användaren.\n\n## Huvudpunkter\n\n1. **Punkt 1**: Beskrivning av första huvudpunkten\n2. **Punkt 2**: Beskrivning av andra huvudpunkten\n3. **Punkt 3**: Beskrivning av tredje huvudpunkten\n\n## Analys\n\nBaserat på tillgänglig information kan följande slutsatser dras:\n\n- Slutsats A\n- Slutsats B\n- Slutsats C\n\n## Rekommendationer\n\n1. Rekommendation 1\n2. Rekommendation 2\n3. Rekommendation 3\n\n## Referenser\n\n*Inga externa källor tillhandahållna.*\n\n---\n\n"

  const Signature: string := "*Denna rapport genererades automatiskt av Lexi.*\n"

  /** The level-one heading: the title-cased topic. */
  function Heading(topic: string): string {
    "# " + Title(topic)
  }

  /** The length of the template without the topic and the date. */
  const FixedLength: nat := 2 + |Dated| + |Summary| + |Background| + |RemainderBody| + |Signature|

  /**
   * `_generate_report`: a level-one heading with the title-cased topic, the date, the
   * topic named again in the summary and in the background, and the fixed signature last.
   */
  function GenerateReport(topic: string, date: string): (r: string)
    ensures |r| == 3 * |topic| + |date| + FixedLength
    ensures StartsWith(r, "# " + Title(topic))
    ensures EndsWithSignature(r)
  {
    var r := Heading(topic) + Dated + date + Summary + topic + Background + topic + RemainderBody + Signature;
    TemplateLayout(r, Heading(topic), Dated, date, Summary, topic, Background, RemainderBody, Signature);
    r
  }

  /** The date follows the heading, and the topic as given is named in the summary and in the background. */
  lemma ReportNamesTopicAndDate(topic: string, date: string)
    ensures var r := GenerateReport(topic, date); var h := |Heading(topic)|;
      && h == 2 + |topic|
      && OccursAt(r, date, h + |Dated|)
      && OccursAt(r, topic, h + |Dated| + |date| + |Summary|)
      && OccursAt(r, topic, h + |Dated| + |date| + |Summary| + |topic| + |Background|)
  {
    TemplateLayout(GenerateReport(topic, date), Heading(topic), Dated, date, Summary, topic, Background,
                   RemainderBody, Signature);
  }

  /** Where the variable parts of a filled template lie, whatever the fixed parts say. */
  lemma TemplateLayout(r: string, heading: string, dated: string, date: string, summary: string,
                       topic: string, background: string, body: string, signature: string)
    requires r == heading + dated + date + summary + topic + background + topic + body + signature
    ensures |r| == |heading| + |dated| + |date| + |summary| + 2 * |topic| + |background| + |body| + |signature|
    ensures r[..|heading|] == heading && r[|r| - |signature|..] == signature
    ensures OccursAt(r, date, |heading| + |dated|)
    ensures OccursAt(r, topic, |heading| + |dated| + |date| + |summary|)
    ensures OccursAt(r, topic, |heading| + |dated| + |date| + |summary| + |topic| + |background|)
  {
    var d := |heading| + |dated|;
    var t1 := d + |date| + |summary|;
    var t2 := t1 + |topic| + |background|;
    assert r[d..d + |date|] == date;
    assert r[t1..t1 + |topic|] == topic;
    assert r[t2..t2 + |topic|] == topic;
  }

  /** The report closes with the signature line. */
  predicate EndsWithSignature(r: string) {
    |r| >= |Signature| && r[|r| - |Signature|..] == Signature
  }

  // ---------------------------------------------------------------- execute

  /** What the clock and the file system contribute. */
  datatype Environment = Environment(writeFailure: Option<string>, date: string, timestamp: string, outputDir: string)

  function ErrorMessage(e: string): (r: string)
    ensures |r| == |e| + 13
  {
    "Rapport-fel: " + e
  }

  /** `f"Rapport_{safe_topic}_{timestamp}.md"`. */
  function Filename(safe: string, timestamp: string): (r: string)
    ensures |r| == |safe| + |timestamp| + 12 && StartsWith(r, "Rapport_")
    ensures r[8..8 + |safe|] == safe && r[|r| - 3..] == ".md"
  {
    "Rapport_" + safe + "_" + timestamp + ".md"
  }

  /**
   * The success result: the topic, the format and the word count of the report as data,
   * and the file named after the topic cut to 30 characters and the time stamp, in the
   * output directory.
   */
  function Created(topic: string, report: string, env: Environment): (r: SkillResult)
    ensures r.success && r.error.None? && r.filePath.Some?
    ensures r.filePath == Some(JoinPath(env.outputDir, Filename(SafeTopic(topic, 30), env.timestamp)))
    ensures r.data == Some(Object([("topic", Str(topic)), ("format", Str("markdown")), ("words", Int(|Split(report)|))]))
    ensures StartsWith(r.message, "Rapport skapad: ") && StartsWith(r.message[16..], "Rapport_")
    ensures StartsWith(r.filePath.value, env.outputDir + "/")
    ensures r.message[16..] == r.filePath.value[|env.outputDir| + 1..]
    ensures r.message[|r.message| - 3..] == ".md"
  {
    Saved("Rapport skapad: ", Filename(SafeTopic(topic, 30), env.timestamp), ".md", env.outputDir,
          Object([("topic", Str(topic)), ("format", Str("markdown")), ("words", Int(|Split(report)|))]))
  }

  /** `execute`: the word count is the number of whitespace-separated tokens of the report written. */
  method Execute(context: SkillContext, env: Environment) returns (r: SkillResult)
    ensures env.writeFailure.Some? ==> r == Failure(ErrorMessage(env.writeFailure.value))
    ensures env.writeFailure.None? ==>
              var topic := TopicOf(context.userInput, TopicPhrases, FallbackTopic);
              r == Created(topic, GenerateReport(topic, env.date), env)
  {
    var topic := ExtractTopic(context.userInput, TopicPhrases, FallbackTopic);
    var reportContent := GenerateReport(topic, env.date);
    if env.writeFailure.Some? {
      return Failure(ErrorMessage(env.writeFailure.value));
    }
    r := Created(topic, reportContent, env);
  }
}
