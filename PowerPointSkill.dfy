/**
 * The PowerPoint skill (_legacy_v2/skills/powerpoint_skill.py): reads a topic and a
 * slide count out of the request, lays out a title slide, up to four section slides and
 * a closing slide, and names the file after the topic and a time stamp.
 *
 * Rendering the slides with python-pptx and saving the file are replaced by what they
 * can do to the outcome: the library may be missing, or building or saving may raise.
 */
module PowerPointSkill {
  import opened Wrappers
  import opened Text
  import opened SkillBase
  import opened SkillText

  const Attributes: Skill := Skill(
    "PowerPointSkill", "powerpoint", "PowerPoint-skapare",
    "Skapar professionella presentationer (.pptx)",
    ["skapa presentation", "gör en powerpoint", "skapa slides", "presentation om",
     "create presentation", "make slides"],
    false, DefaultMaxExecutionTime)

  /** The phrases `_extract_topic` deletes; not the same list as the triggers. */
  const TopicPhrases: seq<string> := ["skapa presentation", "gör en powerpoint", "presentation om", "slides om"]

  const FallbackTopic: string := "Presentation"

  /**
   * Deleting the phrases in list order can destroy a later phrase: in "skapa presentation
   * om ai" the first phrase takes "presentation" away from "presentation om", so the
   * topic keeps the "om".
   */
  lemma PhraseOrderLeavesOm()
    ensures TopicOf("skapa presentation om ai", TopicPhrases, FallbackTopic) == "om ai"
  {
    var text := "skapa presentation om ai";
    var rest := " om ai";
    AlreadyLower(text);
    FirstPhraseTakesPresentation();
    LaterPhrasesFindNothing();
    var removed := RemovePhrases(Lower(text), TopicPhrases);
    assert removed == rest;
    StripOmAi();
  }

  lemma AlreadyLower(text: string)
    requires text == "skapa presentation om ai"
    ensures Lower(text) == text
  {
  }

  lemma StripOmAi()
    ensures Strip(" om ai") == "om ai"
  {
    var rest := " om ai";
    var t := rest[1..];
    assert t == "om ai";
    assert !IsSpace(t[0]) && !IsSpace(t[4]);
    assert TrimStart(t) == t;
    assert TrimStart(rest) == t;
    assert TrimEnd(t) == t;
  }

  lemma FirstPhraseTakesPresentation()
    ensures DeleteAll("skapa presentation om ai", TopicPhrases[0]) == " om ai"
  {
    var text := "skapa presentation om ai";
    assert text[..18] == TopicPhrases[0] && text[18..] == " om ai";
    assert DeleteAll(" om ai", TopicPhrases[0]) == " om ai";
  }

  lemma LaterPhrasesFindNothing()
    ensures RemovePhrases(" om ai", TopicPhrases[1..]) == " om ai"
  {
    var rest := " om ai";
    var later := TopicPhrases[1..];
    assert |later| == 3 && later[0] == "gör en powerpoint" && later[1] == "presentation om" && later[2] == "slides om";
    forall i | 0 <= i < 3 ensures !Contains(rest, later[i]) {
      NoRoomNoOccurrence(rest, later[i]);
    }
  }

  // ---------------------------------------------------------------- slide count

  /** The longest run of ASCII digits `s` starts with. */
  function DigitPrefix(s: string): (d: string)
    ensures |d| <= |s| && d == s[..|d|] && AllDigits(d)
    ensures |d| == |s| || !IsDigit(s[|d|])
  {
    if s == [] || !IsDigit(s[0]) then [] else [s[0]] + DigitPrefix(s[1..])
  }

  /**
   * The number of the leftmost match of `(\d+)\s*slides?` in `s`. A match can only start
   * where a run of digits starts and always takes the whole run, so a run that is not
   * followed by optional whitespace and "slide" is skipped as a whole.
   */
  function FirstSlideNumber(s: string): (r: Option<nat>)
    decreases |s|
  {
    if s == [] then None
    else if !IsDigit(s[0]) then FirstSlideNumber(s[1..])
    else
      var d := DigitPrefix(s);
      if SlideAhead(s) then Some(ParseNat(d))
      else FirstSlideNumber(s[|d|..])
  }

  /** The run of digits `s` starts with is followed by optional whitespace and "slide". */
  predicate SlideAhead(s: string) {
    StartsWith(TrimStart(s[|DigitPrefix(s)|..]), "slide")
  }

  /** A run of digits starts at `i`. */
  predicate RunStart(s: string, i: int) {
    0 <= i < |s| && IsDigit(s[i]) && (i == 0 || !IsDigit(s[i - 1]))
  }

  /** `(\d+)\s*slides?` matches at `i`: a run of digits starts there and its end is followed by optional whitespace and "slide". */
  predicate SlideMatchAt(s: string, i: int) {
    RunStart(s, i) && SlideAhead(s[i..])
  }

  /**
   * `re.search` as the regular-expression engine runs it: try each start position from
   * `i` on, left to right, and take the first that matches, with the value of its whole
   * run of digits.
   */
  function Search(s: string, i: nat): (r: Option<nat>)
    decreases |s| - i
  {
    if i >= |s| then None
    else if SlideMatchAt(s, i) then Some(ParseNat(DigitPrefix(s[i..])))
    else Search(s, i + 1)
  }

  /** A string that starts with a digit starts with a run of at least one digit. */
  lemma DigitPrefixNonEmpty(s: string)
    requires s != [] && IsDigit(s[0])
    ensures |DigitPrefix(s)| > 0
  {
  }

  /** Inside a run of digits or right after it no run starts. */
  lemma NoRunStartInRun(s: string, i: int)
    requires 0 < i <= |DigitPrefix(s)|
    ensures !RunStart(s, i)
  {
    var d := DigitPrefix(s);
    if i < |s| {
      assert s[i - 1] == d[i - 1];
      assert IsDigit(d[i - 1]);
    }
  }

  /** The search passes over the inside of a run of digits. */
  lemma {:induction false} SearchSkipsRun(s: string, k: nat, j: nat)
    requires k <= |s| && k < j <= k + |DigitPrefix(s[k..])|
    ensures Search(s, j) == Search(s, k + |DigitPrefix(s[k..])|)
    decreases k + |DigitPrefix(s[k..])| - j
  {
    var e := k + |DigitPrefix(s[k..])|;
    if j < e {
      NoRunStartInRun(s[k..], j - k);
      assert !RunStart(s, j) by { assert s[k..][j - k] == s[j] && s[k..][j - k - 1] == s[j - 1]; }
      SearchSkipsRun(s, k, j + 1);
    }
  }

  /** A character that is not a digit is passed over by both. */
  lemma StepOverNonDigit(s: string, k: nat)
    requires k < |s| && !IsDigit(s[k])
    ensures FirstSlideNumber(s[k..]) == FirstSlideNumber(s[k + 1..])
    ensures Search(s, k) == Search(s, k + 1)
  {
    assert s[k..][1..] == s[k + 1..];
  }

  /** A run of digits followed by "slide" is where both stop. */
  lemma StopAtMatch(s: string, k: nat)
    requires k < |s| && IsDigit(s[k]) && (k == 0 || !IsDigit(s[k - 1])) && SlideAhead(s[k..])
    ensures FirstSlideNumber(s[k..]) == Search(s, k) == Some(ParseNat(DigitPrefix(s[k..])))
  {
    assert RunStart(s, k);
  }

  /** A run of digits not followed by "slide" is passed over as a whole by both. */
  lemma StepOverRun(s: string, k: nat)
    requires k < |s| && IsDigit(s[k]) && (k == 0 || !IsDigit(s[k - 1])) && !SlideAhead(s[k..])
    ensures var e := k + |DigitPrefix(s[k..])|;
      && k < e <= |s| && (e == |s| || !IsDigit(s[e]))
      && FirstSlideNumber(s[k..]) == FirstSlideNumber(s[e..])
      && Search(s, k) == Search(s, e)
  {
    var t := s[k..];
    var d := DigitPrefix(t);
    DigitPrefixNonEmpty(t);
    assert t[|d|..] == s[k + |d|..];
    assert !SlideMatchAt(s, k);
    if k + 1 < k + |d| {
      SearchSkipsRun(s, k, k + 1);
    }
    if k + |d| < |s| {
      assert s[k + |d|] == t[|d|];
    }
  }

  /** No run of digits is cut in two at `k`. */
  predicate Boundary(s: string, k: nat)
    requires k <= |s|
  {
    k == 0 || k == |s| || !IsDigit(s[k - 1]) || !IsDigit(s[k])
  }

  /**
   * One step of both searches from a boundary: either both stop at `k` with the same
   * answer, or both go on from the next boundary `e`.
   */
  lemma Step(s: string, k: nat) returns (e: nat, done: bool)
    requires k < |s| && Boundary(s, k)
    ensures k < e <= |s| && Boundary(s, e)
    ensures done ==> FirstSlideNumber(s[k..]) == Search(s, k)
    ensures !done ==> FirstSlideNumber(s[k..]) == FirstSlideNumber(s[e..]) && Search(s, k) == Search(s, e)
  {
    if !IsDigit(s[k]) {
      StepOverNonDigit(s, k);
      e, done := k + 1, false;
    } else if SlideAhead(s[k..]) {
      StopAtMatch(s, k);
      e, done := |s|, true;
    } else {
      StepOverRun(s, k);
      e, done := k + |DigitPrefix(s[k..])|, false;
    }
  }

  /**
   * From a position where no run of digits is cut in two, `FirstSlideNumber` of the rest
   * is the search from there.
   */
  lemma {:induction false} SearchAgrees(s: string, k: nat)
    requires k <= |s| && Boundary(s, k)
    ensures FirstSlideNumber(s[k..]) == Search(s, k)
    decreases |s| - k
  {
    if k == |s| {
      assert s[k..] == [];
    } else {
      var e, done := Step(s, k);
      if !done {
        SearchAgrees(s, e);
      }
    }
  }

  /** `FirstSlideNumber` is the leftmost match of `(\d+)\s*slides?`, as `re.search` finds it. */
  lemma FirstSlideNumberIsSearch(s: string)
    ensures FirstSlideNumber(s) == Search(s, 0)
  {
    SearchAgrees(s, 0);
    assert s[0..] == s;
  }

  /** `_extract_slide_count`: the requested number capped at 20, or 6 when none is requested. */
  function ExtractSlideCount(text: string): (r: nat)
    ensures r <= 20
    ensures FirstSlideNumber(Lower(text)).None? ==> r == 6
    ensures FirstSlideNumber(Lower(text)).Some? ==> r == Min(FirstSlideNumber(Lower(text)).value, 20)
  {
    match FirstSlideNumber(Lower(text))
    case None => 6
    case Some(n) => Min(n, 20)
  }

  lemma {:induction false} DigitPrefixOf(d: string, rest: string)
    requires AllDigits(d)
    requires rest == [] || !IsDigit(rest[0])
    ensures DigitPrefix(d + rest) == d
    decreases |d|
  {
    if d != [] {
      assert (d + rest)[1..] == d[1..] + rest;
      DigitPrefixOf(d[1..], rest);
    } else {
      assert d + rest == rest;
    }
  }

  lemma {:induction false} SkipNonDigits(p: string, s: string)
    requires forall i :: 0 <= i < |p| ==> !IsDigit(p[i])
    ensures FirstSlideNumber(p + s) == FirstSlideNumber(s)
    decreases |p|
  {
    if p != [] {
      assert (p + s)[1..] == p[1..] + s;
      SkipNonDigits(p[1..], s);
    } else {
      assert p + s == s;
    }
  }

  lemma LowerAppend(a: string, b: string)
    ensures Lower(a + b) == Lower(a) + Lower(b)
  {
  }

  /**
   * A request that names "<n> slide…" after text without digits gets n slides, at most
   * 20; `s?` makes "slide" and "slides" alike.
   */
  lemma RequestedSlideCount(p: string, n: nat, q: string)
    requires forall i :: 0 <= i < |p| ==> !IsDigit(p[i])
    ensures ExtractSlideCount(p + NatToString(n) + " slide" + q) == Min(n, 20)
  {
    var d := NatToString(n);
    var tail := " slide" + Lower(q);
    var lp := Lower(p);
    LowerOfRequest(p, d, q);
    forall i | 0 <= i < |lp| ensures !IsDigit(lp[i]) {
      assert !IsDigit(p[i]);
    }
    SkipNonDigits(lp, d + tail);
    CountFirst(d, Lower(q));
    ParseNatToString(n);
    var request := p + d + " slide" + q;
    assert FirstSlideNumber(Lower(request)) == Some(n);
  }

  lemma LowerOfRequest(p: string, d: string, q: string)
    requires AllDigits(d)
    ensures Lower(p + d + " slide" + q) == Lower(p) + (d + (" slide" + Lower(q)))
  {
    LowerAppend(p + d + " slide", q);
    LowerAppend(p + d, " slide");
    LowerAppend(p, d);
    assert Lower(d) == d;
    assert Lower(" slide") == " slide";
  }

  lemma CountFirst(d: string, q: string)
    requires d != [] && AllDigits(d)
    ensures FirstSlideNumber(d + (" slide" + q)) == Some(ParseNat(d))
  {
    var tail := " slide" + q;
    var s := d + tail;
    assert IsDigit(s[0]);
    DigitPrefixOf(d, tail);
    assert s[|d|..] == tail;
    SlideAfterSpace(q);
  }

  /** After the one space, " slide…" starts with "slide". */
  lemma SlideAfterSpace(q: string)
    ensures StartsWith(TrimStart(" slide" + q), "slide")
  {
    var tail := " slide" + q;
    assert tail[1..] == "slide" + q;
    assert !IsSpace(tail[1]);
    assert TrimStart(tail[1..]) == tail[1..];
    assert TrimStart(tail) == tail[1..];
    assert tail[1..][..5] == "slide";
  }

  /** A request without any digit gets the default six slides. */
  lemma NoNumberSixSlides(text: string)
    requires forall i :: 0 <= i < |text| ==> !IsDigit(text[i])
    ensures ExtractSlideCount(text) == 6
  {
    var lt := Lower(text);
    forall i | 0 <= i < |lt| ensures !IsDigit(lt[i]) {
      assert !IsDigit(text[i]);
    }
    SkipNonDigits(lt, []);
    assert lt + [] == lt;
  }

  // ---------------------------------------------------------------- slides

  datatype Slide = Slide(title: string, content: seq<string>, isTitle: bool)

  const Sections: seq<string> := ["Bakgrund", "Huvudpunkter", "Analys", "Slutsats"]

  /** The three bullets of a section slide. */
  function Bullets(topic: string): (r: seq<string>)
    ensures |r| == 3 && forall k :: 0 <= k < 3 ==> StartsWith(r[k], "Punkt ") && |r[k]| == |topic| + 11
  {
    ["Punkt 1 om " + topic, "Punkt 2 om " + topic, "Punkt 3 om " + topic]
  }

  /** The slide of one section. */
  function SectionSlide(section: string, topic: string): Slide {
    Slide(section, Bullets(topic), false)
  }

  /**
   * The presentation `_generate_slides_content` lays out: the title slide, the sections
   * `Sections[:numSlides - 2]` in order, and the closing slide.
   */
  function SlidesFor(topic: string, numSlides: int): (r: seq<Slide>)
    ensures |r| == 2 + |PyPrefix(Sections, numSlides - 2)|
  {
    var chosen := PyPrefix(Sections, numSlides - 2);
    [Slide(Title(topic), ["Presentation skapad av Lexi"], true)]
    + seq(|chosen|, k requires 0 <= k < |chosen| => SectionSlide(chosen[k], topic))
    + [Slide("Tack!", ["Frågor?"], false)]
  }

  /** The title slide first, the closing slide last, and section k - 1 with its three bullets at k. */
  lemma SlidesLayout(topic: string, numSlides: int)
    ensures var slides := SlidesFor(topic, numSlides);
      && slides[0] == Slide(Title(topic), ["Presentation skapad av Lexi"], true)
      && slides[|slides| - 1] == Slide("Tack!", ["Frågor?"], false)
      && forall k :: 1 <= k < |slides| - 1 ==> slides[k] == Slide(Sections[k - 1], Bullets(topic), false)
  {
    var slides := SlidesFor(topic, numSlides);
    var chosen := PyPrefix(Sections, numSlides - 2);
    forall k | 1 <= k < |slides| - 1
      ensures slides[k] == Slide(Sections[k - 1], Bullets(topic), false)
    {
      assert slides[k] == SectionSlide(chosen[k - 1], topic);
    }
  }

  /** `_generate_slides_content`. */
  method GenerateSlidesContent(topic: string, numSlides: int) returns (slides: seq<Slide>)
    ensures slides == SlidesFor(topic, numSlides)
  {
    slides := [Slide(Title(topic), ["Presentation skapad av Lexi"], true)];
    var chosen := PyPrefix(Sections, numSlides - 2);
    var i := 0;
    while i < |chosen|
      invariant 0 <= i <= |chosen|
      invariant slides == [Slide(Title(topic), ["Presentation skapad av Lexi"], true)]
                          + seq(i, k requires 0 <= k < i => SectionSlide(chosen[k], topic))
    {
      slides := slides + [SectionSlide(chosen[i], topic)];
      i := i + 1;
    }
    slides := slides + [Slide("Tack!", ["Frågor?"], false)];
  }

  /**
   * How many section slides a count gives under Python's slicing: a count of 0 or 1 makes
   * the bound negative, so it counts from the end and gives 2 or 3 sections; from 2 on it
   * is the count less two, at most four.
   */
  lemma SectionCount(n: nat)
    ensures |PyPrefix(Sections, n - 2)| == (if n == 0 then 2 else if n == 1 then 3 else Min(4, n - 2))
  {
  }

  /** Every presentation has between two and six slides, and asking for one slide gives five. */
  lemma PresentationSize(n: nat)
    ensures 2 <= 2 + |PyPrefix(Sections, n - 2)| <= 6
    ensures n == 1 ==> 2 + |PyPrefix(Sections, n - 2)| == 5
    ensures n >= 2 ==> 2 + |PyPrefix(Sections, n - 2)| == Min(6, n)
  {
    SectionCount(n);
  }

  // ---------------------------------------------------------------- execute

  /** What the missing library, the rendering, the clock and the file system contribute. */
  datatype Environment = Environment(
    pptxAvailable: bool,
    failure: Option<string>,
    timestamp: string,
    outputDir: string)

  const ImportErrorMessage: string := "python-pptx är inte installerat. Kör: pip install python-pptx"

  function ErrorMessage(e: string): (r: string)
    ensures |r| == |e| + 16
  {
    "PowerPoint-fel: " + e
  }

  /** `f"{safe_topic}_{timestamp}.pptx"`. */
  function Filename(safe: string, timestamp: string): (r: string)
    ensures |r| == |safe| + |timestamp| + 6 && StartsWith(r, safe) && r[|safe|] == '_'
    ensures r[|r| - 5..] == ".pptx"
  {
    safe + "_" + timestamp + ".pptx"
  }

  /** A time stamp without a slash gives a file name without one: the file stays in the output directory. */
  lemma FilenameStaysInDirectory(topic: string, timestamp: string)
    requires '/' !in timestamp
    ensures '/' !in Filename(SafeTopic(topic, 30), timestamp)
  {
    SafeTopicHasNoSeparator(topic, 30);
  }

  /**
   * The success result: the slide count and the topic as data, and the file named after
   * the topic cut to 30 characters and the time stamp, in the output directory.
   */
  function Created(topic: string, count: nat, env: Environment): (r: SkillResult)
    ensures r.success && r.error.None? && r.filePath.Some?
    ensures r.filePath == Some(JoinPath(env.outputDir, Filename(SafeTopic(topic, 30), env.timestamp)))
    ensures r.data == Some(Object([("slides", Int(count)), ("topic", Str(topic))]))
    ensures StartsWith(r.message, "Presentation skapad: ") && StartsWith(r.filePath.value, env.outputDir + "/")
    ensures r.message[21..] == r.filePath.value[|env.outputDir| + 1..]
    ensures r.message[|r.message| - 5..] == ".pptx"
  {
    Saved("Presentation skapad: ", Filename(SafeTopic(topic, 30), env.timestamp), ".pptx", env.outputDir,
          Object([("slides", Int(count)), ("topic", Str(topic))]))
  }

  /** The public classes of python-pptx's `pptx.dml.color` module. */
  const ColorClasses: set<string> := {"ColorFormat", "RGBColor"}

  /** `from pptx.dml.color import <name>` succeeds: the library is installed and defines the name. */
  predicate ColorImportSucceeds(env: Environment, name: string) {
    env.pptxAvailable && name in ColorClasses
  }

  /** `execute` with the colour class it imports as a parameter; a failed import is an `ImportError`. */
  method ExecuteImporting(colorClass: string, context: SkillContext, env: Environment) returns (r: SkillResult)
    ensures !ColorImportSucceeds(env, colorClass) ==> r == Failure(ImportErrorMessage)
    ensures ColorImportSucceeds(env, colorClass) && env.failure.Some? ==> r == Failure(ErrorMessage(env.failure.value))
    ensures ColorImportSucceeds(env, colorClass) && env.failure.None? ==>
              r == Created(TopicOf(context.userInput, TopicPhrases, FallbackTopic),
                           2 + |PyPrefix(Sections, ExtractSlideCount(context.userInput) - 2)|, env)
  {
    if !ColorImportSucceeds(env, colorClass) {
      return Failure(ImportErrorMessage);
    }
    var topic := ExtractTopic(context.userInput, TopicPhrases, FallbackTopic);
    var numSlides := ExtractSlideCount(context.userInput);
    var slides := GenerateSlidesContent(topic, numSlides);
    if env.failure.Some? {
      return Failure(ErrorMessage(env.failure.value));
    }
    r := Created(topic, |slides|, env);
  }

  /**
   * `execute` as written imports `RgbColor`, a name `pptx.dml.color` does not define, so
   * every request ends in the install message even when python-pptx is installed.
   */
  method ExecuteAsWritten(context: SkillContext, env: Environment) returns (r: SkillResult)
    ensures r == Failure(ImportErrorMessage)
  {
    r := ExecuteImporting("RgbColor", context, env);
  }

  /** `execute` importing the class python-pptx does define, `RGBColor`. */
  method Execute(context: SkillContext, env: Environment) returns (r: SkillResult)
    ensures !env.pptxAvailable ==> r == Failure(ImportErrorMessage)
    ensures env.pptxAvailable && env.failure.Some? ==> r == Failure(ErrorMessage(env.failure.value))
    ensures env.pptxAvailable && env.failure.None? ==>
              r == Created(TopicOf(context.userInput, TopicPhrases, FallbackTopic),
                           2 + |PyPrefix(Sections, ExtractSlideCount(context.userInput) - 2)|, env)
  {
    r := ExecuteImporting("RGBColor", context, env);
  }
}
