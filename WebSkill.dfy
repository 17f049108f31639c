/**
 * The web agent skill (_legacy_v2/skills/web_skill.py): turns the request into a URL (a
 * Google search for the request or for its words without the filler words, or the
 * request itself when it is an address), opens it and reports the page title.
 *
 * The browser (Playwright) is replaced by its outcomes: the message of an exception
 * raised while starting it, and what visiting a URL gives, a page or an error message.
 */
module WebSkill {
  import opened Wrappers
  import opened Text
  import opened SkillBase

  const Attributes: Skill := Skill(
    "WebAgentSkill", "web_agent", "Webbagent", "Söker på webben och automatiserar webbläsaruppgifter",
    ["sök på webben", "öppna webbläsaren", "gå till", "search the web", "browse to", "google",
     "hitta information om"],
    true, DefaultMaxExecutionTime)

  // ---------------------------------------------------------------- search query

  const RemoveWords: seq<string> := ["sök", "efter", "på", "webben", "google", "hitta"]

  /** `[w for w in words if w.lower() not in RemoveWords]`. */
  function Filtered(words: seq<string>): (r: seq<string>)
    ensures |r| <= |words|
    ensures forall k :: 0 <= k < |r| ==> r[k] in words && Lower(r[k]) !in RemoveWords
    ensures forall k :: 0 <= k < |words| && Lower(words[k]) !in RemoveWords ==> words[k] in r
  {
    if words == [] then []
    else
      var rest := Filtered(words[1..]);
      assert forall k :: 1 <= k < |words| ==> words[k] == words[1..][k - 1];
      if Lower(words[0]) in RemoveWords then rest else [words[0]] + rest
  }

  /** Filtering keeps the order of the words: a text filters to its parts' filtered words, in turn. */
  lemma {:induction false} FilteredAppend(a: seq<string>, b: seq<string>)
    ensures Filtered(a + b) == Filtered(a) + Filtered(b)
  {
    if a != [] {
      assert (a + b)[0] == a[0];
      assert (a + b)[1..] == a[1..] + b;
      FilteredAppend(a[1..], b);
    } else {
      assert a + b == b;
    }
  }

  /** A single word is kept exactly when it is not a filler word. */
  lemma FilteredOne(w: string)
    ensures Filtered([w]) == if Lower(w) in RemoveWords then [] else [w]
  {
  }

  /** `_extract_search_query`: the words of the text that are not filler words, joined by single spaces. */
  function ExtractSearchQuery(text: string): (r: string)
    ensures Split(r) == Filtered(Split(text))
  {
    var kept := Filtered(Split(text));
    assert forall k :: 0 <= k < |kept| ==> IsWord(kept[k]);
    SplitJoin(kept);
    Join(" ", kept)
  }

  /** No filler word survives in the query, and every other word of the text does. */
  lemma QueryDropsFillerWords(text: string)
    ensures forall k :: 0 <= k < |Split(ExtractSearchQuery(text))| ==>
              Lower(Split(ExtractSearchQuery(text))[k]) !in RemoveWords
    ensures forall w :: w in Split(text) && Lower(w) !in RemoveWords ==> w in Split(ExtractSearchQuery(text))
  {
  }

  /** Filtering a query again changes nothing: the query is its own query. */
  lemma {:induction false} FilteredIdempotent(words: seq<string>)
    ensures Filtered(Filtered(words)) == Filtered(words)
  {
    if words != [] {
      FilteredIdempotent(words[1..]);
    }
  }

  // ---------------------------------------------------------------- URL

  const SearchPrefix: string := "https://www.google.com/search?q="

  /** The URL `execute` opens. */
  function ChooseUrl(userInput: string): (url: string)
    ensures var t := Lower(userInput);
      && ((Contains(t, "google") || Contains(t, "sök")) ==> url == SearchPrefix + ExtractSearchQuery(userInput))
      && (!Contains(t, "google") && !Contains(t, "sök") && StartsWith(t, "http") ==> url == userInput)
      && (!Contains(t, "google") && !Contains(t, "sök") && !StartsWith(t, "http") ==> url == SearchPrefix + userInput)
  {
    var t := Lower(userInput);
    if Contains(t, "google") || Contains(t, "sök") then SearchPrefix + ExtractSearchQuery(userInput)
    else if StartsWith(t, "http") then userInput
    else SearchPrefix + userInput
  }

  /** Every URL is either the request itself, when it starts with "http", or a Google search. */
  lemma UrlIsAddressOrSearch(userInput: string)
    ensures var url := ChooseUrl(userInput);
      (url == userInput && StartsWith(Lower(userInput), "http")) || StartsWith(url, SearchPrefix)
  {
    var url := ChooseUrl(userInput);
    var t := Lower(userInput);
    if Contains(t, "google") || Contains(t, "sök") {
      assert url[..|SearchPrefix|] == SearchPrefix;
    } else if !StartsWith(t, "http") {
      assert url[..|SearchPrefix|] == SearchPrefix;
    }
  }

  // ---------------------------------------------------------------- execute

  /** What the browser shows for a URL. */
  datatype Page = Page(title: string, screenshot: Value)

  /** What the browser contributes. */
  datatype Environment = Environment(launchFailure: Option<string>, visit: string -> Result<Page, string>)

  function ErrorMessage(e: string): (r: string)
    ensures |r| == |e| + 15
  {
    "Webbagent-fel: " + e
  }

  /** `execute`: opens the chosen URL and reports the title of the page. */
  function Execute(context: SkillContext, env: Environment): (r: SkillResult)
    ensures env.launchFailure.Some? ==> r == Failure(ErrorMessage(env.launchFailure.value))
    ensures env.launchFailure.None? && env.visit(ChooseUrl(context.userInput)).Err? ==>
              r == Failure(ErrorMessage(env.visit(ChooseUrl(context.userInput)).error))
    ensures r.success <==> env.launchFailure.None? && env.visit(ChooseUrl(context.userInput)).Ok?
    ensures r.success ==>
              var page := env.visit(ChooseUrl(context.userInput)).value;
              && r.message == "Öppnade: " + page.title
              && r.data == Some(Object([("title", Str(page.title)), ("url", Str(ChooseUrl(context.userInput))),
                                        ("screenshot", page.screenshot)]))
              && r.filePath == None && r.error == None
  {
    if env.launchFailure.Some? then Failure(ErrorMessage(env.launchFailure.value))
    else
      var url := ChooseUrl(context.userInput);
      match env.visit(url)
      case Err(e) => Failure(ErrorMessage(e))
      case Ok(page) =>
        SkillResult(true, Some(Object([("title", Str(page.title)), ("url", Str(url)), ("screenshot", page.screenshot)])),
                    "Öppnade: " + page.title, None, None)
  }
}
