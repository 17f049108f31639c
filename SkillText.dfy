/**
 * Text handling the legacy skills share: the topic of a request is what is left of the
 * lower-cased request once a skill's trigger phrases are deleted, and the file a skill
 * writes is named after the topic with every character outside a small safe set removed.
 */
module SkillText {
  import opened Wrappers
  import opened Text
  import opened SkillBase

  /** Every phrase is non-empty, as `str.replace(p, "")` is only modelled for non-empty `p`. */
  predicate Phrases(ps: seq<string>) {
    forall i :: 0 <= i < |ps| ==> ps[i] != []
  }

  /** The text after `s = s.replace(p, "")` for each phrase `p`, in list order. */
  function RemovePhrases(s: string, ps: seq<string>): (r: string)
    requires Phrases(ps)
    ensures |r| <= |s|
    ensures forall c :: c in r ==> c in s
    ensures (forall i :: 0 <= i < |ps| ==> !Contains(s, ps[i])) ==> r == s
    decreases |ps|
  {
    if ps == [] then s
    else
      var r := RemovePhrases(DeleteAll(s, ps[0]), ps[1..]);
      assert forall i :: 1 <= i < |ps| ==> ps[1..][i - 1] == ps[i];
      r
  }

  /** The loop of `_extract_topic`: deletes the phrases one after the other. */
  method DeletePhrases(s: string, ps: seq<string>) returns (r: string)
    requires Phrases(ps)
    ensures r == RemovePhrases(s, ps)
  {
    r := s;
    var i := 0;
    while i < |ps|
      invariant 0 <= i <= |ps|
      invariant RemovePhrases(r, ps[i..]) == RemovePhrases(s, ps)
    {
      assert ps[i..][1..] == ps[i + 1..];
      r := DeleteAll(r, ps[i]);
      i := i + 1;
    }
  }

  /** Every character is its own lower case: the text is what `str.lower` gives. */
  predicate LowerCased(s: string) {
    forall c :: c in s ==> LowerChar(c) == c
  }

  lemma LowerIsLowerCased(s: string)
    ensures LowerCased(Lower(s))
  {
    forall c | c in Lower(s) ensures LowerChar(c) == c {
      var i :| 0 <= i < |s| && Lower(s)[i] == c;
      if HasLowerPartner(s[i]) {
        assert !HasLowerPartner(LowerChar(s[i]));
      }
    }
  }

  /**
   * The topic of a request: `text.lower()` with the phrases deleted, stripped, or the
   * fallback when nothing but whitespace is left.
   */
  function TopicOf(text: string, ps: seq<string>, fallback: string): (r: string)
    requires Phrases(ps) && fallback != []
    ensures r != []
    ensures r == fallback || (!IsSpace(r[0]) && !IsSpace(r[|r| - 1]))
    ensures r == fallback || (LowerCased(r) && |r| <= |text|)
  {
    var s := Strip(RemovePhrases(Lower(text), ps));
    LowerIsLowerCased(text);
    if s == [] then fallback else s
  }

  /** `_extract_topic` of the PowerPoint, LinkedIn and report skills, each with its own phrases and fallback. */
  method ExtractTopic(text: string, ps: seq<string>, fallback: string) returns (topic: string)
    requires Phrases(ps) && fallback != []
    ensures topic == TopicOf(text, ps, fallback)
  {
    var result := DeletePhrases(Lower(text), ps);
    var stripped := Strip(result);
    topic := if stripped == [] then fallback else stripped;
  }

  /** A request that holds none of the phrases has its whole stripped, lower-cased text as topic. */
  lemma TopicWithoutPhrases(text: string, ps: seq<string>, fallback: string)
    requires Phrases(ps) && fallback != []
    requires forall i :: 0 <= i < |ps| ==> !Contains(Lower(text), ps[i])
    ensures Strip(Lower(text)) != [] ==> TopicOf(text, ps, fallback) == Strip(Lower(text))
    ensures Strip(Lower(text)) == [] ==> TopicOf(text, ps, fallback) == fallback
  {
  }

  /** A request of whitespace only falls back, whatever the phrases. */
  lemma {:induction false} BlankTopicFallsBack(text: string, ps: seq<string>, fallback: string)
    requires Phrases(ps) && fallback != []
    requires forall i :: 0 <= i < |text| ==> IsSpace(text[i])
    ensures TopicOf(text, ps, fallback) == fallback
  {
    var r := RemovePhrases(Lower(text), ps);
    forall i | 0 <= i < |r| ensures IsSpace(r[i]) {
      assert r[i] in Lower(text);
      var j :| 0 <= j < |text| && Lower(text)[j] == r[i];
      assert IsSpace(text[j]);
    }
  }

  // ---------------------------------------------------------------- file names

  /** The characters `safe_topic` keeps: `c.isalnum() or c in " -_"`. */
  predicate SafeChar(c: char) {
    IsAlnum(c) || c == ' ' || c == '-' || c == '_'
  }

  /** `"".join(c for c in s if SafeChar(c))`. */
  function KeepSafe(s: string): (r: string)
    ensures |r| <= |s|
    ensures forall c :: c in r ==> SafeChar(c) && c in s
    ensures (forall c :: c in s ==> SafeChar(c)) ==> r == s
  {
    if s == [] then []
    else
      var rest := KeepSafe(s[1..]);
      if SafeChar(s[0]) then [s[0]] + rest else rest
  }

  /** Filtering twice keeps what filtering once kept. */
  lemma KeepSafeIdempotent(s: string)
    ensures KeepSafe(KeepSafe(s)) == KeepSafe(s)
  {
  }

  /** `safe_topic`: the safe characters of the topic, cut to `limit`. */
  function SafeTopic(topic: string, limit: nat): (r: string)
    ensures |r| <= limit && |r| <= |topic|
    ensures forall c :: c in r ==> SafeChar(c) && c in topic
  {
    PyPrefix(KeepSafe(topic), limit)
  }

  /** A topic of safe characters only, short enough, is kept as it is. */
  lemma SafeTopicKeepsSafe(topic: string, limit: nat)
    requires |topic| <= limit && forall c :: c in topic ==> SafeChar(c)
    ensures SafeTopic(topic, limit) == topic
  {
  }

  /** No path separator, dot or other punctuation survives into a safe topic. */
  lemma SafeTopicHasNoSeparator(topic: string, limit: nat)
    ensures '/' !in SafeTopic(topic, limit) && '\\' !in SafeTopic(topic, limit)
    ensures '.' !in SafeTopic(topic, limit) && ':' !in SafeTopic(topic, limit)
  {
  }

  /** `str(self.output_dir / filename)`. */
  function JoinPath(dir: string, name: string): (r: string)
    ensures |r| == |dir| + 1 + |name| && r[|dir|] == '/'
  {
    dir + "/" + name
  }

  /**
   * The result of a skill that saved its output: success with `data`, the file `name` in
   * `dir`, and a message that announces the same name after `lead`, so it ends with the
   * name's extension `ext`.
   */
  function Saved(lead: string, name: string, ext: string, dir: string, data: Value): (r: SkillResult)
    requires |ext| <= |name| && name[|name| - |ext|..] == ext
    ensures r.success && r.error.None? && r.data == Some(data) && r.filePath == Some(JoinPath(dir, name))
    ensures StartsWith(r.message, lead) && StartsWith(r.filePath.value, dir + "/")
    ensures r.message[|lead|..] == name == r.filePath.value[|dir| + 1..]
    ensures r.message[|r.message| - |ext|..] == ext
  {
    var message, path := lead + name, JoinPath(dir, name);
    assert message[..|lead|] == lead;
    assert path[..|dir| + 1] == dir + "/";
    assert message[|message| - |ext|..] == name[|name| - |ext|..];
    SkillResult(true, Some(data), message, Some(path), None)
  }
}
