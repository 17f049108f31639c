/**
 * Character classes and string operations that the Python and JavaScript sources take
 * from their standard libraries: `str.isspace`, `str.lower`, `str.title`, `str.isalnum`,
 * `in`, `str.strip`, `str.split()`, `str.join`, `str.replace(p, "")`, prefix slices `s[:k]`,
 * `int` <-> decimal text, and JavaScript's `String.prototype.trim`.
 *
 * Whitespace is modelled completely (Python's and JavaScript's sets differ and are both
 * listed). Letter case and alphanumerics are modelled for code points below 256, except the
 * title-casing of `ß`, `µ` and `ÿ`, whose upper case lies above that range; every other code
 * point is treated as an uncased non-alphanumeric symbol.
 */
module Text {
  import opened Wrappers

  // ---------------------------------------------------------------- characters

  /** Python's `str.isspace` for a single character (the complete Unicode set). */
  predicate IsSpace(c: char) {
    ('\t' <= c <= '\r') || ('\U{1C}' <= c <= ' ') || c == '\U{85}' || c == '\U{A0}'
    || c == '\U{1680}' || ('\U{2000}' <= c <= '\U{200A}') || c == '\U{2028}' || c == '\U{2029}'
    || c == '\U{202F}' || c == '\U{205F}' || c == '\U{3000}'
  }

  /** The characters JavaScript's `trim` removes (WhiteSpace and LineTerminator). */
  predicate IsJsSpace(c: char) {
    ('\t' <= c <= '\r') || c == ' ' || c == '\U{A0}' || c == '\U{1680}'
    || ('\U{2000}' <= c <= '\U{200A}') || c == '\U{2028}' || c == '\U{2029}'
    || c == '\U{202F}' || c == '\U{205F}' || c == '\U{3000}' || c == '\U{FEFF}'
  }

  predicate IsDigit(c: char) { '0' <= c <= '9' }

  /** Upper-case letters that have a lower-case partner 32 code points above. */
  predicate HasLowerPartner(c: char) {
    ('A' <= c <= 'Z') || ('\U{C0}' <= c <= '\U{DE}' && c != '\U{D7}')
  }

  /** Lower-case letters that have an upper-case partner 32 code points below. */
  predicate HasUpperPartner(c: char) {
    ('a' <= c <= 'z') || ('\U{E0}' <= c <= '\U{FE}' && c != '\U{F7}')
  }

  /**
   * Python's cased characters below code point 256: the letters of categories Lu, Ll and Lt,
   * and the ordinal indicators, which Unicode counts as lower case.
   */
  predicate IsCased(c: char) {
    HasLowerPartner(c) || HasUpperPartner(c) || c == '\U{B5}' || c == '\U{DF}' || c == '\U{FF}'
    || c == '\U{AA}' || c == '\U{BA}'
  }

  /** Python's `str.isalnum` for a single character below code point 256. */
  predicate IsAlnum(c: char) {
    IsDigit(c) || IsCased(c) || c == '\U{AA}' || c == '\U{B2}' || c == '\U{B3}' || c == '\U{B9}'
    || c == '\U{BA}' || ('\U{BC}' <= c <= '\U{BE}')
  }

  function LowerChar(c: char): char {
    if HasLowerPartner(c) then (c as int + 32) as char else c
  }

  function UpperChar(c: char): char {
    if HasUpperPartner(c) then (c as int - 32) as char else c
  }

  /** Python's `str.lower`. */
  function Lower(s: string): (r: string)
    ensures |r| == |s|
    ensures forall i :: 0 <= i < |s| ==> r[i] == LowerChar(s[i])
  {
    seq(|s|, i requires 0 <= i < |s| => LowerChar(s[i]))
  }

  /** Lower-casing twice is lower-casing once, so `x.lower() in y.lower()` on already lower text changes nothing. */
  lemma LowerIdempotent(s: string)
    ensures Lower(Lower(s)) == Lower(s)
  {
    forall i | 0 <= i < |s| ensures LowerChar(LowerChar(s[i])) == LowerChar(s[i]) {
      var c := s[i];
      if HasLowerPartner(c) {
        assert !HasLowerPartner(LowerChar(c));
      }
    }
  }

  /**
   * Python's `str.title`: a cased letter is upper-cased when the character before it is
   * not cased and lower-cased otherwise; other characters are kept.
   */
  function TitleFrom(s: string, previousCased: bool): (r: string)
    ensures |r| == |s|
  {
    if s == [] then []
    else
      var c := s[0];
      var d := if !IsCased(c) then c else if previousCased then LowerChar(c) else UpperChar(c);
      [d] + TitleFrom(s[1..], IsCased(c))
  }

  function Title(s: string): (r: string)
    ensures |r| == |s|
  {
    TitleFrom(s, false)
  }

  // ---------------------------------------------------------------- substrings

  /** `p` occurs in `s` starting at index `i`. */
  predicate OccursAt(s: string, p: string, i: int) {
    0 <= i && i + |p| <= |s| && s[i..i + |p|] == p
  }

  /** Python's `p in s`. */
  predicate Contains(s: string, p: string)
    decreases |s|
  {
    (|p| <= |s| && s[..|p|] == p) || (|s| > 0 && Contains(s[1..], p))
  }

  /** An occurrence at some index makes `p in s` true. */
  lemma {:induction false} OccursContains(s: string, p: string, i: int)
    requires OccursAt(s, p, i)
    ensures Contains(s, p)
    decreases i
  {
    if i > 0 {
      assert s[1..][i - 1..i - 1 + |p|] == s[i..i + |p|];
      OccursContains(s[1..], p, i - 1);
    } else {
      assert s[..|p|] == s[0..|p|];
    }
  }

  /** `p in s` holds exactly when `p` occurs at some index of `s`. */
  lemma {:induction false} ContainsIff(s: string, p: string)
    ensures Contains(s, p) <==> exists i :: OccursAt(s, p, i)
    decreases |s|
  {
    if Contains(s, p) {
      if |p| <= |s| && s[..|p|] == p {
        assert OccursAt(s, p, 0);
      } else {
        ContainsIff(s[1..], p);
        var i :| OccursAt(s[1..], p, i);
        assert s[i + 1..i + 1 + |p|] == s[1..][i..i + |p|];
        assert OccursAt(s, p, i + 1);
      }
    }
    forall i | OccursAt(s, p, i) ensures Contains(s, p) {
      OccursContains(s, p, i);
    }
  }

  /** An occurrence in a suffix is an occurrence in the whole string. */
  lemma {:induction false} ContainsSuffix(s: string, k: nat, p: string)
    requires k <= |s| && Contains(s[k..], p)
    ensures Contains(s, p)
  {
    ContainsIff(s[k..], p);
    var i :| OccursAt(s[k..], p, i);
    assert s[k..][i..i + |p|] == s[k + i..k + i + |p|];
    assert OccursAt(s, p, k + i);
    ContainsIff(s, p);
  }

  /** Python's `s.find(p)` when it is not -1: the first index where `p` occurs. */
  function IndexOfSub(s: string, p: string): (r: Option<nat>)
    ensures r.Some? ==> OccursAt(s, p, r.value) && forall j :: 0 <= j < r.value ==> !OccursAt(s, p, j)
    ensures r.None? ==> forall j :: !OccursAt(s, p, j)
    decreases |s|
  {
    if |s| < |p| then None
    else if s[..|p|] == p then Some(0)
    else
      match IndexOfSub(s[1..], p)
      case None =>
        assert forall j :: OccursAt(s, p, j) ==> j == 0 || OccursAt(s[1..], p, j - 1) by {
          forall j | OccursAt(s, p, j) && j > 0 ensures OccursAt(s[1..], p, j - 1) {
            assert s[1..][j - 1..j - 1 + |p|] == s[j..j + |p|];
          }
        }
        None
      case Some(k) =>
        assert s[1..][k..k + |p|] == s[k + 1..k + 1 + |p|];
        assert forall j :: 0 < j <= k ==> !OccursAt(s, p, j) by {
          forall j | 0 < j <= k ensures !OccursAt(s, p, j) {
            assert !OccursAt(s[1..], p, j - 1);
            assert j + |p| <= |s| ==> s[1..][j - 1..j - 1 + |p|] == s[j..j + |p|];
          }
        }
        Some(k + 1)
  }

  /** `s.find(p)` finds something exactly when `p in s`. */
  lemma IndexOfSubContains(s: string, p: string)
    ensures IndexOfSub(s, p).Some? <==> Contains(s, p)
  {
    ContainsIff(s, p);
  }

  /** Python's `s.startswith(p)`. */
  predicate StartsWith(s: string, p: string) {
    |p| <= |s| && s[..|p|] == p
  }

  /**
   * Python's `s.replace(p, "")` for a non-empty `p`: occurrences are found left to right
   * and removed without re-scanning what is left behind.
   */
  function DeleteAll(s: string, p: string): (r: string)
    requires p != []
    ensures |r| <= |s|
    ensures |r| == |s| <==> !Contains(s, p)
    ensures !Contains(s, p) ==> r == s
    ensures forall c :: c in r ==> c in s
    decreases |s|
  {
    if |s| < |p| then
      assert !Contains(s, p) by { NoRoomNoOccurrence(s, p); }
      s
    else if s[..|p|] == p then DeleteAll(s[|p|..], p)
    else [s[0]] + DeleteAll(s[1..], p)
  }

  lemma {:induction false} NoRoomNoOccurrence(s: string, p: string)
    requires |s| < |p|
    ensures !Contains(s, p)
    decreases |s|
  {
    if |s| > 0 { NoRoomNoOccurrence(s[1..], p); }
  }

  // ---------------------------------------------------------------- whitespace

  /** Python's `s.lstrip()`. */
  function TrimStart(s: string): (r: string)
    ensures |r| <= |s| && r == s[|s| - |r|..]
    ensures r == [] || !IsSpace(r[0])
    ensures forall i :: 0 <= i < |s| - |r| ==> IsSpace(s[i])
  {
    if s != [] && IsSpace(s[0]) then TrimStart(s[1..]) else s
  }

  /** Python's `s.rstrip()`. */
  function TrimEnd(s: string): (r: string)
    ensures |r| <= |s| && r == s[..|r|]
    ensures r == [] || !IsSpace(r[|r| - 1])
    ensures forall i :: |r| <= i < |s| ==> IsSpace(s[i])
  {
    if s != [] && IsSpace(s[|s| - 1]) then TrimEnd(s[..|s| - 1]) else s
  }

  /** Python's `s.strip()`: the text between the leading and the trailing whitespace. */
  function Strip(s: string): (r: string)
    ensures |r| <= |s|
    ensures r == [] || (!IsSpace(r[0]) && !IsSpace(r[|r| - 1]))
    ensures r == [] <==> forall i :: 0 <= i < |s| ==> IsSpace(s[i])
    ensures forall c :: c in r ==> c in s
  {
    var t := TrimStart(s);
    var r := TrimEnd(t);
    StripBlank(s, t, r);
    r
  }

  lemma StripBlank(s: string, t: string, r: string)
    requires t == TrimStart(s) && r == TrimEnd(t)
    ensures r == [] || (!IsSpace(r[0]) && !IsSpace(r[|r| - 1]))
    ensures r == [] <==> forall i :: 0 <= i < |s| ==> IsSpace(s[i])
  {
    if r != [] {
      assert r[0] == t[0];
      assert !IsSpace(s[|s| - |t|]);
    }
  }

  /** JavaScript's `s.trim() === ""`: the text is empty or whitespace only. */
  predicate IsBlankJs(s: string) {
    forall i :: 0 <= i < |s| ==> IsJsSpace(s[i])
  }

  // ---------------------------------------------------------------- words

  /** A word of Python's `str.split()`: non-empty and free of whitespace. */
  predicate IsWord(w: string) {
    w != [] && forall i :: 0 <= i < |w| ==> !IsSpace(w[i])
  }

  /** The longest whitespace-free prefix of `s`. */
  function TakeWord(s: string): (w: string)
    ensures |w| <= |s| && w == s[..|w|]
    ensures forall i :: 0 <= i < |w| ==> !IsSpace(w[i])
    ensures |w| == |s| || IsSpace(s[|w|])
  {
    if s == [] || IsSpace(s[0]) then [] else [s[0]] + TakeWord(s[1..])
  }

  /** Python's `s.split()`: the maximal runs of non-whitespace characters, in order. */
  function Split(s: string): (ws: seq<string>)
    ensures forall k :: 0 <= k < |ws| ==> IsWord(ws[k])
    decreases |s|
  {
    var t := TrimStart(s);
    if t == [] then []
    else
      var w := TakeWord(t);
      var rest := Split(t[|w|..]);
      SplitStep(t, w, rest);
      [w] + rest
  }

  lemma SplitStep(t: string, w: string, rest: seq<string>)
    requires t != [] && !IsSpace(t[0]) && w == TakeWord(t)
    requires forall k :: 0 <= k < |rest| ==> IsWord(rest[k])
    ensures forall k :: 0 <= k < |rest| + 1 ==> IsWord(([w] + rest)[k])
  {
    assert |w| > 0;
    forall k | 0 <= k < |rest| + 1 ensures IsWord(([w] + rest)[k]) {
      if k > 0 { assert ([w] + rest)[k] == rest[k - 1]; }
    }
  }

  /** Python's `sep.join(ws)`. */
  function Join(sep: string, ws: seq<string>): string {
    if ws == [] then []
    else if |ws| == 1 then ws[0]
    else ws[0] + sep + Join(sep, ws[1..])
  }

  /** A joined list starts with its first element. */
  lemma {:induction false} JoinStartsWithFirst(sep: string, ws: seq<string>)
    requires ws != []
    ensures StartsWith(Join(sep, ws), ws[0])
  {
    if |ws| > 1 {
      assert Join(sep, ws) == ws[0] + (sep + Join(sep, ws[1..]));
    }
  }

  lemma {:induction false} TakeWordOfWord(w: string, rest: string)
    requires IsWord(w) && (rest == [] || IsSpace(rest[0]))
    ensures TakeWord(w + rest) == w
    decreases |w|
  {
    if |w| > 1 {
      assert (w + rest)[1..] == w[1..] + rest;
      TakeWordOfWord(w[1..], rest);
    } else {
      assert (w + rest)[1..] == rest;
    }
  }

  lemma SplitLeadingSpace(c: char, s: string)
    requires IsSpace(c)
    ensures Split([c] + s) == Split(s)
  {
    assert ([c] + s)[1..] == s;
  }

  /** Splitting words joined by single spaces gives the words back. */
  lemma {:induction false} SplitJoin(ws: seq<string>)
    requires forall k :: 0 <= k < |ws| ==> IsWord(ws[k])
    ensures Split(Join(" ", ws)) == ws
  {
    if ws == [] {
    } else if |ws| == 1 {
      SplitWord(ws[0]);
    } else {
      assert Join(" ", ws) == ws[0] + " " + Join(" ", ws[1..]);
      SplitWordThen(ws[0], Join(" ", ws[1..]));
      SplitJoin(ws[1..]);
    }
  }

  /** A single word splits into itself. */
  lemma SplitWord(w: string)
    requires IsWord(w)
    ensures Split(w) == [w]
  {
    assert TrimStart(w) == w;
    TakeWordOfWord(w, []);
    assert w + [] == w;
    assert w[|w|..] == [];
  }

  /** A word and a space in front of a text split off as the first word. */
  lemma SplitWordThen(w: string, rest: string)
    requires IsWord(w)
    ensures Split(w + " " + rest) == [w] + Split(rest)
  {
    var s := w + " " + rest;
    assert TrimStart(s) == s;
    assert s == w + (" " + rest);
    TakeWordOfWord(w, " " + rest);
    assert s[|w|..] == [' '] + rest;
    SplitLeadingSpace(' ', rest);
  }

  // ---------------------------------------------------------------- ordering

  /** Python's `a <= b` on strings: lexicographic by code point, a prefix before its extensions. */
  predicate LexLe(a: string, b: string) {
    a == [] || (b != [] && (a[0] < b[0] || (a[0] == b[0] && LexLe(a[1..], b[1..]))))
  }

  lemma {:induction false} LexLeTotal(a: string, b: string)
    ensures LexLe(a, b) || LexLe(b, a)
  {
    if a != [] && b != [] && a[0] == b[0] { LexLeTotal(a[1..], b[1..]); }
  }

  lemma {:induction false} LexLeTrans(a: string, b: string, c: string)
    requires LexLe(a, b) && LexLe(b, c)
    ensures LexLe(a, c)
  {
    if a != [] && b != [] && c != [] && a[0] == b[0] && b[0] == c[0] {
      LexLeTrans(a[1..], b[1..], c[1..]);
    }
  }

  // ---------------------------------------------------------------- slices and numbers

  function Min(a: int, b: int): int { if a <= b then a else b }
  function Max(a: int, b: int): int { if a >= b then a else b }
  function MinR(a: real, b: real): real { if a <= b then a else b }
  function MaxR(a: real, b: real): real { if a >= b then a else b }

  /**
   * Python's prefix slice `s[:k]`: a negative bound counts from the end, and bounds
   * past either end are clamped.
   */
  function PyPrefix<T>(s: seq<T>, k: int): (r: seq<T>)
    ensures |r| <= |s| && r == s[..|r|]
    ensures k >= 0 ==> |r| == Min(k, |s|)
    ensures k < 0 ==> |r| == Max(0, |s| + k)
  {
    if k >= 0 then (if k <= |s| then s[..k] else s)
    else if |s| + k >= 0 then s[..|s| + k]
    else []
  }

  function DigitChar(d: nat): char
    requires d < 10
  {
    ('0' as int + d) as char
  }

  /** Python's `str(n)` for a natural number: its decimal digits, most significant first. */
  function NatToString(n: nat): (s: string)
    ensures |s| >= 1 && forall i :: 0 <= i < |s| ==> IsDigit(s[i])
  {
    if n < 10 then [DigitChar(n)] else NatToString(n / 10) + [DigitChar(n % 10)]
  }

  predicate AllDigits(s: string) {
    forall i :: 0 <= i < |s| ==> IsDigit(s[i])
  }

  /** Python's `int(s)` for a string of decimal digits (leading zeros allowed). */
  function ParseNat(s: string): nat
    requires AllDigits(s)
  {
    if s == [] then 0 else ParseNat(s[..|s| - 1]) * 10 + (s[|s| - 1] as int - '0' as int)
  }

  /** Reading back the decimal text of `n` gives `n`. */
  lemma {:induction false} ParseNatToString(n: nat)
    ensures ParseNat(NatToString(n)) == n
    decreases n
  {
    var s := NatToString(n);
    if n >= 10 {
      ParseNatToString(n / 10);
      assert s[..|s| - 1] == NatToString(n / 10);
    }
  }

  /** Different numbers have different decimal texts. */
  lemma NatToStringInjective(a: nat, b: nat)
    ensures NatToString(a) == NatToString(b) ==> a == b
  {
    ParseNatToString(a);
    ParseNatToString(b);
  }
}
