/**
 * The local memory store of the assistant (backend/memory_manager.py): a list of memory
 * entries and a preferences dictionary, with add, filtered and ordered queries, update of
 * the first entry with an id, delete of every entry with an id, preferences, the context
 * text handed to the language model, and export/import of the whole store.
 *
 * Loading and saving the JSON file is not modelled: the store starts empty, as it does
 * when the file does not exist. Time stamps and generated ids are parameters.
 */
module Memory {
  import opened Wrappers
  import opened Text

  /** One memory entry (the `MemoryEntry` record, as stored in the entry list). */
  datatype Entry = Entry(
    id: string,
    content: string,
    category: string,
    importance: int,
    createdAt: string,
    updatedAt: string)

  const DefaultCategory: string := "general"
  const DefaultImportance: int := 1
  /** Defaults of `get_memories` and `get_context_for_llm`. */
  const DefaultLimit: int := 20
  const DefaultMaxEntries: int := 10

  /**
   * Building a `MemoryEntry`: an empty `createdAt` is replaced by the current time
   * `now`, and an empty `updatedAt` by the (possibly replaced) creation time.
   */
  function NewEntry(id: string, content: string, category: string, importance: int,
                    createdAt: string, updatedAt: string, now: string): (e: Entry)
    ensures e.id == id && e.content == content && e.category == category && e.importance == importance
    ensures createdAt != "" ==> e.createdAt == createdAt
    ensures createdAt == "" ==> e.createdAt == now
    ensures updatedAt != "" ==> e.updatedAt == updatedAt
    ensures updatedAt == "" ==> e.updatedAt == e.createdAt
  {
    var created := if createdAt == "" then now else createdAt;
    Entry(id, content, category, importance, created, if updatedAt == "" then created else updatedAt)
  }

  /** An entry created without time stamps is stamped `now` and counts as updated when created. */
  lemma FreshEntryStamps(id: string, content: string, category: string, importance: int, now: string)
    ensures NewEntry(id, content, category, importance, "", "", now).createdAt == now
    ensures NewEntry(id, content, category, importance, "", "", now).updatedAt == now
  {
  }

  /** `min(max(importance, 1), 5)`. */
  function ClampImportance(importance: int): (r: int)
    ensures 1 <= r <= 5
    ensures 1 <= importance <= 5 ==> r == importance
    ensures importance < 1 ==> r == 1
    ensures importance > 5 ==> r == 5
  {
    Min(Max(importance, 1), 5)
  }

  // ---------------------------------------------------------------- selection

  /** Whether `get_memories` keeps an entry: the category filter applies only to a non-empty category, the importance filter only above 1. */
  predicate Selected(e: Entry, category: Option<string>, minImportance: int): (b: bool)
    ensures (category.None? || category.value == "") && minImportance <= 1 ==> b
    ensures b && category.Some? && category.value != "" ==> e.category == category.value
    ensures b ==> e.importance >= minImportance || minImportance <= 1
    ensures category == Some("") ==> (b <==> minImportance <= 1 || e.importance >= minImportance)
  {
    (category.None? || category.value == "" || e.category == category.value)
    && (minImportance <= 1 || e.importance >= minImportance)
  }

  /** The entries `get_memories` keeps, in store order. */
  function Select(s: seq<Entry>, category: Option<string>, minImportance: int): (r: seq<Entry>)
    ensures |r| <= |s|
    ensures forall e :: e in r ==> Selected(e, category, minImportance)
    ensures forall e :: e in s && Selected(e, category, minImportance) ==> e in r
  {
    if s == [] then []
    else
      var rest := Select(s[1..], category, minImportance);
      assert s == [s[0]] + s[1..];
      if Selected(s[0], category, minImportance) then [s[0]] + rest else rest
  }

  /** Every kept entry is kept at most as often as it is stored. */
  lemma {:induction false} SelectSubMultiset(s: seq<Entry>, category: Option<string>, minImportance: int)
    ensures multiset(Select(s, category, minImportance)) <= multiset(s)
  {
    if s != [] {
      assert s == [s[0]] + s[1..];
      SelectSubMultiset(s[1..], category, minImportance);
    }
  }

  /** The filter works piecewise: the kept entries stay in store order, each as often as it is stored. */
  lemma {:induction false} SelectAppend(a: seq<Entry>, b: seq<Entry>, category: Option<string>, minImportance: int)
    ensures Select(a + b, category, minImportance) == Select(a, category, minImportance) + Select(b, category, minImportance)
  {
    if a != [] {
      assert (a + b)[0] == a[0];
      assert (a + b)[1..] == a[1..] + b;
      SelectAppend(a[1..], b, category, minImportance);
      SelectCons(a + b, category, minImportance);
      SelectCons(a, category, minImportance);
    } else {
      assert a + b == b;
    }
  }

  /** One step of the filter: the head is kept or not, then the rest is filtered. */
  lemma SelectCons(s: seq<Entry>, category: Option<string>, minImportance: int)
    requires s != []
    ensures Select(s, category, minImportance)
            == (if Selected(s[0], category, minImportance) then [s[0]] else []) + Select(s[1..], category, minImportance)
  {
  }

  /** One entry is kept exactly when it passes the filters. */
  lemma SelectOne(e: Entry, category: Option<string>, minImportance: int)
    ensures Select([e], category, minImportance) == if Selected(e, category, minImportance) then [e] else []
  {
  }

  // ---------------------------------------------------------------- ordering

  /**
   * The order of `get_memories`: by the key `(-importance, updated_at)` ascending, that is,
   * higher importance first and, among equal importance, the OLDER update first.
   */
  predicate KeyLe(a: Entry, b: Entry): (le: bool)
    ensures a.importance > b.importance ==> le
    ensures le ==> a.importance >= b.importance
    ensures a.importance == b.importance && a.updatedAt == b.updatedAt ==> le
  {
    LexLeTotal(a.updatedAt, a.updatedAt);
    a.importance > b.importance || (a.importance == b.importance && LexLe(a.updatedAt, b.updatedAt))
  }

  predicate SameKey(a: Entry, b: Entry) {
    a.importance == b.importance && a.updatedAt == b.updatedAt
  }

  lemma KeyLeTotal(a: Entry, b: Entry)
    ensures KeyLe(a, b) || KeyLe(b, a)
  {
    LexLeTotal(a.updatedAt, b.updatedAt);
  }

  lemma KeyLeTrans(a: Entry, b: Entry, c: Entry)
    requires KeyLe(a, b) && KeyLe(b, c)
    ensures KeyLe(a, c)
  {
    if a.importance == b.importance == c.importance {
      LexLeTrans(a.updatedAt, b.updatedAt, c.updatedAt);
    }
  }

  lemma {:induction false} LexLeRefl(a: string)
    ensures LexLe(a, a)
  {
    if a != [] { LexLeRefl(a[1..]); }
  }

  predicate Sorted(s: seq<Entry>) {
    forall i, j :: 0 <= i < j < |s| ==> KeyLe(s[i], s[j])
  }

  /** Inserting `e` in front of the first element it does not come after (which keeps the sort stable). */
  function InsertByKey(e: Entry, s: seq<Entry>): (r: seq<Entry>)
    ensures |r| == |s| + 1
    ensures multiset(r) == multiset(s) + multiset{e}
  {
    if s == [] then [e]
    else if KeyLe(e, s[0]) then [e] + s
    else
      assert s == [s[0]] + s[1..];
      [s[0]] + InsertByKey(e, s[1..])
  }

  lemma {:induction false} InsertSorted(e: Entry, s: seq<Entry>)
    requires Sorted(s)
    ensures Sorted(InsertByKey(e, s))
  {
    if s == [] {
    } else if KeyLe(e, s[0]) {
      forall j | 0 <= j < |s| ensures KeyLe(e, s[j]) {
        if j > 0 { KeyLeTrans(e, s[0], s[j]); }
      }
      ConsSorted(e, s);
    } else {
      KeyLeTotal(e, s[0]);
      var t := InsertByKey(e, s[1..]);
      InsertSorted(e, s[1..]);
      HeadBelowInsert(e, s);
      ConsSorted(s[0], t);
      assert InsertByKey(e, s) == [s[0]] + t;
    }
  }

  /** A sorted sequence stays sorted with an element in front that comes before all of it. */
  lemma ConsSorted(x: Entry, t: seq<Entry>)
    requires Sorted(t)
    requires forall j :: 0 <= j < |t| ==> KeyLe(x, t[j])
    ensures Sorted([x] + t)
  {
    var r := [x] + t;
    forall i, j | 0 <= i < j < |r| ensures KeyLe(r[i], r[j]) {
      assert r[j] == t[j - 1];
      if i > 0 { assert r[i] == t[i - 1]; }
    }
  }

  /** The head of a sorted sequence comes before everything in the rest with `e` inserted, when it comes before `e`. */
  lemma HeadBelowInsert(e: Entry, s: seq<Entry>)
    requires Sorted(s) && s != [] && KeyLe(s[0], e)
    ensures forall j :: 0 <= j < |InsertByKey(e, s[1..])| ==> KeyLe(s[0], InsertByKey(e, s[1..])[j])
  {
    var t := InsertByKey(e, s[1..]);
    forall j | 0 <= j < |t| ensures KeyLe(s[0], t[j]) {
      assert t[j] in multiset(t);
      assert t[j] in multiset(s[1..]) + multiset{e};
      if t[j] != e {
        assert t[j] in s[1..];
        var k :| 0 <= k < |s[1..]| && s[1..][k] == t[j];
        assert s[k + 1] == t[j];
      }
    }
  }

  /** Python's stable `sorted` by the key `(-importance, updated_at)`, as an insertion sort. */
  function SortByKey(s: seq<Entry>): (r: seq<Entry>)
    ensures |r| == |s|
    ensures multiset(r) == multiset(s)
    ensures Sorted(r)
  {
    if s == [] then []
    else
      var rest := SortByKey(s[1..]);
      InsertSorted(s[0], rest);
      assert s == [s[0]] + s[1..];
      InsertByKey(s[0], rest)
  }

  /** The entries that share the sort key `(importance, updatedAt)`, in order. */
  function KeyClass(s: seq<Entry>, importance: int, updatedAt: string): seq<Entry> {
    if s == [] then []
    else
      var rest := KeyClass(s[1..], importance, updatedAt);
      if s[0].importance == importance && s[0].updatedAt == updatedAt then [s[0]] + rest else rest
  }

  lemma {:induction false} InsertKeyClass(e: Entry, s: seq<Entry>, importance: int, updatedAt: string)
    ensures KeyClass(InsertByKey(e, s), importance, updatedAt)
         == (if e.importance == importance && e.updatedAt == updatedAt
             then [e] + KeyClass(s, importance, updatedAt)
             else KeyClass(s, importance, updatedAt))
  {
    if s == [] || KeyLe(e, s[0]) {
      assert InsertByKey(e, s)[1..] == s;
    } else {
      var r := InsertByKey(e, s);
      assert r[1..] == InsertByKey(e, s[1..]);
      InsertKeyClass(e, s[1..], importance, updatedAt);
      if e.importance == importance && e.updatedAt == updatedAt {
        LexLeRefl(e.updatedAt);
        assert !(s[0].importance == importance && s[0].updatedAt == updatedAt);
      }
    }
  }

  /** The sort is stable: entries with equal keys keep their store order. */
  lemma {:induction false} SortStable(s: seq<Entry>, importance: int, updatedAt: string)
    ensures KeyClass(SortByKey(s), importance, updatedAt) == KeyClass(s, importance, updatedAt)
  {
    if s != [] {
      SortStable(s[1..], importance, updatedAt);
      InsertKeyClass(s[0], SortByKey(s[1..]), importance, updatedAt);
    }
  }

  // ---------------------------------------------------------------- store operations

  /** Removing every entry with the id, keeping the others in order. */
  function RemoveId(s: seq<Entry>, id: string): (r: seq<Entry>)
    ensures |r| <= |s|
    ensures forall e :: e in r <==> e in s && e.id != id
    ensures (forall e :: e in s ==> e.id != id) ==> r == s
  {
    if s == [] then []
    else
      var rest := RemoveId(s[1..], id);
      assert s == [s[0]] + s[1..];
      if s[0].id == id then rest else [s[0]] + rest
  }

  /** Removal works piecewise, so the order of the kept entries is the store order. */
  lemma {:induction false} RemoveIdAppend(s1: seq<Entry>, s2: seq<Entry>, id: string)
    ensures RemoveId(s1 + s2, id) == RemoveId(s1, id) + RemoveId(s2, id)
  {
    if s1 != [] {
      assert (s1 + s2)[0] == s1[0];
      assert (s1 + s2)[1..] == s1[1..] + s2;
      RemoveIdAppend(s1[1..], s2, id);
    } else {
      assert s1 + s2 == s2;
    }
  }

  /** Deleting twice deletes nothing more. */
  lemma RemoveIdIdempotent(s: seq<Entry>, id: string)
    ensures RemoveId(RemoveId(s, id), id) == RemoveId(s, id)
  {
  }

  /** The index of the first entry with the id. */
  function FirstIndex(s: seq<Entry>, id: string): (r: Option<nat>)
    ensures r.Some? ==> r.value < |s| && s[r.value].id == id
                        && forall k :: 0 <= k < r.value ==> s[k].id != id
    ensures r.None? ==> forall k :: 0 <= k < |s| ==> s[k].id != id
  {
    if s == [] then None
    else if s[0].id == id then Some(0)
    else match FirstIndex(s[1..], id)
      case None => None
      case Some(k) => Some(k + 1)
  }

  /** The entry list after `update_memory`: only the first entry with the id gets the new content and time stamp. */
  function UpdateFirst(s: seq<Entry>, id: string, content: string, now: string): (r: seq<Entry>)
    ensures |r| == |s|
    ensures FirstIndex(s, id).None? ==> r == s
    ensures FirstIndex(s, id).Some? ==>
              var i := FirstIndex(s, id).value;
              r[i].content == content && r[i].updatedAt == now
              && r[i] == s[i].(content := content, updatedAt := now)
              && forall k :: 0 <= k < |s| && k != i ==> r[k] == s[k]
  {
    match FirstIndex(s, id)
    case None => s
    case Some(i) => s[i := s[i].(content := content, updatedAt := now)]
  }

  /** The category marker of a context line; unknown categories get the memo marker. */
  function CategoryEmoji(category: string): (r: string)
    ensures r == "\U{1F4DD}" <==> category !in {"work_style", "preferences", "facts", "context"}
  {
    if category == "work_style" then "\U{1F4BC}"
    else if category == "preferences" then "\U{2B50}"
    else if category == "facts" then "\U{1F4CC}"
    else if category == "context" then "\U{1F4AD}"
    else "\U{1F4DD}"
  }

  const ContextHeader: string := "Användarkontext (saker jag minns om användaren):"

  /** `f"{category_emoji} {content}"`: the marker, a space, and the entry's content. */
  function ContextLine(e: Entry): (r: string)
    ensures StartsWith(r, CategoryEmoji(e.category) + " ")
    ensures |r| == |CategoryEmoji(e.category)| + 1 + |e.content|
    ensures r[|CategoryEmoji(e.category)| + 1..] == e.content
  {
    CategoryEmoji(e.category) + " " + e.content
  }

  function ContextLines(s: seq<Entry>): (r: seq<string>)
    ensures |r| == |s|
    ensures forall i :: 0 <= i < |s| ==> r[i] == ContextLine(s[i])
  {
    seq(|s|, i requires 0 <= i < |s| => ContextLine(s[i]))
  }

  /** What `export_memory` returns. */
  datatype Export<V> = Export(version: int, entries: seq<Entry>, preferences: map<string, V>, exportedAt: string)

  /** What `import_memory` reads: either key may be absent. */
  datatype ImportData<V> = ImportData(entries: Option<seq<Entry>>, preferences: Option<map<string, V>>)

  /** A backup read back for import. */
  function AsImport<V>(x: Export<V>): ImportData<V> {
    ImportData(Some(x.entries), Some(x.preferences))
  }

  class MemoryManager<V> {
    var entries: seq<Entry>
    var preferences: map<string, V>
    const version: int

    /** A manager over a fresh store (no memory file yet). */
    constructor ()
      ensures entries == [] && preferences == map[] && version == 1
    {
      entries := [];
      preferences := map[];
      version := 1;
    }

    /** `add_memory`: appends one stamped entry with clamped importance and returns its id. */
    method AddMemory(id: string, content: string, category: string, importance: int, now: string)
      returns (entryId: string)
      modifies this
      ensures entryId == id
      ensures |entries| == |old(entries)| + 1
      ensures entries[..|old(entries)|] == old(entries)
      ensures entries[|old(entries)|]
              == NewEntry(id, content, category, ClampImportance(importance), "", "", now)
      ensures 1 <= entries[|old(entries)|].importance <= 5
      ensures entries[|old(entries)|].updatedAt == entries[|old(entries)|].createdAt
      ensures preferences == old(preferences)
    {
      var entry := NewEntry(id, content, category, ClampImportance(importance), "", "", now);
      entries := entries + [entry];
      entryId := id;
    }

    /**
     * `get_memories`: the selected entries, ordered by importance (high first) and then
     * by update time (old first), at most `limit` of them when `limit` is not negative.
     */
    function GetMemories(category: Option<string>, limit: int, minImportance: int): (r: seq<Entry>)
      reads this
      ensures QueryAnswer(entries, category, limit, minImportance, r)
    {
      var r := PyPrefix(SortByKey(Select(entries, category, minImportance)), limit);
      QueryFacts(entries, category, limit, minImportance, r);
      r
    }

    /** `get_preference`: the stored value, or `default` when the key is absent. */
    function GetPreference(key: string, default: V): (r: V)
      reads this
      ensures key in preferences ==> r == preferences[key]
      ensures key !in preferences ==> r == default
    {
      if key in preferences then preferences[key] else default
    }

    /**
     * `get_context_for_llm`: empty when no entry of importance 2 or more is selected;
     * otherwise the header followed by one line per selected entry.
     */
    function GetContextForLlm(maxEntries: int): (r: string)
      reads this
      ensures (forall e :: e in entries ==> e.importance < 2) ==> r == ""
      ensures maxEntries > 0 && (exists e :: e in entries && e.importance >= 2) ==>
                r != "" && StartsWith(r, ContextHeader)
      ensures r == "" <==> GetMemories(None, maxEntries, 2) == []
      ensures GetMemories(None, maxEntries, 2) != [] ==>
                r == Join("\n", [ContextHeader] + ContextLines(GetMemories(None, maxEntries, 2)))
    {
      var memories := GetMemories(None, maxEntries, 2);
      ContextSelection(entries, maxEntries);
      if memories == [] then ""
      else
        var lines := [ContextHeader] + ContextLines(memories);
        JoinStartsWithFirst("\n", lines);
        Join("\n", lines)
    }

    /** `export_memory`: the version, the entries, the preferences and the export time. */
    function ExportMemory(now: string): (r: Export<V>)
      reads this
      ensures r.entries == entries && r.preferences == preferences && r.version == version
    {
      Export(version, entries, preferences, now)
    }

    /** `update_memory`: only the first entry with the id changes; an unknown id changes nothing. */
    method UpdateMemory(memoryId: string, content: string, now: string)
      modifies this
      ensures entries == UpdateFirst(old(entries), memoryId, content, now)
      ensures preferences == old(preferences)
    {
      var i := 0;
      while i < |entries|
        invariant 0 <= i <= |entries|
        invariant entries == old(entries) && preferences == old(preferences)
        invariant forall k :: 0 <= k < i ==> entries[k].id != memoryId
      {
        if entries[i].id == memoryId {
          entries := entries[i := entries[i].(content := content, updatedAt := now)];
          return;
        }
        i := i + 1;
      }
    }

    /** `delete_memory`: removes every entry with the id. */
    method DeleteMemory(memoryId: string)
      modifies this
      ensures entries == RemoveId(old(entries), memoryId)
      ensures preferences == old(preferences)
    {
      entries := RemoveId(entries, memoryId);
    }

    /** `set_preference`. */
    method SetPreference(key: string, value: V)
      modifies this
      ensures preferences == old(preferences)[key := value]
      ensures entries == old(entries)
    {
      preferences := preferences[key := value];
    }

    /** `import_memory`: replaces entries and preferences; an absent key gives an empty one. */
    method ImportMemory(data: ImportData<V>)
      modifies this
      ensures entries == data.entries.GetOr([])
      ensures preferences == data.preferences.GetOr(map[])
    {
      entries := data.entries.GetOr([]);
      preferences := data.preferences.GetOr(map[]);
    }
  }

  /**
   * What `get_memories` promises of its answer `r` over the store `s`: selected entries, at
   * most as often as stored, sorted by the key, as many as the Python slice `[:limit]`
   * leaves, and none of them ranking after a selected entry that was cut.
   */
  ghost predicate QueryAnswer(s: seq<Entry>, category: Option<string>, limit: int, minImportance: int, r: seq<Entry>) {
    && multiset(r) <= multiset(s)
    && (forall e :: e in r ==> Selected(e, category, minImportance))
    && Sorted(r)
    && |r| == (if limit >= 0 then Min(limit, |Select(s, category, minImportance)|)
               else Max(0, |Select(s, category, minImportance)| + limit))
    && (forall i, e :: 0 <= i < |r| && e in multiset(Select(s, category, minImportance)) - multiset(r)
          ==> KeyLe(r[i], e))
  }

  lemma QueryFacts(s: seq<Entry>, category: Option<string>, limit: int, minImportance: int, r: seq<Entry>)
    requires r == PyPrefix(SortByKey(Select(s, category, minImportance)), limit)
    ensures QueryAnswer(s, category, limit, minImportance, r)
  {
    var selected := Select(s, category, minImportance);
    SelectSubMultiset(s, category, minImportance);
    var sorted := SortByKey(selected);
    PrefixOfSorted(sorted, |r|);
    assert r == sorted[..|r|];
    assert multiset(r) <= multiset(s) by {
      assert multiset(r) <= multiset(sorted);
    }
    forall e | e in r ensures Selected(e, category, minImportance) {
      assert e in multiset(sorted);
      assert e in selected;
    }
    assert |r| == (if limit >= 0 then Min(limit, |selected|) else Max(0, |selected| + limit)) by {
      assert |sorted| == |selected|;
    }
  }

  /**
   * A prefix of a sorted list is a sorted sub-multiset of it, and every element of the
   * prefix comes no later than every element left out.
   */
  lemma PrefixOfSorted(s: seq<Entry>, n: nat)
    requires Sorted(s) && n <= |s|
    ensures multiset(s[..n]) <= multiset(s)
    ensures forall e :: e in s[..n] ==> e in s
    ensures Sorted(s[..n])
    ensures forall i, e :: 0 <= i < n && e in multiset(s) - multiset(s[..n]) ==> KeyLe(s[i], e)
  {
    assert s == s[..n] + s[n..];
    assert multiset(s) - multiset(s[..n]) == multiset(s[n..]);
    forall i, e | 0 <= i < n && e in multiset(s) - multiset(s[..n]) ensures KeyLe(s[i], e) {
      assert e in s[n..];
      var k :| 0 <= k < |s[n..]| && s[n..][k] == e;
      assert s[n + k] == e;
    }
  }

  /** The context has entries exactly when some entry has importance 2 or more (and the limit is positive). */
  lemma ContextSelection(entries: seq<Entry>, maxEntries: int)
    ensures (forall e :: e in entries ==> e.importance < 2) ==> Select(entries, None, 2) == []
    ensures maxEntries > 0 && (exists e :: e in entries && e.importance >= 2) ==>
              Min(maxEntries, |Select(entries, None, 2)|) > 0
  {
    var sel := Select(entries, None, 2);
    if sel != [] {
      SelectSubMultiset(entries, None, 2);
      assert sel[0] in multiset(entries);
    }
    if e :| e in entries && e.importance >= 2 {
      assert Selected(e, None, 2);
      assert e in sel;
    }
  }

  /**
   * A backup imported again restores the store: after `import_memory(export_memory())` the
   * manager holds the same entries and preferences as before (the version is fixed).
   */
  method ExportImportRoundTrip<V>(m: MemoryManager<V>, now: string)
    modifies m
    ensures m.entries == old(m.entries) && m.preferences == old(m.preferences)
  {
    var backup := m.ExportMemory(now);
    m.ImportMemory(AsImport(backup));
  }
}
