/** Grounded search: every answer, fresh or cached, is made of sections of the shipped
    snapshot; the cache is bounded and forgets what is too old. */
module KnowledgeSearch {
  import opened Options
  import opened Text

  type Id = string

  const CACHE_TTL: int := 1800
  const CACHE_MAX := 256
  const MAX_PAGE_SIZE := 5

  /** The grounded fields of a stored section. */
  datatype Section = Section(docId: string, sectionId: string, shortTitle: string, snapshotId: string, textSpan: string)

  datatype Snippet = Snippet(
    citeKey: Id, snapshotId: string, docId: string, sectionId: string, citation: string, textSpan: string)

  /** One result of the service: without a document, or with an id and perhaps fields, of
      which those with text values are kept. */
  datatype Hit = NoDocument | Found(id: Id, fields: Option<map<string, string>>)

  datatype Key = Key(query: string, size: nat, snapshotId: string)
  datatype Slot = Slot(key: Key, at: int, snippets: seq<Snippet>)

  datatype Answer = Unavailable | Answered(snippets: seq<Snippet>, cacheHit: bool)

  function Clamp(pageSize: int): (size: nat)
    ensures 1 <= size <= MAX_PAGE_SIZE
    ensures 1 <= pageSize <= MAX_PAGE_SIZE ==> size == pageSize
  {
    if pageSize < 1 then 1 else if pageSize > MAX_PAGE_SIZE then MAX_PAGE_SIZE else pageSize
  }

  function StripLeft(s: string): string {
    if s != "" && IsSpace(s[0] as int) then StripLeft(s[1..]) else s
  }

  function StripRight(s: string): string {
    if s != "" && IsSpace(s[|s| - 1] as int) then StripRight(s[..|s| - 1]) else s
  }

  function FormatCitation(shortTitle: string, sectionId: string, snapshotId: string): string {
    shortTitle + " \U{A7}" + sectionId + " (snapshot " + snapshotId + ")"
  }

  /** The snippet of a shipped section. */
  function SnippetOf(id: Id, s: Section): Snippet {
    Snippet(id, s.snapshotId, s.docId, s.sectionId, FormatCitation(s.shortTitle, s.sectionId, s.snapshotId), s.textSpan)
  }

  predicate Present(fields: map<string, string>, name: string) {
    name in fields && !IsBlank(fields[name])
  }

  /** The section a result claims to be, if it has all grounded fields. */
  function Claimed(fields: map<string, string>): Option<Section> {
    if Present(fields, "doc_id") && Present(fields, "section_id") && Present(fields, "short_title")
       && Present(fields, "snapshot_id") && Present(fields, "text_span")
    then Some(Section(fields["doc_id"], fields["section_id"], fields["short_title"], fields["snapshot_id"],
                      fields["text_span"]))
    else None
  }

  /** A result as a snippet, built from the response and only if it is a shipped section. */
  function GroundedSnippet(id: Id, fields: Option<map<string, string>>, records: map<Id, Section>): (r: Option<Snippet>)
    ensures r.Some? ==> id in records && r.value == SnippetOf(id, records[id])
  {
    if fields.None? then None
    else
      var claimed := Claimed(fields.value);
      if claimed.None? || id !in records || claimed.value != records[id] then None
      else Some(SnippetOf(id, claimed.value))
  }

  /** The fields say of `name` what the section says, and that is not blank. */
  predicate Says(fields: map<string, string>, name: string, value: string) {
    name in fields && fields[name] == value && !IsBlank(value)
  }

  /** A result is taken exactly when the shipped snapshot has its id and every grounded field
      says the same there: one from another snapshot, or changed in any field, is not. */
  lemma GroundedExactly(id: Id, fields: map<string, string>, records: map<Id, Section>)
    ensures GroundedSnippet(id, None, records).None?
    ensures GroundedSnippet(id, Some(fields), records).Some? <==>
      && id in records
      && var s := records[id];
      && Says(fields, "doc_id", s.docId) && Says(fields, "section_id", s.sectionId)
      && Says(fields, "short_title", s.shortTitle) && Says(fields, "snapshot_id", s.snapshotId)
      && Says(fields, "text_span", s.textSpan)
  {
    hide IsBlank;
  }

  predicate AllSpace(s: string, from: nat, to: nat)
    requires to <= |s|
  {
    forall k :: from <= k < to ==> IsSpace(s[k] as int)
  }

  lemma {:induction false} LeftStripped(s: string, i: nat)
    requires i <= |s| && AllSpace(s, 0, i) && (i < |s| ==> !IsSpace(s[i] as int))
    ensures StripLeft(s) == s[i..]
  {
    if i > 0 {
      LeftStripped(s[1..], i - 1);
      assert s[1..][i - 1..] == s[i..];
    }
  }

  lemma {:induction false} RightStripped(s: string, j: nat)
    requires j <= |s| && AllSpace(s, j, |s|) && (j > 0 ==> !IsSpace(s[j - 1] as int))
    ensures StripRight(s) == s[..j]
  {
    var n := |s| - 1;
    if j < |s| {
      RightStripped(s[..n], j);
      assert s[..n][..j] == s[..j];
    } else {
      assert s[..j] == s;
    }
  }

  /** The core of a query: between white space, and itself free of it at both ends. */
  predicate IsCore(query: string, i: nat, j: nat) {
    && i <= j <= |query| && AllSpace(query, 0, i) && AllSpace(query, j, |query|)
    && (i < j ==> !IsSpace(query[i] as int) && !IsSpace(query[j - 1] as int))
  }

  lemma StrippedIsCore(query: string, i: nat, j: nat)
    requires IsCore(query, i, j)
    ensures StripRight(StripLeft(query)) == query[i..j]
  {
    hide StripLeft, StripRight;
    if i < j {
      LeftStripped(query, i);
      RightStripped(query[i..], j - i);
    } else {
      LeftStripped(query, |query|);
      RightStripped("", 0);
    }
  }

  /** Every query has a core. */
  lemma HasCore(query: string) returns (i: nat, j: nat)
    ensures IsCore(query, i, j)
  {
    i := 0;
    while i < |query| && IsSpace(query[i] as int)
      invariant i <= |query| && AllSpace(query, 0, i)
    {
      i := i + 1;
    }
    j := |query|;
    while j > i && IsSpace(query[j - 1] as int)
      invariant i <= j <= |query| && AllSpace(query, j, |query|)
    {
      j := j - 1;
    }
  }

  /** Distinct sections of the shipped snapshot, no more than asked for. */
  predicate Grounded(snippets: seq<Snippet>, size: nat, records: map<Id, Section>) {
    && |snippets| <= size
    && (forall i, j :: 0 <= i < j < |snippets| ==> snippets[i].citeKey != snippets[j].citeKey)
    && forall s <- snippets :: s.citeKey in records && s == SnippetOf(s.citeKey, records[s.citeKey])
  }

  /** Where a key is cached. */
  function IndexOf(cache: seq<Slot>, key: Key): (r: Option<nat>)
    ensures r.Some? ==> r.value < |cache| && cache[r.value].key == key
    ensures r.None? ==> forall s <- cache :: s.key != key
  {
    if cache == [] then None
    else
      var n := |cache| - 1;
      if cache[n].key == key then Some(n) else IndexOf(cache[..n], key)
  }

  function Without(cache: seq<Slot>, key: Key): seq<Slot> {
    if cache == [] then []
    else
      var n := |cache| - 1;
      Without(cache[..n], key) + if cache[n].key == key then [] else [cache[n]]
  }

  predicate UniqueKeys(cache: seq<Slot>) {
    forall i, j :: 0 <= i < j < |cache| ==> cache[i].key != cache[j].key
  }

  predicate OldestFirst(cache: seq<Slot>) {
    forall i, j :: 0 <= i < j < |cache| ==> cache[i].at <= cache[j].at
  }

  /** What the service last answered under a key. */
  ghost predicate LastAnswer(log: seq<Slot>, slot: Slot) {
    exists i :: 0 <= i < |log| && log[i] == slot && forall j :: i < j < |log| ==> log[j].key != slot.key
  }

  ghost predicate CacheOk(cache: seq<Slot>, log: seq<Slot>, now: int, records: map<Id, Section>) {
    && |cache| <= CACHE_MAX && UniqueKeys(cache) && OldestFirst(cache)
    && forall s <- cache :: s.at <= now && Grounded(s.snippets, s.key.size, records) && LastAnswer(log, s)
  }

  lemma {:induction false} WithoutHolds(cache: seq<Slot>, key: Key)
    ensures forall s :: s in Without(cache, key) <==> s in cache && s.key != key
    ensures |Without(cache, key)| <= |cache|
  {
    if cache != [] {
      var n := |cache| - 1;
      WithoutHolds(cache[..n], key);
      assert cache == cache[..n] + [cache[n]];
    }
  }

  lemma {:induction false} WithoutKeepsOrder(cache: seq<Slot>, key: Key)
    requires UniqueKeys(cache) && OldestFirst(cache)
    ensures UniqueKeys(Without(cache, key)) && OldestFirst(Without(cache, key))
  {
    if cache != [] {
      var n := |cache| - 1;
      WithoutKeepsOrder(cache[..n], key);
      WithoutHolds(cache[..n], key);
      var rest := Without(cache[..n], key);
      forall k | 0 <= k < |rest| ensures rest[k].key != cache[n].key && rest[k].at <= cache[n].at {
        assert rest[k] in cache[..n];
      }
    }
  }

  /** A slot newer than all others goes to the end. */
  lemma GrownInOrder(cache: seq<Slot>, slot: Slot)
    requires UniqueKeys(cache) && OldestFirst(cache) && forall s <- cache :: s.key != slot.key && s.at <= slot.at
    ensures UniqueKeys(cache + [slot]) && OldestFirst(cache + [slot])
    ensures UniqueKeys((cache + [slot])[1..]) && OldestFirst((cache + [slot])[1..])
  {
  }

  lemma StoreKeeps(cache: seq<Slot>, log: seq<Slot>, now: int, records: map<Id, Section>, slot: Slot)
    requires CacheOk(cache, log, now, records) && now <= slot.at && Grounded(slot.snippets, slot.key.size, records)
    ensures var grown := Without(cache, slot.key) + [slot];
      var kept := if |grown| > CACHE_MAX then grown[1..] else grown;
      && CacheOk(kept, log + [slot], slot.at, records)
      && kept[|kept| - 1] == slot
      && (forall s <- kept :: s == slot || (s in cache && s.key != slot.key))
      && (forall s <- cache :: s.key != slot.key && s !in kept ==>
            |cache| == CACHE_MAX && s == grown[0] && forall o <- cache :: o.key != slot.key ==> s.at <= o.at)
  {
    hide Grounded, Without, UniqueKeys, OldestFirst;
    var others := Without(cache, slot.key);
    WithoutHolds(cache, slot.key);
    WithoutKeepsOrder(cache, slot.key);
    GrownInOrder(others, slot);
    forall s <- others ensures LastAnswer(log + [slot], s) {
      var i :| 0 <= i < |log| && log[i] == s && forall j :: i < j < |log| ==> log[j].key != s.key;
      assert (log + [slot])[i] == s;
    }
    assert (log + [slot])[|log|] == slot;
    assert LastAnswer(log + [slot], slot);
    OldestGoes(others, slot);
  }

  lemma OldestGoes(others: seq<Slot>, slot: Slot)
    requires OldestFirst(others)
    ensures var grown := others + [slot]; var kept := if |grown| > CACHE_MAX then grown[1..] else grown;
      && kept[|kept| - 1] == slot && (forall s <- kept :: s == slot || s in others)
      && (forall s <- others :: s !in kept ==>
            |others| >= CACHE_MAX && s == grown[0] && forall o <- others :: s.at <= o.at)
  {
    var grown := others + [slot];
    assert forall k :: 0 <= k < |others| ==> grown[k] == others[k];
    assert forall k :: 1 <= k < |grown| ==> grown[1..][k - 1] == grown[k];
  }

  lemma {:induction false} WithoutAbsent(cache: seq<Slot>, key: Key)
    requires forall s <- cache :: s.key != key
    ensures Without(cache, key) == cache
  {
    if cache != [] {
      var n := |cache| - 1;
      assert cache[n] in cache;
      WithoutAbsent(cache[..n], key);
      assert cache == cache[..n] + [cache[n]];
    }
  }

  lemma WithoutIsNoLonger(cache: seq<Slot>, log: seq<Slot>, now: int, records: map<Id, Section>, key: Key)
    requires CacheOk(cache, log, now, records)
    ensures |Without(cache, key)| <= CACHE_MAX
  {
    WithoutHolds(cache, key);
  }

  /** Where an id first appears. */
  function FirstAt(results: seq<Hit>, id: Id): nat {
    if results == [] then 0 else if results[0].Found? && results[0].id == id then 0 else 1 + FirstAt(results[1..], id)
  }

  /** Snippets in the order in which the service's results first name them. */
  predicate InServiceOrder(snippets: seq<Snippet>, results: seq<Hit>) {
    forall i, j :: 0 <= i < j < |snippets| ==>
      FirstAt(results, snippets[i].citeKey) < FirstAt(results, snippets[j].citeKey)
  }

  lemma {:induction false} FirstAtIs(results: seq<Hit>, i: nat)
    requires i < |results| && results[i].Found? && results[i].id !in Ids(results[..i])
    ensures FirstAt(results, results[i].id) == i
  {
    if i > 0 {
      assert results[..i][0] == results[0] && results[0] in results[..i];
      assert results[1..][..i - 1] == results[..i][1..];
      FirstAtIs(results[1..], i - 1);
    }
  }

  function CiteKeys(snippets: seq<Snippet>): set<Id> {
    set s | s in snippets :: s.citeKey
  }

  function Ids(results: seq<Hit>): set<Id> {
    set h | h in results && h.Found? :: h.id
  }

  /** A result with a document whose id came before is skipped; the first one with an id
      has to be a shipped section. */
  predicate Acceptable(results: seq<Hit>, i: nat, records: map<Id, Section>)
    requires i < |results|
  {
    && results[i].Found?
    && (results[i].id in Ids(results[..i]) || GroundedSnippet(results[i].id, results[i].fields, records).Some?)
  }

  lemma IdsStep(results: seq<Hit>, i: nat)
    requires i < |results|
    ensures Ids(results[..i + 1]) == Ids(results[..i]) + if results[i].Found? then {results[i].id} else {}
  {
    assert results[..i + 1] == results[..i] + [results[i]];
  }

  lemma SnippetHasId(id: Id, fields: Option<map<string, string>>, records: map<Id, Section>)
    ensures var r := GroundedSnippet(id, fields, records);
      r.Some? ==> r.value.citeKey == id && id in records && r.value == SnippetOf(id, records[id])
  {
  }

  class Knowledge {
    const snapshotId: string
    const records: map<Id, Section>
    var cache: seq<Slot>
    var now: int

    /** What the service ever answered, in order. */
    ghost var log: seq<Slot>

    ghost predicate Valid()
      reads this
    {
      CacheOk(cache, log, now, records)
    }

    constructor (snapshotId: string, records: map<Id, Section>, now: int)
      ensures Valid() && this.records == records && this.snapshotId == snapshotId && cache == [] && log == []
    {
      this.snapshotId, this.records, this.now := snapshotId, records, now;
      cache, log := [], [];
    }

    /** A cached answer that is not too old; an old one is dropped. */
    method Cached(key: Key, clock: int) returns (r: Option<seq<Snippet>>)
      requires Valid() && now <= clock
      modifies this`cache, this`now
      ensures Valid() && now == clock
      ensures r.Some? <==> exists s <- old(cache) :: s.key == key && clock - s.at < CACHE_TTL
      ensures r.Some? ==> cache == old(cache)
      ensures r.None? ==> cache == Without(old(cache), key)
      ensures r.Some? ==>
                exists s <- old(cache) ::
                  s.key == key && s.snippets == r.value && clock - s.at < CACHE_TTL && LastAnswer(log, s)
    {
      now := clock;
      var found := IndexOf(cache, key);
      if found.None? {
        WithoutAbsent(cache, key);
        return None;
      }
      var entry := cache[found.value];
      if clock - entry.at >= CACHE_TTL {
        WithoutHolds(cache, key);
        WithoutKeepsOrder(cache, key);
        cache := Without(cache, key);
        return None;
      }
      return Some(entry.snippets);
    }

    /** Stores an answer as the newest; when there are too many the oldest goes. */
    method Store(key: Key, snippets: seq<Snippet>, clock: int)
      requires Valid() && now <= clock && Grounded(snippets, key.size, records)
      modifies this`cache, this`now, this`log
      ensures Valid() && now == clock && log == old(log) + [Slot(key, clock, snippets)]
      ensures var grown := Without(old(cache), key) + [Slot(key, clock, snippets)];
        cache == if |grown| > CACHE_MAX then grown[1..] else grown
    {
      hide Grounded, Without, CacheOk;
      var slot := Slot(key, clock, snippets);
      StoreKeeps(cache, log, now, records, slot);
      WithoutIsNoLonger(cache, log, now, records, key);
      cache := Without(cache, key) + [slot];
      now := clock;
      log := log + [slot];
      ghost var grown := cache;
      while |cache| > CACHE_MAX
        invariant now == clock && log == old(log) + [slot]
        invariant cache == grown || (|grown| == CACHE_MAX + 1 && cache == grown[1..])
        decreases |cache|
      {
        cache := cache[1..];
      }
    }

    /** The snippets of a result page, duplicates skipped; nothing if any result is not grounded. */
    method Collect(results: seq<Hit>, size: nat) returns (r: Option<seq<Snippet>>)
      requires |results| <= size
      ensures r.Some? ==> Grounded(r.value, size, records)
      ensures r.Some? <==> forall i :: 0 <= i < |results| ==> Acceptable(results, i, records)
      ensures r.Some? ==> CiteKeys(r.value) == Ids(results) && InServiceOrder(r.value, results)
    {
      hide GroundedSnippet, FirstAt;
      var snippets: seq<Snippet> := [];
      var seen: set<Id> := {};
      for i := 0 to |results|
        invariant |snippets| <= i && Grounded(snippets, size, records)
        invariant seen == CiteKeys(snippets) == Ids(results[..i])
        invariant InServiceOrder(snippets, results)
        invariant forall s <- snippets :: FirstAt(results, s.citeKey) < i
        invariant forall j :: 0 <= j < i ==> Acceptable(results, j, records)
      {
        var h := results[i];
        IdsStep(results, i);
        if h.NoDocument? {
          assert !Acceptable(results, i, records);
          return None;
        }
        if h.id !in seen {
          var snippet := GroundedSnippet(h.id, h.fields, records);
          if snippet.None? {
            assert !Acceptable(results, i, records);
            return None;
          }
          SnippetHasId(h.id, h.fields, records);
          FirstAtIs(results, i);
          assert CiteKeys(snippets + [snippet.value]) == CiteKeys(snippets) + {h.id};
          forall s <- snippets ensures s.citeKey in seen {
          }
          seen := seen + {h.id};
          snippets := snippets + [snippet.value];
        }
      }
      assert results[..|results|] == results;
      return Some(snippets);
    }

    /** What a search does after a miss, at any later time and whatever other searches did
        meanwhile: collect the page, store the answer. */
    method Fetch(query: string, pageSize: int, page: Option<seq<Hit>>, clock: int) returns (answer: Answer)
      requires Valid() && now <= clock
      modifies this
      ensures Valid()
      ensures now <= clock
      ensures var results := FirstPage(page, pageSize);
        && (answer.Answered? <==> page.Some? && forall i :: 0 <= i < |results| ==> Acceptable(results, i, records))
        && (answer.Answered? ==>
              && !answer.cacheHit && Grounded(answer.snippets, Clamp(pageSize), records)
              && CiteKeys(answer.snippets) == Ids(results) && InServiceOrder(answer.snippets, results)
              && log == old(log) + [Slot(KeyOf(query, pageSize), clock, answer.snippets)])
        && (answer.Unavailable? ==> log == old(log) && cache == old(cache))
    {
      hide Acceptable, Grounded, CacheOk, Without, Ids, CiteKeys, InServiceOrder;
      if page.None? {
        return Unavailable;
      }
      var snippets := Collect(FirstPage(page, pageSize), Clamp(pageSize));
      if snippets.None? {
        return Unavailable;
      }
      Store(KeyOf(query, pageSize), snippets.value, clock);
      return Answered(snippets.value, false);
    }

    /** One search: `page` is the first page of the service, if it answers, and the clock is
        read once for the cache and once for the store. It answers exactly when a young
        enough answer is cached or every result of the page is acceptable. */
    method Search(query: string, pageSize: int, page: Option<seq<Hit>>, clock: int,
                  clockAfter: int) returns (answer: Answer)
      requires Valid() && now <= clock <= clockAfter
      modifies this
      ensures Valid()
      ensures var key := KeyOf(query, pageSize);
        && (answer.Answered? ==> Grounded(answer.snippets, Clamp(pageSize), records))
        && (answer.Answered? && answer.cacheHit <==> exists s <- old(cache) :: s.key == key && clock - s.at < CACHE_TTL)
        && (answer.Answered? && answer.cacheHit ==>
              && log == old(log) && cache == old(cache)
              && exists s <- log ::
                   s.key == key && s.snippets == answer.snippets && clock - s.at < CACHE_TTL && LastAnswer(log, s))
        && (answer.Answered? && !answer.cacheHit ==>
              && CiteKeys(answer.snippets) == Ids(FirstPage(page, pageSize))
              && InServiceOrder(answer.snippets, FirstPage(page, pageSize))
              && log == old(log) + [Slot(key, clockAfter, answer.snippets)])
        && (answer.Unavailable? ==> log == old(log))
        && (answer.Answered? <==>
              || (exists s <- old(cache) :: s.key == key && clock - s.at < CACHE_TTL)
              || (page.Some? && var results := FirstPage(page, pageSize);
                                forall i :: 0 <= i < |results| ==> Acceptable(results, i, records)))
    {
      hide Acceptable, Grounded, CacheOk, Without, LastAnswer, Ids, CiteKeys, InServiceOrder;
      var key := KeyOf(query, pageSize);
      var cached := Cached(key, clock);
      if cached.Some? {
        CachedIsGrounded(old(cache), log, old(now), records, key, clock, cached.value);
        return Answered(cached.value, true);
      }
      answer := Fetch(query, pageSize, page, clockAfter);
    }

    function KeyOf(query: string, pageSize: int): Key {
      Key(StripRight(StripLeft(query)), Clamp(pageSize), snapshotId)
    }
  }

  function FirstPage(page: Option<seq<Hit>>, pageSize: int): (results: seq<Hit>)
    ensures |results| <= Clamp(pageSize)
    ensures page.Some? ==> results <= page.value && (|results| < Clamp(pageSize) ==> results == page.value)
  {
    if page.None? then [] else if |page.value| > Clamp(pageSize) then page.value[..Clamp(pageSize)] else page.value
  }

  lemma CachedIsGrounded(cache: seq<Slot>, log: seq<Slot>, now: int, records: map<Id, Section>, key: Key, clock: int,
                         snippets: seq<Snippet>)
    requires CacheOk(cache, log, now, records)
    requires exists s <- cache ::
               s.key == key && s.snippets == snippets && clock - s.at < CACHE_TTL && LastAnswer(log, s)
    ensures Grounded(snippets, key.size, records)
    ensures exists s <- log :: s.key == key && s.snippets == snippets && clock - s.at < CACHE_TTL && LastAnswer(log, s)
  {
    var s :| s in cache && s.key == key && s.snippets == snippets && clock - s.at < CACHE_TTL && LastAnswer(log, s);
    assert s in log;
  }

  /** Two searches share a cache key exactly when their queries have the same core and they
      ask for pages of the same size. */
  lemma SharedKey(k: Knowledge, query: string, i: nat, j: nat, size: int, query': string, i': nat, j': nat, size': int)
    requires IsCore(query, i, j) && IsCore(query', i', j')
    ensures k.KeyOf(query, size) == k.KeyOf(query', size') <==>
              query[i..j] == query'[i'..j'] && Clamp(size) == Clamp(size')
  {
    StrippedIsCore(query, i, j);
    StrippedIsCore(query', i', j');
  }

  /** The two halves of a search, between which others may run. */
  datatype Half =
    | Lookup(query: string, pageSize: int, clock: int)
    | Fetching(query: string, pageSize: int, page: Option<seq<Hit>>, clock: int)

  /** Halves of overlapping searches in any order: the cache stays sound, every answer is
      made of shipped sections, and every hit is what the service last answered, to
      whomever, under that key less than the TTL before. `logs` is the log at each half. */
  method Serve(knowledge: Knowledge, halves: seq<Half>)
    returns (answers: seq<Option<Answer>>, ghost logs: seq<seq<Slot>>)
    requires knowledge.Valid()
    requires forall i :: 0 <= i < |halves| ==> knowledge.now <= halves[i].clock
    requires forall i, j :: 0 <= i < j < |halves| ==> halves[i].clock <= halves[j].clock
    modifies knowledge
    ensures knowledge.Valid()
    ensures |answers| == |logs| == |halves|
    ensures forall i :: 0 <= i < |halves| ==> Sound(knowledge, halves[i], answers[i], logs[i])
  {
    hide CacheOk, Grounded, LastAnswer, Acceptable, Without;
    answers, logs := [], [];
    for n := 0 to |halves|
      invariant knowledge.Valid() && |answers| == |logs| == n
      invariant forall i :: n <= i < |halves| ==> knowledge.now <= halves[i].clock
      invariant forall i :: 0 <= i < n ==> Sound(knowledge, halves[i], answers[i], logs[i])
    {
      match halves[n] {
        case Lookup(query, pageSize, clock) =>
          ghost var before, was := knowledge.cache, knowledge.now;
          var key := knowledge.KeyOf(query, pageSize);
          var cached := knowledge.Cached(key, clock);
          if cached.Some? {
            CachedIsGrounded(before, knowledge.log, was, knowledge.records, key, clock, cached.value);
            answers := answers + [Some(Answered(cached.value, true))];
          } else {
            answers := answers + [None];
          }
        case Fetching(query, pageSize, page, clock) =>
          ghost var log := knowledge.log;
          var answer := knowledge.Fetch(query, pageSize, page, clock);
          if answer.Answered? {
            NewestIsLast(log, Slot(knowledge.KeyOf(query, pageSize), clock, answer.snippets));
          }
          answers := answers + [Some(answer)];
      }
      logs := logs + [knowledge.log];
    }
  }

  lemma NewestIsLast(log: seq<Slot>, slot: Slot)
    ensures slot in log + [slot] && LastAnswer(log + [slot], slot)
  {
    assert (log + [slot])[|log|] == slot;
  }

  ghost predicate Sound(knowledge: Knowledge, half: Half, answer: Option<Answer>, log: seq<Slot>) {
    answer.Some? && answer.value.Answered? ==>
      && Grounded(answer.value.snippets, Clamp(half.pageSize), knowledge.records)
      && (half.Lookup? <==> answer.value.cacheHit)
      && exists s <- log ::
           && s.key == knowledge.KeyOf(half.query, half.pageSize) && s.snippets == answer.value.snippets
           && half.clock - s.at < CACHE_TTL && LastAnswer(log, s)
  }
}
