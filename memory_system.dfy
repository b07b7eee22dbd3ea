/** The assistant's long-term memory (class `MemorySystem` of
    src/core/memory_system.py): three tables (conversation turns, facts,
    user preferences), a TF-IDF vectorizer refitted on every stored turn, the
    ranking that picks the past turns most similar to a query, and the
    retention sweep. Tables are sequences of rows in row-id order; timestamps
    are integers (seconds). */
module Memory {

  import opened Common
  import opened StableSort

  /** The TF-IDF vectorizer. A fitted vectorizer is determined by the corpus
      it was fitted on (fitting is deterministic). */
  datatype Vectorizer = Unfitted | Fitted(corpus: seq<string>)

  /** A document vector, kept symbolic: the all-zero fallback vector, or the
      TF-IDF vector of `text` under a vectorizer fitted on `corpus`. */
  datatype Embedding = Zeros | Tfidf(corpus: seq<string>, text: string)

  /** Cosine similarity of two vectors, left uninterpreted; `None` stands for
      the numeric library raising (vectors of different lengths, say). */
  type Cosine = (Embedding, Embedding) -> Option<real>

  /** A row of the `conversations` table. */
  datatype Conversation = Conversation(
    id: int,
    sessionId: string,
    userMessage: string,
    aiResponse: string,
    timestamp: int,
    topic: Option<string>,
    importance: int,
    embedding: Option<Embedding>)

  /** A row of the `knowledge` table (`last_used` may be NULL). */
  datatype Fact = Fact(
    fact: string,
    category: string,
    source: string,
    confidence: real,
    lastUsed: Option<int>,
    usageCount: int,
    createdAt: int)

  /** A row of the `user_preferences` table. */
  datatype Preference = Preference(userId: string, preferenceType: string, value: string, strength: real)

  /** One result of `get_relevant_context`. */
  datatype ContextEntry = ContextEntry(
    id: int,
    sessionId: string,
    userMessage: string,
    aiResponse: string,
    topic: Option<string>,
    importance: int,
    similarity: real)

  /** One entry of the profile's `preferences` dictionary. */
  datatype ShownPreference = ShownPreference(value: string, strength: real)

  /** The profile's `statistics` dictionary. */
  datatype Statistics = Statistics(totalConversations: nat, uniqueTopics: nat, lastActive: Option<int>)

  datatype Profile = Profile(userId: string, preferences: map<string, ShownPreference>, statistics: Statistics)

  /** Only the newest turns are scored. */
  const WindowSize: nat := 100
  const DefaultImportance: int := 1
  /** Turns at least this important survive the retention sweep. */
  const KeepImportance: int := 2
  const DecayFactor: real := 0.9
  const StrengthCap: real := 1.0
  /** The profile shows preferences strictly stronger than this. */
  const ProfileThreshold: real := 0.3
  const SecondsPerDay: int := 86400

  // ---------------------------------------------------------------------
  // Embeddings and the refit corpus

  /** The text of a turn as it is embedded and put in the corpus. */
  function CombinedText(userMessage: string, aiResponse: string): string {
    userMessage + " " + aiResponse
  }

  /** `_create_embedding`: transforming under an unfitted vectorizer raises
      and falls back to the zero vector. */
  function CreateEmbedding(v: Vectorizer, text: string): (e: Embedding)
    ensures e == Zeros <==> v.Unfitted?
    ensures v.Fitted? ==> e.corpus == v.corpus && e.text == text
  {
    match v
    case Unfitted => Zeros
    case Fitted(corpus) => Tfidf(corpus, text)
  }

  /** The texts of the stored turns, in row order. */
  function CorpusTexts(cs: seq<Conversation>): (texts: seq<string>)
    ensures |texts| == |cs|
    ensures forall i :: 0 <= i < |cs| ==> texts[i] == CombinedText(cs[i].userMessage, cs[i].aiResponse)
  {
    if cs == [] then []
    else CorpusTexts(cs[..|cs| - 1]) + [CombinedText(cs[|cs| - 1].userMessage, cs[|cs| - 1].aiResponse)]
  }

  lemma CorpusAppend(cs: seq<Conversation>, c: Conversation)
    ensures CorpusTexts(cs + [c]) == CorpusTexts(cs) + [CombinedText(c.userMessage, c.aiResponse)]
  {
    assert (cs + [c])[..|cs|] == cs;
  }

  /** A row with no stored embedding is scored with the zero vector. */
  function StoredEmbedding(c: Conversation): Embedding {
    c.embedding.GetOr(Zeros)
  }

  // ---------------------------------------------------------------------
  // Retrieval

  /** `ORDER BY timestamp DESC`. */
  predicate NewerOrSame(a: Conversation, b: Conversation) {
    a.timestamp >= b.timestamp
  }

  lemma RecencyIsPreorder()
    ensures TotalPreorder(NewerOrSame)
  {
  }

  /** `ORDER BY timestamp DESC LIMIT 100`; rows with equal timestamps keep
      row-id order. */
  function RecentWindow(cs: seq<Conversation>): (w: seq<Conversation>)
    ensures |w| <= WindowSize
  {
    Take(Sort(cs, NewerOrSame), WindowSize)
  }

  /** The window holds the newest turns, newest first. */
  lemma RecentWindowIsNewest(cs: seq<Conversation>)
    ensures |RecentWindow(cs)| == Min(|cs|, WindowSize)
    ensures Sorted(RecentWindow(cs), NewerOrSame)
    ensures forall c | c in RecentWindow(cs) :: c in cs
    ensures forall c, d | c in cs && c !in RecentWindow(cs) && d in RecentWindow(cs) :: d.timestamp >= c.timestamp
  {
    RecencyIsPreorder();
    TakeSortedIsTop(cs, NewerOrSame, WindowSize);
  }

  function Entry(c: Conversation, similarity: real): ContextEntry {
    ContextEntry(c.id, c.sessionId, c.userMessage, c.aiResponse, c.topic, c.importance, similarity)
  }

  /** Scores every turn of the window against the query vector, in window
      order; `None` as soon as one similarity computation raises. */
  function ScoreAll(w: seq<Conversation>, q: Embedding, cosine: Cosine): (r: Option<seq<ContextEntry>>)
    ensures r.Some? <==> forall i :: 0 <= i < |w| ==> cosine(q, StoredEmbedding(w[i])).Some?
    ensures r.Some? ==> |r.value| == |w|
    ensures r.Some? ==> forall i :: 0 <= i < |w| ==> r.value[i] == Entry(w[i], cosine(q, StoredEmbedding(w[i])).value)
  {
    if w == [] then Some([])
    else
      match ScoreAll(w[..|w| - 1], q, cosine)
      case None => None
      case Some(entries) =>
        match cosine(q, StoredEmbedding(w[|w| - 1]))
        case None => None
        case Some(similarity) => Some(entries + [Entry(w[|w| - 1], similarity)])
  }

  /** `sort(key=similarity, reverse=True)`. */
  predicate MoreSimilarOrSame(a: ContextEntry, b: ContextEntry) {
    a.similarity >= b.similarity
  }

  lemma SimilarityIsPreorder()
    ensures TotalPreorder(MoreSimilarOrSame)
  {
  }

  /** What `get_relevant_context` returns for a given table, vectorizer and query. */
  function RelevantContext(cs: seq<Conversation>, v: Vectorizer, query: string, limit: int, cosine: Cosine): seq<ContextEntry> {
    match ScoreAll(RecentWindow(cs), CreateEmbedding(v, query), cosine)
    case None => []
    case Some(entries) => Take(Sort(entries, MoreSimilarOrSame), limit)
  }

  /** The result is at most `limit` (and at most 100) entries; one failing
      similarity empties it. */
  lemma RelevantContextBounds(cs: seq<Conversation>, v: Vectorizer, query: string, limit: int, cosine: Cosine)
    ensures |RelevantContext(cs, v, query, limit, cosine)| <= |RecentWindow(cs)| <= WindowSize
    ensures limit >= 0 ==> |RelevantContext(cs, v, query, limit, cosine)| <= limit
    ensures (exists c | c in RecentWindow(cs) :: cosine(CreateEmbedding(v, query), StoredEmbedding(c)).None?)
      ==> RelevantContext(cs, v, query, limit, cosine) == []
  {
    var w := RecentWindow(cs);
    var q := CreateEmbedding(v, query);
    if exists c | c in w :: cosine(q, StoredEmbedding(c)).None? {
      var c :| c in w && cosine(q, StoredEmbedding(c)).None?;
      var i :| 0 <= i < |w| && w[i] == c;
      assert ScoreAll(w, q, cosine).None?;
    }
  }

  /** When every similarity is computed, the result lists scored window turns,
      most similar first, and nothing scored but left out is more similar than
      an entry of the result. */
  lemma RelevantContextIsTop(cs: seq<Conversation>, v: Vectorizer, query: string, limit: int, cosine: Cosine,
                             entries: seq<ContextEntry>)
    requires ScoreAll(RecentWindow(cs), CreateEmbedding(v, query), cosine) == Some(entries)
    ensures Sorted(RelevantContext(cs, v, query, limit, cosine), MoreSimilarOrSame)
    ensures forall e | e in RelevantContext(cs, v, query, limit, cosine) :: e in entries
    ensures forall e, d | e in entries && e !in RelevantContext(cs, v, query, limit, cosine)
                       && d in RelevantContext(cs, v, query, limit, cosine) :: d.similarity >= e.similarity
  {
    var r := RelevantContext(cs, v, query, limit, cosine);
    assert r == Take(Sort(entries, MoreSimilarOrSame), limit);
    SimilarityIsPreorder();
    TakeSortedIsTop(entries, MoreSimilarOrSame, limit);
    forall e, d | e in entries && e !in r && d in r ensures d.similarity >= e.similarity {
      assert MoreSimilarOrSame(d, e);
    }
  }

  /** Ties keep window order, which is newest first: the entries of any one
      similarity appear in the result as a prefix of their order in the window. */
  lemma RelevantContextTiesNewestFirst(cs: seq<Conversation>, v: Vectorizer, query: string, limit: int, cosine: Cosine,
                                       entries: seq<ContextEntry>, x: ContextEntry)
    requires ScoreAll(RecentWindow(cs), CreateEmbedding(v, query), cosine) == Some(entries)
    ensures Tier(RelevantContext(cs, v, query, limit, cosine), MoreSimilarOrSame, x) <= Tier(entries, MoreSimilarOrSame, x)
  {
    SimilarityIsPreorder();
    SortStable(entries, MoreSimilarOrSame, x);
    TierOfTake(Sort(entries, MoreSimilarOrSame), MoreSimilarOrSame, limit, x);
  }

  /** With no stored turns there is no context, whatever the vectorizer. */
  lemma NoTurnsNoContext(v: Vectorizer, query: string, limit: int, cosine: Cosine)
    ensures RelevantContext([], v, query, limit, cosine) == []
  {
    assert Sort([], NewerOrSame) == [];
  }

  // ---------------------------------------------------------------------
  // Knowledge

  /** `WHERE confidence >= ?` plus `category = ?` when a non-empty category
      is given: Python's `if category:` treats "" like no category. */
  predicate Selected(f: Fact, category: Option<string>, minConfidence: real) {
    && f.confidence >= minConfidence
    && (category.Some? && category.value != "" ==> f.category == category.value)
  }

  /** `ORDER BY usage_count DESC, confidence DESC`. */
  predicate RanksAbove(a: Fact, b: Fact) {
    a.usageCount > b.usageCount || (a.usageCount == b.usageCount && a.confidence >= b.confidence)
  }

  lemma FactOrderIsPreorder()
    ensures TotalPreorder(RanksAbove)
  {
  }

  function NewFact(fact: string, category: string, source: string, confidence: real, now: int): Fact {
    Fact(fact, category, source, confidence, None, 0, now)
  }

  // ---------------------------------------------------------------------
  // Preferences

  predicate IsKey(p: Preference, userId: string, preferenceType: string) {
    p.userId == userId && p.preferenceType == preferenceType
  }

  /** `SELECT ... WHERE user_id = ? AND preference_type = ?` then
      `fetchone()`: the first matching row. */
  function FindPreference(ps: seq<Preference>, userId: string, preferenceType: string): (r: Option<nat>)
    ensures r.Some? ==> r.value < |ps| && IsKey(ps[r.value], userId, preferenceType)
    ensures r.Some? ==> forall j :: 0 <= j < r.value ==> !IsKey(ps[j], userId, preferenceType)
    ensures r.None? ==> forall j :: 0 <= j < |ps| ==> !IsKey(ps[j], userId, preferenceType)
  {
    if ps == [] then None
    else if IsKey(ps[0], userId, preferenceType) then Some(0)
    else
      match FindPreference(ps[1..], userId, preferenceType)
      case None => None
      case Some(k) => Some(k + 1)
  }

  /** The `user_preferences` table after `update_preference`. */
  function Upsert(ps: seq<Preference>, userId: string, preferenceType: string, value: string, delta: real): seq<Preference> {
    match FindPreference(ps, userId, preferenceType)
    case Some(i) => ps[i := ps[i].(value := value, strength := MinReal(StrengthCap, ps[i].strength + delta))]
    case None => ps + [Preference(userId, preferenceType, value, delta)]
  }

  /** Updating a key that has a row rewrites its first row only: the new
      value, strength `min(1.0, old + delta)`, no row added. */
  lemma UpsertExisting(ps: seq<Preference>, userId: string, preferenceType: string, value: string, delta: real, j: nat)
    requires j < |ps| && IsKey(ps[j], userId, preferenceType)
    ensures var r := Upsert(ps, userId, preferenceType, value, delta);
      && |r| == |ps|
      && exists i :: 0 <= i <= j && IsKey(ps[i], userId, preferenceType)
           && r[i] == ps[i].(value := value, strength := MinReal(StrengthCap, ps[i].strength + delta))
           && r[i].strength <= StrengthCap
           && (forall k :: 0 <= k < |ps| && k != i ==> r[k] == ps[k])
  {
    var i := FindPreference(ps, userId, preferenceType).value;
    assert 0 <= i <= j;
  }

  /** Updating a key with no row appends exactly one row, with the given
      strength, not capped. */
  lemma UpsertAbsent(ps: seq<Preference>, userId: string, preferenceType: string, value: string, delta: real)
    requires forall k :: 0 <= k < |ps| ==> !IsKey(ps[k], userId, preferenceType)
    ensures Upsert(ps, userId, preferenceType, value, delta) == ps + [Preference(userId, preferenceType, value, delta)]
  {
  }

  /** The number of rows for a key. */
  function KeyCount(ps: seq<Preference>, userId: string, preferenceType: string): nat {
    if ps == [] then 0
    else (if IsKey(ps[0], userId, preferenceType) then 1 else 0) + KeyCount(ps[1..], userId, preferenceType)
  }

  lemma {:induction false} KeyCountAppend(ps: seq<Preference>, p: Preference, userId: string, preferenceType: string)
    ensures KeyCount(ps + [p], userId, preferenceType)
         == KeyCount(ps, userId, preferenceType) + (if IsKey(p, userId, preferenceType) then 1 else 0)
    decreases |ps|
  {
    if ps != [] {
      assert (ps + [p])[1..] == ps[1..] + [p];
      KeyCountAppend(ps[1..], p, userId, preferenceType);
    }
  }

  lemma {:induction false} KeyCountReplace(ps: seq<Preference>, i: nat, p: Preference, userId: string, preferenceType: string)
    requires i < |ps| && ps[i].userId == p.userId && ps[i].preferenceType == p.preferenceType
    ensures KeyCount(ps[i := p], userId, preferenceType) == KeyCount(ps, userId, preferenceType)
    decreases i
  {
    if i > 0 {
      assert ps[i := p][1..] == ps[1..][i - 1 := p];
      KeyCountReplace(ps[1..], i - 1, p, userId, preferenceType);
    }
  }

  lemma {:induction false} KeyCountPositive(ps: seq<Preference>, j: nat, userId: string, preferenceType: string)
    requires j < |ps| && IsKey(ps[j], userId, preferenceType)
    ensures KeyCount(ps, userId, preferenceType) >= 1
    decreases j
  {
    if j > 0 {
      KeyCountPositive(ps[1..], j - 1, userId, preferenceType);
    }
  }

  lemma {:induction false} KeyCountZero(ps: seq<Preference>, userId: string, preferenceType: string)
    requires forall k :: 0 <= k < |ps| ==> !IsKey(ps[k], userId, preferenceType)
    ensures KeyCount(ps, userId, preferenceType) == 0
    decreases |ps|
  {
    if ps != [] {
      KeyCountZero(ps[1..], userId, preferenceType);
    }
  }

  /** Repeated updates never create a second row for a key: the updated key
      ends up with max(1, old count) rows and every other key keeps its count. */
  lemma UpsertKeyCounts(ps: seq<Preference>, userId: string, preferenceType: string, value: string, delta: real, u: string, t: string)
    ensures var r := Upsert(ps, userId, preferenceType, value, delta);
      KeyCount(r, u, t) == if u == userId && t == preferenceType
                           then Max(1, KeyCount(ps, u, t))
                           else KeyCount(ps, u, t)
  {
    var r := Upsert(ps, userId, preferenceType, value, delta);
    match FindPreference(ps, userId, preferenceType)
    case Some(i) =>
      var p := ps[i].(value := value, strength := MinReal(StrengthCap, ps[i].strength + delta));
      assert r == ps[i := p];
      KeyCountReplace(ps, i, p, u, t);
      if u == userId && t == preferenceType {
        KeyCountPositive(ps, i, u, t);
      }
    case None =>
      var p := Preference(userId, preferenceType, value, delta);
      assert r == ps + [p];
      KeyCountAppend(ps, p, u, t);
      if u == userId && t == preferenceType {
        KeyCountZero(ps, u, t);
      }
  }

  /** Two updates of 0.6 on a fresh key: the second one is capped at 1.0. */
  lemma RepeatedUpdateIsCapped(ps: seq<Preference>, userId: string, preferenceType: string, value: string)
    requires forall k :: 0 <= k < |ps| ==> !IsKey(ps[k], userId, preferenceType)
    ensures var r := Upsert(Upsert(ps, userId, preferenceType, value, 0.6), userId, preferenceType, value, 0.6);
      r == ps + [Preference(userId, preferenceType, value, 1.0)]
  {
    var once := Upsert(ps, userId, preferenceType, value, 0.6);
    UpsertAbsent(ps, userId, preferenceType, value, 0.6);
    assert once[|ps|] == Preference(userId, preferenceType, value, 0.6);
    assert forall j :: 0 <= j < |ps| ==> once[j] == ps[j];
    assert FindPreference(once, userId, preferenceType) == Some(|ps|);
  }

  /** The profile shows a user's preferences stronger than 0.3. */
  predicate Shown(p: Preference, userId: string) {
    p.userId == userId && p.strength > ProfileThreshold
  }

  /** `ORDER BY strength DESC`. */
  predicate StrongerOrSame(a: Preference, b: Preference) {
    a.strength >= b.strength
  }

  lemma StrengthIsPreorder()
    ensures TotalPreorder(StrongerOrSame)
  {
  }

  // ---------------------------------------------------------------------
  // Profile statistics

  function AsciiLower(c: char): char {
    if 'A' <= c <= 'Z' then (c as int + 32) as char else c
  }

  /** SQLite's `LIKE` without `ESCAPE`: `%` matches any run, `_` any single
      character, and ASCII letters match regardless of case. */
  function Like(s: string, pattern: string): bool
    decreases |s| + |pattern|
  {
    if pattern == [] then s == []
    else if pattern[0] == '%' then Like(s, pattern[1..]) || (s != [] && Like(s[1..], pattern))
    else s != [] && (pattern[0] == '_' || AsciiLower(pattern[0]) == AsciiLower(s[0])) && Like(s[1..], pattern[1..])
  }

  /** `session_id LIKE '<user_id>%'`. */
  predicate OfUser(c: Conversation, userId: string) {
    Like(c.sessionId, userId + "%")
  }

  lemma {:induction false} LikeAnything(s: string)
    ensures Like(s, "%")
    decreases |s|
  {
    if s != [] {
      LikeAnything(s[1..]);
    }
  }

  /** For a user id without `%` or `_`, a session belongs to the user exactly
      when its id starts with the user id, ignoring ASCII case. */
  lemma {:induction false} OfUserIsPrefix(s: string, userId: string)
    requires forall i :: 0 <= i < |userId| ==> userId[i] != '%' && userId[i] != '_'
    ensures Like(s, userId + "%")
        <==> |userId| <= |s| && forall i :: 0 <= i < |userId| ==> AsciiLower(s[i]) == AsciiLower(userId[i])
    decreases |userId|
  {
    if userId == [] {
      assert userId + "%" == "%";
      LikeAnything(s);
    } else {
      assert (userId + "%")[1..] == userId[1..] + "%";
      if s != [] {
        OfUserIsPrefix(s[1..], userId[1..]);
        if |userId| <= |s| && forall i :: 0 <= i < |userId| ==> AsciiLower(s[i]) == AsciiLower(userId[i]) {
          assert forall i :: 0 <= i < |userId[1..]| ==> AsciiLower(s[1..][i]) == AsciiLower(userId[1..][i]) by {
            forall i | 0 <= i < |userId[1..]| ensures AsciiLower(s[1..][i]) == AsciiLower(userId[1..][i]) {
              assert s[1..][i] == s[i + 1] && userId[1..][i] == userId[i + 1];
            }
          }
        }
        if Like(s, userId + "%") {
          forall i | 0 <= i < |userId| ensures AsciiLower(s[i]) == AsciiLower(userId[i]) {
            if i > 0 {
              assert s[1..][i - 1] == s[i] && userId[1..][i - 1] == userId[i];
            }
          }
        }
      }
    }
  }

  /** `MAX(timestamp)`, NULL over no rows. */
  function LatestTimestamp(cs: seq<Conversation>): (r: Option<int>)
    ensures r.None? <==> cs == []
    ensures r.Some? ==> exists c | c in cs :: c.timestamp == r.value
    ensures r.Some? ==> forall c | c in cs :: c.timestamp <= r.value
  {
    if cs == [] then None
    else
      match LatestTimestamp(cs[1..])
      case None => Some(cs[0].timestamp)
      case Some(t) => Some(Max(t, cs[0].timestamp))
  }

  /** The distinct non-NULL topics (`COUNT(DISTINCT topic)` counts them). */
  function TopicsOf(cs: seq<Conversation>): set<string> {
    set c | c in cs && c.topic.Some? :: c.topic.value
  }

  /** The profile's statistics over the turns whose session id matches. */
  function SessionStatistics(cs: seq<Conversation>, userId: string): Statistics {
    var mine := Filter(cs, c => OfUser(c, userId));
    Statistics(|mine|, |TopicsOf(mine)|, LatestTimestamp(mine))
  }

  // ---------------------------------------------------------------------
  // Retention sweep

  /** `cutoff_date`: `days_old` days before `now`. */
  function Cutoff(now: int, daysOld: int): int {
    now - daysOld * SecondsPerDay
  }

  /** `timestamp < ? AND importance < 2`. */
  predicate Expired(c: Conversation, cutoff: int) {
    c.timestamp < cutoff && c.importance < KeepImportance
  }

  /** The `conversations` table after the sweep's DELETE. */
  function Purge(cs: seq<Conversation>, cutoff: int): seq<Conversation> {
    Filter(cs, c => !Expired(c, cutoff))
  }

  /** The sweep deletes exactly the expired turns: every other turn keeps all
      of its occurrences, and no expired turn is left. */
  lemma PurgeExact(cs: seq<Conversation>, cutoff: int)
    ensures forall c :: multiset(Purge(cs, cutoff))[c] == if Expired(c, cutoff) then 0 else multiset(cs)[c]
    ensures forall c | c in Purge(cs, cutoff) :: !Expired(c, cutoff)
  {
    FilterCounts(cs, c => !Expired(c, cutoff));
  }

  /** A second sweep with the same cutoff deletes nothing more. */
  lemma {:induction false} PurgeIdempotent(cs: seq<Conversation>, cutoff: int)
    ensures Purge(Purge(cs, cutoff), cutoff) == Purge(cs, cutoff)
    decreases |cs|
  {
    if cs != [] {
      PurgeIdempotent(cs[1..], cutoff);
      var keep := c => !Expired(c, cutoff);
      var head := if keep(cs[0]) then [cs[0]] else [];
      assert Purge(cs, cutoff) == head + Purge(cs[1..], cutoff);
      FilterAppend(head, Purge(cs[1..], cutoff), keep);
    }
  }

  /** `last_used < ? OR last_used IS NULL`. */
  predicate Stale(f: Fact, cutoff: int) {
    f.lastUsed.None? || f.lastUsed.value < cutoff
  }

  /** The `knowledge` table after the sweep's UPDATE: stale facts have their
      confidence multiplied by 0.9, the others are untouched, none is removed. */
  function Decay(fs: seq<Fact>, cutoff: int): (r: seq<Fact>)
    ensures |r| == |fs|
    ensures forall i :: 0 <= i < |fs| ==>
      r[i] == if Stale(fs[i], cutoff) then fs[i].(confidence := fs[i].confidence * DecayFactor) else fs[i]
  {
    if fs == [] then []
    else
      var f := fs[0];
      [if Stale(f, cutoff) then f.(confidence := f.confidence * DecayFactor) else f] + Decay(fs[1..], cutoff)
  }

  /** The sweep never raises a non-negative confidence and keeps it non-negative. */
  lemma DecayNeverIncreases(fs: seq<Fact>, cutoff: int, i: nat)
    requires i < |fs| && fs[i].confidence >= 0.0
    ensures 0.0 <= Decay(fs, cutoff)[i].confidence <= fs[i].confidence
  {
  }

  /** Nothing marks a fact used, so a second sweep decays the same facts
      again: two sweeps leave 0.81 of a stale fact's confidence. */
  lemma SweepTwiceDecaysTwice(fs: seq<Fact>, cutoff: int, i: nat)
    requires i < |fs| && Stale(fs[i], cutoff)
    ensures Decay(Decay(fs, cutoff), cutoff)[i].confidence == fs[i].confidence * 0.81
  {
  }

  /** A fact just added (never used) is decayed to 0.9 of its confidence. */
  lemma NewFactDecays(fs: seq<Fact>, fact: string, category: string, source: string, confidence: real, now: int, cutoff: int)
    ensures Decay(fs + [NewFact(fact, category, source, confidence, now)], cutoff)[|fs|].confidence == confidence * 0.9
  {
  }

  /** The rows the profile query selects: the user's preferences stronger
      than 0.3, strongest first. */
  function ShownRows(ps: seq<Preference>, userId: string): (rows: seq<Preference>)
    ensures forall p :: p in rows <==> p in ps && Shown(p, userId)
    ensures Sorted(rows, StrongerOrSame)
  {
    var keep := p => Shown(p, userId);
    var matching := Filter(ps, keep);
    FilterCounts(ps, keep);
    StrengthIsPreorder();
    SortSorted(matching, StrongerOrSame);
    assert forall p :: p in Sort(matching, StrongerOrSame) <==> p in multiset(matching);
    Sort(matching, StrongerOrSame)
  }

  /** Every type of the rows is a key of `shown`, and its entry comes from
      the last row of that type. */
  ghost predicate LastByType(rows: seq<Preference>, shown: map<string, ShownPreference>) {
    && (forall j :: 0 <= j < |rows| ==> rows[j].preferenceType in shown)
    && (forall t | t in shown :: exists j :: (0 <= j < |rows| && rows[j].preferenceType == t
         && shown[t] == ShownPreference(rows[j].value, rows[j].strength)
         && forall m :: j < m < |rows| ==> rows[m].preferenceType != t))
  }

  /** The dictionary `get_user_profile` fills row by row: a later row of a
      type overwrites an earlier one. */
  method PreferencesByType(rows: seq<Preference>) returns (shown: map<string, ShownPreference>)
    ensures LastByType(rows, shown)
  {
    shown := map[];
    for i := 0 to |rows|
      invariant LastByType(rows[..i], shown)
    {
      shown := shown[rows[i].preferenceType := ShownPreference(rows[i].value, rows[i].strength)];
      assert rows[..i + 1] == rows[..i] + [rows[i]];
    }
    assert rows[..|rows|] == rows;
  }

  lemma ProfileEntries(ps: seq<Preference>, userId: string, rows: seq<Preference>, shown: map<string, ShownPreference>)
    requires rows == ShownRows(ps, userId) && LastByType(rows, shown)
    ensures forall t | t in shown ::
      exists p | p in ps :: (Shown(p, userId) && p.preferenceType == t && shown[t] == ShownPreference(p.value, p.strength))
  {
    forall t | t in shown
      ensures exists p | p in ps :: (Shown(p, userId) && p.preferenceType == t && shown[t] == ShownPreference(p.value, p.strength))
    {
      var j :| 0 <= j < |rows| && rows[j].preferenceType == t
        && shown[t] == ShownPreference(rows[j].value, rows[j].strength)
        && forall m :: j < m < |rows| ==> rows[m].preferenceType != t;
      assert rows[j] in rows;
    }
  }

  lemma ProfileKeys(ps: seq<Preference>, userId: string, rows: seq<Preference>, shown: map<string, ShownPreference>)
    requires rows == ShownRows(ps, userId) && LastByType(rows, shown)
    ensures forall t :: t in shown <==> exists p | p in ps :: Shown(p, userId) && p.preferenceType == t
  {
    ProfileEntries(ps, userId, rows, shown);
    forall p | p in ps && Shown(p, userId) ensures p.preferenceType in shown {
      var k :| 0 <= k < |rows| && rows[k] == p;
    }
  }

  lemma ProfileWeakestWins(ps: seq<Preference>, userId: string, rows: seq<Preference>, shown: map<string, ShownPreference>)
    requires rows == ShownRows(ps, userId) && LastByType(rows, shown)
    ensures forall p | p in ps && Shown(p, userId) :: p.preferenceType in shown && shown[p.preferenceType].strength <= p.strength
  {
    forall p | p in ps && Shown(p, userId)
      ensures p.preferenceType in shown && shown[p.preferenceType].strength <= p.strength
    {
      var k :| 0 <= k < |rows| && rows[k] == p;
      var j :| 0 <= j < |rows| && rows[j].preferenceType == p.preferenceType
        && shown[p.preferenceType] == ShownPreference(rows[j].value, rows[j].strength)
        && forall m :: j < m < |rows| ==> rows[m].preferenceType != p.preferenceType;
      assert k <= j;
      assert StrongerOrSame(rows[k], rows[j]) || k == j;
    }
  }

  // ---------------------------------------------------------------------
  // The store

  class MemorySystem {
    var conversations: seq<Conversation>
    var knowledge: seq<Fact>
    var preferences: seq<Preference>
    var vectorizer: Vectorizer
    /** The next AUTOINCREMENT id of `conversations`. */
    var nextConversationId: int

    ghost predicate Valid()
      reads this
    {
      forall c | c in conversations :: c.id < nextConversationId
    }

    /** Opens a database holding the given rows (an absent database holds
        none) and loads the saved vectorizer if there is one. */
    constructor(conversations: seq<Conversation>, knowledge: seq<Fact>, preferences: seq<Preference>, saved: Option<Vectorizer>)
      ensures Valid()
      ensures this.conversations == conversations && this.knowledge == knowledge && this.preferences == preferences
      ensures vectorizer == saved.GetOr(Unfitted)
    {
      var next := 1;
      for i := 0 to |conversations|
        invariant forall j :: 0 <= j < i ==> conversations[j].id < next
      {
        if conversations[i].id >= next {
          next := conversations[i].id + 1;
        }
      }
      this.conversations := conversations;
      this.knowledge := knowledge;
      this.preferences := preferences;
      vectorizer := saved.GetOr(Unfitted);
      nextConversationId := next;
    }

    /** `save_conversation`: embeds the turn under the vectorizer as it was,
        appends one row, then refits on every stored text plus the new text
        again. A storage failure returns false and changes nothing. */
    method SaveConversation(sessionId: string, userMessage: string, aiResponse: string,
                            now: int, storageFails: bool, canFit: seq<string> -> bool,
                            topic: Option<string> := None, importance: int := DefaultImportance)
      returns (ok: bool)
      requires Valid()
      modifies this
      ensures Valid()
      ensures ok == !storageFails
      ensures !ok ==> unchanged(this)
      ensures ok ==> conversations == old(conversations) + [Conversation(
        old(nextConversationId), sessionId, userMessage, aiResponse, now, topic, importance,
        Some(CreateEmbedding(old(vectorizer), CombinedText(userMessage, aiResponse))))]
      ensures ok ==> nextConversationId == old(nextConversationId) + 1
      ensures ok ==>
        var text := CombinedText(userMessage, aiResponse);
        var corpus := CorpusTexts(old(conversations)) + [text, text];
        vectorizer == if canFit(corpus) then Fitted(corpus) else old(vectorizer)
      ensures knowledge == old(knowledge) && preferences == old(preferences)
    {
      var text := CombinedText(userMessage, aiResponse);
      var embedding := CreateEmbedding(vectorizer, text);
      if storageFails {
        return false;
      }
      var row := Conversation(nextConversationId, sessionId, userMessage, aiResponse, now, topic, importance, Some(embedding));
      conversations := conversations + [row];
      nextConversationId := nextConversationId + 1;
      CorpusAppend(old(conversations), row);
      UpdateVectorizer(text, canFit);
      assert CorpusTexts(old(conversations)) + [text] + [text] == CorpusTexts(old(conversations)) + [text, text];
      return true;
    }

    /** `_update_vectorizer`: fits on the texts of all stored turns followed
        by `text`; a fit that raises leaves the vectorizer as it was. */
    method UpdateVectorizer(text: string, canFit: seq<string> -> bool)
      modifies this`vectorizer
      ensures var corpus := CorpusTexts(conversations) + [text];
        vectorizer == if canFit(corpus) then Fitted(corpus) else old(vectorizer)
    {
      var texts := [];
      for i := 0 to |conversations|
        invariant texts == CorpusTexts(conversations[..i])
      {
        assert conversations[..i + 1][..i] == conversations[..i];
        texts := texts + [CombinedText(conversations[i].userMessage, conversations[i].aiResponse)];
      }
      assert conversations[..|conversations|] == conversations;
      texts := texts + [text];
      if |texts| > 0 && canFit(texts) {
        vectorizer := Fitted(texts);
      }
    }

    /** `get_relevant_context`: scores the window turns one by one against the
        query, sorts by similarity and keeps the first `limit`; any failure
        yields no context. */
    method GetRelevantContext(cosine: Cosine, query: string, limit: int := 5) returns (r: seq<ContextEntry>)
      ensures r == RelevantContext(conversations, vectorizer, query, limit, cosine)
    {
      var q := CreateEmbedding(vectorizer, query);
      var window := RecentWindow(conversations);
      var entries := [];
      for i := 0 to |window|
        invariant ScoreAll(window[..i], q, cosine) == Some(entries)
      {
        assert window[..i + 1][..i] == window[..i];
        var similarity := cosine(q, StoredEmbedding(window[i]));
        if similarity.None? {
          return [];
        }
        entries := entries + [Entry(window[i], similarity.value)];
      }
      assert window[..|window|] == window;
      r := Take(Sort(entries, MoreSimilarOrSame), limit);
    }

    /** `add_knowledge`: appends one fact, never used, usage count 0. */
    method AddKnowledge(fact: string, category: string, source: string, now: int, confidence: real := 1.0)
      modifies this`knowledge
      ensures knowledge == old(knowledge) + [NewFact(fact, category, source, confidence, now)]
    {
      knowledge := knowledge + [NewFact(fact, category, source, confidence, now)];
    }

    /** `get_knowledge`: exactly the selected facts, each as often as stored,
        highest usage count first, then highest confidence. */
    function GetKnowledge(category: Option<string> := None, minConfidence: real := 0.5): (r: seq<Fact>)
      reads this
      ensures forall f :: multiset(r)[f] == if Selected(f, category, minConfidence) then multiset(knowledge)[f] else 0
      ensures forall f | f in r :: f in knowledge && Selected(f, category, minConfidence)
      ensures Sorted(r, RanksAbove)
    {
      var keep := f => Selected(f, category, minConfidence);
      var matching := Filter(knowledge, keep);
      FilterCounts(knowledge, keep);
      FactOrderIsPreorder();
      SortSorted(matching, RanksAbove);
      assert forall f | f in Sort(matching, RanksAbove) :: f in multiset(matching);
      Sort(matching, RanksAbove)
    }

    /** `update_preference`. */
    method UpdatePreference(preferenceType: string, preferenceValue: string, userId: string := "default", strength: real := 1.0)
      modifies this`preferences
      ensures preferences == Upsert(old(preferences), userId, preferenceType, preferenceValue, strength)
    {
      preferences := Upsert(preferences, userId, preferenceType, preferenceValue, strength);
    }

    /** `get_user_profile`: the user's preferences stronger than 0.3 keyed by
        type (with several rows for a type, the weakest shown one wins, being
        written last), and the statistics of the user's sessions. */
    method GetUserProfile(userId: string := "default") returns (profile: Profile)
      ensures profile.userId == userId
      ensures forall t :: t in profile.preferences <==>
        exists p | p in preferences :: Shown(p, userId) && p.preferenceType == t
      ensures forall t | t in profile.preferences ::
        exists p | p in preferences :: (Shown(p, userId) && p.preferenceType == t
          && profile.preferences[t] == ShownPreference(p.value, p.strength))
      ensures forall p | p in preferences && Shown(p, userId) ::
        profile.preferences[p.preferenceType].strength <= p.strength
      ensures profile.statistics == SessionStatistics(conversations, userId)
    {
      var rows := ShownRows(preferences, userId);
      var shown := PreferencesByType(rows);
      ProfileKeys(preferences, userId, rows, shown);
      ProfileEntries(preferences, userId, rows, shown);
      ProfileWeakestWins(preferences, userId, rows, shown);
      profile := Profile(userId, shown, SessionStatistics(conversations, userId));
    }

    /** `cleanup_old_memory`: deletes old unimportant turns and decays facts
        not used since the cutoff. */
    method CleanupOldMemory(now: int, daysOld: int := 30)
      requires Valid()
      modifies this`conversations, this`knowledge
      ensures Valid()
      ensures conversations == Purge(old(conversations), Cutoff(now, daysOld))
      ensures knowledge == Decay(old(knowledge), Cutoff(now, daysOld))
    {
      var cutoff := Cutoff(now, daysOld);
      PurgeExact(conversations, cutoff);
      FilterCounts(conversations, c => !Expired(c, cutoff));
      conversations := Purge(conversations, cutoff);
      knowledge := Decay(knowledge, cutoff);
    }
  }
}
