/** The shared state of the article-writing graph (`agentState`, index.ts:29-43): six channels,
    the reducer each one merges writes with, and the merge of a node's partial update. */
module AgentState {
  import opened Wrappers

  /** What the keyword analyzer returns (index.ts:9-14). */
  datatype KeywordAnalysis = KeywordAnalysis(mainKeyword: string, keywords: string, lsiKeywords: string, ltKeywords: string)

  /** What the outline generator returns (index.ts:16-22). */
  datatype OutlinePoint = OutlinePoint(outlineContent: string)
  datatype Outline = Outline(outline: seq<OutlinePoint>)

  /** A snapshot of the shared state. The four plain channels keep the last value written and
      are empty (`None`) until their first write; the counter and the article always hold a value. */
  datatype State = State(
    query: Option<string>,
    searchResult: Option<string>,
    keywordAnalysis: Option<KeywordAnalysis>,
    articleOutline: Option<Outline>,
    articleGeneratorStep: nat,
    article: string)

  /** A node's partial update: `Some` for each key the node returned, `None` for a key it omitted. */
  datatype Update = Update(
    query: Option<string>,
    searchResult: Option<string>,
    keywordAnalysis: Option<KeywordAnalysis>,
    articleOutline: Option<Outline>,
    articleGeneratorStep: Option<int>,
    article: Option<string>)

  datatype Channel = QueryChannel | SearchResultChannel | KeywordAnalysisChannel | ArticleOutlineChannel | StepChannel | ArticleChannel

  /** The update that returns no key at all. */
  const NoUpdate: Update := Update(None, None, None, None, None, None)

  /** The keys a partial update carries. */
  function Keys(u: Update): set<Channel>
  {
    (if u.query.Some? then {QueryChannel} else {}) +
    (if u.searchResult.Some? then {SearchResultChannel} else {}) +
    (if u.keywordAnalysis.Some? then {KeywordAnalysisChannel} else {}) +
    (if u.articleOutline.Some? then {ArticleOutlineChannel} else {}) +
    (if u.articleGeneratorStep.Some? then {StepChannel} else {}) +
    (if u.article.Some? then {ArticleChannel} else {})
  }

  /** Channel `c` holds the same value in `s` and `t`. */
  predicate SameOn(s: State, t: State, c: Channel)
  {
    match c
    case QueryChannel => s.query == t.query
    case SearchResultChannel => s.searchResult == t.searchResult
    case KeywordAnalysisChannel => s.keywordAnalysis == t.keywordAnalysis
    case ArticleOutlineChannel => s.articleOutline == t.articleOutline
    case StepChannel => s.articleGeneratorStep == t.articleGeneratorStep
    case ArticleChannel => s.article == t.article
  }

  /** Reducer of the plain channels: the incoming value replaces the current one. */
  function LastValue<T>(current: Option<T>, incoming: T): Option<T>
  {
    Some(incoming)
  }

  /** Reducer of `articleGeneratorStep` (index.ts:35): one more than the current value; the
      incoming value is not looked at. */
  function CountStep(current: nat, incoming: int): nat
  {
    current + 1
  }

  /** Reducer of `article` (index.ts:39-40): string concatenation. */
  function AppendArticle(current: string, incoming: string): string
  {
    current + incoming
  }

  /** Merges a partial update into the state, each returned key through its channel's reducer. */
  function Merge(s: State, u: Update): (r: State)
    ensures forall c :: c !in Keys(u) ==> SameOn(s, r, c)
    ensures u.query.Some? ==> r.query == u.query
    ensures u.searchResult.Some? ==> r.searchResult == u.searchResult
    ensures u.keywordAnalysis.Some? ==> r.keywordAnalysis == u.keywordAnalysis
    ensures u.articleOutline.Some? ==> r.articleOutline == u.articleOutline
    ensures u.articleGeneratorStep.Some? ==> r.articleGeneratorStep == s.articleGeneratorStep + 1
    ensures u.article.Some? ==> r.article == s.article + u.article.value
  {
    State(
      if u.query.Some? then LastValue(s.query, u.query.value) else s.query,
      if u.searchResult.Some? then LastValue(s.searchResult, u.searchResult.value) else s.searchResult,
      if u.keywordAnalysis.Some? then LastValue(s.keywordAnalysis, u.keywordAnalysis.value) else s.keywordAnalysis,
      if u.articleOutline.Some? then LastValue(s.articleOutline, u.articleOutline.value) else s.articleOutline,
      if u.articleGeneratorStep.Some? then CountStep(s.articleGeneratorStep, u.articleGeneratorStep.value) else s.articleGeneratorStep,
      if u.article.Some? then AppendArticle(s.article, u.article.value) else s.article)
  }

  /** Every channel at its default: the plain channels empty, the counter at `() => 0`
      (index.ts:36) and the article at `() => ""` (index.ts:41). */
  const Defaults: State := State(None, None, None, None, 0, "")

  /** The run's input `{ query }` (index.ts:191). */
  function Seed(query: string): Update
  {
    NoUpdate.(query := Some(query))
  }

  /** The state a run starts from: the defaults with the seed merged in. */
  function Initial(query: string): (r: State)
    ensures r.query == Some(query)
    ensures r.searchResult.None? && r.keywordAnalysis.None? && r.articleOutline.None?
    ensures r.articleGeneratorStep == 0 && r.article == ""
  {
    Merge(Defaults, Seed(query))
  }

  /** The state after merging the updates `us` into `s`, in order. */
  function MergeAll(s: State, us: seq<Update>): State
    decreases |us|
  {
    if us == [] then s else Merge(MergeAll(s, us[..|us| - 1]), us[|us| - 1])
  }

  /** The number of updates in `us` that write the counter. */
  function StepWrites(us: seq<Update>): nat
  {
    if us == [] then 0 else (if us[0].articleGeneratorStep.Some? then 1 else 0) + StepWrites(us[1..])
  }

  /** The article texts carried by `us`, joined in arrival order. */
  function ArticleWrites(us: seq<Update>): string
  {
    if us == [] then "" else (if us[0].article.Some? then us[0].article.value else "") + ArticleWrites(us[1..])
  }

  lemma MergeAllSnoc(s: State, us: seq<Update>, u: Update)
    ensures MergeAll(s, us + [u]) == Merge(MergeAll(s, us), u)
  {
    assert (us + [u])[..|us|] == us;
  }

  lemma {:induction false} StepWritesSnoc(us: seq<Update>, u: Update)
    ensures StepWrites(us + [u]) == StepWrites(us) + (if u.articleGeneratorStep.Some? then 1 else 0)
    decreases |us|
  {
    if us == [] {
      assert [] + [u] == [u];
    } else {
      assert (us + [u])[1..] == us[1..] + [u];
      StepWritesSnoc(us[1..], u);
    }
  }

  lemma {:induction false} ArticleWritesSnoc(us: seq<Update>, u: Update)
    ensures ArticleWrites(us + [u]) == ArticleWrites(us) + (if u.article.Some? then u.article.value else "")
    decreases |us|
  {
    if us == [] {
      assert [] + [u] == [u];
    } else {
      assert (us + [u])[1..] == us[1..] + [u];
      ArticleWritesSnoc(us[1..], u);
    }
  }

  /** The counter grows by exactly one per update that writes it, whatever the values written. */
  lemma {:induction false} MergeAllCounter(s: State, us: seq<Update>)
    ensures MergeAll(s, us).articleGeneratorStep == s.articleGeneratorStep + StepWrites(us)
    decreases |us|
  {
    if us != [] {
      var init, last := us[..|us| - 1], us[|us| - 1];
      assert us == init + [last];
      MergeAllCounter(s, init);
      StepWritesSnoc(init, last);
    }
  }

  /** The article is the current article followed by every written text, in arrival order. */
  lemma {:induction false} MergeAllArticle(s: State, us: seq<Update>)
    ensures MergeAll(s, us).article == s.article + ArticleWrites(us)
    decreases |us|
  {
    if us != [] {
      var init, last := us[..|us| - 1], us[|us| - 1];
      assert us == init + [last];
      MergeAllArticle(s, init);
      ArticleWritesSnoc(init, last);
    }
  }

  /** A channel that no update in `us` names keeps its value. */
  lemma {:induction false} MergeAllUntouched(s: State, us: seq<Update>, c: Channel)
    requires forall i :: 0 <= i < |us| ==> c !in Keys(us[i])
    ensures SameOn(s, MergeAll(s, us), c)
    decreases |us|
  {
    if us != [] {
      MergeAllUntouched(s, us[..|us| - 1], c);
      assert c !in Keys(us[|us| - 1]);
    }
  }
}
