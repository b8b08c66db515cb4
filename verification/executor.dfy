/** One run of the compiled graph, as `app.stream({ query }, { recursionLimit: 100 })` drives it
    (index.ts:190-193): start at the entry node, invoke the current node on a snapshot, merge its
    update through the reducers, emit a step event, route on the merged state, and stop at `END`
    or when the invocation count reaches the limit. */
module Executor {
  import opened Wrappers
  import opened AgentState
  import opened Graph
  import opened Nodes

  /** A streamed chunk: the node that just completed and the partial update it returned. */
  datatype Event = Event(node: Node, update: Update)

  datatype Status = Done | RecursionLimitExceeded

  /** How a run ended, its last state, and every event it emitted, in order. */
  datatype Outcome = Outcome(status: Status, state: State, events: seq<Event>)

  /** The partial updates the events carry, in the order they were emitted. */
  function Updates(es: seq<Event>): seq<Update>
  {
    seq(|es|, i requires 0 <= i < |es| => es[i].update)
  }

  /** The updates of events emitted one after another are the first events' updates followed by
      the later ones'. */
  lemma UpdatesAppend(a: seq<Event>, b: seq<Event>)
    ensures Updates(a + b) == Updates(a) + Updates(b)
  {
  }

  /** The number of `paragraph_generator` events in `es`. */
  function ParagraphRuns(es: seq<Event>): nat
  {
    if es == [] then 0 else (if es[0].node == ParagraphGenerator then 1 else 0) + ParagraphRuns(es[1..])
  }

  /** The live state of one run: one field per channel, updated in place between nodes. */
  class RunInstance {
    var query: Option<string>
    var searchResult: Option<string>
    var keywordAnalysis: Option<KeywordAnalysis>
    var articleOutline: Option<Outline>
    var articleGeneratorStep: nat
    var article: string

    /** The read-only snapshot a node or the router is given. */
    function Snapshot(): State
      reads this
    {
      State(query, searchResult, keywordAnalysis, articleOutline, articleGeneratorStep, article)
    }

    /** Every channel at its default, then the input `{ query }` merged in. */
    constructor (seed: string)
      ensures Snapshot() == Initial(seed)
    {
      query, searchResult, keywordAnalysis, articleOutline := None, None, None, None;
      articleGeneratorStep, article := 0, "";
      new;
      Apply(Seed(seed));
    }

    /** Reduces each key of `u` into its channel; channels `u` omits are left alone. */
    method Apply(u: Update)
      modifies this
      ensures Snapshot() == Merge(old(Snapshot()), u)
    {
      if u.query.Some? {
        query := LastValue(query, u.query.value);
      }
      if u.searchResult.Some? {
        searchResult := LastValue(searchResult, u.searchResult.value);
      }
      if u.keywordAnalysis.Some? {
        keywordAnalysis := LastValue(keywordAnalysis, u.keywordAnalysis.value);
      }
      if u.articleOutline.Some? {
        articleOutline := LastValue(articleOutline, u.articleOutline.value);
      }
      if u.articleGeneratorStep.Some? {
        articleGeneratorStep := CountStep(articleGeneratorStep, u.articleGeneratorStep.value);
      }
      if u.article.Some? {
        article := AppendArticle(article, u.article.value);
      }
    }
  }

  // ---------------------------------------------------------------------------------------------
  // The run in closed form: the events a run with oracle `o` emits when nothing stops it.

  /** How many times `paragraph_generator` runs: once per outline point, and once even for an
      empty outline, since the router is only consulted after the node. */
  function Rounds(o: Oracle): nat
  {
    if |o.outline.outline| == 0 then 1 else |o.outline.outline|
  }

  /** The text written by the paragraph run that reads counter value `k`. */
  function Paragraph(o: Oracle, k: nat): string
  {
    o.paragraph(k, OutlineAt(o.outline, k))
  }

  /** The first `k` paragraphs, joined in order. */
  function Article(o: Oracle, k: nat): string
  {
    if k == 0 then "" else Article(o, k - 1) + Paragraph(o, k - 1)
  }

  function ParagraphEvent(o: Oracle, k: nat): Event
  {
    Event(ParagraphGenerator, NoUpdate.(articleGeneratorStep := Some(k as int), article := Some(Paragraph(o, k))))
  }

  /** The events of a complete run, in order. */
  function Trace(o: Oracle): seq<Event>
  {
    [ Event(WebResearcher, NoUpdate.(searchResult := Some(o.searchResults))),
      Event(KeywordAnalyzer, NoUpdate.(keywordAnalysis := Some(o.keywordAnalysis))),
      Event(OutlineGenerator, NoUpdate.(articleOutline := Some(o.outline))) ] +
    seq(Rounds(o), k requires 0 <= k < Rounds(o) => ParagraphEvent(o, k))
  }

  /** The node about to run after `i` invocations, or `END`. */
  function TargetAt(o: Oracle, i: nat): Target
  {
    if i < |Trace(o)| then Goto(Trace(o)[i].node) else End
  }

  /** The state after the first `i` events of the run have been merged. */
  function StateAfter(query: string, o: Oracle, i: nat): State
    requires i <= |Trace(o)|
  {
    MergeAll(Initial(query), Updates(Trace(o)[..i]))
  }

  lemma TraceShape(o: Oracle)
    ensures |Trace(o)| == 3 + Rounds(o)
    ensures Trace(o)[0].node == WebResearcher && Trace(o)[1].node == KeywordAnalyzer && Trace(o)[2].node == OutlineGenerator
    ensures forall k :: 0 <= k < Rounds(o) ==> Trace(o)[3 + k] == ParagraphEvent(o, k)
  {
  }

  lemma StateAfterNext(query: string, o: Oracle, i: nat)
    requires i < |Trace(o)|
    ensures StateAfter(query, o, i + 1) == Merge(StateAfter(query, o, i), Trace(o)[i].update)
  {
    var t := Trace(o);
    assert t[..i + 1] == t[..i] + [t[i]];
    UpdatesAppend(t[..i], [t[i]]);
    MergeAllSnoc(Initial(query), Updates(t[..i]), t[i].update);
  }

  /** Before its `k`-th run (from 0), `paragraph_generator` sees the seeded query, the three
      results of the fixed nodes, the counter at `k` and the first `k` paragraphs. */
  lemma {:induction false} StateAtParagraph(query: string, o: Oracle, k: nat)
    requires k <= Rounds(o)
    ensures StateAfter(query, o, 3 + k) ==
      State(Some(query), Some(o.searchResults), Some(o.keywordAnalysis), Some(o.outline), k, Article(o, k))
  {
    TraceShape(o);
    if k == 0 {
      StateAfterNext(query, o, 0);
      StateAfterNext(query, o, 1);
      StateAfterNext(query, o, 2);
      assert Trace(o)[..0] == [];
    } else {
      StateAtParagraph(query, o, k - 1);
      StateAfterNext(query, o, 3 + (k - 1));
    }
  }

  /** The `i`-th invocation of the run returns the `i`-th event's update, and the router then
      names the node of event `i + 1`, or `END` after the last event. */
  lemma ExecutorStep(query: string, o: Oracle, i: nat)
    requires i < |Trace(o)|
    ensures Invoke(Trace(o)[i].node, StateAfter(query, o, i), o) == Some(Trace(o)[i].update)
    ensures Next(Trace(o)[i].node, StateAfter(query, o, i + 1)) == Some(TargetAt(o, i + 1))
  {
    TraceShape(o);
    if i >= 3 {
      var k := i - 3;
      StateAtParagraph(query, o, k);
      StateAtParagraph(query, o, k + 1);
    }
  }

  /** Runs the graph with oracle `o` and at most `limit` invocations. A run that fits in the limit
      emits the whole trace and ends at `END`; one that does not emits exactly `limit` events and
      fails. Either way, the last state is what merging the emitted updates into the seeded
      defaults gives. */
  method Execute(query: string, o: Oracle, limit: nat) returns (out: Outcome)
    ensures out.status == Done <==> 3 + Rounds(o) <= limit
    ensures out.status == Done ==> out.events == Trace(o)
    ensures out.status == RecursionLimitExceeded ==> |out.events| == limit && out.events == Trace(o)[..limit]
    ensures out.state == MergeAll(Initial(query), Updates(out.events))
  {
    TraceShape(o);
    var run := new RunInstance(query);
    var current := Goto(Entry);
    var invocations: nat := 0;
    var events: seq<Event> := [];
    var status := Done;
    while current != End
      invariant invocations <= |Trace(o)| && invocations <= limit
      invariant current == TargetAt(o, invocations)
      invariant events == Trace(o)[..invocations]
      invariant run.Snapshot() == StateAfter(query, o, invocations)
      invariant status == Done
      decreases |Trace(o)| - invocations
    {
      if invocations >= limit {
        status := RecursionLimitExceeded;
        break;
      }
      var node := current.node;
      ExecutorStep(query, o, invocations);
      var update := Invoke(node, run.Snapshot(), o).value;
      run.Apply(update);
      events := events + [Event(node, update)];
      StateAfterNext(query, o, invocations);
      invocations := invocations + 1;
      current := Next(node, run.Snapshot()).value;
    }
    assert current == End ==> events == Trace(o);
    out := Outcome(status, run.Snapshot(), events);
  }

  /** `query` keeps its seeded value in every state of the run: no node returns that key. */
  lemma QueryKept(query: string, o: Oracle, i: nat)
    requires i <= |Trace(o)|
    ensures StateAfter(query, o, i).query == Some(query)
  {
    TraceShape(o);
    var us := Updates(Trace(o)[..i]);
    forall j | 0 <= j < |us|
      ensures QueryChannel !in Keys(us[j])
    {
      assert us[j] == Trace(o)[j].update;
      if j >= 3 {
        assert Trace(o)[j] == ParagraphEvent(o, j - 3);
      }
    }
    MergeAllUntouched(Initial(query), us, QueryChannel);
  }

  /** When exactly the `paragraph_generator` events write the counter, the counter's writes
      are the paragraph runs. */
  lemma {:induction false} ParagraphRunsAreStepWrites(es: seq<Event>)
    requires forall j :: 0 <= j < |es| ==> (es[j].update.articleGeneratorStep.Some? <==> es[j].node == ParagraphGenerator)
    ensures ParagraphRuns(es) == StepWrites(Updates(es))
    decreases |es|
  {
    if es != [] {
      assert es == [es[0]] + es[1..];
      UpdatesAppend([es[0]], es[1..]);
      ParagraphRunsAreStepWrites(es[1..]);
    }
  }

  /** The counter always equals the number of `paragraph_generator` runs so far, and the article
      is the texts those runs returned, joined in the order they ran. */
  lemma CounterAndArticleAfter(query: string, o: Oracle, i: nat)
    requires i <= |Trace(o)|
    ensures StateAfter(query, o, i).articleGeneratorStep == ParagraphRuns(Trace(o)[..i])
    ensures StateAfter(query, o, i).article == ArticleWrites(Updates(Trace(o)[..i]))
  {
    TraceShape(o);
    var es := Trace(o)[..i];
    forall j | 0 <= j < |es|
      ensures es[j].update.articleGeneratorStep.Some? <==> es[j].node == ParagraphGenerator
    {
      if j >= 3 {
        assert es[j] == ParagraphEvent(o, j - 3);
      }
    }
    ParagraphRunsAreStepWrites(es);
    MergeAllCounter(Initial(query), Updates(es));
    MergeAllArticle(Initial(query), Updates(es));
  }

  /** On its `k`-th run with an outline of `n >= 1` points, `paragraph_generator` sees the counter
      at `k < n`, so the outline point it reads exists. */
  lemma ReadsInBounds(query: string, o: Oracle, k: nat)
    requires |o.outline.outline| >= 1 && k < Rounds(o)
    ensures StateAfter(query, o, 3 + k).articleGeneratorStep == k < |o.outline.outline|
    ensures StateAfter(query, o, 3 + k).articleOutline == Some(o.outline)
    ensures OutlineAt(o.outline, StateAfter(query, o, 3 + k).articleGeneratorStep) == Some(o.outline.outline[k])
  {
    StateAtParagraph(query, o, k);
  }

  /** With an empty outline, `paragraph_generator` still runs once, reads the missing point 0,
      and only then does the router end the run. */
  lemma EmptyOutlineReadsUndefined(query: string, o: Oracle)
    requires |o.outline.outline| == 0
    ensures Rounds(o) == 1 && |Trace(o)| == 4 && Trace(o)[3].node == ParagraphGenerator
    ensures StateAfter(query, o, 3).articleGeneratorStep == 0
    ensures OutlineAt(o.outline, StateAfter(query, o, 3).articleGeneratorStep).None?
    ensures Next(ParagraphGenerator, StateAfter(query, o, 4)) == Some(End)
  {
    StateAtParagraph(query, o, 0);
    StateAtParagraph(query, o, 1);
  }

  /** The request handler's run: the graph with its recursion limit of 100. The article is
      complete exactly when the outline has at most 97 points; then `paragraph_generator` ran once
      per point (once for an empty outline), the counter stopped at that count and the article is
      the paragraphs in outline order. The query keeps its seed, and the counter and the article
      agree with the streamed events whether or not the run completed. */
  method GenerateArticle(query: string, o: Oracle) returns (out: Outcome)
    ensures out.status == Done <==> |o.outline.outline| <= RecursionLimit - 3
    ensures out.status == Done && |o.outline.outline| >= 1 ==>
      ParagraphRuns(out.events) == |o.outline.outline| == out.state.articleGeneratorStep
    ensures out.status == Done && |o.outline.outline| == 0 ==> ParagraphRuns(out.events) == 1
    ensures out.status == Done ==> out.state.article == Article(o, Rounds(o))
    ensures out.state.query == Some(query)
    ensures out.state.articleGeneratorStep == ParagraphRuns(out.events)
    ensures out.state.article == ArticleWrites(Updates(out.events))
  {
    out := Execute(query, o, RecursionLimit);
    TraceShape(o);
    var i := if out.status == Done then |Trace(o)| else RecursionLimit;
    assert out.events == Trace(o)[..i];
    QueryKept(query, o, i);
    CounterAndArticleAfter(query, o, i);
    if out.status == Done {
      StateAtParagraph(query, o, Rounds(o));
    }
  }
}
