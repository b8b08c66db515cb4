/** The `paragraph_generator` self-loop on its own, to compare where the router looks. LangGraph
    evaluates `blogGeneratorCycle` on the state after the node's update was merged; a router that
    saw the snapshot the node itself was given (the counter before the increment) would run the
    node one extra time and read one point past the end of the outline. */
module ParagraphLoop {
  import opened Wrappers
  import opened AgentState
  import opened Graph
  import opened Nodes
  import opened Executor

  /** `[lo, lo + 1, ..., hi - 1]` */
  function Range(lo: int, hi: int): seq<int>
    decreases hi - lo
  {
    if lo >= hi then [] else [lo] + Range(lo + 1, hi)
  }

  function Max(a: int, b: int): int
  {
    if a >= b then a else b
  }

  /** The state after one `paragraph_generator` run from `s`: the counter one higher and the text
      written for the outline point at the old counter appended to the article. */
  function AfterRun(s: State, o: Oracle): State
    requires s.articleOutline.Some?
  {
    var step := s.articleGeneratorStep;
    s.(articleGeneratorStep := step + 1,
       article := s.article + o.paragraph(step, OutlineAt(s.articleOutline.value, step)))
  }

  /** `AfterRun` is the node's own update merged through the reducers. */
  lemma AfterRunIsMerge(s: State, o: Oracle)
    requires s.articleOutline.Some?
    ensures AfterRun(s, o) == Merge(s, Invoke(ParagraphGenerator, s, o).value)
  {
  }

  /** The outline indices read (index.ts:162) by successive `paragraph_generator` runs from `s`,
      at most `fuel` of them; a run without an outline throws and reads nothing. After each run
      the router sees the merged state or, when `preMerge` holds, the snapshot the run was given. */
  function ParagraphReads(s: State, o: Oracle, preMerge: bool, fuel: nat): seq<int>
    decreases fuel
  {
    if fuel == 0 || s.articleOutline.None? then []
    else
      var t := AfterRun(s, o);
      [s.articleGeneratorStep] +
      (if BlogGeneratorCycle(if preMerge then s else t) == Some(Continue) then ParagraphReads(t, o, preMerge, fuel - 1) else [])
  }

  /** Routing on the merged state: from counter `j`, the loop reads `j, ..., n - 1` (just `j` if
      `j` is already at or past `n`) and stops. */
  lemma {:induction false} MergedRouterReads(s: State, o: Oracle, fuel: nat)
    requires s.articleOutline.Some?
    requires fuel >= Max(|s.articleOutline.value.outline|, s.articleGeneratorStep + 1) - s.articleGeneratorStep
    ensures ParagraphReads(s, o, false, fuel) ==
      Range(s.articleGeneratorStep, Max(|s.articleOutline.value.outline|, s.articleGeneratorStep + 1))
    decreases fuel
  {
    var n, j := |s.articleOutline.value.outline|, s.articleGeneratorStep;
    var t := AfterRun(s, o);
    RangeCons(j, Max(n, j + 1));
    if j + 1 < n {
      assert BlogGeneratorCycle(t) == Some(Continue);
      MergedRouterReads(t, o, fuel - 1);
    } else {
      assert BlogGeneratorCycle(t) == Some(Stop);
    }
  }

  /** Routing on the pre-merge snapshot: from counter `j <= n`, the loop reads `j, ..., n`, one
      index more than the outline has. */
  lemma {:induction false} PreMergeRouterReads(s: State, o: Oracle, fuel: nat)
    requires s.articleOutline.Some?
    requires s.articleGeneratorStep <= |s.articleOutline.value.outline|
    requires fuel >= |s.articleOutline.value.outline| + 1 - s.articleGeneratorStep
    ensures ParagraphReads(s, o, true, fuel) ==
      Range(s.articleGeneratorStep, |s.articleOutline.value.outline| + 1)
    decreases fuel
  {
    var n, j := |s.articleOutline.value.outline|, s.articleGeneratorStep;
    var t := AfterRun(s, o);
    RangeCons(j, n + 1);
    if j < n {
      assert BlogGeneratorCycle(s) == Some(Continue);
      PreMergeRouterReads(t, o, fuel - 1);
    } else {
      assert BlogGeneratorCycle(s) == Some(Stop);
    }
  }

  lemma RangeCons(lo: int, hi: int)
    requires lo < hi
    ensures Range(lo, hi) == [lo] + Range(lo + 1, hi)
    ensures lo + 1 == hi ==> Range(lo + 1, hi) == []
  {
  }

  /** Every index in `Range(lo, hi)` lies in `[lo, hi)`, and the last one is `hi - 1`. */
  lemma {:induction false} RangeBounds(lo: int, hi: int)
    ensures |Range(lo, hi)| == if lo >= hi then 0 else hi - lo
    ensures forall i :: 0 <= i < |Range(lo, hi)| ==> Range(lo, hi)[i] == lo + i
    decreases hi - lo
  {
    if lo < hi {
      RangeBounds(lo + 1, hi);
    }
  }

  /** From the state the outline generator leaves (counter 0, an outline of `n >= 1` points), the
      loop as LangGraph routes it runs exactly `n` times and reads only indices below `n`; routed
      on the pre-merge counter it would run `n + 1` times and its last read, `outline[n]`, would be
      `undefined`. */
  lemma OffByOneHazard(s: State, o: Oracle)
    requires s.articleOutline.Some? && s.articleGeneratorStep == 0
    requires |s.articleOutline.value.outline| >= 1
    ensures var n := |s.articleOutline.value.outline|;
      var merged := ParagraphReads(s, o, false, n + 1);
      var preMerge := ParagraphReads(s, o, true, n + 1);
      |merged| == n && (forall i :: 0 <= i < n ==> merged[i] == i) &&
      |preMerge| == n + 1 && preMerge[n] == n && OutlineAt(s.articleOutline.value, preMerge[n]).None?
  {
    var n := |s.articleOutline.value.outline|;
    MergedRouterReads(s, o, n + 1);
    PreMergeRouterReads(s, o, n + 1);
    RangeBounds(0, n);
    RangeBounds(0, n + 1);
  }

  /** In a run of the graph, the loop starts from the state left after the three fixed nodes; the
      counter values its runs read are the ones the streamed `paragraph_generator` events carry. */
  lemma LoopInRun(query: string, o: Oracle)
    ensures StateAfter(query, o, 3).articleOutline == Some(o.outline)
    ensures StateAfter(query, o, 3).articleGeneratorStep == 0
    ensures var indices := ParagraphReads(StateAfter(query, o, 3), o, false, Rounds(o));
      |indices| == Rounds(o) &&
      forall i :: 0 <= i < |indices| ==> Trace(o)[3 + i].update.articleGeneratorStep == Some(indices[i])
  {
    StateAtParagraph(query, o, 0);
    var s := StateAfter(query, o, 3);
    MergedRouterReads(s, o, Rounds(o));
    RangeBounds(0, Rounds(o));
    TraceShape(o);
  }
}
