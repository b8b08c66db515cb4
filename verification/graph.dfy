/** The graph's wiring (index.ts:174-186): four nodes, three fixed edges, the conditional
    self-loop on `paragraph_generator` driven by the router `blogGeneratorCycle`
    (index.ts:140-148), the entry point and the recursion limit (index.ts:192). */
module Graph {
  import opened Wrappers
  import opened AgentState

  datatype Node = WebResearcher | KeywordAnalyzer | OutlineGenerator | ParagraphGenerator

  /** Where control goes after a node: another node, or the `END` sentinel. */
  datatype Target = Goto(node: Node) | End

  /** The router's labels, `"continue"` and `"end"`. */
  datatype Label = Continue | Stop

  /** `graph.setEntryPoint("web_researcher")` */
  const Entry: Node := WebResearcher

  /** `{ recursionLimit: 100 }` */
  const RecursionLimit: nat := 100

  /** Position of a node in the pipeline, a reference for the order the fixed edges impose. */
  function Stage(n: Node): nat
  {
    match n
    case WebResearcher => 0
    case KeywordAnalyzer => 1
    case OutlineGenerator => 2
    case ParagraphGenerator => 3
  }

  /** `blogGeneratorCycle`: continue while `outline.length - 1 >= articleGeneratorStep`.
      Reading `.outline` of an outline that was never written throws; that is `None`. */
  function BlogGeneratorCycle(s: State): (r: Option<Label>)
    ensures r.None? <==> s.articleOutline.None?
    ensures r == Some(Continue) <==> s.articleOutline.Some? && s.articleGeneratorStep < |s.articleOutline.value.outline|
    ensures r == Some(Stop) <==> s.articleOutline.Some? && s.articleGeneratorStep >= |s.articleOutline.value.outline|
  {
    match s.articleOutline
    case None => None
    case Some(o) => if |o.outline| - 1 >= s.articleGeneratorStep then Some(Continue) else Some(Stop)
  }

  /** The label map of the conditional edge: `continue` to `paragraph_generator`, `end` to `END`. */
  function CycleTarget(l: Label): Target
  {
    match l
    case Continue => Goto(ParagraphGenerator)
    case Stop => End
  }

  /** The node that follows `n`, given the state after `n`'s update was merged. */
  function Next(n: Node, s: State): (r: Option<Target>)
    ensures n != ParagraphGenerator ==> r.Some? && r.value.Goto? && Stage(r.value.node) == Stage(n) + 1
    ensures n == ParagraphGenerator ==>
      (r == Some(Goto(ParagraphGenerator)) <==> s.articleOutline.Some? && s.articleGeneratorStep < |s.articleOutline.value.outline|) &&
      (r == Some(End) <==> s.articleOutline.Some? && s.articleGeneratorStep >= |s.articleOutline.value.outline|)
  {
    match n
    case WebResearcher => Some(Goto(KeywordAnalyzer))
    case KeywordAnalyzer => Some(Goto(OutlineGenerator))
    case OutlineGenerator => Some(Goto(ParagraphGenerator))
    case ParagraphGenerator =>
      match BlogGeneratorCycle(s)
      case None => None
      case Some(l) => Some(CycleTarget(l))
  }
}
