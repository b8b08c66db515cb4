/** The four node step functions, with the search API and the language model replaced by an
    oracle: the values those foreign calls return in one run. */
module Nodes {
  import opened Wrappers
  import opened AgentState
  import opened Graph

  /** What the foreign calls return: Tavily's results (index.ts:71-73), the keyword analysis and
      the outline parsed from the model's JSON (index.ts:95-102, 125-136), and the content of the
      paragraph the model writes for a given counter value and outline point (index.ts:159-170). */
  datatype Oracle = Oracle(
    searchResults: string,
    keywordAnalysis: KeywordAnalysis,
    outline: Outline,
    paragraph: (nat, Option<OutlinePoint>) -> string)

  /** `outline[i]` in JavaScript: `undefined` past either end. */
  function OutlineAt(o: Outline, i: int): Option<OutlinePoint>
  {
    if 0 <= i < |o.outline| then Some(o.outline[i]) else None
  }

  /** The keys each node returns. */
  function Writes(n: Node): set<Channel>
  {
    match n
    case WebResearcher => {SearchResultChannel}
    case KeywordAnalyzer => {KeywordAnalysisChannel}
    case OutlineGenerator => {ArticleOutlineChannel}
    case ParagraphGenerator => {StepChannel, ArticleChannel}
  }

  /** Runs node `n` on a snapshot. `paragraph_generator` reads the outline point at the counter
      and writes the counter back with the new text; it throws (`None`) when no outline was
      written, since it reads `.outline` of `undefined`. */
  function Invoke(n: Node, s: State, o: Oracle): (r: Option<Update>)
    ensures r.None? <==> n == ParagraphGenerator && s.articleOutline.None?
    ensures r.Some? ==> Keys(r.value) == Writes(n)
    ensures r.Some? && n == ParagraphGenerator ==> r.value.articleGeneratorStep == Some(s.articleGeneratorStep as int)
  {
    match n
    case WebResearcher => Some(NoUpdate.(searchResult := Some(o.searchResults)))
    case KeywordAnalyzer => Some(NoUpdate.(keywordAnalysis := Some(o.keywordAnalysis)))
    case OutlineGenerator => Some(NoUpdate.(articleOutline := Some(o.outline)))
    case ParagraphGenerator =>
      match s.articleOutline
      case None => None
      case Some(outline) =>
        var title := OutlineAt(outline, s.articleGeneratorStep);
        Some(NoUpdate.(articleGeneratorStep := Some(s.articleGeneratorStep as int),
                       article := Some(o.paragraph(s.articleGeneratorStep, title))))
  }
}
