# Article-writing graph: a Dafny model

This project models the control logic of the article generator in `index.ts`. That logic is a
LangGraph `StateGraph` with six shared channels:

- `query`, `searchResult`, `keywordAnalysis` and `articleOutline` keep the last value written.
- `articleGeneratorStep` counts writes. Its reducer is `x => x + 1` and its default is 0.
- `article` appends by string concatenation. Its default is `""`.

The graph has four nodes. Fixed edges run `web_researcher → keyword_analyzer → outline_generator →
paragraph_generator`. `paragraph_generator` loops on itself through the router
`blogGeneratorCycle` until that router answers `"end"`. A request runs the graph with a recursion
limit of 100.

Modules:

- `Wrappers` (`wrappers.dfy`): `Option`. `None` stands for JavaScript's `undefined`.
- `AgentState` (`agent_state.dfy`): the channels, their reducers, `Merge` (one partial update) and
  `MergeAll` (a sequence of updates), with lemmas about the counter, the article and the channels
  left untouched.
- `Graph` (`graph.dfy`): the nodes, the router, the edge table, the entry point and the limit.
- `Nodes` (`nodes.dfy`): each node's step function. The search API and the language model are
  replaced by an `Oracle`: the results, keyword analysis, outline and paragraph texts those
  foreign calls return in one run.
- `Executor` (`executor.dfy`): `RunInstance`, a class with one field per channel that `Apply`
  updates in place. It also holds `Execute`, the executor loop (start at the entry node, invoke,
  merge, emit an event, route on the merged state, count invocations against the limit), and
  `GenerateArticle`, the request's run with the limit of 100. `Trace` is the closed form of a
  complete run; the lemmas about it state what the loop achieves.
- `ParagraphLoop` (`paragraph_loop.dfy`): the paragraph loop on its own. It compares routing on
  the merged counter (what LangGraph does) with routing on the counter the node was given.

Two points of the program that the model pins down:

- The router runs on the state after the node's update is merged, so it sees the incremented
  counter. With that, the loop runs once per outline point, and once for an empty outline. `OffByOneHazard` shows what routing
  on the counter the node was given would do: one extra run that reads `outline[n]`.
- The plain channels are declared with the value `""`, which LangGraph does not treat as a
  default, so they are empty (`None`) until their first write.

## Model

| member | source | states |
|---|---|---|
| `AgentState.Merge` | index.ts:29-43 | A merge changes only the channels the update names. A plain channel takes the written value. The counter becomes its old value plus 1, whatever value was written. The article becomes the old article followed by the written text. |
| `AgentState.Initial` | index.ts:29-43 | A run starts with the counter at 0, the article at `""` and `query` seeded from the input `{ query }` (index.ts:191). The other three channels are still empty. |
| `AgentState.MergeAllCounter` | index.ts:34-37 | After any sequence of merges, the counter has grown by exactly the number of updates that wrote it. |
| `AgentState.MergeAllArticle` | index.ts:38-42 | After any sequence of merges, the article is the old article followed by every written text, in arrival order. |
| `AgentState.MergeAllUntouched` | index.ts:29-43 | A channel that no update in the sequence names keeps its value. |
| `Graph.BlogGeneratorCycle` | index.ts:140-148 | The router says `"continue"` exactly when an outline exists and the counter is below its length (`outline.length - 1 >= step`). It says `"end"` exactly when the counter is at or past the length. It fails (throws) exactly when no outline was written. |
| `Graph.Next` | index.ts:174-186 | Each of the first three nodes is followed by the next stage of the pipeline. After `paragraph_generator`, control goes back to `paragraph_generator` exactly when the counter is below the outline length, and to `END` exactly when it is not. |
| `Nodes.Invoke` | index.ts:54-172 | Each node returns exactly its own keys. `paragraph_generator` writes back the counter value it read. It fails exactly when it runs before an outline exists. |
| `Executor.RunInstance.constructor` | index.ts:190-191 | A new run instance holds the defaults with the query merged in. |
| `Executor.RunInstance.Apply` | index.ts:29-43 | Updating the channel fields in place gives the same state as `Merge`. |
| `Executor.TraceShape` | index.ts:174-186 | A complete run first emits `web_researcher`, `keyword_analyzer` and `outline_generator`, in that order. It then emits one `paragraph_generator` event per round, and the k-th of those events carries counter k. |
| `Executor.StateAtParagraph` | index.ts:158-172 | Before its k-th run, `paragraph_generator` sees the seeded query and the three fixed results. It also sees the counter at k and the first k paragraphs, joined in order. |
| `Executor.ExecutorStep` | index.ts:174-186 | In a run, the i-th invocation returns the i-th event's update. The router then names the node of the next event, or `END` after the last event. |
| `Executor.Execute` | index.ts:174-193 | A run finishes exactly when `3 + rounds` invocations fit in the limit, and then it emits the whole trace. Otherwise it fails with exactly `limit` events, which are a prefix of the trace. In both cases the last state is the seeded defaults with the emitted updates merged in. |
| `Executor.QueryKept` | index.ts:54-172 | `query` holds its seeded value in every state of the run. |
| `Executor.CounterAndArticleAfter` | index.ts:168-171 | At every point of the run, the counter equals the number of `paragraph_generator` runs so far. The article is those runs' texts, joined in the order the runs happened. |
| `Executor.ReadsInBounds` | index.ts:158-162 | For an outline of `n ≥ 1` points, the k-th paragraph run sees counter `k < n`, so `outline[step]` exists. |
| `Executor.EmptyOutlineReadsUndefined` | index.ts:140-162 | For an empty outline, `paragraph_generator` still runs once and reads the missing `outline[0]`. Only after that does the router end the run. |
| `Executor.GenerateArticle` | index.ts:188-193 | With the limit of 100, the run completes exactly when the outline has at most 97 points. A complete run has `n` paragraph runs (1 for an empty outline), leaves the counter at the number of paragraph runs (`n`, or 1 for an empty outline) and produces the paragraphs in outline order as the article. The query keeps its seed. |
| `ParagraphLoop.AfterRunIsMerge` | index.ts:158-172 | One step of the standalone loop is exactly the node's own update merged through the reducers. The counter goes up by one, and the text for the outline point at the old counter is appended to the article. |
| `ParagraphLoop.MergedRouterReads` | index.ts:140-172 | When the router sees the merged counter, a loop that starts at counter `j` reads `j, …, n-1` (just `j` if `j ≥ n`) and then stops. |
| `ParagraphLoop.PreMergeRouterReads` | index.ts:140-148 | If the router saw the pre-merge counter, a loop that starts at `j ≤ n` would read `j, …, n`. |
| `ParagraphLoop.OffByOneHazard` | index.ts:140-172 | Starting at counter 0 with `n ≥ 1` points, the real routing runs exactly `n` times and reads indices `0 … n-1`. Pre-merge routing would run `n + 1` times, and its last read `outline[n]` is undefined. |
| `ParagraphLoop.LoopInRun` | index.ts:158-186 | In a run with any outline, an empty one included, the paragraph loop starts after the three fixed nodes with counter 0. The counters it reads are the ones carried by the streamed `paragraph_generator` events. |

## Left out

- The HTTP server: the route, the body schema, CORS and `listen` (index.ts:1-2, 24-28, 209-218). These are I/O.
- The Tavily request and the API key from the environment (index.ts:54-75). This is network I/O. Its result is an opaque string in the `Oracle`, and it does not depend on the query in the model.
- The prompts, the `ChatOpenAI` model and the JSON output parsers (index.ts:45-48, 77-138, 150-167). These are foreign calls. The oracle stands in for them. A paragraph's text is a function of the counter and the outline point read.
- The "at most 6 points" wording in the outline prompt. The code does not enforce it, so the model allows any outline length.
- Failures inside the nodes: a failed `fetch`, a model error, or JSON that does not parse. The oracle always answers, so a node fails only when it reads an outline that does not exist, and `Execute` proves that never happens.
- The response stream: `TextEncoder`, `TransformStream` and chunked framing (index.ts:190-207). The streamed chunks are modelled as the sequence of `(node, update)` events. Events that the library may emit at the start or the end of a run are not modelled.
- The internals of `StateGraph`, `compile` and `stream`. That library is not part of this model. The executor follows this order: check for `END`, then check the limit, then invoke. The limit counts node invocations. The library's own way of counting steps against `recursionLimit` may differ, so the 97-point bound in `GenerateArticle` holds only when invocations are what is counted.
- `async`/`await` suspension. The model is sequential.
