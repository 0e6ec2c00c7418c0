# Multi-Agent RAG: a Dafny model of its core

The system answers questions typed at a terminal. Each line is one turn:

- A **router agent** reads the line and returns a two-flag `RoutingDecision` (`vector_search`, `web_search`).
- Exactly one answering setup then runs:
  - the **RAG agent**, whose tool searches a Qdrant collection of embedded web pages;
  - the **web search agent**, whose tool queries DuckDuckGo;
  - or a **direct answer**. The web search agent runs with no tools and a temporary prompt, and that prompt is put back afterwards.
- The answer is printed stripped, followed by a separator of 70 `=` characters.

A separate **ingestion script** fills the collection:

1. It fetches a page through the Jina reader (`https://r.jina.ai/`).
2. It cleans the text and splits it into chunks.
3. It embeds the chunks with Gemini.
4. It upserts them under sequential ids starting at the collection's exact count.

The model covers the five source files of that core, one Dafny module each, plus three small support modules:

| module | file | models |
|---|---|---|
| `Text` | text.dfy | the Python `str` operations the core uses: `strip`, `lstrip`, `rstrip`, `replace`, `join`, `lower`, `upper`, `startswith`, `f"{n}"` |
| `DataPipeline` | data_pipeline.dfy | `clean_text`, the reader URL of `fetch_url_content`, the guards of `get_google_embeddings` |
| `VectorStore` | vector_store.dfy | the collection as a class (`collectionExists`, `params`, `points`); `create_collection_if_not_exists` and `upload_embeddings` as methods that update it; `search_vectors` as a function |
| `Tools` | tools.dfy | `vector_search_tool` and `web_search_tool`, each a method with the source's `for` loop, proved equal to a reply function |
| `IngestData` | ingest_data.dfy | `ingest` as a method with the source's early returns; the `__main__` URL check |
| `QueryLoop` | query_loop.dfy | `main()`: the key check, start-up, and the `Agent` and `Session` classes. The agents' `tools`, `system_prompt` and `auto_execute_tools` are fields the loop reassigns. There is one method per turn step and the `while True` loop |
| `PyValues`, `Wrappers` | py_values.dfy, wrappers.dfy | exceptions, returned-or-raised outcomes, `Option` |

Foreign services are inputs to the model, never computed:

- The HTTP fetch: `string -> Option<string>`.
- The token splitter: `string -> seq<string>`.
- The embedding service (`EmbedService`) and the Qdrant search (`SearchService`).
- DuckDuckGo (`WebService`).
- What each language-model run does (`RouterRun`, `AgentRun`).
- The exception each Qdrant client call raises (`ClientFaults`).
- The configured API key, as a string that is empty when it is missing.

## Behaviour worth knowing

- **Document numbering.** Hits without content are skipped, but each block is numbered by its position among *all* hits, so the numbers can have gaps ("Document 1", "Document 3") (`Tools.DocumentBlocksFollowContent`).
- **Failed searches.** `search_vectors` swallows a failing Qdrant search into an empty hit list, so the tool reports "No relevant documents found" (`Tools.SearchFailureReadsAsNoDocuments`).
- **Empty answers.** A missing or empty answer is printed as `<{agent_used} could not generate a response.>`, naming the agent (`QueryLoop.RenderCases`).
- **The `quit` command.** `quit` is recognised in any letter case and with surrounding whitespace, because the line is stripped and lower-cased first (`QueryLoop.ClassifyCases`).
- **Payload counts.** `upload_embeddings` never checks the payload count against the vector count; `zip` truncates to the shorter list (`VectorStore.Zip`).

## Model

| member | source | states |
|---|---|---|
| Text.LStrip | data_pipeline.py:22 | `lstrip` returns a suffix of its input: everything cut off is a stripped character, and the result does not start with one |
| Text.RStrip | data_pipeline.py:21 | `rstrip` returns a prefix: everything cut off is a stripped character, and the result does not end with one |
| Text.StripBy | data_pipeline.py:55 | `strip` returns the slice of the input between the stripped ends: all cut characters at both ends are stripped ones, and the result neither starts nor ends with one |
| Text.Strip | main.py:58 | a stripped line is no longer than the line and has no whitespace at either end |
| Text.StripByKeeps | data_pipeline.py:55 | stripping a text with nothing to strip at either end returns it unchanged |
| Text.StripIdempotent | main.py:123 | `s.strip().strip() == s.strip()` |
| Text.Replace | data_pipeline.py:54 | replacing with text no longer than the target never lengthens the text |
| Text.ReplaceRemovesChar | data_pipeline.py:54 | after replacing a one-character target with text lacking it, no occurrence remains (so no `\r` survives `clean_text`) |
| Text.JoinStartsWithFirst | tools.py:80 | a joined reply begins with its first block, so it is non-empty when that block is |
| Text.JoinLength | tools.py:80 | the joined length is the sum of the pieces plus one separator between each pair of neighbours |
| Text.Lower | main.py:59 | lower-casing keeps the length (per-character mapping on ASCII letters) |
| Text.Upper | vector_store.py:35 | upper-casing keeps the length (per-character mapping on ASCII letters) |
| Text.Decimal | tools.py:71 | `f"{n}"` is a non-empty string of digits with no leading zero |
| Text.DecimalRoundTrip | tools.py:71 | reading the rendered digits back gives the number: `int(str(n)) == n` |
| Text.DecimalInjective | tools.py:71 | distinct block numbers render differently |
| DataPipeline.CollapseSpaceRuns | data_pipeline.py:52 | the first rewrite never lengthens the text, keeps its first character, and leaves no space followed by a space or tab |
| DataPipeline.CollapseBreakRuns | data_pipeline.py:53 | the second rewrite never lengthens the text and keeps its first character |
| DataPipeline.CollapseBreakRunsKeepsNoSpaceRun | data_pipeline.py:52-53 | the second rewrite does not undo the first: no space run reappears |
| DataPipeline.NormalizeLineEndings | data_pipeline.py:54 | normalising `\r\n` and `\r` to `\n` never lengthens the text |
| DataPipeline.ReplaceWithNewlineKeepsNoSpaceRun | data_pipeline.py:54 | replacing anything by a newline creates no space run, and the result starts with the old first character or a newline |
| DataPipeline.CleanTextProperties | data_pipeline.py:50-55 | cleaned text has no `\r`, no whitespace at either end, no space followed by space or tab, and is never longer than the input |
| DataPipeline.StripKeepsCleanliness | data_pipeline.py:55 | the final `strip` keeps both properties the rewrites established |
| DataPipeline.CleanTextOfNonString | data_pipeline.py:51 | a non-string argument cleans to `""` |
| DataPipeline.ReaderUrlShape | data_pipeline.py:20-23 | the reader URL is the prefix without its trailing slashes, exactly one `/`, then the URL without its leading slashes |
| DataPipeline.JinaReaderUrl | data_pipeline.py:20-23 | with the configured prefix, the request goes to `https://r.jina.ai/` followed by the URL with its leading slashes removed |
| DataPipeline.EmbeddingGuards | data_pipeline.py:68-108 | empty input returns `[]` whatever the key and service; a missing key raises ValueError before the service is used; a response is returned even when its count mismatches; it returns (rather than raises) exactly on empty input or a keyed, well-formed response |
| VectorStore.DistanceNameRoundTrip | vector_store.py:35-45 | `getattr(Distance, name)` inverts the upper-cased enum name; an unknown name falls back to COSINE |
| VectorStore.CreatedCollectionCheck | vector_store.py:33-52 | a collection this code created matches on the next start-up exactly when the metric names a real distance |
| VectorStore.MatchingMeansConfigured | vector_store.py:41-52 | for a metric naming a distance, an existing collection passes exactly when its parameters are the ones it would be created with (size 768, that distance); otherwise the warning carries its actual size and distance |
| VectorStore.ConfiguredMetricMatches | vector_store.py:33-47 | with the shipped metric "COSINE" a created collection is COSINE and passes the check |
| VectorStore.SequentialIds | vector_store.py:85 | `range(start, start + n)`: n ids, the k-th being start + k |
| VectorStore.Zip | vector_store.py:92-95 | the points are as many as the shortest of ids, vectors and payloads, point k built from the k-th of each |
| VectorStore.UpsertKeys | vector_store.py:104 | after an upsert the ids are the old ids plus the batch's ids |
| VectorStore.UpsertKeeps | vector_store.py:104 | an id the batch does not carry keeps its stored point |
| VectorStore.UpsertPlaces | vector_store.py:104 | a batch point not overridden later in the batch is stored under its id |
| VectorStore.UpsertEffect | vector_store.py:104 | upsert is create-or-replace: keys, untouched entries and the winning point per id, together |
| VectorStore.SequentialBatchIds | vector_store.py:85-95 | ids from `range(start, ...)` number the prepared points start, start+1, ... in order |
| VectorStore.SequentialUploadAppends | vector_store.py:74-104 | on a collection holding ids 0..n-1, an upload numbered from the exact count only appends: old points stay, point k lands on n + k, and ids stay 0..n+m-1 |
| VectorStore.CountFallbackOverwrites | vector_store.py:82-85 | when counting fails the ids restart at 0 and the first new point replaces stored point 0 |
| VectorStore.PreparedBatchNonEmpty | vector_store.py:97-99 | once the empty-input and id-length guards pass the prepared batch is never empty, so the "no points prepared" guard cannot fire |
| VectorStore.Collection.constructor | vector_store.py:30-37 | the collection starts with the given existence flag, parameters and points |
| VectorStore.Collection.CreateIfNotExists | vector_store.py:26-63 | an absent collection is created with the configured parameters; an existing one is never altered and its mismatch is only reported; check and creation errors are re-raised with nothing changed |
| VectorStore.Collection.UploadEmbeddings | vector_store.py:65-112 | empty input uploads nothing; a wrong-length id list raises ValueError with the sizes; otherwise the zipped batch is upserted, or the upsert's error is re-raised and the points are unchanged |
| VectorStore.EmptyQueryIsNotSearched | vector_store.py:116-118 | the result for an empty query does not depend on the search service |
| Tools.ContentIndicesExact | tools.py:69-75 | the hits that yield blocks are exactly the hits with content, in increasing order |
| Tools.DocumentBlocksFollowContent | tools.py:68-75 | block j belongs to the j-th hit with content and carries that hit's own position + 1 as its number |
| Tools.AllContentBlocks | tools.py:68-72 | N hits all with content give exactly N blocks, "Document k+1" for hit k, in the order Qdrant returned them |
| Tools.NoBlocksIffNoContent | tools.py:76-78 | there are no blocks exactly when no hit carries content (both directions) |
| Tools.DocumentBlocksNonEmpty | tools.py:71 | every block is non-empty text |
| Tools.VectorSearchTool | tools.py:23-87 | the loop builds exactly the reply the specification function gives: client guard, query embedding, search, blocks, join |
| Tools.VectorReplyNonEmpty | tools.py:23-87 | the vector search tool never returns an empty string |
| Tools.VectorReplyErrors | tools.py:37-87 | a missing client is reported before any embedding; a missing key surfaces as the unexpected-error reply with the ValueError text |
| Tools.SearchFailureReadsAsNoDocuments | tools.py:56-66 | a failing Qdrant search reads as "No relevant documents found in the knowledge base" |
| Tools.VectorReplyWithContent | tools.py:56-82 | with N content-carrying hits the reply is their N blocks, in order, joined by the separator |
| Tools.WebBlockFields | tools.py:124-127 | a result's block shows its own title, URL and snippet, and a missing key shows "No Title", "No URL" or "No snippet available." |
| Tools.WebBlocksNumbered | tools.py:122-128 | one block per web result, none dropped, block k being "Result k+1" of result k |
| Tools.WebSearchTool | tools.py:90-137 | the loop builds exactly the reply the specification function gives |
| Tools.WebReplyShape | tools.py:105-137 | the web reply is never empty; a gateway error gives the error reply; no results give the no-results reply; otherwise it is one block per result, in order, joined by the separator |
| IngestData.ChunkGate | ingest_data.py:24-41 | split chunks go on to storage exactly when there are chunks, the key is set and the service returns one vector per chunk; then those chunks and vectors are stored |
| IngestData.IngestGate | ingest_data.py:16-41 | the run reaches storage exactly when the page has content, the splitter yields chunks, the key is set and there is one embedding per chunk |
| IngestData.IngestStageOrder | ingest_data.py:16-19 | an empty fetch stops the run whatever the later stages would do |
| IngestData.MissingKeyStopsBeforeEmbedding | ingest_data.py:30-34 | a missing key stops the run before the embedding service is consulted |
| IngestData.StartIdIsAssigned | ingest_data.py:52 | the start id of the ingested points is the one `upload_embeddings` assigns to an upload without ids (vector_store.py:74-85): the exact count, or 0 when counting fails |
| IngestData.StoreChunks | ingest_data.py:48-72 | step 5: a client, collection or upload failure stops the run with nothing uploaded; otherwise the collection exists and chunk k is stored under start + k with url and text as payload |
| IngestData.Ingest | ingest_data.py:11-72 | an aborted run returns its stage's reason and leaves the collection untouched; the points change only when all stages passed, and then as step 5 describes |
| IngestData.IngestAppends | ingest_data.py:48-61 | on a collection with ids 0..n-1 and a working count, ingestion only appends: old points stay and chunk k lands under id n + k |
| IngestData.DefaultUrlAccepted | ingest_data.py:75-78 | without an argument the default URL is used, and it passes the scheme check |
| IngestData.AcceptedUrlSchemes | ingest_data.py:78 | a URL is accepted exactly when it begins with `http://` or `https://` |
| IngestData.RunIngestScript | ingest_data.py:74-86 | a URL without a web scheme is rejected with the collection untouched; an accepted URL is ingested, with the outcome and the collection's new state exactly those of `ingest` on it (an aborted run reports its stage and changes nothing; a run that passes every stage stores its chunks as step 5 describes) |
| QueryLoop.EffectiveDecision | main.py:67-81 | the decision acted on never has both flags set |
| QueryLoop.EffectiveDecisionCases | main.py:67-81 | both flags collapse to vector search only; a one-flag decision is kept; a failing router or any other answer gives `{false, false}` |
| QueryLoop.RouterChoosesAgent | main.py:67-101 | the RAG agent's branch is taken exactly when the router returned a decision with vector search; the web agent's exactly when it returned web search without vector search; otherwise the direct answer |
| QueryLoop.SeparatorShape | main.py:130 | the separator is 70 `=` between two newlines |
| QueryLoop.FailureAnswer | main.py:115-128 | a failing agent run is answered with "Error processing request via {agent}. Please check logs.", printed as it is |
| QueryLoop.RenderCases | main.py:121-128 | a non-empty answer is printed stripped (and re-stripping changes nothing); a missing or empty one prints the sentinel naming the agent |
| QueryLoop.TurnAlwaysAnswers | main.py:84-130 | a turn that is not interrupted is always answered by the routed branch's agent, a failure becoming the error sentence, and its output ends with the separator |
| QueryLoop.Agent.constructor | agents.py:51-59 | an agent starts with the given tools, prompt and tool-execution flag, and no runs |
| QueryLoop.Agent.Run | main.py:70 | each run records the query and the agent's configuration at that moment |
| QueryLoop.ClassifyCases | main.py:57-61 | "quit" in any case ends the loop; an empty or all-whitespace line is skipped; anything else is routed as its stripped text (each way) |
| QueryLoop.PairedSeparators | main.py:121-130 | the printed output has even length and every second item is the separator |
| QueryLoop.PairedAfterTurn | main.py:121-130 | a turn adds nothing or one answer/separator pair |
| QueryLoop.SessionOutputPaired | main.py:55-133 | a whole session prints answer/separator pairs only |
| QueryLoop.SessionOutputBound | main.py:55-133 | at most one pair is printed per routed query |
| QueryLoop.SessionStep | main.py:55-133 | one loop step on the remaining input: stop, skip, or route and print that turn's output |
| QueryLoop.QuitEndsSession | main.py:58-60 | a "quit" line ends the session with no further output or routing |
| QueryLoop.BlankLineSkipped | main.py:61 | a blank line is skipped with no routing and no output |
| QueryLoop.Session.constructor | main.py:40-45 | a session holds three distinct agents and the client, with nothing printed |
| QueryLoop.Session.Route | main.py:67-81 | the router runs once with tool execution off; the decision is the normalised one, or none when interrupted |
| QueryLoop.Session.Execute | main.py:83-118 | exactly one agent runs, the one the decision selects; the direct branch runs the web agent with no tools and the direct prompt, then restores its tools and prompt on every path; failures become the error sentence |
| QueryLoop.Session.Turn | main.py:63-130 | a turn's outcome and printed output are those of the turn function; every agent's tools and prompt are as before; the runs logged are the router's and the chosen agent's only |
| QueryLoop.Session.HandleLine | main.py:56-130 | a line is stopped on, skipped or routed as classified, printing and routing just that |
| QueryLoop.Session.Serve | main.py:55-133 | the loop prints exactly the session output, routes exactly the counted queries, and leaves both searching agents' tools and prompts as they were |
| QueryLoop.Session.ServeEvent | main.py:56-133 | one event keeps the printed text and the router runs on course for the whole session's output and count |
| QueryLoop.MissingKeyStopsFirst | main.py:21-25 | without a key start-up stops first, whatever else would fail |
| QueryLoop.Start | main.py:21-50 | start-up fails at the first failing step in source order with no session; otherwise three fresh agents with their configured tools and prompts |
| QueryLoop.RunMain | main.py:18-139 | `main()` prints exactly the session output when start-up succeeded, and nothing from the loop otherwise |

## Left out

- Printing, progress and warning messages, `traceback.print_exc()`, the IPython `display(Markdown(...))` path and the Markdown rendering are not modelled. The model records only what the loop prints as the answer and the separator.
- The turn's generic `except Exception` handler (main.py:134-137) is not modelled. Every failure of the modelled calls is already caught inside the turn; what remains would come from `input()` or printing, which are not modelled.
- Only two Ctrl+C points are modelled: an interrupt during the router run and one during the agent run. An interrupt in the middle of printing is not modelled.
- `asyncio`, the executor thread of the web search and the concurrency concerns around the shared web agent are not modelled, because the model is sequential.
- The language models are not modelled. What the router and each agent's run return is an input. The agents do not call the tool methods inside the model, and the prompt texts and agent definitions (agents.py) are parameters.
- The HTTP request of `fetch_url_content` (headers, timeout, content-type handling, UTF-8 decoding) is an input function from the reader URL to optional text.
- The token splitter (`RecursiveCharacterTextSplitter`, chunk size and overlap) is an input function on the cleaned text.
- The embedding service, the Qdrant nearest-neighbour search and DuckDuckGo are inputs. `task_type`, `timeout` and `max_results` are passed on but have no modelled effect.
- Web results are not capped by the tool itself.
- Floating point: an embedding is a sequence of 64-bit patterns, and a hit's score is its already formatted `f"{score:.4f}"` text.
- `get_qdrant_client` is modelled only as a possible connection failure, because the client object and its URL and key configuration are foreign.
- The module-level `genai.configure` at import time (data_pipeline.py:10-17) only prints, so it is not modelled. The call-time configuration failure is modelled.
- config.py:27-29 raises ValueError at import time when GOOGLE_API_KEY is missing, so in the shipped program the modelled missing-key paths are never reached: QueryLoop.MissingKeyStopsFirst, the missing-key case of Tools.VectorReplyErrors and IngestData.MissingKeyStopsBeforeEmbedding model the guards main.py:22-25, tools.py via data_pipeline.py:72-73 and ingest_data.py:32-34 as written, for a configuration module that lets an empty key through.
- The final collection count after ingestion is only reported. It is modelled as a read that may fail.
- Text.Lower: covers ASCII letters only (Python lower-cases all of Unicode). That is exact for the comparison with "quit".
- Text.Upper: covers ASCII letters only. A metric name with non-ASCII letters is not modelled.
- Text.IsWhitespace: lists the characters of Python's `str.isspace()` explicitly.
- VectorStore.DistanceName: assumes `str(Distance.X)` is the enum value, so that its upper-cased form is the member name.
- Router agent: how `create_router_agent` sets `auto_execute_tools` is not modelled; the model starts it as false, and every turn sets it to false before the run anyway.
- `decision.web_search = False` mutates the router's returned object in place. The model uses a functional update, because nothing else observes that object.
