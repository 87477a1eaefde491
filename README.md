# kb-agent in Dafny

A model of the core of kb-agent, a question-answering agent over a local knowledge base. The
agent indexes Markdown documents and fetched records (web pages, Jira issues, Confluence pages).
It answers a question in one of three ways:

- a "chat" mode that calls the LLM directly;
- a URL mode that fetches the pages a query names;
- a knowledge-base mode. This runs an agent graph with these nodes:
  - plan: the LLM picks tool calls, with a rule-based fallback;
  - tool: it runs the picked tools;
  - evidence grading;
  - synthesis.

The model covers each core file of the repository as one Dafny module:

- `Chunking` models `src/kb_agent/chunking.py`: header/paragraph splitting as loops proved against recursive specifications.
- `GrepTool` models `src/kb_agent/tools/grep_tool.py`: the ripgrep JSON decoding and passage merge, and the Python fallback scan.
- `VectorTools` models `src/kb_agent/tools/vector_tool.py`: a class recording the upserts made, and the search-result reshaping.
- `LocalFileQa` models `src/kb_agent/tools/local_file_qa.py`: the result loop: dedupe by base name, match words, ten rows.
- `FileTools` models `src/kb_agent/tools/file_tool.py`: path confinement of `read_file`.
- `GraphTools` models `src/kb_agent/tools/graph_tool.py`: neighbour listing over the knowledge graph.
- `DiGraphs` models the part of the networkx directed graph that the graph builder and the graph tool use, as a value.
- `GraphBuilding` models `src/kb_agent/graph/graph_builder.py`: the walk that builds the knowledge graph, relation extraction and cleanup.
- `Processing` models `src/kb_agent/processor.py`: the processor class: two files written, two upserts.
- `Llm` models `src/kb_agent/llm.py`: model-name sanitising, completion fallback, summary prompt.
- `Security` models `src/kb_agent/security.py`: card-number masking.
- `WebConnector` models `src/kb_agent/connectors/web_connector.py`: URL classification, ids, Markdown clean-up, page records.
- `JiraConnector` models `src/kb_agent/connectors/jira.py`: settings precedence, key classification, issue records.
- `ConfluenceConnector` models `src/kb_agent/connectors/confluence.py`: settings precedence, page-id classification, page records.
- `Engine`, `EngineUrls` model `src/kb_agent/engine.py`: mode dispatch, URL extraction, history handling.
- `AgentTools` models `src/kb_agent/agent/tools.py`: the tool table and each tool's result shaping.
- `AgentText`, `Nodes` model `src/kb_agent/agent/nodes.py`: prompt-text helpers, tool-call parsing, the plan/tool/grade/synthesize nodes.
- `AgentGraph` and `AgentState` model `src/kb_agent/agent/graph.py` and `src/kb_agent/agent/state.py`: the routing between nodes and the state they share.

Shared modules hold what several files use:

- `Wrappers`: Option and Result.
- `Json`: decoded JSON values, Python truthiness, `dict.get`.
- `Text`: Python string operations on `seq<char>`.
- `Regex`: search, substitution and `findall` over a matcher.
- `Collections`: order-keeping deduplication, and the split of a list into maximal runs.
- `Docs`: the `{id, title, content, metadata}` record every connector returns.

The following are function parameters (oracles), pure functions of their input:

- the LLM and its completions;
- every network call (the page fetchers, the Jira and Confluence REST APIs, the vector store's query);
- md5;
- the HTML-to-Markdown conversion;
- `json.loads`;
- path resolution;
- the file system.

Some tests of the repository describe an agent this code does not have, and the model follows
the code:

- `tests/agent/test_hybrid_search.py`, `tests/agent/test_grade_evidence.py`,
  `tests/agent/test_analyze_and_route.py`, `tests/agent/test_plan_layer.py` and
  `tests/agent/test_e2e_plan_node.py` exercise reciprocal-rank fusion of search results, an
  evidence grader that scores and filters each item, a query-analysis node with a routing plan,
  and an applicability guard on the tool names mined from model prose. None of these exist in
  `src/kb_agent/agent/nodes.py` or `src/kb_agent/agent/tools.py`, so none is modelled. The
  evaluator there sets one `is_sufficient` flag, never drops evidence (so the evidence list only
  grows), and a mined tool name is used whatever the query holds.

## Model

| member | source | states |
|---|---|---|
| `Security.GroupsLen` | src/kb_agent/security.py:6 | the four digit groups with their optional single `-`/space separators match nothing, or at least sixteen characters starting with a digit |
| `Security.CardMatcher` | src/kb_agent/security.py:6 | a card match at an index starts with a digit there and ends inside the text |
| `Security.MaskUnchangedIffNoCard` | src/kb_agent/security.py:9-20 | masking changes the text if and only if it holds a card number |
| `Security.MaskKeepsDigitFreeText` | src/kb_agent/security.py:13-20 | text without any digit (including the empty text) comes back unchanged |
| `Security.MaskAfterPrefix` | src/kb_agent/security.py:20 | a digit-free prefix ending in a non-word character is copied unchanged in front of the masked rest |
| `Security.MaskCardThen` | src/kb_agent/security.py:16-20 | a card number followed by a non-word character or the end becomes `XXXX-XXXX-XXXX-XXXX` |
| `Security.MaskKeepsSurroundingText` | src/kb_agent/security.py:16-20 | only the card changes: the digit-free text before it and the text after it are kept |
| `Security.MaskDashedCard` | tests/test_security.py:5 | the dashed spelling is masked whole |
| `Security.MaskSpacedCard` | tests/test_security.py:6 | the spaced spelling is masked whole |
| `Security.MaskPlainCard` | tests/test_security.py:7 | sixteen digits in a row are masked whole |
| `Security.MaskCardInSentence` | tests/test_security.py:8 | a card inside a sentence is masked and the words around it are kept |
| `Security.MaskTextWithoutCard` | tests/test_security.py:9 | text without a card comes back unchanged |
| `Llm.RemovePrefix` | src/kb_agent/llm.py:21-25 | `removeprefix`: the prefix is dropped exactly when the name starts with it |
| `Llm.SanitizeRemovesOnePrefix` | src/kb_agent/llm.py:19-25 | at most one of "groq-com/" and "groq/" is removed; the name is the removed prefix (or nothing) followed by the sanitised name; "groq-com/" is tried first |
| `Llm.SanitizeKeepsPlainNames` | src/kb_agent/llm.py:19-25 | a name with neither prefix is kept as it is |
| `Llm.SanitizeExamples` | tests/test_llm_sanitization.py:15-46 | the four model names of the tests sanitise as expected |
| `Llm.NewClient` | src/kb_agent/llm.py:5-25 | without settings the constructor fails ("Settings not initialized."); otherwise the client keeps the sanitised model name |
| `Llm.ChatCompletion` | src/kb_agent/llm.py:27-38 | the completion service's answer, or "Error generating response." when it raises |
| `Llm.SummaryMessagesShape` | src/kb_agent/llm.py:40-46 | two messages: the fixed system prompt, then the user instruction followed by the whole document when it has at most 4000 characters, else by its first 4000 |
| `Llm.GenerateSummary` | src/kb_agent/llm.py:40-47 | the summary is the completion of exactly those messages, or the fallback text |
| `Processing.FullContentHasHeader` | src/kb_agent/processor.py:36-39 | the written file starts (after leading spaces) with `#` and ends with the record's content; content that already starts with a header is written as it is, and only then |
| `Processing.IndexMeta` | src/kb_agent/processor.py:56-61 | the indexed metadata has the record's keys plus type, file_path and related_file; those three get the given values and every other key is kept |
| `Processing.IndexCallsShape` | src/kb_agent/processor.py:63-83 | two upserts: the summary under "{id}-summary" with the summary file's path, then the first 2000 characters of the full text under "{id}-full"; both point back to the full file |
| `Processing.Processor.constructor` | src/kb_agent/processor.py:11-17 | a processor starts with no files written |
| `Processing.Processor.Index` | src/kb_agent/processor.py:63-83 | the two calls are appended to the vector store's upserts, in order |
| `Processing.Processor.Process` | src/kb_agent/processor.py:19-83 | a record without an id changes nothing; otherwise `{id}.md` gets the full content and `{id}-summary.md` the LLM summary, every other file is kept, and exactly the two upserts are made |
| `VectorTools.VectorTool.constructor` | src/kb_agent/tools/vector_tool.py:9-33 | a new tool has made no upserts |
| `VectorTools.VectorTool.AddDocuments` | src/kb_agent/tools/vector_tool.py:35-49 | an empty document list sends nothing; any other list is sent as one upsert of the given documents, metadata and ids |
| `VectorTools.HitsShape` | src/kb_agent/tools/vector_tool.py:76-89 | one record per id of the first query, in order, each with the document, metadata and distance at its position, or "", {} and 0.0 where that list is missing or too short |
| `VectorTools.SearchCount` | src/kb_agent/tools/vector_tool.py:66-89 | a query that raised, or one without ids, gives no records; otherwise there is one record per id |
| `VectorTools.VectorTool.Search` | src/kb_agent/tools/vector_tool.py:66-89 | the search result is the reshaped query answer |
| `LocalFileQa.QueryRows` | src/kb_agent/tools/local_file_qa.py:12-62 | no results give the fixed message; otherwise the answer has at most ten rows numbered from 1. Each row is one base name, and no name repeats. Each row is marked by whether a long query word occurs in the name. When there are fewer than ten rows, every result's file has a row |
| `LocalFileQa.VisitFacts` | src/kb_agent/tools/local_file_qa.py:37-60 | one result keeps the rows consistent, only appends, and leaves its base name seen |
| `LocalFileQa.ScanFacts` | src/kb_agent/tools/local_file_qa.py:37-60 | the loop only appends rows; when it stops short of ten it has seen every result's base name |
| `LocalFileQa.Query` | src/kb_agent/tools/local_file_qa.py:12-62 | the loop computes the specified answer, including the exception message of the first result that raises |
| `LocalFileQa.ScanErrors` | src/kb_agent/tools/local_file_qa.py:36-44 | the result loop raises only the exception of one of its results, and cannot raise when no result raises |
| `LocalFileQa.QueryErrors` | src/kb_agent/tools/local_file_qa.py:36-44 | `query` fails exactly with the exception of some result, and succeeds when no result's metadata raises |
| `LocalFileQa.NullMetadataRaises` | src/kb_agent/tools/local_file_qa.py:37-38 | a first result whose metadata is `None` makes `query` raise "'NoneType' object has no attribute 'get'" |
| `LocalFileQa.NumberPathRaises` | src/kb_agent/tools/local_file_qa.py:38-44 | a first result whose `related_file` is the number 7 makes `query` raise "expected str, bytes or os.PathLike object, not int" |
| `FileTools.AllowedRoots` | src/kb_agent/tools/file_tool.py:7-15 | the allowed roots are the resolved source-documents path, then the index path, each only when it is set; there are none without settings |
| `FileTools.ReadIsConfined` | src/kb_agent/tools/file_tool.py:17-41 | a read succeeds only for an existing file whose resolved path lies under an allowed root, and then gives its text; a path outside every root is never read |
| `FileTools.FileTool.constructor` | src/kb_agent/tools/file_tool.py:7-15 | the tool keeps the allowed roots of the settings |
| `FileTools.FileTool.ReadFile` | src/kb_agent/tools/file_tool.py:17-41 | the containment loop, the existence check and the read give the specified answer |
| `Chunking.HeaderTitle` | src/kb_agent/chunking.py:17-27 | a line is a heading when it starts with one to three `#` followed by whitespace; its title is the rest, stripped |
| `Chunking.SectionsStartAtHeadings` | src/kb_agent/chunking.py:19-30 | the sections are the document's lines in order; every section but the first starts at a heading, and no heading is inside a section |
| `Chunking.HeadingLeads` | src/kb_agent/chunking.py:24-28 | the chunk of a section that starts at a heading starts with that heading's `#` |
| `Chunking.NoHeadingsOneChunk` | src/kb_agent/chunking.py:10-37 | a document without headings gives one "Introduction" chunk holding the stripped text, or no chunk when it is blank |
| `Chunking.SectionChunks` | src/kb_agent/chunking.py:23-35 | the chunks are those of the sections in order; sections that are only whitespace give none, and no chunk is empty |
| `Chunking.AddLine` | src/kb_agent/chunking.py:19-30 | one line of the loop: a heading closes the open section and opens its own |
| `Chunking.ReadLines` | src/kb_agent/chunking.py:12-30 | the line loop leaves the closed sections chunked and the last section open, titled by its heading |
| `Chunking.SplitByMarkdownHeaders` | src/kb_agent/chunking.py:10-37 | the line loop computes the chunks of the sections, each titled by its heading |
| `Chunking.Taken` | src/kb_agent/chunking.py:60-67 | the overlap takes trailing paragraphs while what was taken, each paragraph counted with two separator characters, plus the next paragraph fits the overlap budget |
| `Chunking.TakenIsLongestFit` | src/kb_agent/chunking.py:60-67 | the overlap is the longest run of trailing paragraphs that fits the budget |
| `Chunking.OverlapCount` | src/kb_agent/chunking.py:60-70 | the overlap carried over is the paragraphs taken, or the last paragraph alone when none fits |
| `Chunking.Overlap` | src/kb_agent/chunking.py:60-70 | the reverse loop computes that overlap |
| `Chunking.PackNext` | src/kb_agent/chunking.py:56-76 | a paragraph that would overflow a nonempty open chunk closes it, and the next chunk starts with the overlap; otherwise it joins the open chunk |
| `Chunking.EveryParagraphPlaced` | src/kb_agent/chunking.py:51-79 | the chunks are runs of consecutive non-blank paragraphs. The first starts at the first paragraph and the last ends at the last. Each starts inside the previous one, so no paragraph is lost |
| `Chunking.ParagraphChunksCover` | src/kb_agent/chunking.py:39-81 | every non-blank paragraph lies in the paragraph range of some chunk |
| `Chunking.OneParagraphOneChunk` | src/kb_agent/chunking.py:51-79 | a single paragraph is one chunk, however long |
| `Chunking.AddParagraph` | src/kb_agent/chunking.py:56-76 | one paragraph of the loop moves the packing state by one step |
| `Chunking.AddRaw` | src/kb_agent/chunking.py:52-54 | a blank paragraph is skipped; any other is stripped and packed |
| `Chunking.CloseLast` | src/kb_agent/chunking.py:78-79 | the open chunk, if any, is the last one |
| `Chunking.PackParagraphs` | src/kb_agent/chunking.py:51-79 | the paragraph loop computes the packing of the non-blank paragraphs |
| `Chunking.SplitByParagraphs` | src/kb_agent/chunking.py:39-81 | the text is cut at blank lines and packed; its chunks are the specified ones |
| `Chunking.Setting` | src/kb_agent/chunking.py:89-92 | an explicit argument wins, then the configured value, then the default |
| `Chunking.NewChunker` | src/kb_agent/chunking.py:88-95 | the limits are 800 and 200 unless given or configured |
| `Chunking.PositionedKeeps` | src/kb_agent/chunking.py:105-117 | a chunk's metadata is the base metadata updated by its section title, then its index and the total; every other base key is kept |
| `Chunking.ChunkMetadata` | src/kb_agent/chunking.py:100-117 | the chunks are numbered 0 to n-1 with total n, carry their section's title, and keep every other base key |
| `Chunking.ShortSectionsKeptWhole` | src/kb_agent/chunking.py:101-111 | sections within the limit are kept whole: without a long section the texts are the sections' |
| `Chunking.AddSection` | src/kb_agent/chunking.py:101-111 | one section: its pieces are appended, the sub-texts of a long section one at a time |
| `Chunking.ExpandSections` | src/kb_agent/chunking.py:100-111 | the section loop appends each section's pieces in turn |
| `Chunking.NumberChunks` | src/kb_agent/chunking.py:114-117 | the numbering loop writes each chunk's index and the total |
| `Chunking.ChunkText` | src/kb_agent/chunking.py:97-119 | `chunk`: the sections, long ones re-split by paragraphs, then every chunk numbered |
| `Collections.DedupByKeys` | src/kb_agent/tools/grep_tool.py:65-66 | deduplication by key keeps each key exactly once: no key repeats and none is lost |
| `Collections.DedupBySubsequence` | src/kb_agent/tools/grep_tool.py:65-66 | every kept element comes from the input, in the input's order |
| `Collections.RunSplitUnique` | src/kb_agent/tools/grep_tool.py:84-94 | the split of a list into maximal runs is unique: any split with the run properties is `Runs` |
| `GrepTool.Decode` | src/kb_agent/tools/grep_tool.py:53-74 | a line `json.loads` rejects is skipped; a decoded value that is not an object raises, since the code does not catch that error; a line record comes only from an object, and is a match exactly when its type is "match" |
| `GrepTool.CollectIsGrouping` | src/kb_agent/tools/grep_tool.py:51-74 | each file appears once, in first-seen order, with exactly its lines in order |
| `GrepTool.InsertByLineSorts` | src/kb_agent/tools/grep_tool.py:79 | one insertion keeps every element, adds the new one, and keeps the list sorted by line |
| `GrepTool.SortByLine` | src/kb_agent/tools/grep_tool.py:79 | a stable sort by line number: sorted, and a permutation of the input |
| `GrepTool.SortByLineKeepsSorted` | src/kb_agent/tools/grep_tool.py:79 | lines already in order stay as they are |
| `GrepTool.ReportedLine` | src/kb_agent/tools/grep_tool.py:110 | the reported line is the first matching line's, or the first line's when none matched |
| `GrepTool.FormatPassage` | src/kb_agent/tools/grep_tool.py:98-112 | the passage names its file, reports that line, and joins the lines' texts with their newlines stripped |
| `GrepTool.MergeStep` | src/kb_agent/tools/grep_tool.py:86-91 | a line at most 20 after the open passage's last line extends it; any other closes it and opens its own |
| `GrepTool.MergeLines` | src/kb_agent/tools/grep_tool.py:81-94 | the merge loop yields one passage per maximal run of lines at most 20 apart |
| `GrepTool.FormatsPath` | src/kb_agent/tools/grep_tool.py:98-111 | every passage formatted for a file names that file |
| `GrepTool.HitsForPaths` | src/kb_agent/tools/grep_tool.py:77-96 | every hit names one of the files it was built from |
| `GrepTool.CollectEvents` | src/kb_agent/tools/grep_tool.py:53-74 | the decoding loop groups the lines per file, or fails when a line raises an error the code does not catch |
| `GrepTool.MergeFiles` | src/kb_agent/tools/grep_tool.py:77-96 | each file's lines are sorted, then merged into passages, file after file |
| `GrepTool.RipgrepSearch` | src/kb_agent/tools/grep_tool.py:35-96 | an exit code other than 0 or 1 raises; otherwise the result is the decoded, grouped, sorted and merged passages |
| `GrepTool.RipgrepHitsAreReported` | src/kb_agent/tools/grep_tool.py:35-96 | every ripgrep result names a file that some match or context line reported |
| `GrepTool.MatchingComplete` | src/kb_agent/tools/grep_tool.py:129-132 | a line is listed exactly when the pattern matches it, with its 1-based number, in order |
| `GrepTool.Windows` | src/kb_agent/tools/grep_tool.py:138-152 | a match whose window starts at most 20 lines after the last passage's end widens that passage; any other opens its own |
| `GrepTool.WindowsPartitionMatches` | src/kb_agent/tools/grep_tool.py:138-152 | read in order, the passages hold every match exactly once |
| `GrepTool.WindowsSpan` | src/kb_agent/tools/grep_tool.py:138-152 | a passage spans its first and last matches' windows |
| `GrepTool.WindowsApart` | src/kb_agent/tools/grep_tool.py:144 | passages that were kept apart are more than 20 lines apart |
| `GrepTool.WindowsWithinFile` | src/kb_agent/tools/grep_tool.py:140-141 | each passage lies inside the file and around its matches |
| `GrepTool.WindowHitsPath` | src/kb_agent/tools/grep_tool.py:154-160 | every hit built from a file's passages names that file |
| `GrepTool.FileHits` | src/kb_agent/tools/grep_tool.py:154-160 | a readable Markdown file gives one hit per passage, reported at its first match, with the passage's lines joined and newline-stripped |
| `GrepTool.ScanHitsAreMarkdown` | src/kb_agent/tools/grep_tool.py:114-163 | every hit of the fallback scan comes from a readable Markdown file of the walk |
| `GrepTool.MatchLinesOf` | src/kb_agent/tools/grep_tool.py:129-132 | the matching loop lists the matching lines |
| `GrepTool.BuildWindows` | src/kb_agent/tools/grep_tool.py:138-152 | the window loop builds those passages |
| `GrepTool.FileSearch` | src/kb_agent/tools/grep_tool.py:125-162 | one file: its matches, passages and hits |
| `GrepTool.PythonSearch` | src/kb_agent/tools/grep_tool.py:114-163 | an invalid pattern gives no results; otherwise the walk's files are searched in order |
| `GrepTool.Search` | src/kb_agent/tools/grep_tool.py:18-33 | with ripgrep installed, its result unless it raises; the fallback scan when it raises or is not installed |
| `Regex.FindAllNonEmptyIff` | src/kb_agent/engine.py:68 | `findall` finds something exactly when a match starts at or after the given index |
| `Regex.SubReplacesFirst` | src/kb_agent/security.py:20 | substitution keeps the text before the first match, puts the replacement in its place, and goes on after the match |
| `Collections.DedupKeepsEachOnce` | src/kb_agent/agent/nodes.py:372-378 | first-occurrence deduplication keeps every element exactly once: nothing repeats and nothing is lost |
| `Collections.Runs` | src/kb_agent/tools/grep_tool.py:81-94 | the maximal runs of a list, neighbours within a run being near each other: they spell the list, none is empty, and neighbouring runs do not join |
| `WebConnector.NormalizeFacts` | src/kb_agent/connectors/web_connector.py:68-69 | a URL without `http://` or `https://` gets `https://` in front; one with a scheme is kept; normalising twice changes nothing |
| `WebConnector.UrlIdShape` | src/kb_agent/connectors/web_connector.py:240-245 | the id is `web_`, the host with dots made underscores, `_` and the first ten characters of the MD5 digest; the host part holds no dot, tab, line break, `/`, `?` or `#` |
| `WebConnector.NetlocChars` | src/kb_agent/connectors/web_connector.py:244 | the host `urlparse` reads holds no tab, line break, `/`, `?` or `#` |
| `WebConnector.NetlocIgnoresUnsafe` | src/kb_agent/connectors/web_connector.py:244 | tabs and line breaks play no part in the host: the host of a URL equals the host of the URL with them deleted, which still has its http(s) scheme |
| `WebConnector.CleanMarkdownFacts` | src/kb_agent/connectors/web_connector.py:142-219 | after clean-up no three newlines follow each other, and collapsing runs of newlines changes nothing but newlines (at lines 142 and 219) |
| `WebConnector.CollapseFixed` | src/kb_agent/connectors/web_connector.py:142-219 | text without three newlines in a row is left as it is (at lines 142 and 219) |
| `WebConnector.HeadingTitleFacts` | src/kb_agent/connectors/web_connector.py:150-152 | a title is only read from a page starting with `#` and whitespace; it is one line, without surrounding whitespace |
| `WebConnector.BrowserTitle` | src/kb_agent/connectors/web_connector.py:145-169 | the title is the page's metadata title, else its leading heading, else the URL; the record says it came from crawl4ai |
| `WebConnector.PageDocFacts` | src/kb_agent/connectors/web_connector.py:154-234 | a page record has the URL's id, a non-empty title and content, the cleaned Markdown or the no-content placeholder, the URL and the backend in its metadata, and is not an error record (at lines 154-169 and 221-234) |
| `WebConnector.HttpErrorRecord` | src/kb_agent/connectors/web_connector.py:177-187 | a failed request gives one error record titled by the URL, with "Error fetching URL" content and an error flag |
| `WebConnector.HttpFetchShape` | src/kb_agent/connectors/web_connector.py:171-234 | the requests backend always gives one record, with the URL's id and the URL |
| `WebConnector.EngineFallback` | src/kb_agent/connectors/web_connector.py:71-82 | the crawl4ai backend is used only when configured, and the requests backend when it is not or when crawl4ai fails |
| `WebConnector.FetchUrlShape` | src/kb_agent/connectors/web_connector.py:71-82 | whichever backend answers, a URL gives one record with its id and URL |
| `WebConnector.FetchDataCases` | src/kb_agent/connectors/web_connector.py:57-82 | a query with a space or newline (after stripping) gives the invalid-URL record; any other is stripped, given a scheme and fetched, unless its host has an unmatched bracket, which raises; what returns is one record |
| `WebConnector.InvalidUrlIsError` | src/kb_agent/connectors/web_connector.py:59-66 | the invalid-URL record has the id "invalid_url" and is an error record |
| `WebConnector.FetchAll` | src/kb_agent/connectors/web_connector.py:236-238 | there is nothing to list |
| `JiraConnector.SettingsPrecedence` | src/kb_agent/connectors/jira.py:22-32 | an explicit URL or token wins; otherwise the configured one, the URL with trailing slashes removed; without settings only the explicit values are kept |
| `JiraConnector.IsIssueKeyIff` | src/kb_agent/connectors/jira.py:64 | a query is an issue key exactly when it is an upper-case letter, at least one upper-case letter or digit, `-`, then only digits, at least one |
| `JiraConnector.IssueKeyExamples` | src/kb_agent/connectors/jira.py:64 | "PROJ-123" and "A1-7" are keys; "A-1", "proj-123" and "PROJ-" are not |
| `JiraConnector.IssueLinesShape` | src/kb_agent/connectors/jira.py:130-166 | the issue text has twelve lines plus one for labels and one for components when there are any; it opens with the key, shows "Unassigned" and "Unknown" for a missing assignee or reporter, and ends with "## Description" and the description or its placeholder |
| `JiraConnector.ListLinesExactly` | src/kb_agent/connectors/jira.py:158-161 | the labels line and the components line appear exactly when the issue has labels or components |
| `JiraConnector.FormatIssueFacts` | src/kb_agent/connectors/jira.py:168-181 | the record is identified by the key, titled by the summary, holds the joined lines, links to `/browse/{key}`, has an empty assignee when unassigned, one label entry per label, and is not an error record |
| `JiraConnector.FormatIssues` | src/kb_agent/connectors/jira.py:110-112 | one record per issue returned, formatted in order |
| `JiraConnector.FetchRecordsCases` | src/kb_agent/connectors/jira.py:49-67 | an unconfigured connector gives the "Jira not configured" error record; otherwise a stripped issue key is fetched as one issue and any other query is searched |
| `JiraConnector.IssueRecordsCases` | src/kb_agent/connectors/jira.py:69-90 | a 404 gives the "not found" error record, a failure the "Failed to fetch" one, and a found issue its formatted record |
| `JiraConnector.SearchRecordsCases` | src/kb_agent/connectors/jira.py:92-124 | a failed search gives the search-error record; no issues give the zero-results record quoting the JQL; otherwise one formatted record per issue |
| `JiraConnector.JiraConnector.constructor` | src/kb_agent/connectors/jira.py:22-32 | the connector keeps the URL and token chosen by the settings precedence |
| `JiraConnector.JiraConnector.FetchData` | src/kb_agent/connectors/jira.py:49-67 | `fetch_data` returns the records specified for its URL, token and query |
| `JiraConnector.JiraConnector.SearchJql` | src/kb_agent/connectors/jira.py:92-124 | the result loop returns the specified search records |
| `JiraConnector.JiraConnector.FormatFound` | src/kb_agent/connectors/jira.py:110-112 | the loop formats every found issue, in order, one record per issue |
| `JiraConnector.JiraConnector.FetchAll` | src/kb_agent/connectors/jira.py:183-185 | there is nothing to list |
| `ConfluenceConnector.Auth` | src/kb_agent/connectors/confluence.py:41-45 | basic-auth credentials: the configured email (or "" when none is set) and the token |
| `ConfluenceConnector.PageLinesShape` | src/kb_agent/connectors/confluence.py:136-161 | the page text has eight lines plus a path line when the page has ancestors; it opens with the title or "Untitled", shows "Unknown" for a space without name or key, the path ends with the page's own title, and the text ends with "## Content" and the converted body or "(No content)" |
| `ConfluenceConnector.PathLineExactly` | src/kb_agent/connectors/confluence.py:157-158 | the path line appears exactly when the page has ancestors |
| `ConfluenceConnector.FormatPageFacts` | src/kb_agent/connectors/confluence.py:164-182 | the record is identified by the page id, titled, holds the joined lines, has a non-empty URL exactly when both the base URL and the web path are set (then `{base}/wiki{webui}`), version 0 when none is given, one ancestor entry per ancestor, and is not an error record |
| `ConfluenceConnector.FormatPages` | src/kb_agent/connectors/confluence.py:116-118 | one record per result, formatted in order |
| `ConfluenceConnector.FetchRecordsCases` | src/kb_agent/connectors/confluence.py:57-74 | an unconfigured connector gives the "Confluence not configured" error record; otherwise an all-digit stripped query is fetched as a page id and any other query is searched |
| `ConfluenceConnector.PageRecordsCases` | src/kb_agent/connectors/confluence.py:76-99 | a 404 gives the "not found" error record, a failure the "Failed to fetch page" one, and a found page its formatted record |
| `ConfluenceConnector.SearchRecordsCases` | src/kb_agent/connectors/confluence.py:101-130 | a failed search gives the search-error record; no results give the zero-results record; otherwise one formatted record per page |
| `ConfluenceConnector.ConfluenceConnector.constructor` | src/kb_agent/connectors/confluence.py:22-35 | an explicit URL, email or token wins over the configured one; the configured URL loses its trailing slashes |
| `ConfluenceConnector.ConfluenceConnector.FetchData` | src/kb_agent/connectors/confluence.py:57-74 | `fetch_data` returns the records specified for the connector's credentials and the query |
| `ConfluenceConnector.ConfluenceConnector.SearchCql` | src/kb_agent/connectors/confluence.py:101-130 | the result loop returns the specified search records |
| `ConfluenceConnector.ConfluenceConnector.FetchAll` | src/kb_agent/connectors/confluence.py:184-186 | there is nothing to list |
| `DiGraphs.EmptyIsValid` | src/kb_agent/graph/graph_builder.py:149-151 | a fresh graph is well formed and has no node |
| `DiGraphs.AddNodeFacts` | src/kb_agent/graph/graph_builder.py:84 | `add_node` keeps the graph well formed, adds the node if missing, sets the given attributes and keeps its other attributes, and touches no other node or edge |
| `DiGraphs.TouchFacts` | src/kb_agent/graph/graph_builder.py:131 | an edge to an unknown node adds that node without attributes and changes no existing node |
| `DiGraphs.LinkFacts` | src/kb_agent/graph/graph_builder.py:131 | an edge between known nodes adds or updates that edge's attributes and nothing else |
| `DiGraphs.LinkKeepsValid` | src/kb_agent/graph/graph_builder.py:131 | such an edge keeps the graph well formed |
| `DiGraphs.AddEdgeFacts` | src/kb_agent/graph/graph_builder.py:48-131 | `add_edge` keeps the graph well formed, adds both ends if missing without changing known nodes, and adds or updates exactly that edge (at lines 48, 88 and 118-131) |
| `DiGraphs.RemoveOutEdgesFacts` | src/kb_agent/graph/graph_builder.py:78-81 | removing a node's outgoing edges keeps the nodes and exactly the edges that leave another node |
| `DiGraphs.RemoveNodesFacts` | src/kb_agent/graph/graph_builder.py:104-106 | removing nodes keeps exactly the other nodes and the edges between them |
| `DiGraphs.NeighboursAreEdges` | src/kb_agent/tools/graph_tool.py:49-66 | the successors and predecessors of a node are exactly the heads and tails of its edges, without repeats, and are nodes of the graph |
| `GraphBuilding.MentionsFacts` | src/kb_agent/graph/graph_builder.py:121-125 | the mention loop keeps the graph well formed, loses no node, and adds exactly the edges from the file to the keys |
| `GraphBuilding.LinkTargets` | src/kb_agent/graph/graph_builder.py:128-130 | each Markdown link points at its normalised path, in order |
| `GraphBuilding.ReferencesFacts` | src/kb_agent/graph/graph_builder.py:128-131 | the reference loop keeps the graph well formed, changes no node and adds exactly the edges from the file to the targets |
| `GraphBuilding.ParentFacts` | src/kb_agent/graph/graph_builder.py:113-119 | the parent issue adds exactly the two edges between it and the file |
| `GraphBuilding.ParentRelations` | src/kb_agent/graph/graph_builder.py:117-119 | right after the parent step (before the mention loop runs) the issue is typed `jira_issue`, the edge from it is `PARENT_OF` and the edge back is `CHILD_OF` |
| `GraphBuilding.MentionsRelation` | src/kb_agent/graph/graph_builder.py:121-125 | after the mention loop every mentioned key's edge from the file has relation `MENTIONS`, overwriting what it had; no other edge changes |
| `GraphBuilding.ReferencesRelation` | src/kb_agent/graph/graph_builder.py:128-131 | after the reference loop every link target's edge from the file has relation `REFERENCES`, overwriting what it had; no other edge changes |
| `GraphBuilding.ExtractFinalRelation` | src/kb_agent/graph/graph_builder.py:111-131 | after extraction, the file's edge to a named target has relation `REFERENCES` if the target is a link target, else `MENTIONS` if it is a mentioned key, else `CHILD_OF` (it is the parent) |
| `GraphBuilding.MentionedParentIsMention` | src/kb_agent/graph/graph_builder.py:21-125 | a parent key that the case-sensitive `[KEY-n]` pattern also finds, which is every upper-case parent key, ends with relation `MENTIONS` rather than `CHILD_OF` unless a link names it (at lines 21, 25 and 113-125) |
| `GraphBuilding.ExtractAddsTargets` | src/kb_agent/graph/graph_builder.py:111-131 | extraction keeps the graph well formed and adds exactly the edges from the file to the issues and paths its text names and the edge back from its parent; no edge or node is lost |
| `GraphBuilding.ExtractFromCleared` | src/kb_agent/graph/graph_builder.py:78-91 | for a file cleared of its outgoing edges, extraction leaves exactly the edges to its targets |
| `GraphBuilding.ChangedFileEdges` | src/kb_agent/graph/graph_builder.py:71-91 | a new or changed file ends with exactly the outgoing edges its text names, and its `CONTAINS` edge from a folder that is not the root |
| `GraphBuilding.ChangedFileNode` | src/kb_agent/graph/graph_builder.py:84 | unless the file's id is an issue key its own text names, its node is typed `file` with its name and new hash |
| `GraphBuilding.ReaddedEdges` | src/kb_agent/graph/graph_builder.py:78-88 | re-adding a file keeps every edge that does not leave it and adds its `CONTAINS` edge |
| `GraphBuilding.ReaddedNode` | src/kb_agent/graph/graph_builder.py:84 | the re-added node is typed `file` with the file's name and hash |
| `GraphBuilding.FileKeepsValid` | src/kb_agent/graph/graph_builder.py:50-94 | any file of the walk keeps the graph well formed |
| `GraphBuilding.SkippedFile` | src/kb_agent/graph/graph_builder.py:51-94 | a file that is not Markdown, cannot be read, or whose stored hash matches changes nothing (at lines 51-52, 60-69 and 93-94) |
| `GraphBuilding.FolderFacts` | src/kb_agent/graph/graph_builder.py:43-48 | the walk root adds nothing; any other directory gets a `folder` node and a `CONTAINS` edge from a parent that is not the root |
| `GraphBuilding.ActiveAreMarkdown` | src/kb_agent/graph/graph_builder.py:50-57 | the active ids are exactly the ids of the Markdown files of the walk, readable or not |
| `GraphBuilding.Stale` | src/kb_agent/graph/graph_builder.py:98-102 | the stale nodes are exactly the `file` nodes whose id the walk did not see |
| `GraphBuilding.WalkKeepsValid` | src/kb_agent/graph/graph_builder.py:39-94 | the walk keeps the graph well formed |
| `GraphBuilding.BuildCleansUp` | src/kb_agent/graph/graph_builder.py:29-106 | after a build the graph is well formed and keeps exactly the nodes that are not stale files: every `file` node is a Markdown file of this walk |
| `GraphBuilding.GraphBuilder.constructor` | src/kb_agent/graph/graph_builder.py:14-27 | a new builder holds an empty graph |
| `GraphBuilding.GraphBuilder.LoadGraph` | src/kb_agent/graph/graph_builder.py:141-151 | the stored graph when one could be read, else an empty one |
| `GraphBuilding.GraphBuilder.ExtractRelations` | src/kb_agent/graph/graph_builder.py:111-131 | the graph becomes the specified extraction from the old one |
| `GraphBuilding.GraphBuilder.AddMentionEdges` | src/kb_agent/graph/graph_builder.py:121-125 | the loop adds the specified mentions |
| `GraphBuilding.GraphBuilder.AddReferenceEdges` | src/kb_agent/graph/graph_builder.py:128-131 | the loop adds the specified references |
| `GraphBuilding.GraphBuilder.ProcessFile` | src/kb_agent/graph/graph_builder.py:50-94 | the graph takes the specified file step |
| `GraphBuilding.GraphBuilder.ProcessDir` | src/kb_agent/graph/graph_builder.py:39-94 | the graph takes the directory's step and the directory's Markdown ids are returned |
| `GraphBuilding.GraphBuilder.BuildGraph` | src/kb_agent/graph/graph_builder.py:29-106 | the graph becomes the specified build from the stored graph and the walk |
| `GraphTools.FirstContainingIsFirst` | src/kb_agent/tools/graph_tool.py:36-39 | the label search gives the first node, in insertion order, whose lower-cased id contains the entity, and nothing only when no node does |
| `GraphTools.ResolutionOrder` | src/kb_agent/tools/graph_tool.py:27-39 | an exact id wins, then the id with `.md` appended, then the first node containing the entity ignoring case |
| `GraphTools.OutRelatedShape` | src/kb_agent/tools/graph_tool.py:49-56 | one "out" entry per successor, in order, with the node's type (default "unknown") and the edge's relation (default "related_to") |
| `GraphTools.InRelatedShape` | src/kb_agent/tools/graph_tool.py:59-66 | one "in" entry per predecessor, in order, with the same defaults |
| `GraphTools.OutNeighbours` | src/kb_agent/tools/graph_tool.py:49-56 | every "out" entry names a node of the graph reached by an edge from the target |
| `GraphTools.InNeighbours` | src/kb_agent/tools/graph_tool.py:59-66 | every "in" entry names a node of the graph with an edge to the target |
| `GraphTools.RelatedAreNeighbours` | src/kb_agent/tools/graph_tool.py:44-68 | for a resolved target the results are its outgoing entries then its incoming ones, one per edge touching it |
| `GraphTools.NothingRelated` | src/kb_agent/tools/graph_tool.py:23-42 | an empty graph, an entity no node matches, or an empty target name gives no results (at lines 23-24 and 41-42) |
| `GraphTools.GraphTool.constructor` | src/kb_agent/tools/graph_tool.py:10-16 | with settings the tool holds the stored graph (empty when there is none); without, an empty graph |
| `GraphTools.GraphTool.FindContaining` | src/kb_agent/tools/graph_tool.py:36-39 | the search loop finds the first containing node |
| `GraphTools.GraphTool.ResolveTarget` | src/kb_agent/tools/graph_tool.py:27-39 | the target is the specified resolution |
| `GraphTools.GraphTool.ListOut` | src/kb_agent/tools/graph_tool.py:49-56 | the outgoing loop lists the specified entries |
| `GraphTools.GraphTool.ListIn` | src/kb_agent/tools/graph_tool.py:59-66 | the incoming loop lists the specified entries |
| `GraphTools.GraphTool.GetRelatedNodes` | src/kb_agent/tools/graph_tool.py:18-68 | `get_related_nodes` returns the specified neighbour list |
| `EngineUrls.UrlMatcher` | src/kb_agent/engine.py:25 | a URL match starts where it is found and its text is the matched slice |
| `EngineUrls.SchemeLen` | src/kb_agent/engine.py:25 | a scheme is `http://` or `https://` and lies inside the text |
| `EngineUrls.UrlsFoundIff` | src/kb_agent/engine.py:68-69 | URLs are found exactly when an `http://` or `https://` followed by a character other than whitespace, `<`, `>` or a quote occurs |
| `EngineUrls.UrlAtMatches` | src/kb_agent/engine.py:25 | such an occurrence is a match of the URL pattern |
| `EngineUrls.MatchIsUrlAt` | src/kb_agent/engine.py:25 | and every match is such an occurrence |
| `EngineUrls.FindAllGroupsNonEmpty` | src/kb_agent/engine.py:68 | no URL found is empty |
| `EngineUrls.Conversation` | src/kb_agent/engine.py:75-184 | the messages are the system prompt, the history in order, then the user's message (at lines 75-77 and 182-184) |
| `EngineUrls.FetchedCount` | src/kb_agent/engine.py:141-143 | the loop reaches the URLs before the first one whose `fetch_data` raises: all of those fetches returned, and the next one raised |
| `EngineUrls.FetchedEmptyIff` | src/kb_agent/engine.py:141-163 | when every fetch returns, nothing was gathered exactly when every URL's fetch returned no record; error records count as content |
| `EngineUrls.Kept` | src/kb_agent/engine.py:144-153 | the records handed to the processor are exactly the fetched ones that are not error records |
| `EngineUrls.QuestionAfter` | src/kb_agent/engine.py:167-169 | the question left after removing the URLs carries no surrounding whitespace |
| `EngineUrls.Question` | src/kb_agent/engine.py:167-171 | the question is what remains of the query without its URLs, or the summarising request when nothing remains |
| `EngineUrls.WebPrompt` | src/kb_agent/engine.py:165-180 | the prompt starts with "Web Content:" and holds at most 8000 characters of the gathered text before the question (at lines 165 and 180) |
| `EngineUrls.HandleUrlsSpec` | src/kb_agent/engine.py:129-188 | `_handle_urls` raises exactly when the fetch of one of the URLs raises |
| `EngineUrls.FirstFetchErrorRaised` | src/kb_agent/engine.py:141-143 | the exception raised is the one of the first URL whose fetch raises |
| `EngineUrls.FetchFailedOnlyWhenNothingFetched` | src/kb_agent/engine.py:162-188 | when every fetch returns: if no URL gave a record the answer is the fixed failure text; otherwise it is the masked completion of the web conversation |
| `EngineUrls.AddDocs` | src/kb_agent/engine.py:144-160 | one URL's records are appended to the gathered text, and in knowledge-base mode its non-error records to those processed |
| `EngineUrls.FetchAll` | src/kb_agent/engine.py:141-160 | the fetch loop gathers the specified texts and processed records, or stops with the exception of the first fetch that raises; the records of the URLs before it have already been processed |
| `EngineUrls.AskedQuestion` | src/kb_agent/engine.py:167-171 | the replacement loop computes the specified question |
| `EngineUrls.HandleUrls` | src/kb_agent/engine.py:129-188 | `_handle_urls` returns the specified answer, or raises the first fetch's exception, and processes the records of the URLs it reached |
| `Engine.InitialState` | src/kb_agent/engine.py:98-110 | the agent starts from the query and history in knowledge-base mode, with empty lists, iteration 0, not sufficient and no answer |
| `Engine.RunAgenticRag` | src/kb_agent/engine.py:89-123 | the graph's final answer, the not-found text when it is empty, or the error text when the run fails; never empty |
| `Engine.AgenticRunIsBounded` | src/kb_agent/engine.py:113 | a successful run takes between one and the configured maximum of iterations, at most five |
| `Engine.AnswerQuery` | src/kb_agent/engine.py:43-83 | `answer_query` raises exactly when the query holds a URL whose fetch raises; the other paths always answer |
| `Engine.FirstUrlFetchRaises` | src/kb_agent/engine.py:68-69 | a query whose first URL cannot be fetched raises that fetch's exception, in any mode |
| `Engine.UnbalancedHostRaises` | src/kb_agent/engine.py:68-69 | with the web connector as the fetcher, a first URL whose host has an unmatched bracket makes `answer_query` raise "Invalid IPv6 URL" |
| `Engine.UrlPathSkipsGraph` | src/kb_agent/engine.py:67-70 | a query holding a URL is answered by the URL path in any mode, and the agent graph plays no part |
| `Engine.NormalModeAsksOnce` | src/kb_agent/engine.py:72-80 | without a URL, normal mode is one masked completion of the system prompt, the history and the query |
| `Engine.KnowledgeBaseModeRunsGraph` | src/kb_agent/engine.py:82-83 | without a URL, any other mode runs the agent graph and the answer is never empty |
| `Engine.MissingHistoryIsEmpty` | src/kb_agent/engine.py:65 | no history is the same as an empty one |
| `AgentState.ApplyFacts` | src/kb_agent/agent/state.py:12-76 | a node's update overwrites the keys it returns and keeps every other; it never changes the question, history, mode or search queries; the empty update changes nothing, and one update applied twice is applied once |
| `AgentGraph.RemoveUnderscores` | src/kb_agent/agent/graph.py:22 | `int()` ignores single underscores between digits: digits with underscores become plain digits, and plain digits stay as they are |
| `AgentGraph.DigitStringParses` | src/kb_agent/agent/graph.py:22 | a digit string, with or without a leading minus, parses to its value |
| `AgentGraph.ParseIntRoundTrip` | src/kb_agent/agent/graph.py:22 | `int(str(i)) == i` for every integer |
| `AgentGraph.ParseIntRefusesStrayCharacter` | src/kb_agent/agent/graph.py:22 | text holding a character that is not a digit, `_`, a sign or whitespace raises, with the message quoting the text |
| `AgentGraph.ParseIntRefusesBlank` | src/kb_agent/agent/graph.py:22 | empty or blank text raises, with the message quoting the text |
| `AgentGraph.MaxIter` | src/kb_agent/agent/graph.py:22 | the iteration cap is the setting (default "1") clamped to 1..5, and an unparsable setting raises with `int()`'s message, which quotes the setting as `repr` does |
| `AgentGraph.ParseIntQuotesLikeRepr` | src/kb_agent/agent/graph.py:22 | a refused setting holding a single quote is shown in double quotes |
| `AgentGraph.MaxIterDefault` | src/kb_agent/agent/graph.py:22 | without the setting the cap is 1 |
| `AgentGraph.MaxIterClamps` | src/kb_agent/agent/graph.py:22 | a setting below 1 gives 1, above 5 gives 5, anything between is kept |
| `AgentGraph.Route` | src/kb_agent/agent/graph.py:19-27 | after evaluation the graph goes back to planning exactly when the evidence is not sufficient and the iteration is below the cap; otherwise it synthesises |
| `AgentGraph.Rounds` | src/kb_agent/agent/graph.py:41-44 | helper for `RunWithShape`: a trace of k whole rounds has 3k nodes |
| `AgentGraph.RoundAdvances` | src/kb_agent/agent/graph.py:41-44 | a round of plan, tool and evaluate raises the iteration by one, clears the pending calls and keeps the query and history |
| `AgentGraph.RunWithShape` | src/kb_agent/agent/graph.py:30-47 | a run that ends is some rounds of plan, tool execution and evaluation, then synthesis; there is at least one round, the iteration rises by one per round, no round starts at or past the cap except the first, and the run ends sufficient or at the cap |
| `AgentGraph.RunShape` | src/kb_agent/agent/graph.py:30-52 | the same for the compiled graph with its configured cap |
| `AgentGraph.RunFromStartIsBounded` | src/kb_agent/agent/graph.py:19-52 | from iteration 0 a run makes between one and the cap's number of rounds, at most five |
| `AgentTools.RegistryNamesDistinct` | src/kb_agent/agent/tools.py:224-232 | seven tools, no two with the same name |
| `AgentTools.Capped` | src/kb_agent/agent/tools.py:110-165 | a capped result is the first results, at most the cap, and all of them when there are few enough (at lines 110, 127 and 165) |
| `AgentTools.GrepSearch` | src/kb_agent/agent/tools.py:96-110 | at most twenty grep results, the first ones |
| `AgentTools.VectorSearch` | src/kb_agent/agent/tools.py:113-127 | at most ten of the results of a five-result vector search, the first ones |
| `AgentTools.GraphRelated` | src/kb_agent/agent/tools.py:151-165 | at most twenty related nodes, the first ones |
| `AgentTools.ReadFile` | src/kb_agent/agent/tools.py:130-148 | a missing or refused file gives the "not found or access denied" text; a text of at most 8000 characters is returned whole, a longer one cut to 8000 and marked truncated |
| `AgentTools.WebContent` | src/kb_agent/agent/tools.py:217-219 | page content of at most 8000 characters is kept; longer content is cut to 8000 and marked truncated |
| `AgentTools.WebContentIdempotent` | src/kb_agent/agent/tools.py:217-219 | truncation bounds the length, and content within the limit is left alone |
| `AgentTools.TruncateWebResults` | src/kb_agent/agent/tools.py:216-219 | each record's content is truncated in place and nothing else of it changes |
| `AgentTools.Singletons.constructor` | src/kb_agent/agent/tools.py:20-26 | no backend has been built yet |
| `AgentTools.Singletons.Get` | src/kb_agent/agent/tools.py:29-82 | a backend already built is returned again; a missing one is built once, fresh, and kept |
| `AgentTools.Singletons.Reset` | src/kb_agent/agent/tools.py:85-88 | every backend is forgotten |
| `AgentTools.GetTwice` | src/kb_agent/agent/tools.py:29-82 | asking twice for a backend gives the same object |
| `AgentText.ThinkAt` | src/kb_agent/agent/nodes.py:35 | a reasoning-block match starts at a `<think>` tag and ends inside the text |
| `AgentText.StripThinkTags` | src/kb_agent/agent/nodes.py:38-40 | the cleaned text has no surrounding whitespace |
| `AgentText.UnclosedThinkSurvives` | src/kb_agent/agent/nodes.py:35-40 | without a closing tag nothing is removed, only whitespace is stripped |
| `AgentText.RemovesFirstBlock` | src/kb_agent/agent/nodes.py:35-40 | the first `<think>` up to the first `</think>` after it is removed, the text before it kept, and the rest cleaned the same way |
| `AgentText.StripsFirstBlock` | src/kb_agent/agent/nodes.py:38-40 | stripping removes that block and then the surrounding whitespace |
| `AgentText.ThinkRemovesBlock` | src/kb_agent/agent/nodes.py:35 | a block at the start disappears together with its tags |
| `AgentText.HistoryToMessages` | src/kb_agent/agent/nodes.py:70-82 | one message per history entry, in order |
| `AgentText.HistoryRoundTrip` | src/kb_agent/agent/nodes.py:73-81 | each message keeps its entry's content, and its role is "system" or "assistant" when the entry says so and "user" otherwise |
| `AgentText.BalanceFrom` | src/kb_agent/agent/nodes.py:120-126 | the scan stops at the first position where the bracket depth returns to zero, and only there |
| `AgentText.BracketCandidate` | src/kb_agent/agent/nodes.py:115-130 | the candidate starts at the first opening bracket and is the shortest balanced stretch from it |
| `AgentText.FencedCandidate` | src/kb_agent/agent/nodes.py:101-110 | a fenced candidate is taken only from text holding a code fence |
| `AgentText.JsonCandidates` | src/kb_agent/agent/nodes.py:91-130 | four candidates are tried, the cleaned text first |
| `AgentText.FirstLoadIsFirstSuccess` | src/kb_agent/agent/nodes.py:94-132 | the result is the first candidate that parses, and nothing only when none does |
| `AgentText.WholeTextFirst` | src/kb_agent/agent/nodes.py:94-96 | cleaned text that parses is returned as parsed |
| `AgentText.ScanBracket` | src/kb_agent/agent/nodes.py:115-126 | the depth loop finds the specified candidate |
| `AgentText.ExtractJson` | src/kb_agent/agent/nodes.py:85-132 | `_extract_json` returns the specified value |
| `AgentText.ToolArgKeysFollowRegistry` | src/kb_agent/agent/nodes.py:149-157 | the argument table lists the seven registered tools, in registry order, each once |
| `AgentText.QuotedArgAt` | src/kb_agent/agent/nodes.py:167 | a quoted-argument match starts at the tool's name, ends at a quote, and its argument is non-empty and free of quotes |
| `AgentText.MinedArgShape` | src/kb_agent/agent/nodes.py:165-170 | without a quoted argument the query is used; with one, the argument is non-empty and free of quotes |
| `AgentText.MinedShape` | src/kb_agent/agent/nodes.py:159-178 | the mined calls name distinct tools, and a tool is called exactly when it is kept |
| `AgentText.MinedToolsRegistered` | src/kb_agent/agent/nodes.py:135-178 | every mined call names a registered tool, none twice, and a tool is called exactly when its name occurs in the lower-cased response |
| `AgentText.ExtractToolsFromText` | src/kb_agent/agent/nodes.py:135-178 | the table loop mines the specified calls |
| `AgentText.FilePathFieldAt` | src/kb_agent/agent/nodes.py:367 | a `"file_path"` match starts at the key and its path is non-empty and free of `"` |
| `AgentText.MdRefAt` | src/kb_agent/agent/nodes.py:370 | a Markdown reference is a run of path characters ending in `.md` |
| `AgentText.ExtractFilePathsFromContext` | src/kb_agent/agent/nodes.py:362-383 | the loops collect the specified paths, each once, in first-seen order |
| `AgentText.ExtractedPathsEachOnce` | src/kb_agent/agent/nodes.py:372-383 | no path is listed twice and every path found is listed |
| `Nodes.Snippet` | src/kb_agent/agent/nodes.py:248 | evidence of at most 200 characters is shown whole; longer evidence is cut to 200 and marked with "..." |
| `Nodes.Snippets` | src/kb_agent/agent/nodes.py:246-250 | one snippet per evidence item, in order |
| `Nodes.PlanEvidence` | src/kb_agent/agent/nodes.py:240-264 | the planner is told about earlier work exactly when there is evidence, and then about the last five tool calls (all of them when there are fewer) |
| `Nodes.CallOf` | src/kb_agent/agent/nodes.py:291-298 | a parsed call keeps the item's name, and empty arguments when it has none |
| `Nodes.CallsOfItemsKeepsCallDicts` | src/kb_agent/agent/nodes.py:288-294 | the calls come from the list's items that are objects with a name, and there are none only when no item is |
| `Nodes.ReadCalls` | src/kb_agent/agent/nodes.py:341-344 | one `read_file` call per path, in order |
| `Nodes.FirstUnhashable` | src/kb_agent/agent/nodes.py:337 | building the set of read files fails exactly when some entry is unhashable, and names such an entry |
| `Nodes.NewFiles` | src/kb_agent/agent/nodes.py:338 | the new files are exactly the found paths not yet read |
| `Nodes.TextCallsOrigin` | src/kb_agent/agent/nodes.py:285-316 | calls parsed from JSON win; only when there are none are calls mined from the text, each for a registered tool named in it |
| `Nodes.FallbackChoice` | src/kb_agent/agent/nodes.py:322-355 | calls the model chose are kept; without any, the first round searches by grep and vector; a later round raises on an unhashable read path, otherwise reads the first three of the discovered, not yet read files in discovery order, and runs a vector search exactly when every discovered file has been read |
| `Nodes.PlanNeverEmpty` | src/kb_agent/agent/nodes.py:218-359 | the planner sets only the pending calls, never to an empty list, and every planned name is a string; it fails exactly when the model call fails, when a fallback meets an unhashable entry in the files read, or when a call found in the reply is named by something other than a string (the status line's join raises) |
| `Nodes.FirstNonStrName` | src/kb_agent/agent/nodes.py:357 | the first position whose name is not a string, every name before it being one; none exactly when all names are strings |
| `Nodes.FindNonStrName` | src/kb_agent/agent/nodes.py:357 | the join's scan stops at the first name that is not a string |
| `Nodes.PlanNode` | src/kb_agent/agent/nodes.py:218-359 | `plan_node` returns the specified update |
| `Nodes.CallsFromReply` | src/kb_agent/agent/nodes.py:276-320 | native tool calls when the reply has any, else the calls taken from its text |
| `Nodes.CopyNativeCalls` | src/kb_agent/agent/nodes.py:277-279 | the native calls are copied in order |
| `Nodes.CallsFromText` | src/kb_agent/agent/nodes.py:285-316 | the text's calls are the specified ones |
| `Nodes.CallsFromParsed` | src/kb_agent/agent/nodes.py:288-299 | the parsed value's calls are the specified ones |
| `Nodes.WithFallback` | src/kb_agent/agent/nodes.py:322-355 | the fallback loop gives the specified plan |
| `Nodes.NewFilesNotIn` | src/kb_agent/agent/nodes.py:337-338 | the filter keeps exactly the paths not yet read |
| `Nodes.CallResult` | src/kb_agent/agent/nodes.py:416-424 | an unregistered name gives "Unknown tool: …"; a registered tool gives its result, or "Tool error (…): …" when it raises |
| `Nodes.ExecuteCall` | src/kb_agent/agent/nodes.py:409-447 | a call runs exactly when its arguments are an object and its name hashable; it then adds the evidence entry "[name] result", a history record of the tool, its arguments and the first 500 characters of the result, and the path of a `read_file` |
| `Nodes.ReadPath` | src/kb_agent/agent/nodes.py:439-440 | a call records at most one read path |
| `Nodes.RunAllSucceeds` | src/kb_agent/agent/nodes.py:409-447 | the loop succeeds exactly when every call runs |
| `Nodes.RunAllOutcome` | src/kb_agent/agent/nodes.py:409-447 | when it does, it holds one entry and one record per call, in order, and the read paths of the calls |
| `Nodes.RunAllFirstError` | src/kb_agent/agent/nodes.py:409-424 | when it fails, the error is that of the first call that cannot run |
| `Nodes.ExecuteAllShape` | src/kb_agent/agent/nodes.py:404-447 | all calls run, in order, or the first one that cannot run stops the node |
| `Nodes.ToolNodeAppends` | src/kb_agent/agent/nodes.py:386-459 | without pending calls the lists are returned unchanged; otherwise one evidence entry "[name] result" and one history record holding the first 500 characters of the result are appended per call, in order; the read paths are added, the pending list is cleared, and nothing else is set |
| `Nodes.ToolNode` | src/kb_agent/agent/nodes.py:386-459 | `tool_node` returns the specified update |
| `Nodes.RunPending` | src/kb_agent/agent/nodes.py:409-447 | the call loop computes the specified outcome |
| `Nodes.RunCall` | src/kb_agent/agent/nodes.py:410-447 | one call of the loop |
| `Nodes.EvaluateNode` | src/kb_agent/agent/nodes.py:480-558 | evaluation raises the iteration by one and sets the verdict, and nothing else; without evidence the verdict is false and the model is not asked; it fails exactly when the model call fails or the status line cannot cut the reason |
| `Nodes.StatusErrorCases` | src/kb_agent/agent/nodes.py:527-556 | the status line raises exactly when the reply is a JSON object whose "sufficient" is falsy or missing and whose "reason" is null, a boolean, a number or an object |
| `Nodes.EvaluateWithoutEvidenceSkipsModel` | src/kb_agent/agent/nodes.py:493-501 | without evidence the answer does not depend on the model |
| `Nodes.VerdictCases` | src/kb_agent/agent/nodes.py:528-545 | a parsed object gives its "sufficient" value (false when missing); an unparsable reply is sufficient exactly when the evidence holds more than 100 characters |
| `Nodes.SynthesisContext` | src/kb_agent/agent/nodes.py:598 | the evidence joined by separators, or the no-evidence text |
| `Nodes.SynthesizeNode` | src/kb_agent/agent/nodes.py:580-617 | the final answer is the model's reply with reasoning blocks removed and card numbers masked, and nothing else is set |
| `Chunking.Sections` | src/kb_agent/chunking.py:19-30 | the document's lines cut into maximal runs, a new run starting at each heading |
| `Chunking.SectionChunk` | src/kb_agent/chunking.py:23-35 | a section gives a chunk exactly when its stripped text is not blank; the chunk is that text, titled by the section's heading |
| `Chunking.Ranges` | src/kb_agent/chunking.py:51-79 | the chunks are consecutive paragraph ranges, each starting inside the previous one, the last ending at the last paragraph; there are none only without paragraphs |
| `Chunking.ChunkTextsNonEmpty` | src/kb_agent/chunking.py:74-79 | no paragraph chunk is the empty string |
| `GrepTool.CollectSpec` | src/kb_agent/tools/grep_tool.py:51-74 | a file has lines exactly when it is listed |
| `GrepTool.Matching` | src/kb_agent/tools/grep_tool.py:129-132 | the listed line numbers are 1-based, in increasing order, and each matches |
| `Text.Split` | src/kb_agent/chunking.py:45 | `str.split`: at least one part, the parts joined by the separator give the text back, and no part holds the separator |
| `Text.Find` | src/kb_agent/agent/nodes.py:116 | `str.find`: -1 exactly when the text does not occur, else its first occurrence |
| `Text.Strip` | src/kb_agent/chunking.py:52 | `str.strip`: the result neither starts nor ends with whitespace, and is no longer than the text |
| `Text.StripKeepsNonSpace` | src/kb_agent/agent/graph.py:22 | `str.strip` keeps every character that is not whitespace |
| `Text.StripOfBlank` | src/kb_agent/agent/graph.py:22 | `str.strip` of blank text is empty |
| `Text.ReprOfPlain` | src/kb_agent/agent/graph.py:22 | `repr` of text needing no escape is the text between single quotes, or between double quotes when it holds a single quote and no double quote |
| `Text.ReprBodyEscapesQuote` | src/kb_agent/agent/graph.py:22 | inside `repr`'s quotes every occurrence of the quote character follows a backslash |
| `Text.JoinLength` | src/kb_agent/chunking.py:32-35 | `str.join`: the parts' lengths plus one separator between each two |

## Left out

- The LLM, ripgrep, ChromaDB and its embeddings, the HTTP clients, crawl4ai, BeautifulSoup,
  markdownify, md5, `json.loads`, `os.walk`, file reads and writes, and `Path.resolve` are
  parameters of the functions that use them. Each answers as a pure function of its input.
- Logging, audit records and the status callbacks (`_emit`, `log_audit`, `log_llm_response`) are
  not modelled. Their only effect on results is the exception raised while a status message is
  built: the planner's join of the call names and the evaluator's cut of the reason. Both are
  modelled.
- `Llm.ChatCompletion`: the service's answer is always a string. The `None` that the OpenAI client
  may return as a message's content is not modelled. The engine would pass that `None` through
  the masking, and the processor's write of it would raise.
- `GraphTool.find_path` is not modelled: it is networkx's `shortest_path`.
- The graph's JSON save and load (`save_graph`, and the parsing inside `load_graph`) are not
  modelled. A stored graph that could be read is given as a value.
- The link patterns of the graph builder and the regex engine of the Python grep fallback are
  parameters; only the patterns of the think tags, the Markdown headings, the issue key, the card
  number, the URL, the tool-argument quote and the file-path references are written out.
- Character classes are ASCII: `\s`, `\w`, `\d`, `str.lower`, `str.isdigit` and `str.strip`
  treat non-ASCII text differently in Python.
- JSON numbers are kept as the text `str()` prints; no arithmetic is done on them, and vector
  distances are passed through.
- `json.dumps` of a tool's result is not modelled: a tool's result is the list it would serialise.
- The HTML clean-up of the requests back end (removing tags, picking the main element) and
  crawl4ai's event loop and thread pool are inside the fetch parameters.
- Request headers, authentication headers sent to Jira, query parameters and timeouts are not
  modelled; each REST call is a parameter from the URL (and credentials) to its response.
- Jira and Confluence fields whose JSON value is `null` rather than missing, and list items that
  are not objects, are not modelled: the model receives the fields the connectors read as
  options.
- `urlparse` is modelled only for the host part that the web id uses.
- `WebConnector.HttpFetch`: the plain HTTP path catches only `requests.RequestException`; the
  fetcher's `Failure` stands for that exception, and any other exception it would let through is
  not modelled.
- `WebConnector.UrlIdShape`: the host is read as `urlsplit` reads it after deleting tabs and line
  breaks, and a host with an unmatched bracket raises. The checks of newer Python versions on a
  bracketed host (it must be a valid IPv6 address) and on non-ASCII hosts (NFKC normalisation)
  are not modelled.
- `AgentGraph.MaxIter`: `repr` of the refused setting escapes quotes, backslashes and ASCII control
  characters as Python does, but keeps every non-ASCII character, where Python escapes the ones it
  does not consider printable.
- `Nodes.StatusErrorCases`: for a "reason" that is a JSON object the message is the TypeError of
  Python versions before 3.12 (a slice is unhashable); from 3.12 on the dict lookup raises
  KeyError instead. Either way the evaluator raises.
- `GrepTool.Decode`: a line number that is not an integer is treated as an error, where Python
  would sort and merge it anyway.
- `LocalFileQa.QueryRows`: does not state which of several paths with the same base name is
  shown; the code shows the first.
- `Processing.Processor.Process`: paths are joined with "/" as strings, and a summary is
  computed before either file is written; the order of the writes is not observable here.
- `Security.MaskUnchangedIffNoCard`: `None` is not a string in the model, so the falsy-input
  branch is only the empty string.
- `AgentTools.Singletons.Get`: the seven backing objects are identified by a number per
  construction; their own state is not modelled.
- Settings loading (`config.py`) is replaced by an optional settings value passed to each
  constructor.
