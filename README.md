# citation-scanner: the claim traversal and the text scraper, in Dafny

This project models the core of citation-scanner, a Go service that extracts
claims and their cited sources from a web page and follows those sources
recursively. Three parts are modelled:

- **The page pipeline `ParsePageClaims`** (internal/parser/parser.go), in `parser.dfy`.
  It loads the `.env` file, reads the API key, scrapes the page, asks the
  language model for claims and decodes the JSON answer, stopping at the
  first step that fails. It then replaces every nil `sources` list by an
  empty one and stamps `Page` with the URL. The outcome of every step for one
  URL is an input (`PageSteps`). A Go slice that may be nil is an
  `Option<seq<…>>`.
- **The traversal `ParseAndAggregateClaims`** (internal/parser/parser.go), in
  `aggregation.dfy`. The shared state (`visited`, the report's `AllClaims`
  and `Errors`) is the class `Traversal`. `parseRecursive` is
  `Traversal.Visit`. Each goroutine becomes a pending task, and its body is
  `Traversal.RunTask`, run for any pending task in any order. The
  collaborators' answers are a table of outcomes per URL: the cache lookup
  (error, miss, or hit with its decoding), the page pipeline, the JSON
  encoding and the cache write.
  - The methods are proved equal to value-level step functions over a
    `Snapshot` of the state: `VisitStep`, `FanOut`, `Record` and `TaskStep`.
  - An invariant `Inv` is proved to hold after every step, in any
    scheduling order. It says:
    - every visited URL has exactly one task;
    - every finished task recorded exactly its own outcome;
    - every task was discovered from the root or from an earlier document, within `maxDepth`;
    - the page pipeline ran only on cache misses, and the cache was written only after a successful parse and encoding.
  - Ghost fields record the tasks behind each document and error, the URLs
    handed to the page pipeline, and the cache writes. They exist only to
    state these properties.
- **The text walk `scrapeText` and the guards of `ScrapePage`**
  (pkg/webscraper/webscraper.go), in `webscraper.dfy`. The HTML tree is a
  `Node` datatype with children in sibling order. The `strings.Builder` is
  a class that is only appended to. `ScrapeText` is proved to append exactly
  `TextOf(n)`, a pure pre-order walk. `TextOf` is then characterised
  independently: as the text nodes' data in pre-order, each followed by one
  space; by its length; and by the substrings it contains.

`wrappers.dfy` holds `Option`, `Result` and `Outcome`. `text.dfy` holds the
substring predicate.

A failed cache write drops the freshly parsed document: after a failed
write, internal/parser/parser.go:175-181 records an error and returns before
the append at line 189, so the document's sources are not followed
(`Resolve`, `FailedTaskStep`).

## Model

| member | source | states |
|---|---|---|
| Parser.NormalizeSources | internal/parser/parser.go:98-103 | keeps the number, order and text of the claims; every claim's sources become non-nil, and become the empty list when they were nil |
| Parser.NormalizeKeepsCited | internal/parser/parser.go:98-103 | normalising does not change which sources are cited, nor their order |
| Parser.NormalizeIdempotent | internal/parser/parser.go:98-103 | normalising twice is the same as normalising once |
| Parser.ParsePage | internal/parser/parser.go:36-109 | on success the decode step succeeded; the result's `Page` is the URL, its parent link is the decoded one, and its claims are the decoded claims, in the same number and order, each with non-nil sources |
| Parser.ParsePageSucceedsIffNoStepFails | internal/parser/parser.go:38-96 | the pipeline returns a result if and only if none of its five steps fails |
| Parser.ParsePageFailsAtFirstFailingStep | internal/parser/parser.go:38-96 | when step k is the first that fails, the pipeline returns exactly that step's error message and no result |
| Parser.ParsePageClaims | internal/parser/parser.go:36-109 | the method, with its early returns and its in-place normalisation loop, returns what `ParsePage` specifies |
| Aggregation.Resolve | internal/parser/parser.go:141-182 | a cache lookup error always gives an error; a hit gives the cached document exactly when the stored JSON decodes; a miss gives the parsed document exactly when parsing, encoding and the cache write all succeed |
| Aggregation.ResolveErrorNamesUrl | internal/parser/parser.go:144-181 | every error message a task can record contains the task's URL |
| Aggregation.FailedTaskStep | internal/parser/parser.go:144-181 | a task that records an error appends no document and visits no sources |
| Aggregation.VisitStepKeepsCore | internal/parser/parser.go:123-135 | a visit of a legitimately discovered URL keeps one task per visited URL, one outcome per finished task, the discovery links and the collaborator-call account |
| Aggregation.FanOutKeepsCore | internal/parser/parser.go:192-197 | visiting a document's sources keeps the invariant; it changes only `visited` and the pending tasks; it marks every source when the depth is within `maxDepth`; it adds a task only when it marks a new URL |
| Aggregation.RecordKeepsCore | internal/parser/parser.go:141-190 | recording a task's outcome keeps the invariant, leaves `visited` unchanged, and keeps the earlier documents' sources visited |
| Aggregation.TaskStepExtendsReport | internal/parser/parser.go:146-189 | one goroutine only appends to the report: the documents, the errors and the tasks that recorded them before it are kept, in order, as a prefix |
| Aggregation.TaskStepKeepsInv | internal/parser/parser.go:138-198 | a whole goroutine keeps the invariant; it either marks a new URL or shrinks the pending list by one (the termination measure) |
| Aggregation.RootVisitStartsInv | internal/parser/parser.go:201 | visiting the root at depth 0 with parent "" establishes the invariant |
| Aggregation.FinishedCounts | internal/parser/parser.go:142-190 | once no task is pending, every visited URL has exactly one outcome: it has a document or an error, never both, and \|AllClaims\| + \|Errors\| = \|visited\| |
| Aggregation.DocumentsChainToRoot | internal/parser/parser.go:123-197 | every recorded document's depth is between 0 and `maxDepth`, and it is reached from the root by a chain of exactly that many citing documents |
| Aggregation.ParentRecordedBefore | internal/parser/parser.go:185-197 | the root's document has parent ""; every other document's parent link names a document recorded before it that cites it |
| Aggregation.FinishedVisitedIsCitationClosure | internal/parser/parser.go:123-199 | a finished traversal visited the sources of every document above `maxDepth`, and visited nothing but the root and such sources |
| Aggregation.ErrorsNameTheirUrl | internal/parser/parser.go:142-181 | every recorded error is the outcome its own task's URL resolves to, and it contains that URL |
| Aggregation.Traversal.constructor | internal/parser/parser.go:113-118 | the report starts with no documents and no errors, and `visited` starts empty |
| Aggregation.Traversal.Visit | internal/parser/parser.go:123-137 | `parseRecursive`: a visit deeper than `maxDepth`, or of a visited URL, changes nothing; otherwise the URL is marked and its task starts, in one step |
| Aggregation.Traversal.ResolveTask | internal/parser/parser.go:141-182 | returns `Resolve`'s outcome; the page pipeline is called exactly on a cache miss; the cache is written exactly after a successful parse and encoding |
| Aggregation.Traversal.VisitSources | internal/parser/parser.go:193-197 | visits every source of every claim, in order, with the document's URL as parent and one level deeper |
| Aggregation.Traversal.RecordOutcome | internal/parser/parser.go:141-190 | removes the task and records exactly one outcome: the document with its parent link set, or the error; the invariant is kept and `visited` is unchanged |
| Aggregation.Traversal.RunTask | internal/parser/parser.go:138-198 | runs one goroutine as `TaskStep` specifies and keeps the invariant; `visited` only grows, and when it does not grow the pending list shrinks by one |
| Aggregation.Traversal.RunAll | internal/parser/parser.go:202 | runs pending tasks in any order until none is left, keeping the invariant; the documents, errors and finished tasks present on entry stay in place as a prefix; it terminates |
| Aggregation.ParseAndAggregateClaims | internal/parser/parser.go:112-204 | the final state satisfies the invariant with nothing pending; the report is the root URL with the recorded documents and errors; \|AllClaims\| + \|Errors\| = \|visited\|; the report's root page is the root URL; when `maxDepth` >= 0 the root is visited and the report holds at least one outcome; a negative `maxDepth` yields an empty report; every reported error names a URL |
| Webscraper.ScrapeText | pkg/webscraper/webscraper.go:38-46 | appends exactly `TextOf(n)` to the builder and keeps its earlier contents as a prefix |
| Webscraper.ScrapePage | pkg/webscraper/webscraper.go:12-35 | returns an error, with its own message, on a fetch failure, on any status but 200 and on an HTML parse failure; otherwise it returns exactly the walk's text of the document |
| Webscraper.TextOfIsJoinedLeaves | pkg/webscraper/webscraper.go:38-46 | the walk writes exactly the text nodes' data in pre-order, each followed by one space |
| Webscraper.TextOfLength | pkg/webscraper/webscraper.go:38-46 | the walk writes \|data\| + 1 characters per text node and nothing else (a model character stands for one byte of the Go string) |
| Webscraper.TextNodeIsLeaf | pkg/webscraper/webscraper.go:39-45 | the data of every text node in the tree is among the pre-order leaves |
| Webscraper.LeafIsTextNode | pkg/webscraper/webscraper.go:39-45 | every pre-order leaf is the data of some text node in the tree |
| Webscraper.TextNodeDataInText | pkg/webscraper/webscraper_test.go:36-41 | every text node's data occurs as a substring of the scraped text |
| Webscraper.NoTextNodesNoText | pkg/webscraper/webscraper.go:38-46 | a tree without text nodes writes nothing |

## Left out

- Goroutines, `sync.Mutex` and `sync.WaitGroup`: tasks run one at a time, in any order the driver picks. The test and the mark of `visited` are one step, as under the mutex. Interleavings inside a goroutine are not modelled. The model does not claim that `visited` is the same for every order: with the depth bound, which parent reaches a URL first can decide whether that URL's sources are pruned.
- The cache (internal/cache/cache.go) is not part of this model. It is a SQLite store with an expiry time; its lookup, decoding and write outcomes are inputs per URL.
- The OpenAI client (pkg/openai/client.go) is not part of this model. It makes a network call with floating-point settings; its answer is an input.
- The prompt text and the `fmt.Println` / `fmt.Printf` diagnostics (internal/parser/parser.go:40, 63-81, 89, 131) are left out: they do not affect the result.
- `encoding/json`, `http.Get` and `html.Parse`: their results are inputs (`Result` values), not computed.
- `webscraper.ScrapeBody`, which `ParsePageClaims` calls, is not in pkg/webscraper/webscraper.go and is not part of this model; its outcome is the `scraped` input.
- The HTTP API, authentication and command-line programs (api/, cmd/) are not part of this model.
- Resolve: does not model a cache hit whose stored JSON is `null`. There `json.Unmarshal` (internal/parser/parser.go:152) succeeds and leaves the `*ParsedClaims` pointer nil, and `claims.ParentURL = parentURL` (line 185) panics and ends the process. `Hit` carries a decoded document or a decoding error only. The traversal itself never stores `null`, since it always encodes a non-nil pointer (line 168).
- ParseAndAggregateClaims: requires the outcome table to have a row for the root and for every source that a document it resolves can cite. This stands in for the finite set of URLs the traversal can meet, and it gives the termination measure.
- ParseAndAggregateClaims: returns only the report. The Go function also returns an error, which is always nil.
