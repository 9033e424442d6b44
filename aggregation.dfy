/** The recursive citation traversal `ParseAndAggregateClaims` of
    internal/parser/parser.go.

    In Go, `parseRecursive(url, parentURL, depth)` drops a visit deeper than
    `maxDepth`, then tests and marks `url` in `visited` under one mutex, and
    starts one goroutine per newly marked URL. The goroutine resolves the
    URL's claims (cache, or `ParsePageClaims` and a cache write), records
    exactly one outcome (a document or an error string) and calls
    `parseRecursive` for every source of every claim, with `depth + 1`.

    Here the goroutines are a worklist: `Visit` is `parseRecursive` and
    appends a pending task where Go starts a goroutine, and `RunTask` is the
    goroutine's body, run for ANY pending task the driver picks. Every
    collaborator (cache lookup and decoding, the page pipeline, JSON
    encoding, the cache write) is an input: a table of outcomes per URL.

    The methods of the class `Traversal` are proved against value-level
    specifications (`VisitStep`, `FanOut`, `TaskStep`) over a `Snapshot` of
    its state; the invariant `Inv` and what it gives a finished traversal
    are proved about those specifications. */
module Aggregation {
  import opened Wrappers
  import opened Text
  import opened Parser

  // ---------------------------------------------------------------------
  // Collaborator outcomes and the outcome of one task

  /** What the cache lookup answers for one URL. */
  datatype CacheLookup =
    | LookupError(err: string)                       // the lookup itself failed
    | Miss                                           // never stored, or expired
    | Hit(unmarshaled: Result<ParsedClaims, string>) // found; decoding the stored JSON

  /** Everything the collaborators answer for one URL: the cache lookup, the
      page pipeline, encoding the parsed claims as JSON and the cache write. */
  datatype UrlOutcome = UrlOutcome(
    lookup: CacheLookup,
    page: PageSteps,
    marshaled: Result<string, string>,
    cacheWrite: Outcome<string>)

  /** The collaborators' outcomes for every URL the traversal may meet. */
  type Table = map<string, UrlOutcome>

  /** The one outcome a task records. */
  datatype Resolution = Resolved(doc: ParsedClaims) | Failed(message: string)

  /** What the goroutine for `url` records, before the parent link is set. */
  function Resolve(url: string, o: UrlOutcome): (r: Resolution)
    ensures o.lookup.LookupError? ==> r.Failed?
    ensures o.lookup.Hit? ==>
              (r.Resolved? <==> o.lookup.unmarshaled.Success?) &&
              (r.Resolved? ==> r.doc == o.lookup.unmarshaled.value)
    ensures o.lookup.Miss? ==>
              (r.Resolved? <==>
                 ParsePage(url, o.page).Success? && o.marshaled.Success? && o.cacheWrite.Pass?) &&
              (r.Resolved? ==> r.doc == ParsePage(url, o.page).value)
  {
    match o.lookup
    case LookupError(e) => Failed("Error accessing cache for " + url + ": " + e)
    case Hit(Failure(e)) => Failed("Error unmarshaling cache for " + url + ": " + e)
    case Hit(Success(cached)) => Resolved(cached)
    case Miss =>
      match ParsePage(url, o.page)
      case Failure(e) => Failed("Error parsing " + url + ": " + e)
      case Success(parsed) =>
        if o.marshaled.Failure? then
          Failed("Error marshaling claims for " + url + ": " + o.marshaled.error)
        else if o.cacheWrite.Fail? then
          Failed("Error caching response for " + url + ": " + o.cacheWrite.error)
        else
          Resolved(parsed)
  }

  /** Every error a task records names its URL. */
  lemma ResolveErrorNamesUrl(url: string, o: UrlOutcome)
    requires Resolve(url, o).Failed?
    ensures IsSubstring(url, Resolve(url, o).message)
  {
    var m := Resolve(url, o).message;
    match o.lookup {
      case LookupError(e) =>
        assert m == "Error accessing cache for " + url + (": " + e);
        InfixIsSubstring("Error accessing cache for ", url, ": " + e);
      case Hit(dec) =>
        var e := dec.error;
        assert m == "Error unmarshaling cache for " + url + (": " + e);
        InfixIsSubstring("Error unmarshaling cache for ", url, ": " + e);
      case Miss =>
        var parsed := ParsePage(url, o.page);
        if parsed.Failure? {
          assert m == "Error parsing " + url + (": " + parsed.error);
          InfixIsSubstring("Error parsing ", url, ": " + parsed.error);
        } else if o.marshaled.Failure? {
          assert m == "Error marshaling claims for " + url + (": " + o.marshaled.error);
          InfixIsSubstring("Error marshaling claims for ", url, ": " + o.marshaled.error);
        } else {
          assert m == "Error caching response for " + url + (": " + o.cacheWrite.error);
          InfixIsSubstring("Error caching response for ", url, ": " + o.cacheWrite.error);
        }
    }
  }

  /** Every source cited by `doc` has a row in `table`. */
  ghost predicate CitesWithin(doc: ParsedClaims, table: Table) {
    forall x :: x in Cited(doc.claims) ==> x in table
  }

  /** The table answers for every URL a document it resolves may cite: the
      traversal can only meet URLs of the table. */
  ghost predicate TableClosed(table: Table) {
    forall u {:trigger Resolve(u, table[u])} :: u in table && Resolve(u, table[u]).Resolved? ==>
      CitesWithin(Resolve(u, table[u]).doc, table)
  }

  // ---------------------------------------------------------------------
  // The traversal's state as a value

  /** A call `parseRecursive(url, parentURL, depth)` that passed both checks,
      i.e. one goroutine. */
  datatype Task = Task(url: string, parentURL: string, depth: int)

  /** The inputs of one traversal. */
  datatype World = World(table: Table, root: string, maxDepth: int)

  /** The state of one traversal: the `visited` set, the report's documents
      and errors, and the pending tasks; beside them, the task that
      recorded each document and each error, the URLs handed to the page
      pipeline and the cache writes made, in order. */
  datatype Snapshot = Snapshot(
    visited: set<string>,
    allClaims: seq<ParsedClaims>,
    docTasks: seq<Task>,
    errors: seq<string>,
    errTasks: seq<Task>,
    pending: seq<Task>,
    parseCalls: seq<string>,
    cacheWrites: seq<(string, string)>)

  /** The state before the root is visited. */
  const Initial: Snapshot := Snapshot({}, [], [], [], [], [], [], [])

  function Urls(ts: seq<Task>): set<string> {
    set t | t in ts :: t.url
  }

  ghost predicate DistinctUrls(ts: seq<Task>) {
    forall i, j :: 0 <= i < j < |ts| ==> ts[i].url != ts[j].url
  }

  ghost predicate Distinct(xs: seq<string>) {
    forall i, j :: 0 <= i < j < |xs| ==> xs[i] != xs[j]
  }

  /** `parseRecursive(url, parentURL, depth)`: a visit deeper than `maxDepth`
      or of an already visited URL changes nothing; otherwise the URL is
      marked and its task becomes pending. */
  function VisitStep(w: World, s: Snapshot, url: string, parentURL: string, depth: int): Snapshot {
    if depth > w.maxDepth || url in s.visited then s
    else s.(visited := s.visited + {url}, pending := s.pending + [Task(url, parentURL, depth)])
  }

  /** The visits of `sources`, in order, each with `parentURL` and `depth`. */
  function FanOut(w: World, s: Snapshot, sources: seq<string>, parentURL: string, depth: int): Snapshot {
    if sources == [] then s
    else
      var init := sources[..|sources| - 1];
      VisitStep(w, FanOut(w, s, init, parentURL, depth), sources[|sources| - 1], parentURL, depth)
  }

  /** The goroutine of `s.pending[i]` up to and including recording its
      outcome: the task leaves the pending list, the page pipeline is asked
      on a cache miss, the cache is written after a successful parse and
      encoding, and the document (with its parent link set) or the error is
      appended. */
  function Record(w: World, s: Snapshot, i: nat): Snapshot
    requires i < |s.pending| && s.pending[i].url in w.table
  {
    var t := s.pending[i];
    var o := w.table[t.url];
    var res := Resolve(t.url, o);
    var written := o.lookup.Miss? && ParsePage(t.url, o.page).Success? && o.marshaled.Success?;
    Snapshot(
      s.visited,
      if res.Resolved? then s.allClaims + [res.doc.(parentURL := t.parentURL)] else s.allClaims,
      if res.Resolved? then s.docTasks + [t] else s.docTasks,
      if res.Failed? then s.errors + [res.message] else s.errors,
      if res.Failed? then s.errTasks + [t] else s.errTasks,
      s.pending[..i] + s.pending[i + 1..],
      if o.lookup.Miss? then s.parseCalls + [t.url] else s.parseCalls,
      if written then s.cacheWrites + [(t.url, o.marshaled.value)] else s.cacheWrites)
  }

  /** The whole goroutine of `s.pending[i]`: record its outcome, then, for a
      document, visit every source of every claim with `depth + 1`. */
  function TaskStep(w: World, s: Snapshot, i: nat): Snapshot
    requires i < |s.pending| && s.pending[i].url in w.table
  {
    var t := s.pending[i];
    match Resolve(t.url, w.table[t.url])
    case Failed(_) => Record(w, s, i)
    case Resolved(doc) => FanOut(w, Record(w, s, i), Cited(doc.claims), t.url, t.depth + 1)
  }

  // ---------------------------------------------------------------------
  // The invariant

  /** Task `t` was discovered legitimately: the root at depth 0 with no
      parent, or a source cited by a document recorded before index `bound`
      whose task was one level shallower. */
  ghost predicate Discovered(w: World, docTasks: seq<Task>, allClaims: seq<ParsedClaims>, t: Task, bound: int) {
    && 0 <= t.depth
    && (t.depth == 0 ==> t.url == w.root && t.parentURL == "")
    && (t.depth > 0 ==> CitedByEarlier(docTasks, allClaims, t, bound))
  }

  ghost predicate CitedByEarlier(docTasks: seq<Task>, allClaims: seq<ParsedClaims>, t: Task, bound: int) {
    exists j :: 0 <= j < bound && j < |docTasks| && j < |allClaims| && CitedByDoc(docTasks, allClaims, t, j)
  }

  ghost predicate CitedByDoc(docTasks: seq<Task>, allClaims: seq<ParsedClaims>, t: Task, j: int)
    requires 0 <= j < |docTasks| && j < |allClaims|
  {
    && docTasks[j].url == t.parentURL
    && docTasks[j].depth == t.depth - 1
    && t.url in Cited(allClaims[j].claims)
  }

  ghost predicate Linked(w: World, docTasks: seq<Task>, allClaims: seq<ParsedClaims>, t: Task, bound: int) {
    Discovered(w, docTasks, allClaims, t, bound) && t.depth <= w.maxDepth
  }

  /** Document `d` is what the task `t` resolves to, with its parent link. */
  ghost predicate DocRecorded(w: World, t: Task, d: ParsedClaims) {
    t.url in w.table && Resolve(t.url, w.table[t.url]).Resolved? &&
    d == Resolve(t.url, w.table[t.url]).doc.(parentURL := t.parentURL)
  }

  /** Error `e` is the error the task `t` resolves to. */
  ghost predicate ErrorRecorded(w: World, t: Task, e: string) {
    t.url in w.table && Resolve(t.url, w.table[t.url]) == Failed(e)
  }

  ghost predicate ParseCalled(w: World, u: string) {
    u in w.table && w.table[u].lookup.Miss?
  }

  ghost predicate CacheWritten(w: World, entry: (string, string)) {
    var (u, json) := entry;
    u in w.table && w.table[u].lookup.Miss? &&
    ParsePage(u, w.table[u].page).Success? && w.table[u].marshaled == Success(json)
  }

  /** One document per recorded document task, one error per error task. */
  ghost predicate Sizes(s: Snapshot) {
    |s.allClaims| == |s.docTasks| && |s.errors| == |s.errTasks|
  }

  /** Each visited URL has exactly one task: finished with a document,
      finished with an error, or pending. */
  ghost predicate OneTaskPerUrl(w: World, s: Snapshot) {
    && s.visited <= w.table.Keys
    && s.visited == Urls(s.docTasks) + Urls(s.errTasks) + Urls(s.pending)
    && DistinctUrls(s.docTasks) && DistinctUrls(s.errTasks) && DistinctUrls(s.pending)
    && Urls(s.docTasks) !! Urls(s.errTasks)
    && Urls(s.docTasks) !! Urls(s.pending)
    && Urls(s.errTasks) !! Urls(s.pending)
  }

  /** Each finished task recorded exactly its own outcome. */
  ghost predicate OutcomesRecorded(w: World, s: Snapshot)
    requires Sizes(s)
  {
    && (forall k :: 0 <= k < |s.docTasks| ==> DocRecorded(w, s.docTasks[k], s.allClaims[k]))
    && (forall k :: 0 <= k < |s.errTasks| ==> ErrorRecorded(w, s.errTasks[k], s.errors[k]))
  }

  /** Every task was discovered from the root or from a document recorded
      before it, within `maxDepth`. */
  ghost predicate TasksLinked(w: World, s: Snapshot) {
    && (forall k {:trigger Linked(w, s.docTasks, s.allClaims, s.docTasks[k], k)} ::
          0 <= k < |s.docTasks| ==> Linked(w, s.docTasks, s.allClaims, s.docTasks[k], k))
    && (forall k :: 0 <= k < |s.errTasks| ==> Linked(w, s.docTasks, s.allClaims, s.errTasks[k], |s.docTasks|))
    && (forall k :: 0 <= k < |s.pending| ==> Linked(w, s.docTasks, s.allClaims, s.pending[k], |s.docTasks|))
  }

  /** The page pipeline ran only on cache misses, at most once per URL and
      only for finished tasks; the cache was written only after a successful
      parse and encoding. */
  ghost predicate CollaboratorCalls(w: World, s: Snapshot) {
    && (forall k :: 0 <= k < |s.parseCalls| ==> ParseCalled(w, s.parseCalls[k]))
    && Distinct(s.parseCalls)
    && (forall u :: u in s.parseCalls ==> u in Urls(s.docTasks) + Urls(s.errTasks))
    && (forall k :: 0 <= k < |s.cacheWrites| ==> CacheWritten(w, s.cacheWrites[k]))
  }

  /** Everything that holds between any two steps of the traversal. */
  ghost predicate Core(w: World, s: Snapshot) {
    && Sizes(s)
    && OneTaskPerUrl(w, s)
    && OutcomesRecorded(w, s)
    && TasksLinked(w, s)
    && CollaboratorCalls(w, s)
  }

  /** The first `n` documents have had their sources visited. */
  ghost predicate FannedOut(w: World, s: Snapshot, n: int) {
    forall k, x :: 0 <= k < n && k < |s.docTasks| && k < |s.allClaims| &&
                   s.docTasks[k].depth < w.maxDepth && x in Cited(s.allClaims[k].claims) ==>
                   x in s.visited
  }

  ghost predicate Inv(w: World, s: Snapshot) {
    Core(w, s) && FannedOut(w, s, |s.allClaims|)
  }

  // ---------------------------------------------------------------------
  // Lemmas on task lists

  lemma UrlsAppend(ts: seq<Task>, t: Task)
    ensures Urls(ts + [t]) == Urls(ts) + {t.url}
  {
    assert forall u :: u in Urls(ts + [t]) ==> u in Urls(ts) + {t.url};
    assert t in ts + [t];
  }

  lemma DistinctAppend(ts: seq<Task>, t: Task)
    requires DistinctUrls(ts) && t.url !in Urls(ts)
    ensures DistinctUrls(ts + [t])
  {
    forall i, j | 0 <= i < j < |ts + [t]|
      ensures (ts + [t])[i].url != (ts + [t])[j].url
    {
      if j == |ts| {
        assert ts[i] in ts;
      }
    }
  }

  lemma RemoveAt(ts: seq<Task>, i: nat)
    requires i < |ts| && DistinctUrls(ts)
    ensures DistinctUrls(ts[..i] + ts[i + 1..])
    ensures Urls(ts[..i] + ts[i + 1..]) == Urls(ts) - {ts[i].url}
    ensures forall t :: t in ts[..i] + ts[i + 1..] ==> t in ts
  {
    var rest := ts[..i] + ts[i + 1..];
    assert forall k :: 0 <= k < |rest| ==> rest[k] == ts[if k < i then k else k + 1];
    forall u | u in Urls(ts) - {ts[i].url}
      ensures u in Urls(rest)
    {
      var t :| t in ts && t.url == u;
      var k :| 0 <= k < |ts| && ts[k] == t;
      assert rest[if k < i then k else k - 1] == t;
    }
  }

  lemma {:induction false} DistinctCard(ts: seq<Task>)
    requires DistinctUrls(ts)
    ensures |Urls(ts)| == |ts|
    decreases |ts|
  {
    if ts != [] {
      var init := ts[..|ts| - 1];
      var last := ts[|ts| - 1];
      assert ts == init + [last];
      UrlsAppend(init, last);
      DistinctCard(init);
      forall t | t in init
        ensures t.url != last.url
      {
        var k :| 0 <= k < |init| && init[k] == t;
        assert ts[k] == t;
      }
    }
  }

  lemma {:induction false} CitedContains(cs: seq<Claim>, c: nat, x: string)
    requires c < |cs| && x in SourcesOf(cs[c])
    ensures x in Cited(cs)
    decreases |cs|
  {
    if c < |cs| - 1 {
      CitedContains(cs[..|cs| - 1], c, x);
    }
  }

  /** Appending documents keeps every discovery link, also against a larger
      bound. */
  lemma DiscoveredGrows(w: World, docTasks: seq<Task>, allClaims: seq<ParsedClaims>,
                        docTasks': seq<Task>, allClaims': seq<ParsedClaims>, t: Task, bound: int, bound': int)
    requires |docTasks| <= |docTasks'| && |allClaims| <= |allClaims'|
    requires docTasks'[..|docTasks|] == docTasks && allClaims'[..|allClaims|] == allClaims
    requires bound <= bound' && Discovered(w, docTasks, allClaims, t, bound)
    ensures Discovered(w, docTasks', allClaims', t, bound')
  {
    if t.depth > 0 {
      var j :| 0 <= j < bound && j < |docTasks| && j < |allClaims| && CitedByDoc(docTasks, allClaims, t, j);
      assert docTasks'[j] == docTasks[j] && allClaims'[j] == allClaims[j];
      assert CitedByDoc(docTasks', allClaims', t, j);
    }
  }

  // ---------------------------------------------------------------------
  // Each step keeps the invariant

  /** A legitimate visit keeps the invariant. */
  lemma VisitStepKeepsCore(w: World, s: Snapshot, url: string, parentURL: string, depth: int)
    requires Core(w, s) && url in w.table
    requires Discovered(w, s.docTasks, s.allClaims, Task(url, parentURL, depth), |s.docTasks|)
    ensures Core(w, VisitStep(w, s, url, parentURL, depth))
  {
    if !(depth > w.maxDepth || url in s.visited) {
      var t := Task(url, parentURL, depth);
      UrlsAppend(s.pending, t);
      DistinctAppend(s.pending, t);
    }
  }

  /** Visiting the sources of a document keeps the invariant, changes only
      `visited` and `pending`, marks every source when `depth` is within
      bounds, and adds a task only by marking a new URL. */
  lemma {:induction false} FanOutKeepsCore(w: World, s: Snapshot, sources: seq<string>, parentURL: string, depth: int)
    requires Core(w, s)
    requires forall x :: x in sources ==> x in w.table
    requires forall x :: x in sources ==>
               Discovered(w, s.docTasks, s.allClaims, Task(x, parentURL, depth), |s.docTasks|)
    ensures var s' := FanOut(w, s, sources, parentURL, depth);
            && Core(w, s')
            && s'.allClaims == s.allClaims && s'.docTasks == s.docTasks
            && s'.errors == s.errors && s'.errTasks == s.errTasks
            && s'.parseCalls == s.parseCalls && s'.cacheWrites == s.cacheWrites
            && s.visited <= s'.visited
            && (depth <= w.maxDepth ==> forall x :: x in sources ==> x in s'.visited)
            && (s'.visited == s.visited ==> s'.pending == s.pending)
    decreases |sources|
  {
    if sources != [] {
      var init := sources[..|sources| - 1];
      var x := sources[|sources| - 1];
      FanOutKeepsCore(w, s, init, parentURL, depth);
      var mid := FanOut(w, s, init, parentURL, depth);
      assert mid.docTasks == s.docTasks && mid.allClaims == s.allClaims;
      VisitStepKeepsCore(w, mid, x, parentURL, depth);
      assert forall y :: y in sources ==> y in init || y == x;
    }
  }

  lemma PendingInTable(w: World, s: Snapshot, i: nat)
    requires OneTaskPerUrl(w, s) && i < |s.pending|
    ensures s.pending[i].url in w.table
    ensures s.pending[i].url !in Urls(s.docTasks) && s.pending[i].url !in Urls(s.errTasks)
  {
    assert s.pending[i] in s.pending;
  }

  /** Recording an outcome keeps one task per visited URL. */
  lemma RecordKeepsOneTaskPerUrl(w: World, s: Snapshot, i: nat)
    requires OneTaskPerUrl(w, s) && i < |s.pending|
    ensures s.pending[i].url in w.table
    ensures OneTaskPerUrl(w, Record(w, s, i))
  {
    PendingInTable(w, s, i);
    var t := s.pending[i];
    RemoveAt(s.pending, i);
    UrlsAppend(s.errTasks, t);
    UrlsAppend(s.docTasks, t);
    if Resolve(t.url, w.table[t.url]).Failed? {
      DistinctAppend(s.errTasks, t);
    } else {
      DistinctAppend(s.docTasks, t);
    }
  }

  /** Recording an outcome records the task's own outcome. */
  lemma RecordKeepsOutcomes(w: World, s: Snapshot, i: nat)
    requires Sizes(s) && OutcomesRecorded(w, s) && i < |s.pending| && s.pending[i].url in w.table
    ensures Sizes(Record(w, s, i)) && OutcomesRecorded(w, Record(w, s, i))
  {
  }

  /** Recording an outcome removes the task from the pending list and
      appends it, and one document or one error, to the finished tasks. */
  lemma RecordShape(w: World, s: Snapshot, i: nat)
    requires i < |s.pending| && s.pending[i].url in w.table
    ensures Record(w, s, i).pending == s.pending[..i] + s.pending[i + 1..]
    ensures |s.docTasks| <= |Record(w, s, i).docTasks| && Record(w, s, i).docTasks[..|s.docTasks|] == s.docTasks
    ensures |s.allClaims| <= |Record(w, s, i).allClaims| && Record(w, s, i).allClaims[..|s.allClaims|] == s.allClaims
    ensures Record(w, s, i).docTasks == s.docTasks || Record(w, s, i).docTasks == s.docTasks + [s.pending[i]]
    ensures Record(w, s, i).errTasks == s.errTasks || Record(w, s, i).errTasks == s.errTasks + [s.pending[i]]
  {
  }

  /** Finishing the pending task `i` and appending documents keeps every
      task linked. */
  lemma LinksAfterFinish(w: World, s: Snapshot, s': Snapshot, i: nat)
    requires Sizes(s) && Sizes(s') && TasksLinked(w, s) && i < |s.pending|
    requires s'.pending == s.pending[..i] + s.pending[i + 1..]
    requires |s.docTasks| <= |s'.docTasks| && s'.docTasks[..|s.docTasks|] == s.docTasks
    requires |s.allClaims| <= |s'.allClaims| && s'.allClaims[..|s.allClaims|] == s.allClaims
    requires s'.docTasks == s.docTasks || s'.docTasks == s.docTasks + [s.pending[i]]
    requires s'.errTasks == s.errTasks || s'.errTasks == s.errTasks + [s.pending[i]]
    ensures TasksLinked(w, s')
  {
    var t := s.pending[i];
    assert Linked(w, s.docTasks, s.allClaims, t, |s.docTasks|);
    forall k | 0 <= k < |s'.docTasks|
      ensures Linked(w, s'.docTasks, s'.allClaims, s'.docTasks[k], k)
    {
      var b := if k < |s.docTasks| then k else |s.docTasks|;
      assert Linked(w, s.docTasks, s.allClaims, s'.docTasks[k], b);
      DiscoveredGrows(w, s.docTasks, s.allClaims, s'.docTasks, s'.allClaims, s'.docTasks[k], b, k);
    }
    forall k | 0 <= k < |s'.errTasks|
      ensures Linked(w, s'.docTasks, s'.allClaims, s'.errTasks[k], |s'.docTasks|)
    {
      assert Linked(w, s.docTasks, s.allClaims, s'.errTasks[k], |s.docTasks|);
      DiscoveredGrows(w, s.docTasks, s.allClaims, s'.docTasks, s'.allClaims, s'.errTasks[k], |s.docTasks|, |s'.docTasks|);
    }
    forall k | 0 <= k < |s'.pending|
      ensures Linked(w, s'.docTasks, s'.allClaims, s'.pending[k], |s'.docTasks|)
    {
      var m := if k < i then k else k + 1;
      assert s'.pending[k] == s.pending[m];
      assert Linked(w, s.docTasks, s.allClaims, s.pending[m], |s.docTasks|);
      DiscoveredGrows(w, s.docTasks, s.allClaims, s'.docTasks, s'.allClaims, s'.pending[k], |s.docTasks|, |s'.docTasks|);
    }
  }

  /** Recording an outcome keeps every task linked. */
  lemma RecordKeepsLinks(w: World, s: Snapshot, i: nat)
    requires Sizes(s) && TasksLinked(w, s) && i < |s.pending| && s.pending[i].url in w.table
    ensures TasksLinked(w, Record(w, s, i))
  {
    RecordShape(w, s, i);
    LinksAfterFinish(w, s, Record(w, s, i), i);
  }

  /** Recording an outcome keeps the account of collaborator calls. */
  lemma RecordKeepsCalls(w: World, s: Snapshot, i: nat)
    requires OneTaskPerUrl(w, s) && CollaboratorCalls(w, s) && i < |s.pending|
    ensures s.pending[i].url in w.table
    ensures CollaboratorCalls(w, Record(w, s, i))
  {
    PendingInTable(w, s, i);
    var t := s.pending[i];
    var s' := Record(w, s, i);
    UrlsAppend(s.errTasks, t);
    UrlsAppend(s.docTasks, t);
    if w.table[t.url].lookup.Miss? {
      forall a, b | 0 <= a < b < |s'.parseCalls|
        ensures s'.parseCalls[a] != s'.parseCalls[b]
      {
        if b == |s.parseCalls| {
          assert s.parseCalls[a] in s.parseCalls;
        }
      }
    }
  }

  /** Recording an outcome keeps the earlier documents' sources visited. */
  lemma RecordKeepsFannedOut(w: World, s: Snapshot, i: nat)
    requires Sizes(s) && FannedOut(w, s, |s.allClaims|) && i < |s.pending| && s.pending[i].url in w.table
    ensures FannedOut(w, Record(w, s, i), |s.allClaims|) && Record(w, s, i).visited == s.visited
  {
    var s' := Record(w, s, i);
    assert forall k :: 0 <= k < |s.allClaims| ==> s'.docTasks[k] == s.docTasks[k] && s'.allClaims[k] == s.allClaims[k];
  }

  /** Recording a task's outcome keeps the invariant, and the documents
      recorded before it keep their sources visited. */
  lemma RecordKeepsCore(w: World, s: Snapshot, i: nat)
    requires Inv(w, s) && i < |s.pending|
    ensures s.pending[i].url in w.table
    ensures Core(w, Record(w, s, i))
    ensures FannedOut(w, Record(w, s, i), |s.allClaims|)
    ensures Record(w, s, i).visited == s.visited
  {
    RecordKeepsOneTaskPerUrl(w, s, i);
    RecordKeepsOutcomes(w, s, i);
    RecordKeepsLinks(w, s, i);
    RecordKeepsCalls(w, s, i);
    RecordKeepsFannedOut(w, s, i);
  }

  /** The task of the most recently recorded document. */
  function NewestTask(s: Snapshot): Task
    requires |s.docTasks| > 0
  {
    s.docTasks[|s.docTasks| - 1]
  }

  /** The sources cited by the most recently recorded document. */
  function NewestSources(s: Snapshot): seq<string>
    requires |s.allClaims| > 0
  {
    Cited(s.allClaims[|s.allClaims| - 1].claims)
  }

  /** Every source of the newest document, visited one level deeper than
      its task, is discovered legitimately. */
  lemma NewestDocumentSourcesDiscovered(w: World, s1: Snapshot)
    requires Sizes(s1) && |s1.docTasks| > 0 && NewestTask(s1).depth >= 0
    ensures forall x :: x in NewestSources(s1) ==>
              Discovered(w, s1.docTasks, s1.allClaims, Task(x, NewestTask(s1).url, NewestTask(s1).depth + 1), |s1.docTasks|)
  {
    var k := |s1.docTasks| - 1;
    var t := NewestTask(s1);
    forall x | x in NewestSources(s1)
      ensures Discovered(w, s1.docTasks, s1.allClaims, Task(x, t.url, t.depth + 1), |s1.docTasks|)
    {
      assert CitedByDoc(s1.docTasks, s1.allClaims, Task(x, t.url, t.depth + 1), k);
    }
  }

  /** Fanning out the sources of the newest document completes `FannedOut`
      for all documents. */
  lemma FannedOutAfterFanOut(w: World, s1: Snapshot, s': Snapshot)
    requires |s1.allClaims| > 0 && Sizes(s1)
    requires FannedOut(w, s1, |s1.allClaims| - 1)
    requires s'.docTasks == s1.docTasks && s'.allClaims == s1.allClaims && s1.visited <= s'.visited
    requires NewestTask(s1).depth + 1 <= w.maxDepth ==>
               forall x :: x in NewestSources(s1) ==> x in s'.visited
    ensures FannedOut(w, s', |s'.allClaims|)
  {
  }

  /** Visiting the sources of the newest document, one level deeper than
      its task, keeps the invariant and marks those sources when the
      deeper level is within `maxDepth`. */
  lemma NewestDocumentFanOut(w: World, s1: Snapshot)
    requires Core(w, s1) && |s1.docTasks| > 0
    requires forall x :: x in NewestSources(s1) ==> x in w.table
    ensures Core(w, FanOut(w, s1, NewestSources(s1), NewestTask(s1).url, NewestTask(s1).depth + 1))
    ensures FanOut(w, s1, NewestSources(s1), NewestTask(s1).url, NewestTask(s1).depth + 1).docTasks == s1.docTasks
    ensures FanOut(w, s1, NewestSources(s1), NewestTask(s1).url, NewestTask(s1).depth + 1).allClaims == s1.allClaims
    ensures s1.visited <= FanOut(w, s1, NewestSources(s1), NewestTask(s1).url, NewestTask(s1).depth + 1).visited
    ensures FanOut(w, s1, NewestSources(s1), NewestTask(s1).url, NewestTask(s1).depth + 1).visited == s1.visited ==>
              FanOut(w, s1, NewestSources(s1), NewestTask(s1).url, NewestTask(s1).depth + 1).pending == s1.pending
    ensures NewestTask(s1).depth + 1 <= w.maxDepth ==>
              forall x :: x in NewestSources(s1) ==>
                x in FanOut(w, s1, NewestSources(s1), NewestTask(s1).url, NewestTask(s1).depth + 1).visited
  {
    assert Linked(w, s1.docTasks, s1.allClaims, NewestTask(s1), |s1.docTasks| - 1);
    NewestDocumentSourcesDiscovered(w, s1);
    FanOutKeepsCore(w, s1, NewestSources(s1), NewestTask(s1).url, NewestTask(s1).depth + 1);
  }

  /** ... and, once the newest document's sources are visited, every
      document has its sources visited. */
  lemma NewestDocumentFanOutInv(w: World, s1: Snapshot, s': Snapshot)
    requires Core(w, s1) && |s1.docTasks| > 0 && FannedOut(w, s1, |s1.allClaims| - 1)
    requires forall x :: x in NewestSources(s1) ==> x in w.table
    requires s' == FanOut(w, s1, NewestSources(s1), NewestTask(s1).url, NewestTask(s1).depth + 1)
    ensures Inv(w, s') && s1.visited <= s'.visited
    ensures s'.visited == s1.visited ==> s'.pending == s1.pending
  {
    NewestDocumentFanOut(w, s1);
    FannedOutAfterFanOut(w, s1, s');
  }

  /** A goroutine that records an error does nothing more. */
  lemma FailedTaskStep(w: World, s: Snapshot, i: nat)
    requires i < |s.pending| && s.pending[i].url in w.table
    requires Resolve(s.pending[i].url, w.table[s.pending[i].url]).Failed?
    ensures TaskStep(w, s, i) == Record(w, s, i)
    ensures |Record(w, s, i).allClaims| == |s.allClaims|
  {
  }

  /** A goroutine that records a document then visits its sources. */
  lemma ResolvedTaskStep(w: World, s: Snapshot, i: nat)
    requires i < |s.pending| && s.pending[i].url in w.table && TableClosed(w.table)
    requires Resolve(s.pending[i].url, w.table[s.pending[i].url]).Resolved?
    ensures |Record(w, s, i).docTasks| > 0 && |Record(w, s, i).allClaims| == |s.allClaims| + 1
    ensures NewestTask(Record(w, s, i)) == s.pending[i]
    ensures forall x :: x in NewestSources(Record(w, s, i)) ==> x in w.table
    ensures TaskStep(w, s, i) ==
              FanOut(w, Record(w, s, i), NewestSources(Record(w, s, i)), s.pending[i].url, s.pending[i].depth + 1)
  {
    var t := s.pending[i];
    var doc := Resolve(t.url, w.table[t.url]).doc;
    assert NewestSources(Record(w, s, i)) == Cited(doc.claims);
    assert CitesWithin(doc, w.table);
  }

  /** After its outcome is recorded, the rest of a goroutine (visiting the
      sources of a new document) restores the invariant. */
  lemma FinishTaskStep(w: World, s: Snapshot, i: nat, s1: Snapshot, s': Snapshot)
    requires i < |s.pending| && s.pending[i].url in w.table && TableClosed(w.table)
    requires s1 == Record(w, s, i) && s' == TaskStep(w, s, i)
    requires Core(w, s1) && FannedOut(w, s1, |s.allClaims|)
    ensures Inv(w, s')
    ensures s1.visited <= s'.visited
    ensures s'.visited == s1.visited ==> s'.pending == s1.pending
  {
    var t := s.pending[i];
    if Resolve(t.url, w.table[t.url]).Resolved? {
      ResolvedTaskStep(w, s, i);
      NewestDocumentFanOutInv(w, s1, s');
    } else {
      FailedTaskStep(w, s, i);
    }
  }

  /** One goroutine keeps the invariant, and either marks a new URL or
      shrinks the pending list. */
  lemma TaskStepKeepsInv(w: World, s: Snapshot, i: nat)
    requires TableClosed(w.table) && Inv(w, s) && i < |s.pending|
    ensures s.pending[i].url in w.table
    ensures Inv(w, TaskStep(w, s, i))
    ensures s.visited <= TaskStep(w, s, i).visited
    ensures TaskStep(w, s, i).visited == s.visited ==> |TaskStep(w, s, i).pending| == |s.pending| - 1
  {
    RecordKeepsCore(w, s, i);
    RecordShape(w, s, i);
    FinishTaskStep(w, s, i, Record(w, s, i), TaskStep(w, s, i));
  }

  /** Visits change neither the report nor the finished tasks. */
  lemma {:induction false} FanOutKeepsReport(w: World, s: Snapshot, sources: seq<string>, parentURL: string, depth: int)
    ensures FanOut(w, s, sources, parentURL, depth).allClaims == s.allClaims
    ensures FanOut(w, s, sources, parentURL, depth).errors == s.errors
    ensures FanOut(w, s, sources, parentURL, depth).docTasks == s.docTasks
    ensures FanOut(w, s, sources, parentURL, depth).errTasks == s.errTasks
    decreases |sources|
  {
    if sources != [] {
      FanOutKeepsReport(w, s, sources[..|sources| - 1], parentURL, depth);
    }
  }

  /** One goroutine only appends to the report: the documents, the errors
      and the finished tasks recorded before it are kept, in order. */
  lemma TaskStepExtendsReport(w: World, s: Snapshot, i: nat)
    requires i < |s.pending| && s.pending[i].url in w.table
    ensures s.allClaims <= TaskStep(w, s, i).allClaims
    ensures s.errors <= TaskStep(w, s, i).errors
    ensures s.docTasks <= TaskStep(w, s, i).docTasks
    ensures s.errTasks <= TaskStep(w, s, i).errTasks
  {
    var t := s.pending[i];
    var r := Record(w, s, i);
    match Resolve(t.url, w.table[t.url]) {
      case Failed(_) =>
      case Resolved(doc) =>
        FanOutKeepsReport(w, r, Cited(doc.claims), t.url, t.depth + 1);
    }
  }

  /** Visiting the root starts the invariant. */
  lemma RootVisitStartsInv(w: World)
    requires w.root in w.table
    ensures Inv(w, VisitStep(w, Initial, w.root, "", 0))
  {
    VisitStepKeepsCore(w, Initial, w.root, "", 0);
  }

  // ---------------------------------------------------------------------
  // What a finished traversal reports

  /** Every visited URL was handled by exactly one task, which recorded
      exactly one outcome: |AllClaims| + |Errors| = |visited|. */
  lemma FinishedCounts(w: World, s: Snapshot)
    requires Sizes(s) && OneTaskPerUrl(w, s) && s.pending == []
    ensures |s.allClaims| + |s.errors| == |s.visited|
    ensures forall u :: u in s.visited <==> u in Urls(s.docTasks) || u in Urls(s.errTasks)
    ensures forall u :: u in Urls(s.docTasks) ==> u !in Urls(s.errTasks)
  {
    DistinctCard(s.docTasks);
    DistinctCard(s.errTasks);
    assert Urls(s.pending) == {};
    assert s.visited == Urls(s.docTasks) + Urls(s.errTasks);
  }

  /** `u` is reached from the root by a chain of `n` recorded documents,
      each citing the next, the first being the root's. */
  ghost predicate ChainFromRoot(w: World, s: Snapshot, u: string, n: nat)
    decreases n
  {
    if n == 0 then u == w.root
    else exists j :: 0 <= j < |s.docTasks| && j < |s.allClaims| &&
                     s.docTasks[j].depth == n - 1 &&
                     u in Cited(s.allClaims[j].claims) &&
                     ChainFromRoot(w, s, s.docTasks[j].url, n - 1)
  }

  /** Every recorded document is reached from the root by a chain of as many
      citations as its depth, and that depth is at most `maxDepth`. */
  lemma {:induction false} DocumentsChainToRoot(w: World, s: Snapshot, k: nat)
    requires Sizes(s) && TasksLinked(w, s) && k < |s.docTasks|
    ensures 0 <= s.docTasks[k].depth <= w.maxDepth
    ensures 0 <= s.docTasks[k].depth && ChainFromRoot(w, s, s.docTasks[k].url, s.docTasks[k].depth)
    decreases k
  {
    var t := s.docTasks[k];
    assert Linked(w, s.docTasks, s.allClaims, t, k);
    if t.depth > 0 {
      var j :| 0 <= j < k && j < |s.docTasks| && j < |s.allClaims| && CitedByDoc(s.docTasks, s.allClaims, t, j);
      DocumentsChainToRoot(w, s, j);
      assert s.docTasks[j].depth == t.depth - 1 && t.url in Cited(s.allClaims[j].claims);
    }
  }

  /** Every recorded document's parent link names a document recorded
      before it that cites it (or is "" for the root's). */
  lemma ParentRecordedBefore(w: World, s: Snapshot, k: nat)
    requires Sizes(s) && OutcomesRecorded(w, s) && TasksLinked(w, s) && k < |s.allClaims|
    ensures s.docTasks[k].depth == 0 ==> s.allClaims[k].parentURL == ""
    ensures s.docTasks[k].depth > 0 ==>
              exists j :: 0 <= j < k &&
                s.docTasks[j].url == s.allClaims[k].parentURL &&
                s.docTasks[k].url in Cited(s.allClaims[j].claims)
  {
    var t := s.docTasks[k];
    assert Linked(w, s.docTasks, s.allClaims, t, k);
    assert DocRecorded(w, t, s.allClaims[k]);
    if t.depth > 0 {
      var j :| 0 <= j < k && j < |s.docTasks| && j < |s.allClaims| && CitedByDoc(s.docTasks, s.allClaims, t, j);
    }
  }

  /** A finished traversal visited exactly the root and the sources of the
      documents recorded above `maxDepth`. */
  lemma FinishedVisitedIsCitationClosure(w: World, s: Snapshot)
    requires Sizes(s) && OneTaskPerUrl(w, s) && TasksLinked(w, s) && FannedOut(w, s, |s.allClaims|)
    requires s.pending == []
    ensures forall k, x :: (0 <= k < |s.docTasks| && s.docTasks[k].depth < w.maxDepth &&
                            x in Cited(s.allClaims[k].claims)) ==> x in s.visited
    ensures forall u :: u in s.visited ==>
              u == w.root ||
              exists k :: 0 <= k < |s.docTasks| && s.docTasks[k].depth < w.maxDepth &&
                          u in Cited(s.allClaims[k].claims)
  {
    forall u | u in s.visited
      ensures u == w.root ||
              exists k :: 0 <= k < |s.docTasks| && s.docTasks[k].depth < w.maxDepth &&
                          u in Cited(s.allClaims[k].claims)
    {
      var t: Task;
      if u in Urls(s.docTasks) {
        t :| t in s.docTasks && t.url == u;
        var k :| 0 <= k < |s.docTasks| && s.docTasks[k] == t;
        assert Linked(w, s.docTasks, s.allClaims, t, k);
      } else {
        assert u in Urls(s.errTasks);
        t :| t in s.errTasks && t.url == u;
        var k :| 0 <= k < |s.errTasks| && s.errTasks[k] == t;
        assert Linked(w, s.docTasks, s.allClaims, t, |s.docTasks|);
      }
      if t.depth > 0 {
        var j :| 0 <= j < |s.docTasks| && j < |s.allClaims| && CitedByDoc(s.docTasks, s.allClaims, t, j);
      }
    }
  }

  /** Every recorded error is the one its task's URL resolves to and names
      that URL. */
  lemma ErrorsNameTheirUrl(w: World, s: Snapshot, k: nat)
    requires Sizes(s) && OutcomesRecorded(w, s) && k < |s.errors|
    ensures s.errTasks[k].url in w.table
    ensures Resolve(s.errTasks[k].url, w.table[s.errTasks[k].url]) == Failed(s.errors[k])
    ensures IsSubstring(s.errTasks[k].url, s.errors[k])
  {
    assert ErrorRecorded(w, s.errTasks[k], s.errors[k]);
    ResolveErrorNamesUrl(s.errTasks[k].url, w.table[s.errTasks[k].url]);
  }

  // ---------------------------------------------------------------------
  // The traversal: shared state, parseRecursive and the goroutine body

  class Traversal {
    const table: Table
    const rootURL: string
    const maxDepth: int

    var visited: set<string>
    var allClaims: seq<ParsedClaims>
    var errors: seq<string>
    /** The goroutines started and not yet run. */
    var pending: seq<Task>

    ghost var docTasks: seq<Task>
    ghost var errTasks: seq<Task>
    ghost var parseCalls: seq<string>
    ghost var cacheWrites: seq<(string, string)>

    function Env(): World {
      World(table, rootURL, maxDepth)
    }

    ghost function State(): Snapshot
      reads this
    {
      Snapshot(visited, allClaims, docTasks, errors, errTasks, pending, parseCalls, cacheWrites)
    }

    ghost predicate Valid()
      reads this
    {
      TableClosed(table) && Core(Env(), State())
    }

    /** An empty report for `rootURL` and an empty `visited` set. */
    constructor (table: Table, rootURL: string, maxDepth: int)
      requires TableClosed(table)
      ensures Valid() && State() == Initial
      ensures Env() == World(table, rootURL, maxDepth)
    {
      this.table := table;
      this.rootURL := rootURL;
      this.maxDepth := maxDepth;
      visited := {};
      allClaims := [];
      errors := [];
      pending := [];
      docTasks := [];
      errTasks := [];
      parseCalls := [];
      cacheWrites := [];
    }

    /** `parseRecursive(url, parentURL, depth)`: drop a visit deeper than
        `maxDepth`; otherwise test and mark `url` in one step and start its
        task if it was not yet visited. */
    method Visit(url: string, parentURL: string, depth: int)
      modifies this
      ensures State() == VisitStep(Env(), old(State()), url, parentURL, depth)
    {
      if depth > maxDepth {
        return;
      }
      if url in visited {
        return;
      }
      visited := visited + {url};
      pending := pending + [Task(url, parentURL, depth)];
    }

    /** The first half of the goroutine for `task`: look the URL up in the
        cache and decode the stored JSON, or, on a miss, run the page
        pipeline, encode its result and write it to the cache. */
    method ResolveTask(task: Task) returns (res: Resolution)
      requires task.url in table
      modifies this`parseCalls, this`cacheWrites
      ensures res == Resolve(task.url, table[task.url])
      ensures var o := table[task.url];
              parseCalls == old(parseCalls) + (if o.lookup.Miss? then [task.url] else [])
      ensures var o := table[task.url];
              cacheWrites == old(cacheWrites) +
                (if o.lookup.Miss? && ParsePage(task.url, o.page).Success? && o.marshaled.Success?
                 then [(task.url, o.marshaled.value)] else [])
    {
      var o := table[task.url];
      match o.lookup {
        case LookupError(e) =>
          return Failed("Error accessing cache for " + task.url + ": " + e);
        case Hit(decoded) =>
          if decoded.Failure? {
            return Failed("Error unmarshaling cache for " + task.url + ": " + decoded.error);
          }
          return Resolved(decoded.value);
        case Miss =>
          parseCalls := parseCalls + [task.url];
          var parsed := ParsePageClaims(task.url, o.page);
          if parsed.Failure? {
            return Failed("Error parsing " + task.url + ": " + parsed.error);
          }
          if o.marshaled.Failure? {
            return Failed("Error marshaling claims for " + task.url + ": " + o.marshaled.error);
          }
          cacheWrites := cacheWrites + [(task.url, o.marshaled.value)];
          if o.cacheWrite.Fail? {
            return Failed("Error caching response for " + task.url + ": " + o.cacheWrite.error);
          }
          return Resolved(parsed.value);
      }
    }

    /** The loops of the goroutine that call `parseRecursive` for every
        source of every claim, in order. */
    method VisitSources(claims: seq<Claim>, parentURL: string, depth: int)
      modifies this
      ensures State() == FanOut(Env(), old(State()), Cited(claims), parentURL, depth)
    {
      ghost var s1 := State();
      var c := 0;
      while c < |claims|
        invariant 0 <= c <= |claims|
        invariant State() == FanOut(Env(), s1, Cited(claims[..c]), parentURL, depth)
      {
        var sources := SourcesOf(claims[c]);
        ghost var done := Cited(claims[..c]);
        assert done + sources[..0] == done;
        for j := 0 to |sources|
          invariant State() == FanOut(Env(), s1, done + sources[..j], parentURL, depth)
        {
          Visit(sources[j], parentURL, depth);
          assert (done + sources[..j + 1])[..|done + sources[..j + 1]| - 1] == done + sources[..j];
        }
        assert claims[..c + 1][..c] == claims[..c];
        assert sources[..|sources|] == sources;
        c := c + 1;
      }
      assert claims[..c] == claims;
    }

    /** The goroutine of `pending[i]` up to and including recording its one
        outcome. */
    method RecordOutcome(i: nat) returns (res: Resolution)
      requires Valid() && FannedOut(Env(), State(), |allClaims|) && i < |pending|
      modifies this
      ensures old(pending[i].url) in table
      ensures res == Resolve(old(pending[i].url), table[old(pending[i].url)])
      ensures Valid() && FannedOut(Env(), State(), old(|allClaims|))
      ensures State() == Record(Env(), old(State()), i)
      ensures visited == old(visited) && |pending| == old(|pending|) - 1
    {
      ghost var s0 := State();
      RecordKeepsCore(Env(), s0, i);
      var task := pending[i];
      pending := pending[..i] + pending[i + 1..];
      res := ResolveTask(task);
      if res.Failed? {
        errors := errors + [res.message];
        errTasks := errTasks + [task];
      } else {
        allClaims := allClaims + [res.doc.(parentURL := task.parentURL)];
        docTasks := docTasks + [task];
      }
      assert State() == Record(Env(), s0, i);
    }

    /** The goroutine of `pending[i]`: resolve the URL, record one outcome
        and, for a document, visit every source of every claim one level
        deeper. */
    method RunTask(i: nat)
      requires Valid() && FannedOut(Env(), State(), |allClaims|) && i < |pending|
      modifies this
      ensures Valid() && FannedOut(Env(), State(), |allClaims|)
      ensures old(pending[i].url) in table
      ensures State() == TaskStep(Env(), old(State()), i)
      ensures old(visited) <= visited
      ensures visited == old(visited) ==> |pending| == old(|pending|) - 1
    {
      ghost var s0 := State();
      var task := pending[i];
      var res := RecordOutcome(i);
      if res.Failed? {
        FailedTaskStep(Env(), s0, i);
        assert State() == TaskStep(Env(), s0, i);
      } else {
        ghost var s1 := State();
        ResolvedTaskStep(Env(), s0, i);
        assert NewestTask(s1) == task && NewestSources(s1) == Cited(res.doc.claims);
        VisitSources(res.doc.claims, task.url, task.depth + 1);
        NewestDocumentFanOutInv(Env(), s1, State());
        assert State() == TaskStep(Env(), s0, i);
      }
    }

    /** The goroutines and `wg.Wait()`: run pending tasks, one at a time and
        in any order, until none is left. */
    method RunAll()
      requires Valid() && FannedOut(Env(), State(), |allClaims|)
      modifies this
      ensures Valid() && FannedOut(Env(), State(), |allClaims|) && pending == []
      ensures old(visited) <= visited
      ensures old(allClaims) <= allClaims && old(errors) <= errors
      ensures old(docTasks) <= docTasks && old(errTasks) <= errTasks
      ensures old(pending) == [] ==> State() == old(State())
    {
      while pending != []
        invariant Valid() && FannedOut(Env(), State(), |allClaims|)
        invariant old(visited) <= visited
        invariant old(allClaims) <= allClaims && old(errors) <= errors
        invariant old(docTasks) <= docTasks && old(errTasks) <= errTasks
        invariant old(pending) == [] ==> State() == old(State())
        decreases table.Keys - visited, |pending|
      {
        var i :| 0 <= i < |pending|;
        ghost var s := State();
        RunTask(i);
        TaskStepExtendsReport(Env(), s, i);
      }
    }
  }

  /** `ParseAndAggregateClaims(rootURL, maxDepth)`: visit the root at depth
      0 with parent "", then run pending tasks, in any order, until none is
      left. Alongside the report, `report` is the final state. */
  method ParseAndAggregateClaims(table: Table, rootURL: string, maxDepth: int)
    returns (agg: AggregatedClaims, ghost report: Snapshot)
    requires TableClosed(table) && rootURL in table
    ensures Inv(World(table, rootURL, maxDepth), report) && report.pending == []
    ensures agg == AggregatedClaims(rootURL, report.allClaims, report.errors)
    ensures |agg.allClaims| + |agg.errors| == |report.visited|
    ensures maxDepth < 0 ==> agg.allClaims == [] && agg.errors == [] && report.visited == {}
    ensures 0 <= maxDepth ==> rootURL in report.visited
    ensures agg.rootPage == rootURL
    ensures maxDepth < 0 ==> agg == AggregatedClaims(rootURL, [], [])
    ensures 0 <= maxDepth ==> |agg.allClaims| + |agg.errors| >= 1
    ensures forall k :: 0 <= k < |agg.errors| ==>
              exists u :: u in table && IsSubstring(u, agg.errors[k])
  {
    var t := new Traversal(table, rootURL, maxDepth);
    ghost var w := t.Env();
    RootVisitStartsInv(w);
    t.Visit(rootURL, "", 0);
    t.RunAll();
    agg := AggregatedClaims(rootURL, t.allClaims, t.errors);
    report := t.State();
    FinishedCounts(w, report);
    if 0 <= maxDepth {
      assert {rootURL} <= report.visited;
    }
    forall k | 0 <= k < |agg.errors|
      ensures exists u :: u in table && IsSubstring(u, agg.errors[k])
    {
      ErrorsNameTheirUrl(w, report, k);
    }
  }
}
