# semantictools core in Dafny

A model of the core of `semantictools` as a single stateful system: the Wikidata query client, the identity cache of `Node` objects, the breadth-first taxonomy builder `build_graph`, and the bookkeeping for the query cache's file. It also proves properties of that model.

- `json.dfy` (`Json`): the decoded JSON values the endpoint returns and the query cache stores. It includes Python's truth test on them and the `v[key]` lookups the code performs.
- `text.dfy` (`Text`): the string methods the core uses, over `seq<char>`. These are `in`, `endswith`, a single-character `replace`, and the `replace(pat, "")` that strips the entity prefix.
- `nodes.dfy` (`Nodes`): the `Node` class, with its derived display label and `repr`.
- `digraph.dfy` (`DiGraph`): the part of a networkx `DiGraph` the builder touches.
  - Nodes and edges are kept in insertion order with set semantics, so re-adding one changes nothing.
  - The module defines `successors` and bounded reachability from the base node.
- `cache.dfy` (`Cache`): the three module-level globals of `cache.py`, held as the fields of class `Caches`. It also holds:
  - the decision `get_cachepath` takes;
  - the file system as a map from paths to pickled mappings;
  - `load_wdq_cache` and `save_wdq_cache`.
- `core.dfy` (`Core`):
  - `wikidata_query2` over an endpoint oracle (class `Endpoint`: the reply to the k-th request, and the log of requests sent);
  - `get_superclasses`, including the in-place augmentation of the bindings that the query cache shares;
  - when a cached superclass response is *settled*: a truthy, already normalised response with records, which answers every later lookup of its entity with no request;
  - `Node(data)` and `get_node`.
- `builder.dfy` (`Builder`): `build_graph`, as methods with loops that mirror the two nested `for` loops.
  - A ghost log of the expansions (`Step`: a node and its resolved superclasses) records each round.
  - The graph is proved to be the replay of that log on the one-node graph.
  - A ghost trace (`Traced`) ties each expansion to its `get_superclasses` call. It runs from the query cache and request log the build started with to those it leaves, each lookup starting where the previous one ended.
  - The lemmas about the replay give the structural facts:
    - the graph is well formed;
    - the base node is present;
    - every node is within `n` edges of the base node (none for `n <= 0`, where `range(n)` is empty);
    - the edges are exactly those the expansions add;
    - ids are unique when the base node is the registered one;
    - every expanded node's flag is "its last superclass list was empty";
    - nodes that were never expanded keep their flag (a node new to the cache is not top-level).
  - The lemmas about the trace give, for every expanded node:
    - its successors are the distinct elements of its last superclass list, in order;
    - that list is what the final query cache answers for its id. Once the entry is settled, the list holds nodes with the ids of the entry's records, or is empty from a lookup that failed before the entry was settled. Otherwise the list is empty and the query is still a miss.

Two behaviours of the code are worth stating outright:

- **`get_cachepath` never raises.** Its only `raise` (cache.py:54) is in a branch guarded by `create_new_file is True` (cache.py:50). The branch at cache.py:45 has the same guard and comes first, so that branch is never reached. `Cache.ResolveCachePath` keeps the branch and proves the result is always `Resolved`.
- **A malformed response ends the build.** A response not shaped as SPARQL results makes `get_superclasses` raise (`KeyError`, `TypeError` or `AttributeError`), and the exception leaves `build_graph`. The model returns `Err(Malformed)` and the builder passes it on. A malformed binding that comes after good ones leaves those earlier bindings augmented in the cache, as the in-place loop does.

## Model

| member | source | states |
|---|---|---|
| Json.FalsyValues | src/semantictools/core.py:42 | `Truthy`, Python's `bool` on a decoded value, is false for exactly `None`, `False`, `0`, `""`, `[]` and `{}`. Any other value is truthy. |
| Text.ReplaceChar | src/semantictools/core.py:98 | The result has the input's length, and each position holds the replacement exactly where the input held the replaced character. |
| Text.RemoveAll | src/semantictools/core.py:86 | `s.replace(pat, "")`, scanning left to right and dropping non-overlapping occurrences; the result is never longer than the input. Its other properties are in `RemoveAllAbsent` and `RemoveAllLeading`. |
| Text.RemoveAllAbsent | src/semantictools/core.py:86 | `replace(pat, "")` leaves a string in which `pat` does not occur unchanged. |
| Text.RemoveAllLeading | src/semantictools/core.py:86 | A leading occurrence of the pattern is dropped, and the rest is processed as if on its own. |
| Nodes.SmartLabel | src/semantictools/core.py:96-98 | The display label has the label's length. A label of at most 16 characters is kept as it is. A longer one has each space turned into a newline and holds no space. |
| Nodes.Node.constructor | src/semantictools/core.py:93-98 | A new node has the given id and label, the derived display label, and `is_top_level` false. |
| Nodes.ReprShowsShortLabel | tests/test_core.py:34 | A label of at most 16 characters occurs verbatim in the node's `repr` (`{id}`, a newline, the display label), which is what selecting a node by a piece of its label relies on. |
| DiGraph.AddNode | src/semantictools/core.py:141 | `G.add_node` never changes the edges. What it does to the nodes is in `AddNodeShape`. |
| DiGraph.AddNodeShape | src/semantictools/core.py:141 | `add_node` adds exactly that node, does nothing when it is present, appends it otherwise, and keeps the graph well formed. |
| DiGraph.AddEdge | src/semantictools/core.py:142 | `G.add_edge`: adds the missing endpoints, then the edge if it is missing. Its properties are in `AddEdgeShape`. |
| DiGraph.AddEdgeShape | src/semantictools/core.py:142 | `add_edge` adds its endpoints as nodes and exactly that edge. It does nothing on a repeated edge and keeps the graph well formed (no duplicate nodes or edges, endpoints are nodes). |
| DiGraph.Successors | tests/test_core.py:38 | `list(G.successors(u))`: the targets of `u`'s out-edges in the order the edges were added. Its properties are in `SuccessorsAreOutEdges` and `SuccessorsAppend`. |
| DiGraph.SuccessorsAreOutEdges | tests/test_core.py:38 | A node is among `u`'s successors exactly when the edge from `u` to it is in the graph. |
| DiGraph.SuccessorsAppend | src/semantictools/core.py:142 | A new edge appends its target to its source's successors and changes no other node's. |
| Cache.CacheSuffix | src/semantictools/cache.py:34 | The cache file ending contains `_semantictools_wdq_cache` and ends with `.pcl`. |
| Cache.Glob | src/semantictools/cache.py:39 | The listed files are exactly the temp directory's files whose names end with the suffix. |
| Cache.MkTemp | src/semantictools/cache.py:47-49 | A name made by `mktemp` ends with the requested suffix. |
| Cache.LatestIndex | src/semantictools/cache.py:42 | `max(..., key=getctime)` picks a file with the greatest creation time, and the first of them. |
| Cache.LatestIsUnique | src/semantictools/cache.py:42 | That pick is unique. |
| Cache.ResolveCachePath | src/semantictools/cache.py:30-57 | The returned path, branch by branch, is one of: an explicit truthy path unless forcing; the newest matching file unless forcing; when nothing matches and `create_new_file is True`, the remembered path if truthy, else a fresh name; a fresh name when forcing; `None` for any other `create_new_file`. The `ValueError` is never raised. |
| Cache.ResolvedPathOrigin | src/semantictools/cache.py:30-57 | A returned path is never empty. It is the explicit path, the remembered one, or a name ending in the cache suffix. |
| Cache.ResolutionIsStable | src/semantictools/cache.py:30-47 | Without `"force"`, asking again once the first answer is the remembered path gives the same answer, whatever fresh name `mktemp` would pick. |
| Cache.ForceIgnoresContext | src/semantictools/cache.py:48-49 | With `"force"`, the explicit path, the remembered path and the matching files do not affect the result. |
| Cache.ReadCacheFile | src/semantictools/cache.py:71-75 | Reading fails exactly on a `None` path or an unreadable file. A path with no file reads as `{}`. |
| Cache.WriteCacheFile | src/semantictools/cache.py:89-90 | Writing succeeds exactly on a path that is not `None`. The file at that path then holds the mapping, and the set of other paths holding files is unchanged. |
| Cache.SaveLoadRoundTrip | src/semantictools/cache.py:71-90 | A saved mapping is read back equal from the same path; every other path reads as before. |
| Cache.Caches.constructor | src/semantictools/cache.py:8-13 | At import time both mappings are empty and no cache path is set. |
| Cache.Caches.GetCachePath | src/semantictools/cache.py:16-60 | Returns the decision of `ResolveCachePath` on the remembered path, and `wdq_cache_path` equals the returned value afterwards. |
| Cache.Caches.Load | src/semantictools/cache.py:63-79 | Resolves and remembers the path. A missing file gives `{}` and leaves the query cache alone. A file's mapping is returned, and the query cache becomes the old one overridden by the file's entries. A `None` path or an unreadable file gives an error and changes nothing. |
| Cache.Caches.Save | src/semantictools/cache.py:82-90 | Resolves and remembers the path, and replaces that file with the whole query cache, so reading it back gives the query cache. A `None` path gives an error and leaves the file system unchanged. |
| Core.Endpoint.Get | src/semantictools/core.py:48 | A request is appended to the log and answered by the oracle for its position. |
| Core.FalsyEntryIsRefetched | src/semantictools/core.py:42-60 | A falsy cached value, such as an empty response object, is a miss: the query is sent again, and an answer overwrites the entry. |
| Core.WikidataQuery | src/semantictools/core.py:39-61 | For the pure form of `wikidata_query2`: a hit returns the cached value with no request and no change to the cache. A miss sends one or two requests for the query, two exactly when the first status is not 200. An unparsable last reply is a `WikidataError` with the cache unchanged. A parsed one is returned and stored under the query. |
| Core.RepeatedQueryIsServedFromCache | src/semantictools/core.py:42-60 | After a truthy answer, the same query is answered again from the cache, with no request sent. |
| Core.QueryTouchesOnlyItsEntry | src/semantictools/core.py:60 | No cache entry for another query is added, removed or changed. |
| Core.Query | src/semantictools/core.py:39-61 | The method returns the result of `WikidataQuery`, leaves the query cache in the state it describes, and appends exactly its requests to the endpoint log. |
| Core.SuperclassQueryInjective | src/semantictools/core.py:69-76 | The superclass query text (fixed head, entity id, fixed tail) is the same for two entities exactly when they are the same entity, so two entities never share a cache entry. |
| Core.EntityIdOfUri | src/semantictools/core.py:86 | Removing the entity prefix from an entity URI gives back the id. |
| Core.Bindings | src/semantictools/core.py:83-85 | `res["results"]["bindings"]` as the `for` loop sees it: a list gives its elements, an empty dict or string gives none, anything else is malformed. Its use is stated by `NormalizeRecords`. |
| Core.NormalizeBinding | src/semantictools/core.py:86-87 | One pass of the loop body: sets `id` from the `item` URI, then `label` from `itemLabel`. Its properties are in `NormalizeBindingMeaning` and `NormalizeBindingIdempotent`. |
| Core.NormalizeBindingMeaning | src/semantictools/core.py:86-87 | A binding gives a record exactly when its `item` and `itemLabel` carry string values. The record is (URI without the prefix, label), and the binding gains `id` and `label`. Without an `item` value the binding is untouched. |
| Core.NormalizeBindingIdempotent | src/semantictools/core.py:86-87 | Augmenting an augmented binding changes nothing and gives the same record. |
| Core.NormalizeFrom | src/semantictools/core.py:85-87 | The loop keeps the list's length and leaves the bindings before the current one untouched. On success there is one more record per remaining binding, after those already collected. |
| Core.NormalizeFromSucceeds | src/semantictools/core.py:85-87 | The loop succeeds exactly when every remaining binding gives a record. |
| Core.NormalizeFromAt | src/semantictools/core.py:85-87 | On success, the binding at a given position is augmented by itself and gives the record at the matching position. |
| Core.NormalizeFromPointwise | src/semantictools/core.py:85-87 | The same, for every position at once. |
| Core.NormalizeFromIdempotent | src/semantictools/core.py:85-87 | Running the loop again over its own output changes nothing. |
| Core.Normalize | src/semantictools/core.py:83-89 | The response with its bindings augmented, and the records `get_superclasses` returns or `Malformed`. Its properties are in `NormalizeRecords` and `NormalizeIdempotent`. |
| Core.NormalizeIdempotent | src/semantictools/core.py:83-87 | Normalising an already normalised response changes neither the response nor the records. |
| Core.NormalizeRecords | src/semantictools/core.py:83-89 | A successful normalisation comes from a response with bindings. It gives one record per binding, in binding order. Each record's id is the `item` URI with the entity prefix removed, and its label is the `itemLabel` value. |
| Core.Superclasses | src/semantictools/core.py:64-89 | The pure form of `get_superclasses`: the result, the requests sent and the query cache left. Its properties are in `LookupOutcome`, `SettledLookup`, `RepeatedLookupIsServedFromCache`, `LookupTouchesOnlyItsEntry` and `OtherLookupKeepsEntry`. |
| Core.RepeatedLookupIsServedFromCache | tests/test_core.py:50-58 | Once `get_superclasses` has received a response and returned records, a second call for the same entity gives the same records with no request and no change to the cache. |
| Core.LookupTouchesOnlyItsEntry | src/semantictools/core.py:79-87 | `get_superclasses` changes only the cache entry of its own query, and after any response that entry is present. |
| Core.SettledLookup | src/semantictools/core.py:42-44 | A settled entry answers the lookup: its records, no request, the cache unchanged. |
| Core.LookupOutcome | src/semantictools/core.py:79-89 | A lookup that ends in `WikidataError` returns `[]`, found the query a miss and leaves the cache as it was. One that got a response and returned records leaves the entry settled with exactly those records. |
| Core.OtherLookupKeepsEntry | src/semantictools/core.py:60 | A lookup of another entity leaves this entity's entry as it was: whether it is a miss, whether it is settled, and its records. |
| Core.AugmentBindings | src/semantictools/core.py:85-87 | The in-place loop over the bindings computes `NormalizeFrom` from the first binding, stopping at the first one that lacks a field. |
| Core.GetSuperclasses | src/semantictools/core.py:64-89 | Returns `[]` on a `WikidataError` and otherwise the normalised records (or `Malformed`). The cached response holds the augmented bindings afterwards, and exactly the query's requests are sent. |
| Core.NewNode | src/semantictools/core.py:93-100 | `Node(data)` creates a fresh node with the record's id and label, not top-level, and registers it under its id. No other cache entry changes. |
| Core.GetNode | src/semantictools/core.py:107-111 | A registered id gives the registered node and changes nothing. An unknown id gives a fresh node registered under it. Either way the cache maps the id to the returned node. |
| Core.ResolvedSnoc | src/semantictools/core.py:133 | One more `get_node` call keeps the facts `ResolveAll` promises for the records seen so far. |
| Core.ResolveAll | src/semantictools/core.py:133 | `[get_node(d) for d in raw]` gives, position by position, the node registered for each record's id. These are the old registrations where they existed, and fresh non-top-level nodes otherwise. A new node carries the label of the first record with its id. Existing registrations are kept. |
| Builder.Start | src/semantictools/core.py:122-124 | Before the first round the graph is the base node alone, with no edges. |
| Builder.Link | src/semantictools/core.py:140-142 | The edge loop, as a function of the graph, the node and its superclasses. Its properties are in `LinkValid`, `LinkNodes`, `LinkEdges` and `LinkSuccessors`. |
| Builder.LinkValid | src/semantictools/core.py:140-142 | The edge loop keeps the graph well formed. |
| Builder.LinkNodes | src/semantictools/core.py:140-142 | The edge loop adds exactly the superclasses as nodes, plus the node itself when there is at least one. |
| Builder.LinkEdges | src/semantictools/core.py:140-142 | The edge loop adds exactly the edges from the node to its superclasses. |
| Builder.LinkSuccessors | src/semantictools/core.py:140-142 | The edge loop extends the node's successors by the superclasses not yet among them, in order, and leaves every other node's successors alone. |
| Builder.AppendNewAgain | src/semantictools/core.py:140-142 | Linking a node to the same superclass list a second time adds no successor. |
| Builder.Replay | src/semantictools/core.py:126-146 | The graph built by `Link`ing the expansions of a log in order. Its properties are in the `Replay...` lemmas below. |
| Builder.ReplayValid | src/semantictools/core.py:126-146 | Every expansion keeps the graph well formed, so every edge joins two graph nodes. |
| Builder.ReplayKeepsNodes | src/semantictools/core.py:126-146 | Nodes are never removed, and every listed superclass becomes a node. |
| Builder.ReplayNodes | src/semantictools/core.py:126-146 | The only nodes added are listed superclasses and expanded nodes. |
| Builder.ReplayEdges | src/semantictools/core.py:126-146 | The edges are exactly the earlier edges plus the edges from each expanded node to its superclasses. |
| Builder.ReplaySuccessors | src/semantictools/core.py:129-144 | A node's successors are its superclass lists from every expansion of it, concatenated with repeats dropped. |
| Builder.SingleExpansionSuccessors | tests/test_core.py:36-38 | A node expanded once has the distinct elements of that one superclass list, in order, as its successors. Without repeats in the list, they are exactly the list. |
| Builder.SuccsOfUniform | src/semantictools/core.py:129-144 | When every expansion of a node listed either nothing or one list `S`, its successors are none or the distinct elements of `S`, and the latter when its last expansion listed `S`. |
| Builder.ChainedDepth | src/semantictools/core.py:126-146 | After `n` rounds every node is reachable from the base node along at most `n` edges. |
| Builder.ChainedCover | src/semantictools/core.py:126-146 | Every node of the graph is the base node or a superclass that some expansion listed. |
| Builder.ExpandedIsListed | src/semantictools/core.py:146 | Every expanded node is the base node or was listed as a superclass in an earlier round. |
| Builder.ChainedExtend | src/semantictools/core.py:146 | A round expanding the current frontier extends the run. The next frontier is that round's superclass lists concatenated, with duplicates kept. |
| Builder.TracedConcat | src/semantictools/core.py:126-131 | Two traces of lookups, the second starting from the state the first ends in, make one trace of both logs. |
| Builder.TracedPrefix | src/semantictools/core.py:126-131 | The first `k` expansions of a trace, with the states between them, are a trace. |
| Builder.MatchesSame | src/semantictools/core.py:133 | Two lists of registered nodes with the ids of the same records are the same list, so resolving the same records twice gives the same superclasses. |
| Builder.AgreesSnoc | src/semantictools/core.py:129-133 | One more lookup, made from the state the log left, keeps the agreement between the log's expansions of an id and the cache entry of that id. Settled, each listed nothing or nodes with the ids of its records. Not settled, each listed nothing and the query is a miss. After one listed something, so does every later one. |
| Builder.LookupsAgree | src/semantictools/core.py:126-146 | Along a whole trace, the expansions of every id agree in that sense with the query cache the trace ends in. |
| Builder.ExpandedSuccessors | src/semantictools/core.py:126-146 | After a traced log whose superclasses are registered, an expanded node's successors in the replayed graph are the distinct elements of its last superclass list. That list is what the final query cache answers for its id. |
| Builder.RegisteredIdsDistinct | src/semantictools/core.py:108-109 | When every node of a well-formed graph is the node registered under its id, no two nodes share an id. |
| Builder.AddSuperclassEdges | src/semantictools/core.py:140-142 | The edge loop computes `Link` of the node and its superclasses. |
| Builder.ExpandNode | src/semantictools/core.py:131-138 | Looks up and resolves the node's superclasses. The method takes its result, requests and query cache from `Superclasses`, and the superclasses carry the records' ids in order. Each superclass is the node registered for its id: the old one where it existed, or a fresh non-top-level one with the label of the first record with its id. `is_top_level` is set to "the list is empty". On error, nothing but the query cache and the log changes. |
| Builder.ExpandStep | src/semantictools/core.py:129-144 | One frontier node is expanded and linked to its registered superclasses in the graph, and its flag reflects whether there were none. On success the expansion is a one-step trace: the `get_superclasses` call of that node from the query cache and requests before the step, leaving those after it. |
| Builder.ExpandRound | src/semantictools/core.py:128-146 | The inner loop: one round expands the frontier in order. The graph becomes the replay of the round's expansions. The next frontier is their superclass lists concatenated. Every superclass is registered. Every expanded node carries the flag of its last expansion. A node new to the cache that was not expanded is not top-level. The expansions are traced lookups from the round's starting query cache and requests to its final ones. |
| Builder.RoundCore | src/semantictools/core.py:128-146 | The same round, restated for the outer loop (the first of three layers over one round). It extends the chained run, its frontier, its log and its trace. The flag facts are stated for this round's expansions only. |
| Builder.RoundExpanded | src/semantictools/core.py:128-146 | The second layer over the same round carries the flag facts across rounds: every node expanded in any round so far has the flag of its last expansion. |
| Builder.BuildRound | src/semantictools/core.py:128-146 | The third layer adds that every node from before the build that was never expanded still has its original flag. This is the outer loop's body. |
| Builder.RunFacts | src/semantictools/core.py:122-146 | For `n` chained rounds, the replayed graph: is well formed and holds the base node; has every node within `n` edges of it; has exactly the emitted edges; has every other node a registered listed superclass; and has no two nodes sharing an id when the base node is registered too. |
| Builder.RunRounds | src/semantictools/core.py:122-146 | After `for i in range(n)`, the graph is the replay of `n` chained rounds, every listed superclass is registered, and the flags are as in `BuildRound`. All the expansions form one trace from the build's starting query cache and request log to its final ones. An error stops it before `n` rounds. |
| Builder.BuildGraph | src/semantictools/core.py:115-148 | `build_graph(base, n)` gives: the base node is present; `n <= 0` gives the base node alone; the graph is well formed; every node is within `n` edges of the base; the edges are exactly the node-to-superclass edges of the expansions; every other node is the registered one for its id; ids are unique when the base is registered; an expanded node's flag is "its last superclass list was empty"; an unexpanded node keeps its flag, or is not top-level if it is new; the expansions are one trace of `get_superclasses` calls from the starting caches and requests to the final ones; an expanded node's successors are the distinct elements of its last superclass list, which is what the final query cache answers for its id; and existing cache entries are kept. |

## Left out

- HTTP transport: `requests.get`, the User-Agent header and the configuration it is read from, and the 2-second sleep before the retry. The endpoint is an oracle that gives a status code and an optional decoded body for each request in order.
- JSON decoding and the `pickle` format are taken as faithful: a reply's body is already decoded, and a file holds a mapping or is unreadable. JSON numbers are integers only.
- The temp directory, `glob`, `os.path.getctime` and `tempfile.mktemp` are inputs (`TempDir`). `os.path.isfile` is file existence in the file-system map. Opening a `None` path is an error (`PathIsNone`).
- Cache.Glob: matches the suffix literally and keeps names starting with a dot. `glob.glob` (cache.py:39) treats `*`, `?` and `[` in a caller's `suffix2` as pattern characters and skips dot-files. The two agree for the default suffix and ordinary file names.
- Cache.Caches.Save: always succeeds on a path that is not `None`. `open(path, "wb")` (cache.py:89) can also fail, for a directory or a path without write permission, and those failures are not modelled.
- A label value that is not a string (core.py:87) is treated as a malformed binding. The code would store it as is.
- Iteration order of a dict bound as `bindings` is not modelled: a non-empty dict or string there is malformed, and an empty one gives no bindings, as in the code.
- The import-time `cache.load_wdq_cache()` (core.py:151), `BASEPATH` and the debugging import are process set-up. Callers use `Caches.Load` explicitly.
- networkx internals beyond insertion-ordered nodes and edges with set semantics, and object-identity hashing of nodes.
- Builder.ExpandRound: on an error mid-round, the query cache and request log it leaves are not described, and the lookups made before the error are not returned as a trace.
- Builder.BuildGraph: a new node's label (the first record with its id) is stated per lookup by `ExpandNode` and `ResolveAll`, and is not carried up to the whole build.
