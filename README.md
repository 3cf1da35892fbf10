# MarkLogic Sesame driver: write cache, transactions and query dispatch

A Dafny model of the sequential core of the MarkLogic Sesame (RDF4J predecessor)
repository driver:

- **TripleCache** (`triple_cache.dfy`). This is the write cache. Single-triple adds are
  collected in an insertion-ordered set of quads, Sesame's `LinkedHashModel`. The set is
  flushed to the store as one batch in three cases:
  - the cache reaches `cacheSize`;
  - a timer tick comes more than `cacheMillis` after the last flush (or the creation of
    the cache);
  - a caller forces the flush.

  Pure step functions (`RunStep`, `ForceRunStep`, `AddStep`) give the reference
  behaviour. The class `TripleCache` changes its fields in place and is proved to follow
  them.
- **MarkLogicClient** (`client.dfy`). It covers:
  - the transaction state machine, with pure step functions `OpenStep` and
    `EndStep`/`CommitStep`/`RollbackStep`;
  - `sync`, which forces the cache to flush before every read, remove, clear, commit and
    rollback;
  - single-triple adds routed through the cache;
  - `skolemize`.
- **MarkLogicRepositoryConnection** (`connection.dfy`, `sparql_text.dfy`). It covers:
  - the SPARQL language check;
  - routing of a query by its leading keyword after the prolog;
  - the query texts built by `getStatements`, `hasStatement` and `size`, including the
    comma-joined context filter;
  - `setBindings`, which binds the patterns and builds the dataset;
  - the `convert` of `toStatementIteration`;
  - `mergeResource` and the isolation-level guard;
  - the delegation of transactions, adds, removes and clears to the client.

The remote store is a `Store` object (`store.dfy`). Its ghost `Log` records every call
it accepted: bulk adds, queries, removes, clears, and transaction open, commit and
rollback. Ordering properties are stated on that log, for example "the pending batch
goes out before the commit" and "a failed sync sends no commit and leaves the
transaction open".

The environment becomes explicit inputs:
- the wall clock is `now: int`, in milliseconds;
- what one call of the abstract `flush` meets (delivered, a declared exception, or an
  undeclared one) is `flush: FlushOutcome`;
- whether the store raises an exception instead of performing a call is
  `storeFails: bool`.

Java `null` is `None`. Java exceptions are the `Error` datatype. A void method returns
an `Outcome<Error>`, and a method that returns a value returns a `Result<T, Error>`.

Where the prose description of the driver and the code disagree, the model follows the
code:
- The skolem IRI of a blank node is `http://marklogic.com/semantics/blank/` followed by
  the node's `toString()`, which is `_:` plus its id. It is not the bare id.
- `prepareQuery` never yields an update: anything that is neither SELECT nor ASK,
  including INSERT and DELETE, is prepared as a graph query.
- `forceRun` catches the exceptions `flush` declares. A commit can therefore succeed
  while the batch it should have sent is still pending (`Client.EndStep`, last clause).
- `MarkLogicSesameException` is not defined in this model. The model assumes it is the
  unchecked exception that can escape `forceRun`, so that `commitTransaction` and
  `rollbackTransaction` wrap it as a `MarkLogicTransactionException` (see "## Left out").

## Model

| member | source | states |
|---|---|---|
| OrderedSets.Insert | marklogic-sesame/src/main/java/com/marklogic/semantics/sesame/client/TripleCache.java:201 | adding an element already present changes nothing; a new one goes at the end (insertion order) |
| OrderedSets.InsertAllFacts | marklogic-sesame/src/main/java/com/marklogic/semantics/sesame/client/TripleCache.java:201 | adding several quads keeps the set duplicate-free, keeps the old quads in order as a prefix, holds exactly old plus new, and grows by at most the number added |
| OrderedSets.InsertAllIdempotent | marklogic-sesame/src/main/java/com/marklogic/semantics/sesame/client/TripleCache.java:201 | adding the same quads twice is the same as adding them once |
| OrderedSets.InsertAllSnoc | marklogic-sesame/src/main/java/com/marklogic/semantics/sesame/MarkLogicRepositoryConnection.java:1317-1323 | adding one more element after a sequence of adds is one more `add` at the end |
| RemoteStore.Store.Perform | marklogic-sesame/src/main/java/com/marklogic/semantics/sesame/client/MarkLogicClient.java:338-339 | a store call is logged exactly when the store does not raise |
| RemoteStore.Store.OpenTransaction | marklogic-sesame/src/main/java/com/marklogic/semantics/sesame/client/MarkLogicClient.java:368 | a fresh handle is returned and logged, or nothing changes when the store raises |
| TripleCaches.Flushed | marklogic-sesame/src/main/java/com/marklogic/semantics/sesame/client/TripleCache.java:154-168 | a delivered flush sends the batch, then sets lastCacheAccess to now, then clears the cache; a failing flush changes nothing |
| TripleCaches.QuadsOf | marklogic-sesame/src/main/java/com/marklogic/semantics/sesame/client/TripleCache.java:201 | `Model.add(s, p, o, contexts...)` creates one statement per context, in order, or one statement in the default graph when no context is given |
| TripleCaches.CatchDeclared | marklogic-sesame/src/main/java/com/marklogic/semantics/sesame/client/TripleCache.java:137-145 | the catch blocks of `run` and `forceRun`: a declared flush exception becomes success with the state and the calls sent unchanged; any other failure passes through as it is |
| TripleCaches.RunStep | marklogic-sesame/src/main/java/com/marklogic/semantics/sesame/client/TripleCache.java:130-147 | a tick sends the batch exactly when the cache is non-empty and size > cacheSize-1 or now-lastCacheAccess > cacheMillis (and the flush is delivered); otherwise nothing changes; only undeclared flush exceptions escape |
| TripleCaches.ForceRunStep | marklogic-sesame/src/main/java/com/marklogic/semantics/sesame/client/TripleCache.java:175-190 | a forced run sends the batch iff the cache is non-empty; on an empty cache nothing changes; declared flush exceptions are swallowed and only an undeclared one escapes (taken to be a MarkLogicSesameException; see Left out) |
| TripleCaches.AddStep | marklogic-sesame/src/main/java/com/marklogic/semantics/sesame/client/TripleCache.java:200-205 | add inserts into the set and forces a flush exactly when the new size exceeds cacheSize-1; after a delivered flush the cache is empty or below cacheSize |
| TripleCaches.DeliveredAddsStayBelowThreshold | marklogic-sesame/src/main/java/com/marklogic/semantics/sesame/client/TripleCache.java:200-205 | over any sequence of adds whose flushes are delivered, the cache never holds cacheSize quads between operations |
| TripleCaches.FlushThresholdFrom | marklogic-sesame/src/main/java/com/marklogic/semantics/sesame/client/TripleCache.java:200-205 | adding enough distinct new quads to cross the threshold sends at least one batch |
| TripleCaches.FlushThresholdReached | marklogic-sesame/src/main/java/com/marklogic/semantics/sesame/client/TripleCache.java:200-205 | adding cacheSize distinct quads to an empty cache sends at least one batch |
| TripleCaches.AgeFlushSendsTheQuad | marklogic-sesame/src/main/java/com/marklogic/semantics/sesame/client/TripleCache.java:130-136 | a quad added to an empty cache stays pending, and with a 100 ms age limit the first tick more than 100 ms later sends it alone |
| TripleCaches.AgeFlushExactly | marklogic-sesame/src/main/java/com/marklogic/semantics/sesame/client/TripleCache.java:130-136 | while the cache holds fewer than cacheSize quads, a tick sends them exactly when more than cacheMillis have passed since the last flush, so no earlier tick sends anything |
| TripleCaches.TripleCache.constructor | marklogic-sesame/src/main/java/com/marklogic/semantics/sesame/client/TripleCache.java:57-81 | a new cache is empty, with cacheSize 750, cacheMillis 800 and lastCacheAccess the creation time |
| TripleCaches.TripleCache.WithCacheSize | marklogic-sesame/src/main/java/com/marklogic/semantics/sesame/client/TripleCache.java:83-88 | the two-argument constructor sets only cacheSize; cacheMillis keeps the field default 0 |
| TripleCaches.TripleCache.SetCacheSize | marklogic-sesame/src/main/java/com/marklogic/semantics/sesame/client/TripleCache.java:104-106 | sets cacheSize and nothing else |
| TripleCaches.TripleCache.SetCacheMillis | marklogic-sesame/src/main/java/com/marklogic/semantics/sesame/client/TripleCache.java:122-124 | sets cacheMillis and nothing else |
| TripleCaches.TripleCache.Flush | marklogic-sesame/src/main/java/com/marklogic/semantics/sesame/client/TripleCache.java:154-168 | the fields and the store log follow Flushed |
| TripleCaches.TripleCache.Run | marklogic-sesame/src/main/java/com/marklogic/semantics/sesame/client/TripleCache.java:130-147 | the fields and the store log follow RunStep |
| TripleCaches.TripleCache.ForceRun | marklogic-sesame/src/main/java/com/marklogic/semantics/sesame/client/TripleCache.java:175-190 | the fields and the store log follow ForceRunStep |
| TripleCaches.TripleCache.Add | marklogic-sesame/src/main/java/com/marklogic/semantics/sesame/client/TripleCache.java:200-205 | the fields and the store log follow AddStep for the quads of (s, p, o, contexts) |
| Client.Skolemize | marklogic-sesame/src/main/java/com/marklogic/semantics/sesame/client/MarkLogicClient.java:542-548 | a blank node becomes the IRI BlankPrefix + "_:" + id, any other value is returned unchanged; the result is never a blank node |
| Client.SkolemizeIdempotent | marklogic-sesame/src/main/java/com/marklogic/semantics/sesame/client/MarkLogicClient.java:542-548 | skolemizing twice is skolemizing once |
| Client.SkolemizeInjectiveOnBlankNodes | marklogic-sesame/src/main/java/com/marklogic/semantics/sesame/client/MarkLogicClient.java:542-548 | two blank nodes get the same IRI iff they are the same node |
| Client.SkolemIriCanCollide | marklogic-sesame/src/main/java/com/marklogic/semantics/sesame/client/MarkLogicClient.java:542-548 | a blank node and an IRI already of the skolem form map to the same IRI |
| Client.AfterSyncOrder | marklogic-sesame/src/main/java/com/marklogic/semantics/sesame/client/MarkLogicClient.java:337-340 | after a sync, the flush's calls come first and the call follows at most once; it goes out exactly when the flush did not escape and the store accepted it; a flush failure is raised as it is, otherwise the store's error |
| Client.AfterForceRunOrdersCalls | marklogic-sesame/src/main/java/com/marklogic/semantics/sesame/client/MarkLogicClient.java:337-359 | the call reaches the store iff the sync did not fail and the store did not raise; a pending batch that was delivered is sent immediately before it |
| Client.OpenStep | marklogic-sesame/src/main/java/com/marklogic/semantics/sesame/client/MarkLogicClient.java:366-372 | with a transaction open, "Only one active transaction allowed." and the handle is kept; otherwise the store's fresh handle becomes the transaction |
| Client.EndStep | marklogic-sesame/src/main/java/com/marklogic/semantics/sesame/client/MarkLogicClient.java:379-411 | no transaction: only the "No active transaction…" error; otherwise sync, then commit/rollback, then tx := null: the handle is dropped iff the outcome is success, the batch precedes the end call, an escaping sync error is wrapped as a transaction failure with nothing sent and the transaction left open, and a swallowed flush failure lets the commit succeed with the batch still pending |
| Client.CommitStep | marklogic-sesame/src/main/java/com/marklogic/semantics/sesame/client/MarkLogicClient.java:379-392 | no transaction: "No active transaction to commit."; a successful commit drops the handle and its last call is the commit; a failed one keeps the handle and sends no commit |
| Client.RollbackStep | marklogic-sesame/src/main/java/com/marklogic/semantics/sesame/client/MarkLogicClient.java:399-411 | no transaction: "No active transaction to rollback."; a successful rollback drops the handle and its last call is the rollback; a failed one keeps the handle and sends no rollback |
| Client.TransactionLifecycle | marklogic-sesame/src/main/java/com/marklogic/semantics/sesame/client/MarkLogicClient.java:366-420 | an open from no transaction makes one active; a second open is refused with "Only one active transaction allowed."; after a successful commit or rollback none is active and another commit is refused; a failed end leaves the transaction open |
| Client.NoTransactionToEnd | marklogic-sesame/src/test/java/com/marklogic/semantics/sesame/MarkLogicExceptionsTest.java:160-172 | an empty commit and a dangling rollback raise their transaction errors |
| Client.OpenWriteCommit | marklogic-sesame/src/main/java/com/marklogic/semantics/sesame/client/MarkLogicClient.java:366-392 | open, then commit with a pending batch, logs open, bulk add, commit in that order and leaves no transaction and an empty cache |
| Client.MarkLogicClient.constructor | marklogic-sesame/src/main/java/com/marklogic/semantics/sesame/client/MarkLogicClient.java:112-119 | with caching on, a fresh empty cache with the default thresholds over the same store; no transaction |
| Client.MarkLogicClient.Sync | marklogic-sesame/src/main/java/com/marklogic/semantics/sesame/client/MarkLogicClient.java:149-152 | forces the cache only when caching is on and the cache exists; the state follows ForceRunStep |
| Client.MarkLogicClient.SyncThen | marklogic-sesame/src/main/java/com/marklogic/semantics/sesame/client/MarkLogicClient.java:337-359 | sync, then one store call: the log and result follow AfterSync |
| Client.MarkLogicClient.SendQuery | marklogic-sesame/src/main/java/com/marklogic/semantics/sesame/client/MarkLogicClient.java:187-271 | tuple, graph, boolean and update queries sync first and are evaluated in the open transaction; a delivered sync leaves the cache empty |
| Client.MarkLogicClient.SendAddDocument | marklogic-sesame/src/main/java/com/marklogic/semantics/sesame/client/MarkLogicClient.java:282-309 | a file, stream or reader goes to the store without a sync |
| Client.MarkLogicClient.SendAdd | marklogic-sesame/src/main/java/com/marklogic/semantics/sesame/client/MarkLogicClient.java:320-326 | with caching on the triple only changes the cache (AddStep), with no skolemization; otherwise it is skolemized and added in the transaction |
| Client.MarkLogicClient.SendRemove | marklogic-sesame/src/main/java/com/marklogic/semantics/sesame/client/MarkLogicClient.java:337-340 | sync, then remove the skolemized pattern |
| Client.MarkLogicClient.SendClear | marklogic-sesame/src/main/java/com/marklogic/semantics/sesame/client/MarkLogicClient.java:347-350 | sync, then clear the contexts |
| Client.MarkLogicClient.SendClearAll | marklogic-sesame/src/main/java/com/marklogic/semantics/sesame/client/MarkLogicClient.java:356-359 | sync, then clear everything |
| Client.MarkLogicClient.OpenTransaction | marklogic-sesame/src/main/java/com/marklogic/semantics/sesame/client/MarkLogicClient.java:366-372 | the state follows OpenStep |
| Client.MarkLogicClient.EndTransaction | marklogic-sesame/src/main/java/com/marklogic/semantics/sesame/client/MarkLogicClient.java:379-411 | the state follows EndStep |
| Client.MarkLogicClient.CommitTransaction | marklogic-sesame/src/main/java/com/marklogic/semantics/sesame/client/MarkLogicClient.java:379-392 | the state follows CommitStep |
| Client.MarkLogicClient.RollbackTransaction | marklogic-sesame/src/main/java/com/marklogic/semantics/sesame/client/MarkLogicClient.java:399-411 | the state follows RollbackStep |
| Client.MarkLogicClient.IsActiveTransaction | marklogic-sesame/src/main/java/com/marklogic/semantics/sesame/client/MarkLogicClient.java:418-420 | a transaction is active exactly while a handle is held; OpenTransaction makes it active only on success, and EndTransaction leaves it active only on failure |
| Client.MarkLogicClient.SetAutoCommit | marklogic-sesame/src/main/java/com/marklogic/semantics/sesame/client/MarkLogicClient.java:427-433 | raises "Active transaction." while a transaction is open; otherwise no transaction remains |
| SparqlText.ToUpper | marklogic-sesame/src/main/java/com/marklogic/semantics/sesame/MarkLogicRepositoryConnection.java:187 | same length, each letter a-z raised to A-Z, every other character kept |
| SparqlText.ToUpperIdempotent | marklogic-sesame/src/main/java/com/marklogic/semantics/sesame/MarkLogicRepositoryConnection.java:187 | upper-casing twice is upper-casing once |
| SparqlText.RemoveProlog | marklogic-sesame/src/main/java/com/marklogic/semantics/sesame/MarkLogicRepositoryConnection.java:187 | the result starts with no whitespace, comment, PREFIX or BASE, is no longer than the input, and a query without a prolog is returned as is |
| SparqlText.RemovePrologIsSuffix | marklogic-sesame/src/main/java/com/marklogic/semantics/sesame/MarkLogicRepositoryConnection.java:187 | the query after its prolog is a suffix of the query |
| SparqlText.Classify | marklogic-sesame/src/main/java/com/marklogic/semantics/sesame/MarkLogicRepositoryConnection.java:188-197 | routing never yields an update query; the per-keyword cases are SelectFirst, AskFirst and OtherFormFirst |
| SparqlText.StartsWithUpper | marklogic-sesame/src/main/java/com/marklogic/semantics/sesame/MarkLogicRepositoryConnection.java:187-188 | the upper-cased text starts with an upper-case keyword iff the text starts with it ignoring case |
| SparqlText.ClassifyQuery | marklogic-sesame/src/main/java/com/marklogic/semantics/sesame/MarkLogicRepositoryConnection.java:183-198 | tuple iff the query after its prolog starts with SELECT in any case, boolean iff ASK (and not SELECT), graph otherwise, never update |
| SparqlText.RemovePrologUpper | marklogic-sesame/src/main/java/com/marklogic/semantics/sesame/MarkLogicRepositoryConnection.java:187 | removing the prolog commutes with upper-casing |
| SparqlText.ClassifyIgnoresCase | marklogic-sesame/src/main/java/com/marklogic/semantics/sesame/MarkLogicRepositoryConnection.java:183-198 | a query and its upper-cased form route alike |
| SparqlText.SkipPrefix | marklogic-sesame/src/main/java/com/marklogic/semantics/sesame/MarkLogicRepositoryConnection.java:187 | a PREFIX declaration in front of a query is skipped |
| SparqlText.SkipBase | marklogic-sesame/src/main/java/com/marklogic/semantics/sesame/MarkLogicRepositoryConnection.java:187 | a BASE declaration in front of a query is skipped |
| SparqlText.SkipComment | marklogic-sesame/src/main/java/com/marklogic/semantics/sesame/MarkLogicRepositoryConnection.java:187 | a comment line in front of a query is skipped |
| SparqlText.SkipProlog | marklogic-sesame/src/main/java/com/marklogic/semantics/sesame/MarkLogicRepositoryConnection.java:187 | any well-formed prolog of declarations, comments and spaces is skipped |
| SparqlText.ClassifyIgnoresProlog | marklogic-sesame/src/main/java/com/marklogic/semantics/sesame/MarkLogicRepositoryConnection.java:183-198 | a query routes like its body whatever well-formed prolog precedes it |
| SparqlText.SelectFirst | marklogic-sesame/src/main/java/com/marklogic/semantics/sesame/MarkLogicRepositoryConnection.java:189-191 | a query that starts with SELECT in any case is a tuple query, whatever follows |
| SparqlText.AskFirst | marklogic-sesame/src/main/java/com/marklogic/semantics/sesame/MarkLogicRepositoryConnection.java:192-194 | a query that starts with ASK in any case is a boolean query |
| SparqlText.OtherFormFirst | marklogic-sesame/src/main/java/com/marklogic/semantics/sesame/MarkLogicRepositoryConnection.java:195-197 | a query led by any other keyword is a graph query |
| SparqlText.LowerCaseSelectIsTuple | src/test/java/com/marklogic/semantics/sesame/MarkLogicRepositoryConnectionTest.java:119-122 | a query written with a lower-case select is a tuple query |
| SparqlText.PrefixedAskIsBoolean | marklogic-sesame/src/main/java/com/marklogic/semantics/sesame/MarkLogicRepositoryConnection.java:187-194 | an ASK after a PREFIX declaration is a boolean query |
| SparqlText.ConstructIsGraph | marklogic-sesame/src/main/java/com/marklogic/semantics/sesame/MarkLogicRepositoryConnection.java:195-197 | CONSTRUCT is a graph query |
| SparqlText.UpdateIsGraph | marklogic-sesame/src/main/java/com/marklogic/semantics/sesame/MarkLogicRepositoryConnection.java:195-197 | INSERT and DELETE, in any case, are prepared as graph queries, not updates |
| SparqlText.CtxTerm | marklogic-sesame/src/main/java/com/marklogic/semantics/sesame/MarkLogicRepositoryConnection.java:561-565 | each context renders as one IRI("…") call (the default-graph IRI for null); JoinTermsSeparated and ContextList state the joined list |
| SparqlText.JoinTermsSeparated | marklogic-sesame/src/main/java/com/marklogic/semantics/sesame/MarkLogicRepositoryConnection.java:554-566 | the `first`-flag join equals the terms in order with exactly one comma between neighbours |
| SparqlText.JoinTermsAppend | marklogic-sesame/src/main/java/com/marklogic/semantics/sesame/MarkLogicRepositoryConnection.java:554-566 | the list of two context lists is their lists joined by one comma |
| SparqlText.ContextList | marklogic-sesame/src/main/java/com/marklogic/semantics/sesame/MarkLogicRepositoryConnection.java:554-566 | the loop with the `first` flag builds exactly the joined terms |
| SparqlText.StatementContexts | marklogic-sesame/src/main/java/com/marklogic/semantics/sesame/MarkLogicRepositoryConnection.java:548-550 | a null contexts array becomes [null] |
| SparqlText.StatementsQueryText | marklogic-sesame/src/main/java/com/marklogic/semantics/sesame/MarkLogicRepositoryConnection.java:552-568 | the getStatements text is the SELECT head, the joined contexts and the closing filter, and routes as a tuple query |
| SparqlText.HasStatementQueryText | marklogic-sesame/src/main/java/com/marklogic/semantics/sesame/MarkLogicRepositoryConnection.java:644-667 | without contexts exactly `ASK { ?s ?p ?o }`, otherwise the ASK head, the joined contexts and the closing filter; always a boolean query |
| SparqlText.SizeQueryText | marklogic-sesame/src/main/java/com/marklogic/semantics/sesame/MarkLogicRepositoryConnection.java:807-829 | without contexts no filter is added; otherwise the `filter (?g = (…) )` over the joined contexts; always a tuple query |
| SparqlText.CountEverythingIsTuple | marklogic-sesame/src/main/java/com/marklogic/semantics/sesame/MarkLogicRepositoryConnection.java:778-782 | COUNT_EVERYTHING routes as a tuple query |
| Connection.CheckLanguage | marklogic-sesame/src/main/java/com/marklogic/semantics/sesame/MarkLogicRepositoryConnection.java:253-258 | only SPARQL passes; any other language raises UnsupportedQueryLanguageException naming it |
| Connection.Prepare | marklogic-sesame/src/main/java/com/marklogic/semantics/sesame/MarkLogicRepositoryConnection.java:253-258 | each prepare* base method (the same code at lines 312-319, 373-378 and 432-437) refuses a non-SPARQL language, else returns a fresh query of its form with the text and base URI and nothing bound |
| Connection.PrepareQuery | marklogic-sesame/src/main/java/com/marklogic/semantics/sesame/MarkLogicRepositoryConnection.java:183-200 | refuses a non-SPARQL language; otherwise the form is ClassifyQuery of the text (never an update) and the text is kept as given |
| Connection.Bind | marklogic-sesame/src/main/java/com/marklogic/semantics/sesame/MarkLogicRepositoryConnection.java:1306-1314 | s, p and o are bound exactly for the non-null patterns (p only when it is a URI) to those values; every other binding is kept |
| Connection.FreshBindings | marklogic-sesame/src/main/java/com/marklogic/semantics/sesame/MarkLogicRepositoryConnection.java:1306-1314 | on a fresh query the bound names are exactly those of the non-null patterns |
| Connection.DatasetGraph | marklogic-sesame/src/main/java/com/marklogic/semantics/sesame/MarkLogicRepositoryConnection.java:1318-1322 | the cast fails, with ClassCastException, exactly on a blank node or literal; the graph is always an IRI, and a named graph is kept (null becomes the default graph) |
| Connection.DatasetFacts | marklogic-sesame/src/main/java/com/marklogic/semantics/sesame/MarkLogicRepositoryConnection.java:1315-1328 | the dataset has no duplicates, no more graphs than contexts, and holds exactly the contexts' graphs |
| Connection.DefaultGraphInDataset | marklogic-sesame/src/main/java/com/marklogic/semantics/sesame/MarkLogicRepositoryConnection.java:1318-1322 | the default graph is in the dataset iff some context is null or names it explicitly |
| Connection.BuildDataset | marklogic-sesame/src/main/java/com/marklogic/semantics/sesame/MarkLogicRepositoryConnection.java:1315-1327 | the loop fails with a cast error iff some context is not a URI, and otherwise builds DatasetOf the contexts |
| Connection.SetBindings | marklogic-sesame/src/main/java/com/marklogic/semantics/sesame/MarkLogicRepositoryConnection.java:1304-1330 | bindings become Bind of the old ones; a dataset is set only for non-empty contexts that all cast, and a failed cast leaves the dataset as it was |
| Connection.DecodeContext | marklogic-sesame/src/main/java/com/marklogic/semantics/sesame/MarkLogicRepositoryConnection.java:1376-1379 | an unbound ctx is a NullPointerException, a non-URI a cast error, the default-graph URI decodes to null and any other URI to itself |
| Connection.CastResource | marklogic-sesame/src/main/java/com/marklogic/semantics/sesame/MarkLogicRepositoryConnection.java:1374 | `(Resource)` fails with ClassCastException exactly on a literal; null, IRIs and blank nodes pass unchanged |
| Connection.CastIri | marklogic-sesame/src/main/java/com/marklogic/semantics/sesame/MarkLogicRepositoryConnection.java:1375 | `(URI)` fails with ClassCastException exactly on a non-IRI; null and IRIs pass unchanged |
| Connection.DecodeInvertsEncoding | marklogic-sesame/src/main/java/com/marklogic/semantics/sesame/MarkLogicRepositoryConnection.java:1376-1379 | decoding the dataset graph of a context gives the context back, unless the context names the default graph explicitly |
| Connection.EncodeInvertsDecoding | marklogic-sesame/src/main/java/com/marklogic/semantics/sesame/MarkLogicRepositoryConnection.java:1376-1379 | encoding a decoded row context gives the row value back |
| Connection.DefaultGraphIriComesBackNull | marklogic-sesame/src/main/java/com/marklogic/semantics/sesame/MarkLogicRepositoryConnection.java:1376-1379 | an explicit default-graph IRI and null are encoded alike, and the IRI decodes to null |
| Connection.ConvertRow | marklogic-sesame/src/main/java/com/marklogic/semantics/sesame/MarkLogicRepositoryConnection.java:1372-1381 | the caller's s, p and o win over the row's; the conversion fails iff the s cast, the p cast or the ctx cast/dereference fails, with a cast error or a NullPointerException for a missing ctx; the ctx is decoded |
| Connection.ConvertStoredQuad | marklogic-sesame/src/main/java/com/marklogic/semantics/sesame/MarkLogicRepositoryConnection.java:1372-1381 | the row of a stored quad, its context encoded, converts back to that quad |
| Connection.MergeResource | marklogic-sesame/src/main/java/com/marklogic/semantics/sesame/MarkLogicRepositoryConnection.java:1348-1358 | a non-null context comes first and the rest follows in order (length one more); a null context leaves the array as it is |
| Connection.AddStatementQuads | marklogic-sesame/src/main/java/com/marklogic/semantics/sesame/MarkLogicRepositoryConnection.java:1053-1055 | add(statement) without contexts caches exactly the statement; with contexts it caches one quad per context, after the statement itself when that has a context of its own |
| Connection.GetIsolationLevel | marklogic-sesame/src/main/java/com/marklogic/semantics/sesame/MarkLogicRepositoryConnection.java:895-897 | always SNAPSHOT |
| Connection.SetIsolationLevel | marklogic-sesame/src/main/java/com/marklogic/semantics/sesame/MarkLogicRepositoryConnection.java:906-910 | passes iff the level is SNAPSHOT, otherwise IllegalStateException |
| Connection.IsolationLevelAccepted | marklogic-sesame/src/test/java/com/marklogic/semantics/sesame/MarkLogicExceptionsTest.java:122-125 | the reported level is accepted, and it is the only one |
| Connection.GetStatementsQuery | marklogic-sesame/src/main/java/com/marklogic/semantics/sesame/MarkLogicRepositoryConnection.java:547-570 | a tuple query over the contexts ([null] if none), with includeInferred set, the patterns bound and the dataset [default graph] |
| Connection.HasStatementQuery | marklogic-sesame/src/main/java/com/marklogic/semantics/sesame/MarkLogicRepositoryConnection.java:642-673 | a boolean query, patterns bound, the contexts as dataset; fails iff a context is not a URI; includeInferred is not passed on |
| Connection.SizeQuery | marklogic-sesame/src/main/java/com/marklogic/semantics/sesame/MarkLogicRepositoryConnection.java:805-832 | a tuple count over the contexts with includeInferred false |
| Connection.SizeAllQuery | marklogic-sesame/src/main/java/com/marklogic/semantics/sesame/MarkLogicRepositoryConnection.java:778-782 | COUNT_EVERYTHING as a tuple query with includeInferred false |
| Connection.MarkLogicRepositoryConnection.constructor | marklogic-sesame/src/main/java/com/marklogic/semantics/sesame/MarkLogicRepositoryConnection.java:85-90 | quadMode is true whatever the argument; the connection is open |
| Connection.MarkLogicRepositoryConnection.IsActive | marklogic-sesame/src/main/java/com/marklogic/semantics/sesame/MarkLogicRepositoryConnection.java:885-887 | active exactly when the client holds a transaction handle |
| Connection.MarkLogicRepositoryConnection.Close | marklogic-sesame/src/main/java/com/marklogic/semantics/sesame/MarkLogicRepositoryConnection.java:116-127 | closes, then rolls back an active transaction; the state follows RollbackStep and its error is dropped (with no transaction nothing else changes) |
| Connection.MarkLogicRepositoryConnection.Begin | marklogic-sesame/src/main/java/com/marklogic/semantics/sesame/MarkLogicRepositoryConnection.java:918-920 | the state follows OpenStep |
| Connection.MarkLogicRepositoryConnection.BeginWithLevel | marklogic-sesame/src/main/java/com/marklogic/semantics/sesame/MarkLogicRepositoryConnection.java:929-932 | a level other than SNAPSHOT raises IllegalStateException and opens nothing; SNAPSHOT follows OpenStep |
| Connection.MarkLogicRepositoryConnection.Commit | marklogic-sesame/src/main/java/com/marklogic/semantics/sesame/MarkLogicRepositoryConnection.java:940-942 | the state follows CommitStep |
| Connection.MarkLogicRepositoryConnection.Rollback | marklogic-sesame/src/main/java/com/marklogic/semantics/sesame/MarkLogicRepositoryConnection.java:950-952 | the state follows RollbackStep |
| Connection.MarkLogicRepositoryConnection.Add | marklogic-sesame/src/main/java/com/marklogic/semantics/sesame/MarkLogicRepositoryConnection.java:1041-1043 | a single-triple add without a base URI, as the client's sendAdd |
| Connection.MarkLogicRepositoryConnection.AddStatement | marklogic-sesame/src/main/java/com/marklogic/semantics/sesame/MarkLogicRepositoryConnection.java:1053-1055 | the statement is added with its own context merged in front of the given ones |
| Connection.MarkLogicRepositoryConnection.AddDocument | marklogic-sesame/src/main/java/com/marklogic/semantics/sesame/MarkLogicRepositoryConnection.java:966-968 | a stream (and a reader, lines 1004-1006) goes to the store as it is |
| Connection.MarkLogicRepositoryConnection.AddFile | marklogic-sesame/src/main/java/com/marklogic/semantics/sesame/MarkLogicRepositoryConnection.java:984-990 | without a base URI the file's URI is used as the base |
| Connection.MarkLogicRepositoryConnection.Remove | marklogic-sesame/src/main/java/com/marklogic/semantics/sesame/MarkLogicRepositoryConnection.java:1105-1107 | sync, then remove the skolemized pattern without a base URI |
| Connection.MarkLogicRepositoryConnection.RemoveStatement | marklogic-sesame/src/main/java/com/marklogic/semantics/sesame/MarkLogicRepositoryConnection.java:1117-1119 | removes the statement in its own context merged in front of the given ones |
| Connection.MarkLogicRepositoryConnection.Clear | marklogic-sesame/src/main/java/com/marklogic/semantics/sesame/MarkLogicRepositoryConnection.java:862-864 | sync, then clear the contexts |
| Connection.MarkLogicRepositoryConnection.ClearAll | marklogic-sesame/src/main/java/com/marklogic/semantics/sesame/MarkLogicRepositoryConnection.java:851-853 | sync, then clear everything |

## Left out

- Network calls of the store (`performAdd`, `performSPARQLQuery`, transaction commit and rollback): modelled only as entries of the ghost call log; the store's data is not modelled.
- Query evaluation and result handling: `MarkLogicTupleQuery`, `MarkLogicGraphQuery`, `MarkLogicBooleanQuery` and `MarkLogicUpdate` are not part of this model, so the prepared queries are values that are never evaluated, and the dataset a query carries is not handed to the store.
- Result streaming and the thread pool of the client: concurrency.
- The `java.util.Timer` of `initTimer`/`stopTimer` and the `synchronized` modifiers: a timer tick is a call of `Run` with the time as input.
- RDF parsing and serialising (Rio, `exportStatements`, `export`), the serialisation of the batch inside `flush`, and the transaction the batch is written in: foreign libraries and I/O; a flush is one `BulkAdd` of the batch.
- Rulesets, graph permissions, constraining queries and the value factory accessors: pure delegation.
- `size()` and `isEmpty()` result handling, which reads a remote count and swallows errors: only the query texts are modelled.
- `add(URL …)`, which opens a network stream, and the namespace methods, which are stubs.
- The `Iterable` and `Iteration` overloads of `add` and `remove`, `addWithoutCommit`, `removeWithoutCommit`: loops of the single-statement operations modelled here.
- The non-quad-mode branches of `getStatements`: unreachable, since the constructor forces quad mode.
- The four-argument `getStatements`, `getContextIDs`, and the `start`/`pageLength` arguments of tuple queries.
- The one-, two- and three-argument `prepare*` overloads: they default the language to SPARQL and the base URI to null.
- The `else` branch inside the dataset loop of `setBindings` that runs when `contexts` is null: unreachable behind the test that `contexts` is non-empty.
- SparqlText.RemoveProlog: a simplified stand-in for Sesame's `QueryParserUtil.removeSPARQLQueryProlog`. It skips whitespace, `#` comments up to the end of the line, and `PREFIX`/`BASE` declarations up to the closing `>`. Nothing of the library's exact grammar is reproduced.
- SparqlText.ToUpper: ASCII only; Java's `toUpperCase` maps all of Unicode under the default locale.
- TripleCaches.TripleCache: `cacheSize`, `cacheMillis` and the times are unbounded integers; Java `long` overflow is not modelled.
- `QueryLanguage` and `IsolationLevel` equality is datatype equality; the source compares a shared constant by `equals` and by reference.
- Client.EndStep and TripleCaches.ForceRunStep: `MarkLogicSesameException` is not defined in this model, and the model takes it to be unchecked. Only then can it escape `forceRun`'s `catch (RepositoryException e)` and be wrapped as a `MarkLogicTransactionException` by `commitTransaction`/`rollbackTransaction` (the wrap clause of `Client.EndStep`). If it were a `RepositoryException`, `forceRun` would swallow it. The only exception left to escape would then be some other unchecked exception, which passes through unwrapped with `tx` still set. In that case the wrap clause describes a path that cannot happen.
- Java `null` where the model's types leave no room for it: a null `QueryLanguage`, which makes `prepareQuery` fail with a NullPointerException on `queryLanguage.getName()`, and a null `contexts` varargs array passed to `add`, `remove` or `clear`. `getStatements`, `hasStatement` and `size` handle a null array, and those cases are modelled (`StatementContexts`).
