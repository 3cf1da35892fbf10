/**
 * MarkLogicRepositoryConnection: the Sesame connection over the client. Query preparation
 * (language check and routing by leading keyword), the queries behind `getStatements`,
 * `hasStatement` and `size`, the binding of patterns and datasets to a query, the
 * conversion of result rows back into statements, the isolation-level guard, and the
 * delegation of transactions and updates to the client.
 */
module Connection {
  import opened Wrappers
  import opened Rdf
  import opened Errors
  import opened OrderedSets
  import opened RemoteStore
  import opened TripleCaches
  import opened Client
  import opened SparqlText

  /** A Sesame QueryLanguage: SPARQL, or another one known by its name. */
  datatype QueryLanguage = Sparql | OtherLanguage(name: string)

  /** The check at the head of `prepareQuery` and of every `prepare*` base method. */
  function CheckLanguage(lang: QueryLanguage): (r: Outcome<Error>)
    ensures r.Pass? <==> lang == Sparql
    ensures r.Fail? ==> r == Fail(UnsupportedQueryLanguage(lang.name))
  {
    if lang.Sparql? then Pass else Fail(UnsupportedQueryLanguage(lang.name))
  }

  /**
   * A prepared query: its form, text and base URI, and what `setBinding`, `setDataset`
   * and `setIncludeInferred` have set on it (None: left at the query's default).
   */
  class PreparedQuery {
    const kind: QueryKind
    const text: string
    const baseUri: Option<string>
    var bindings: map<string, Value>
    var dataset: Option<seq<Value>>
    var includeInferred: Option<bool>

    constructor (kind: QueryKind, text: string, baseUri: Option<string>)
      ensures this.kind == kind && this.text == text && this.baseUri == baseUri
      ensures bindings == map[] && dataset == None && includeInferred == None
    {
      this.kind := kind;
      this.text := text;
      this.baseUri := baseUri;
      bindings := map[];
      dataset := None;
      includeInferred := None;
    }
  }

  /** `prepareTupleQuery`, `prepareGraphQuery`, `prepareBooleanQuery`, `prepareUpdate` with a language. */
  method Prepare(kind: QueryKind, lang: QueryLanguage, text: string, baseUri: Option<string>)
    returns (r: Result<PreparedQuery, Error>)
    ensures r.Err? <==> lang != Sparql
    ensures r.Err? ==> r.error == UnsupportedQueryLanguage(lang.name)
    ensures r.Ok? ==> fresh(r.value) && r.value.kind == kind && r.value.text == text && r.value.baseUri == baseUri
    ensures r.Ok? ==> r.value.bindings == map[] && r.value.dataset == None && r.value.includeInferred == None
  {
    var check := CheckLanguage(lang);
    if check.Pass? {
      var q := new PreparedQuery(kind, text, baseUri);
      r := Ok(q);
    } else {
      r := Err(check.error);
    }
  }

  /** `prepareQuery`: a SPARQL query is prepared as the form its leading keyword names. */
  method PrepareQuery(lang: QueryLanguage, text: string, baseUri: Option<string>) returns (r: Result<PreparedQuery, Error>)
    ensures r.Err? <==> lang != Sparql
    ensures r.Err? ==> r.error == UnsupportedQueryLanguage(lang.name)
    ensures r.Ok? ==> fresh(r.value) && r.value.kind == ClassifyQuery(text) && r.value.kind != UpdateQuery
    ensures r.Ok? ==> r.value.text == text && r.value.baseUri == baseUri && r.value.bindings == map[]
  {
    if lang.Sparql? {
      r := Prepare(ClassifyQuery(text), lang, text, baseUri);
    } else {
      r := Err(UnsupportedQueryLanguage(lang.name));
    }
  }

  /** Whether `setBindings` binds the variable `name` for these patterns: only for a non-null s, p or o (p an IRI). */
  predicate Binds(name: string, subj: Option<Value>, pred: Option<Value>, obj: Option<Value>)
  {
    || (name == "s" && subj.Some?)
    || (name == "p" && pred.Some? && pred.value.Iri?)
    || (name == "o" && obj.Some?)
  }

  /** The bindings after the first part of `setBindings`. */
  function Bind(b: map<string, Value>, subj: Option<Value>, pred: Option<Value>, obj: Option<Value>): (r: map<string, Value>)
    ensures forall k :: k in r <==> k in b || Binds(k, subj, pred, obj)
    ensures forall k :: k in b && !Binds(k, subj, pred, obj) ==> r[k] == b[k]
    ensures subj.Some? ==> "s" in r && r["s"] == subj.value
    ensures pred.Some? && pred.value.Iri? ==> "p" in r && r["p"] == pred.value
    ensures obj.Some? ==> "o" in r && r["o"] == obj.value
  {
    var withS := if subj.Some? then b["s" := subj.value] else b;
    var withP := if pred.Some? && pred.value.Iri? then withS["p" := pred.value] else withS;
    if obj.Some? then withP["o" := obj.value] else withP
  }

  /** On a fresh query exactly the non-null patterns are bound. */
  lemma FreshBindings(subj: Option<Value>, pred: Option<Value>, obj: Option<Value>)
    ensures Bind(map[], subj, pred, obj).Keys
      == (if subj.Some? then {"s"} else {}) + (if pred.Some? && pred.value.Iri? then {"p"} else {})
         + (if obj.Some? then {"o"} else {})
  {
    var r := Bind(map[], subj, pred, obj);
    var ks := (if subj.Some? then {"s"} else {}) + (if pred.Some? && pred.value.Iri? then {"p"} else {})
              + (if obj.Some? then {"o"} else {});
    forall k ensures k in r.Keys <==> k in ks {
      assert k in r.Keys <==> Binds(k, subj, pred, obj);
    }
  }

  /** The default graph `setBindings` adds for one context: the IRI itself, or the default-graph IRI for null. */
  function DatasetGraph(c: Context): (r: Result<Value, Error>)
    // the cast to URI fails only on a blank node or literal, and then with ClassCastException
    ensures r.Ok? <==> c.None? || c.value.Iri?
    ensures r.Err? ==> r.error == ClassCast
    // the graph is always an IRI, and a named graph is kept as it is
    ensures r.Ok? ==> r.value.Iri? && (c.Some? ==> r.value == c.value)
  {
    if c.None? then Ok(Iri(DefaultGraphUri))
    else if c.value.Iri? then Ok(c.value)
    else Err(ClassCast)
  }

  /** Every context survives the cast to URI. */
  predicate AllGraphs(cs: seq<Context>)
  {
    forall i :: 0 <= i < |cs| ==> DatasetGraph(cs[i]).Ok?
  }

  function Graphs(cs: seq<Context>): (gs: seq<Value>)
    requires AllGraphs(cs)
    ensures |gs| == |cs| && forall i :: 0 <= i < |cs| ==> DatasetGraph(cs[i]) == Ok(gs[i])
  {
    seq(|cs|, i requires 0 <= i < |cs| => DatasetGraph(cs[i]).value)
  }

  /** The default graphs of the dataset: the contexts' graphs in first-occurrence order, as a LinkedHashSet keeps them. */
  function DatasetOf(cs: seq<Context>): seq<Value>
    requires AllGraphs(cs)
  {
    InsertAll([], Graphs(cs))
  }

  /** The dataset has no duplicates and holds exactly the contexts' graphs. */
  lemma DatasetFacts(cs: seq<Context>)
    requires AllGraphs(cs)
    ensures NoDuplicates(DatasetOf(cs)) && |DatasetOf(cs)| <= |cs|
    ensures forall v :: v in DatasetOf(cs) <==> exists i :: 0 <= i < |cs| && DatasetGraph(cs[i]) == Ok(v)
  {
    var gs := Graphs(cs);
    InsertAllFacts([], gs);
    forall v ensures v in DatasetOf(cs) <==> exists i :: 0 <= i < |cs| && DatasetGraph(cs[i]) == Ok(v) {
      if v in gs {
        var i :| 0 <= i < |gs| && gs[i] == v;
        assert DatasetGraph(cs[i]) == Ok(v);
      }
    }
  }

  /** A null context and an explicit default-graph IRI select the same graph. */
  lemma DefaultGraphInDataset(cs: seq<Context>)
    requires AllGraphs(cs)
    ensures Iri(DefaultGraphUri) in DatasetOf(cs) <==>
      exists i :: 0 <= i < |cs| && (cs[i] == None || cs[i] == Some(Iri(DefaultGraphUri)))
  {
    DatasetFacts(cs);
    if Iri(DefaultGraphUri) in DatasetOf(cs) {
      var i :| 0 <= i < |cs| && DatasetGraph(cs[i]) == Ok(Iri(DefaultGraphUri));
      assert cs[i] == None || cs[i] == Some(Iri(DefaultGraphUri));
    } else {
      forall i | 0 <= i < |cs| ensures cs[i] != None && cs[i] != Some(Iri(DefaultGraphUri)) {
        assert DatasetGraph(cs[i]) != Ok(Iri(DefaultGraphUri));
      }
    }
  }

  /** The dataset loop of `setBindings`: add each context's graph in turn; the first failed cast ends it. */
  method BuildDataset(cs: seq<Context>) returns (r: Result<seq<Value>, Error>)
    ensures r.Err? <==> !AllGraphs(cs)
    ensures r.Err? ==> r.error == ClassCast
    ensures r.Ok? ==> r.value == DatasetOf(cs)
  {
    var d: seq<Value> := [];
    var i := 0;
    while i < |cs|
      invariant 0 <= i <= |cs|
      invariant AllGraphs(cs[..i]) && d == InsertAll([], Graphs(cs[..i]))
    {
      var g := DatasetGraph(cs[i]);
      if g.Err? {
        assert !DatasetGraph(cs[i]).Ok?;
        return Err(g.error);
      }
      assert cs[..i + 1] == cs[..i] + [cs[i]];
      assert Graphs(cs[..i + 1]) == Graphs(cs[..i]) + [g.value];
      InsertAllSnoc([], Graphs(cs[..i]), g.value);
      d := Insert(d, g.value);
      i := i + 1;
    }
    assert cs[..i] == cs;
    r := Ok(d);
  }

  /**
   * `setBindings`: bind the non-null patterns, then, when there are contexts, build the
   * dataset from them; a context that is not a URI fails the cast and no dataset is set.
   */
  method SetBindings(q: PreparedQuery, subj: Option<Value>, pred: Option<Value>, obj: Option<Value>,
                     contexts: Option<seq<Context>>) returns (r: Outcome<Error>)
    modifies q
    ensures q.bindings == Bind(old(q.bindings), subj, pred, obj) && q.includeInferred == old(q.includeInferred)
    ensures r.Fail? <==> contexts.Some? && !AllGraphs(contexts.value)
    ensures r.Fail? ==> r.error == ClassCast && q.dataset == old(q.dataset)
    ensures r.Pass? ==>
      q.dataset == (if contexts.Some? && contexts.value != [] then Some(DatasetOf(contexts.value)) else old(q.dataset))
  {
    if subj.Some? {
      q.bindings := q.bindings["s" := subj.value];
    }
    if pred.Some? && pred.value.Iri? {
      q.bindings := q.bindings["p" := pred.value];
    }
    if obj.Some? {
      q.bindings := q.bindings["o" := obj.value];
    }
    r := Pass;
    if contexts.Some? && |contexts.value| > 0 {
      var d := BuildDataset(contexts.value);
      if d.Ok? {
        q.dataset := Some(d.value);
      } else {
        r := Fail(d.error);
      }
    }
  }

  /** The statement `toStatementIteration` builds; a missing binding leaves a null part. */
  datatype Statement = Statement(subj: Option<Value>, pred: Option<Value>, obj: Option<Value>, ctx: Context)

  /** The value bound to `name` in a result row, null when it is unbound. */
  function Lookup(row: map<string, Value>, name: string): Option<Value>
  {
    if name in row then Some(row[name]) else None
  }

  /**
   * The context of a result row: the cast to URI, then `stringValue()`, with the
   * default-graph IRI read back as null.
   */
  function DecodeContext(v: Option<Value>): (r: Result<Context, Error>)
    ensures v.None? ==> r == Err(NullPointer)
    ensures v.Some? && !v.value.Iri? ==> r == Err(ClassCast)
    ensures v.Some? && v.value.Iri? ==> r == Ok(if v.value.iri == DefaultGraphUri then None else v)
  {
    if v.None? then Err(NullPointer)
    else if !v.value.Iri? then Err(ClassCast)
    else if StringValue(v.value) == DefaultGraphUri then Ok(None)
    else Ok(v)
  }

  /** Decoding undoes the null-to-default-graph encoding of `setBindings`. */
  lemma DecodeInvertsEncoding(c: Context)
    requires DatasetGraph(c).Ok? && c != Some(Iri(DefaultGraphUri))
    ensures DecodeContext(Some(DatasetGraph(c).value)) == Ok(c)
  {
  }

  /** And encoding undoes decoding. */
  lemma EncodeInvertsDecoding(v: Value)
    requires DecodeContext(Some(v)).Ok?
    ensures DatasetGraph(DecodeContext(Some(v)).value) == Ok(v)
  {
  }

  /** The one context the round trip loses: an explicit default-graph IRI comes back as null. */
  lemma DefaultGraphIriComesBackNull()
    ensures DatasetGraph(Some(Iri(DefaultGraphUri))) == DatasetGraph(None)
    ensures DecodeContext(Some(Iri(DefaultGraphUri))) == Ok(None)
  {
  }

  /** `(Resource)` on a row value: null passes, a literal fails. */
  function CastResource(v: Option<Value>): (r: Result<Option<Value>, Error>)
    ensures r.Err? <==> v.Some? && v.value.Literal?
    ensures r.Err? ==> r.error == ClassCast
    ensures r.Ok? ==> r.value == v && (v.Some? ==> v.value.Iri? || v.value.BNode?)
  {
    if v.Some? && v.value.Literal? then Err(ClassCast) else Ok(v)
  }

  /** `(URI)` on a row value: null passes, anything but an IRI fails. */
  function CastIri(v: Option<Value>): (r: Result<Option<Value>, Error>)
    ensures r.Err? <==> v.Some? && !v.value.Iri?
    ensures r.Err? ==> r.error == ClassCast
    ensures r.Ok? ==> r.value == v
  {
    if v.Some? && !v.value.Iri? then Err(ClassCast) else Ok(v)
  }

  /**
   * The `convert` of `toStatementIteration`: the caller's patterns win over the row's
   * bindings; s, p and ctx are cast in that order, and the first failure is raised.
   */
  function ConvertRow(row: map<string, Value>, subj: Option<Value>, pred: Option<Value>, obj: Option<Value>)
    : (r: Result<Statement, Error>)
    ensures var sBad := subj.None? && "s" in row && row["s"].Literal?;
      var pBad := pred.None? && "p" in row && !row["p"].Iri?;
      var ctxBad := "ctx" !in row || !row["ctx"].Iri?;
      && (r.Err? <==> sBad || pBad || ctxBad)
      && (r.Err? ==> r.error == if sBad || pBad || "ctx" in row then ClassCast else NullPointer)
    ensures r.Ok? ==>
      && r.value.subj == (if subj.Some? then subj else Lookup(row, "s"))
      && r.value.pred == (if pred.Some? then pred else Lookup(row, "p"))
      && r.value.obj == (if obj.Some? then obj else Lookup(row, "o"))
      && DecodeContext(Lookup(row, "ctx")) == Ok(r.value.ctx)
  {
    var s := if subj.Some? then Ok(subj) else CastResource(Lookup(row, "s"));
    var p := if pred.Some? then Ok(pred) else CastIri(Lookup(row, "p"));
    var o := if obj.Some? then obj else Lookup(row, "o");
    var ctx := DecodeContext(Lookup(row, "ctx"));
    if s.Err? then Err(s.error)
    else if p.Err? then Err(p.error)
    else if ctx.Err? then Err(ctx.error)
    else Ok(Statement(s.value, p.value, o, ctx.value))
  }

  /** The row the store returns for a stored quad, its context encoded as in a dataset. */
  function RowOf(q: Quad): map<string, Value>
    requires DatasetGraph(q.ctx).Ok?
  {
    map["s" := q.subj, "p" := q.pred, "o" := q.obj, "ctx" := DatasetGraph(q.ctx).value]
  }

  /** Converting the row of a stored quad with unbound patterns gives the quad back. */
  lemma ConvertStoredQuad(q: Quad)
    requires !q.subj.Literal? && q.pred.Iri? && DatasetGraph(q.ctx).Ok? && q.ctx != Some(Iri(DefaultGraphUri))
    ensures ConvertRow(RowOf(q), None, None, None) == Ok(Statement(Some(q.subj), Some(q.pred), Some(q.obj), q.ctx))
  {
    var row := RowOf(q);
    assert Lookup(row, "s") == Some(q.subj);
    assert Lookup(row, "p") == Some(q.pred);
    assert Lookup(row, "o") == Some(q.obj);
    assert Lookup(row, "ctx") == Some(DatasetGraph(q.ctx).value);
    DecodeInvertsEncoding(q.ctx);
  }

  /** `mergeResource`: the statement's own context first, when it has one, then the given ones. */
  function MergeResource(o: Context, arr: seq<Context>): (r: seq<Context>)
    ensures o.Some? ==> |r| == |arr| + 1 && r[0] == o && r[1..] == arr
    ensures o.None? ==> r == arr
  {
    if o.Some? then [o] + arr else arr
  }

  /** One more context in front is one more quad in front. */
  lemma QuadsOfCons(s: Value, p: Value, o: Value, c: Context, cs: seq<Context>)
    requires cs != []
    ensures QuadsOf(s, p, o, [c] + cs) == [Quad(s, p, o, c)] + QuadsOf(s, p, o, cs)
  {
    var qs := QuadsOf(s, p, o, [c] + cs);
    var rest := QuadsOf(s, p, o, cs);
    forall i | 0 <= i < |qs| ensures qs[i] == ([Quad(s, p, o, c)] + rest)[i] {
      if i > 0 {
        assert ([c] + cs)[i] == cs[i - 1];
      }
    }
  }

  /**
   * The quads `add(Statement, contexts)` hands to the cache: the statement itself when no
   * contexts are given; otherwise one per given context, preceded by the statement when
   * it has a context of its own (a statement in the default graph is not added there).
   */
  lemma {:induction false} AddStatementQuads(st: Quad, contexts: seq<Context>)
    ensures contexts == [] ==> QuadsOf(st.subj, st.pred, st.obj, MergeResource(st.ctx, contexts)) == [st]
    ensures contexts != [] && st.ctx.Some? ==>
      QuadsOf(st.subj, st.pred, st.obj, MergeResource(st.ctx, contexts)) == [st] + QuadsOf(st.subj, st.pred, st.obj, contexts)
    ensures contexts != [] && st.ctx.None? ==>
      QuadsOf(st.subj, st.pred, st.obj, MergeResource(st.ctx, contexts)) == QuadsOf(st.subj, st.pred, st.obj, contexts)
  {
    if contexts == [] {
      if st.ctx.Some? {
        assert MergeResource(st.ctx, contexts) == [st.ctx];
      }
    } else if st.ctx.Some? {
      assert MergeResource(st.ctx, contexts) == [st.ctx] + contexts;
      QuadsOfCons(st.subj, st.pred, st.obj, st.ctx, contexts);
    }
  }

  /** Sesame's isolation levels. */
  datatype IsolationLevel = IsolationNone | ReadUncommitted | ReadCommitted | SnapshotRead | Snapshot | Serializable

  /** `getIsolationLevel`: always SNAPSHOT. */
  function GetIsolationLevel(): (l: IsolationLevel)
    ensures l == Snapshot
  {
    Snapshot
  }

  /** `setIsolationLevel`: any level other than SNAPSHOT is an IllegalStateException. */
  function SetIsolationLevel(level: IsolationLevel): (r: Outcome<Error>)
    ensures r.Pass? <==> level == Snapshot
    ensures r.Fail? ==> r.error == IllegalState
  {
    if level != Snapshot then Fail(IllegalState) else Pass
  }

  /** The level the connection reports is the one level it accepts. */
  lemma IsolationLevelAccepted(level: IsolationLevel)
    ensures SetIsolationLevel(GetIsolationLevel()) == Pass
    ensures SetIsolationLevel(level).Pass? <==> level == GetIsolationLevel()
  {
  }

  /** The quad-mode query of `getStatements`: every context's quads, patterns bound, the default graph as dataset. */
  method GetStatementsQuery(subj: Option<Value>, pred: Option<Value>, obj: Option<Value>, includeInferred: bool,
                            contexts: Option<seq<Context>>) returns (q: PreparedQuery)
    ensures fresh(q) && q.kind == TupleQuery && q.kind == ClassifyQuery(q.text) && q.baseUri == None
    ensures q.text == StatementsHead + JoinTerms(StatementContexts(contexts)) + FilterTail
    ensures q.bindings == Bind(map[], subj, pred, obj)
    ensures q.dataset == Some([Iri(DefaultGraphUri)]) && q.includeInferred == Some(includeInferred)
  {
    var text := StatementsQueryText(contexts);
    q := new PreparedQuery(TupleQuery, text, None);
    q.includeInferred := Some(includeInferred);
    var r := SetBindings(q, subj, pred, obj, Some([None]));
    assert AllGraphs([None]);
    assert Graphs([None]) == [Iri(DefaultGraphUri)];
    assert InsertAll([], [Iri(DefaultGraphUri)]) == [Iri(DefaultGraphUri)];
  }

  /** The query of `hasStatement`: patterns bound, the contexts as dataset; `includeInferred` is not passed on. */
  method HasStatementQuery(subj: Option<Value>, pred: Option<Value>, obj: Option<Value>, includeInferred: bool,
                           contexts: Option<seq<Context>>) returns (r: Result<PreparedQuery, Error>)
    ensures r.Err? <==> contexts.Some? && !AllGraphs(contexts.value)
    ensures r.Err? ==> r.error == ClassCast
    ensures r.Ok? ==> fresh(r.value) && r.value.kind == BooleanQuery && r.value.kind == ClassifyQuery(r.value.text)
    ensures r.Ok? ==> r.value.text == if contexts.None? || contexts.value == [] then Something
                                       else AskHead + JoinTerms(contexts.value) + FilterTail
    ensures r.Ok? ==> r.value.bindings == Bind(map[], subj, pred, obj) && r.value.includeInferred == None
    ensures r.Ok? ==> r.value.dataset == if contexts.Some? && contexts.value != [] then Some(DatasetOf(contexts.value)) else None
  {
    var text := HasStatementQueryText(contexts);
    var q := new PreparedQuery(BooleanQuery, text, None);
    var b := SetBindings(q, subj, pred, obj, contexts);
    if b.Pass? {
      r := Ok(q);
    } else {
      r := Err(b.error);
    }
  }

  /** The query of `size(contexts)`: a count, filtered by the contexts when there are any, without inference. */
  method SizeQuery(contexts: Option<seq<Context>>) returns (q: PreparedQuery)
    ensures fresh(q) && q.kind == TupleQuery && q.kind == ClassifyQuery(q.text) && q.includeInferred == Some(false)
    ensures q.text == if contexts.None? || contexts.value == [] then CountHead + "}"
                      else CountHead + (CountFilterHead + JoinTerms(contexts.value) + CountFilterTail + "}")
    ensures q.bindings == map[] && q.dataset == None
  {
    var text := SizeQueryText(contexts);
    q := new PreparedQuery(TupleQuery, text, None);
    q.includeInferred := Some(false);
  }

  /** The query of `size()`: count everything, without inference. */
  method SizeAllQuery() returns (q: PreparedQuery)
    ensures fresh(q) && q.kind == TupleQuery && q.kind == ClassifyQuery(q.text) && q.text == CountEverything
    ensures q.includeInferred == Some(false) && q.bindings == map[] && q.dataset == None
  {
    CountEverythingIsTuple();
    q := new PreparedQuery(TupleQuery, CountEverything, None);
    q.includeInferred := Some(false);
  }

  /** The connection: a client, quad mode, and whether `close` has been called. */
  class MarkLogicRepositoryConnection {
    const client: MarkLogicClient
    const quadMode: bool
    var isOpen: bool

    ghost predicate Valid()
      reads this, client, client.timerCache
    {
      client.Valid()
    }

    /** The constructor ignores its `quadMode` argument: a connection always works in quad mode. */
    constructor (client: MarkLogicClient, quadMode: bool)
      requires client.Valid()
      ensures Valid() && this.client == client && this.quadMode && isOpen
    {
      this.client := client;
      this.quadMode := true;
      isOpen := true;
    }

    /** `isActive`. */
    predicate IsActive(): (b: bool)
      reads this, client
      ensures b <==> client.tx != None
    {
      client.IsActiveTransaction()
    }

    /** `close`: closes, then rolls back an open transaction; whatever the rollback raises is dropped. */
    method Close(now: int, flush: FlushOutcome, storeFails: bool)
      requires Valid()
      modifies this, client, client.store, client.timerCache
      ensures Valid() && !isOpen && client.store.nextHandle == old(client.store.nextHandle)
      ensures var st := old(RollbackStep(client.tx, client.Pending(), client.LastAccess(), now, flush, storeFails));
        && client.tx == st.tx && client.Pending() == st.pending && client.LastAccess() == st.lastAccess
        && client.store.Log == old(client.store.Log) + st.sent
    {
      isOpen := false;
      if IsActive() {
        var ignored := client.RollbackTransaction(now, flush, storeFails);
      }
    }

    /** `begin`. */
    method Begin(storeFails: bool) returns (r: Outcome<Error>)
      requires Valid()
      modifies client, client.store
      ensures Valid() && client.Pending() == old(client.Pending()) && client.LastAccess() == old(client.LastAccess())
      ensures var st := old(OpenStep(client.tx, client.Pending(), client.LastAccess(), client.store.nextHandle, storeFails));
        client.tx == st.tx && client.store.Log == old(client.store.Log) + st.sent && r == st.outcome
    {
      r := client.OpenTransaction(storeFails);
    }

    /** `begin(level)`: the level is checked first, so a refused level opens nothing. */
    method BeginWithLevel(level: IsolationLevel, storeFails: bool) returns (r: Outcome<Error>)
      requires Valid()
      modifies client, client.store
      ensures Valid() && client.Pending() == old(client.Pending()) && client.LastAccess() == old(client.LastAccess())
      ensures level != Snapshot ==>
        r == Fail(IllegalState) && client.tx == old(client.tx) && client.store.Log == old(client.store.Log)
      ensures level == Snapshot ==>
        var st := old(OpenStep(client.tx, client.Pending(), client.LastAccess(), client.store.nextHandle, storeFails));
        client.tx == st.tx && client.store.Log == old(client.store.Log) + st.sent && r == st.outcome
    {
      r := SetIsolationLevel(level);
      if r.Pass? {
        r := Begin(storeFails);
      }
    }

    /** `commit`. */
    method Commit(now: int, flush: FlushOutcome, storeFails: bool) returns (r: Outcome<Error>)
      requires Valid()
      modifies client, client.store, client.timerCache
      ensures Valid()
      ensures var st := old(CommitStep(client.tx, client.Pending(), client.LastAccess(), now, flush, storeFails));
        && client.tx == st.tx && client.Pending() == st.pending && client.LastAccess() == st.lastAccess
        && client.store.Log == old(client.store.Log) + st.sent && r == st.outcome
    {
      r := client.CommitTransaction(now, flush, storeFails);
    }

    /** `rollback`. */
    method Rollback(now: int, flush: FlushOutcome, storeFails: bool) returns (r: Outcome<Error>)
      requires Valid()
      modifies client, client.store, client.timerCache
      ensures Valid()
      ensures var st := old(RollbackStep(client.tx, client.Pending(), client.LastAccess(), now, flush, storeFails));
        && client.tx == st.tx && client.Pending() == st.pending && client.LastAccess() == st.lastAccess
        && client.store.Log == old(client.store.Log) + st.sent && r == st.outcome
    {
      r := client.RollbackTransaction(now, flush, storeFails);
    }

    /** `add(subject, predicate, object, contexts)`: a single-triple add without a base URI. */
    method Add(s: Value, p: Value, o: Value, contexts: seq<Context>, now: int, flush: FlushOutcome, storeFails: bool)
      returns (r: Outcome<Error>)
      requires Valid()
      modifies client.store, client.timerCache
      ensures Valid() && client.tx == old(client.tx)
      ensures var st := old(client.AddCall(None, s, p, o, contexts, now, flush, storeFails));
        && client.Pending() == st.pending && client.LastAccess() == st.lastAccess
        && client.store.Log == old(client.store.Log) + st.sent && r == st.outcome
    {
      r := client.SendAdd(None, s, p, o, contexts, now, flush, storeFails);
    }

    /** `add(statement, contexts)`: the statement's own context is merged in front of the given ones. */
    method AddStatement(st: Quad, contexts: seq<Context>, now: int, flush: FlushOutcome, storeFails: bool)
      returns (r: Outcome<Error>)
      requires Valid()
      modifies client.store, client.timerCache
      ensures Valid() && client.tx == old(client.tx)
      ensures var step := old(client.AddCall(None, st.subj, st.pred, st.obj, MergeResource(st.ctx, contexts), now, flush, storeFails));
        && client.Pending() == step.pending && client.LastAccess() == step.lastAccess
        && client.store.Log == old(client.store.Log) + step.sent && r == step.outcome
    {
      r := Add(st.subj, st.pred, st.obj, MergeResource(st.ctx, contexts), now, flush, storeFails);
    }

    /** `add` of an input stream or a reader: the document goes to the store as it is. */
    method AddDocument(document: string, baseUri: Option<string>, contexts: seq<Context>, storeFails: bool)
      returns (r: Outcome<Error>)
      requires Valid()
      modifies client.store
      ensures Valid() && client.tx == old(client.tx)
      ensures client.store.Log == old(client.store.Log) +
        (if storeFails then [] else [Call.AddDocument(document, baseUri, contexts, client.tx)])
      ensures r == if storeFails then Fail(StoreError) else Pass
    {
      r := client.SendAddDocument(document, baseUri, contexts, storeFails);
    }

    /** `add` of a file, known here by its URI: without a base URI the file's URI is the base. */
    method AddFile(fileUri: string, baseUri: Option<string>, contexts: seq<Context>, storeFails: bool)
      returns (r: Outcome<Error>)
      requires Valid()
      modifies client.store
      ensures Valid() && client.tx == old(client.tx)
      ensures var base := if baseUri.Some? then baseUri else Some(fileUri);
        client.store.Log == old(client.store.Log) +
          (if storeFails then [] else [Call.AddDocument(fileUri, base, contexts, client.tx)])
      ensures r == if storeFails then Fail(StoreError) else Pass
    {
      if baseUri.Some? {
        r := client.SendAddDocument(fileUri, baseUri, contexts, storeFails);
      } else {
        r := client.SendAddDocument(fileUri, Some(fileUri), contexts, storeFails);
      }
    }

    /** `remove(subject, predicate, object, contexts)`: a null pattern matches anything. */
    method Remove(s: Option<Value>, p: Option<Value>, o: Option<Value>, contexts: seq<Context>,
                  now: int, flush: FlushOutcome, storeFails: bool) returns (r: Outcome<Error>)
      requires Valid()
      modifies client.store, client.timerCache
      ensures Valid() && client.tx == old(client.tx)
      ensures var st := old(client.SyncStep(now, flush));
        var res := AfterSync(st, Call.Remove(None, SkolemizeOpt(s), SkolemizeOpt(p), SkolemizeOpt(o), contexts, client.tx), storeFails);
        && client.Pending() == st.pending && client.LastAccess() == st.lastAccess
        && client.store.Log == old(client.store.Log) + res.0 && r == res.1
    {
      r := client.SendRemove(None, s, p, o, contexts, now, flush, storeFails);
    }

    /** `remove(statement, contexts)`: the statement's own context is merged in front of the given ones. */
    method RemoveStatement(st: Quad, contexts: seq<Context>, now: int, flush: FlushOutcome, storeFails: bool)
      returns (r: Outcome<Error>)
      requires Valid()
      modifies client.store, client.timerCache
      ensures Valid() && client.tx == old(client.tx)
      ensures var step := old(client.SyncStep(now, flush));
        var res := AfterSync(step, Call.Remove(None, Some(Skolemize(st.subj)), Some(Skolemize(st.pred)), Some(Skolemize(st.obj)),
                                          MergeResource(st.ctx, contexts), client.tx), storeFails);
        && client.Pending() == step.pending && client.LastAccess() == step.lastAccess
        && client.store.Log == old(client.store.Log) + res.0 && r == res.1
    {
      r := client.SendRemove(None, Some(st.subj), Some(st.pred), Some(st.obj), MergeResource(st.ctx, contexts), now, flush, storeFails);
    }

    /** `clear(contexts)`. */
    method Clear(contexts: seq<Context>, now: int, flush: FlushOutcome, storeFails: bool) returns (r: Outcome<Error>)
      requires Valid()
      modifies client.store, client.timerCache
      ensures Valid() && client.tx == old(client.tx)
      ensures var st := old(client.SyncStep(now, flush));
        var res := AfterSync(st, Call.Clear(contexts, client.tx), storeFails);
        && client.Pending() == st.pending && client.LastAccess() == st.lastAccess
        && client.store.Log == old(client.store.Log) + res.0 && r == res.1
    {
      r := client.SendClear(contexts, now, flush, storeFails);
    }

    /** `clear()`. */
    method ClearAll(now: int, flush: FlushOutcome, storeFails: bool) returns (r: Outcome<Error>)
      requires Valid()
      modifies client.store, client.timerCache
      ensures Valid() && client.tx == old(client.tx)
      ensures var st := old(client.SyncStep(now, flush));
        var res := AfterSync(st, Call.ClearAll(client.tx), storeFails);
        && client.Pending() == st.pending && client.LastAccess() == st.lastAccess
        && client.store.Log == old(client.store.Log) + res.0 && r == res.1
    {
      r := client.SendClearAll(now, flush, storeFails);
    }
  }
}
