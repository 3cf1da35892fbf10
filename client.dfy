/**
 * MarkLogicClient: the transaction state machine over the store, the cache flush (`sync`)
 * that precedes every read, remove and clear, and the routing of single-triple adds
 * through the write cache.
 */
module Client {
  import opened Wrappers
  import opened Rdf
  import opened Errors
  import opened RemoteStore
  import opened TripleCaches

  /** The IRI prefix blank nodes are rewritten under. */
  const BlankPrefix: string := "http://marklogic.com/semantics/blank/"

  /** `skolemize`: a blank node becomes an IRI under BlankPrefix, any other value stays as it is. */
  function Skolemize(v: Value): (r: Value)
    ensures !r.BNode?
    ensures !v.BNode? ==> r == v
    ensures v.BNode? ==> r == Iri(BlankPrefix + "_:" + v.id)
  {
    if v.BNode? then Iri(BlankPrefix + ToString(v)) else v
  }

  /** `skolemize` applied to a possibly null value (a wildcard in a remove). */
  function SkolemizeOpt(v: Option<Value>): Option<Value>
  {
    if v.Some? then Some(Skolemize(v.value)) else None
  }

  lemma SkolemizeIdempotent(v: Value)
    ensures Skolemize(Skolemize(v)) == Skolemize(v)
  {
  }

  /** Distinct blank nodes get distinct IRIs, and hence the same blank node always the same one. */
  lemma SkolemizeInjectiveOnBlankNodes(a: Value, b: Value)
    requires a.BNode? && b.BNode?
    ensures Skolemize(a) == Skolemize(b) <==> a == b
  {
    if Skolemize(a) == Skolemize(b) {
      var n := |BlankPrefix + "_:"|;
      assert (BlankPrefix + "_:" + a.id)[n..] == a.id;
      assert (BlankPrefix + "_:" + b.id)[n..] == b.id;
    }
  }

  /** The rewriting does not keep blank nodes apart from IRIs that already look like skolem IRIs. */
  lemma SkolemIriCanCollide(id: string)
    ensures Skolemize(BNode(id)) == Skolemize(Iri(BlankPrefix + "_:" + id))
    ensures BNode(id) != Iri(BlankPrefix + "_:" + id)
  {
  }

  /**
   * A store call made after `sync`: none if the flush failed, otherwise the batch
   * (when one went out) followed by the call, which the store may still refuse.
   */
  function AfterSync(sync: CacheStep, call: Call, storeFails: bool): (seq<Call>, Outcome<Error>)
  {
    if sync.outcome.Fail? then (sync.sent, sync.outcome)
    else if storeFails then (sync.sent, Fail(StoreError))
    else (sync.sent + [call], Pass)
  }

  /** After a sync, what the flush sent goes first, and the call follows at most once, only if everything succeeded. */
  lemma AfterSyncOrder(sync: CacheStep, call: Call, storeFails: bool)
    ensures var res := AfterSync(sync, call, storeFails);
      // the flush's calls come first, and the call is added at most once, after them
      && |res.0| == |sync.sent| + (if res.1.Pass? then 1 else 0) && res.0[..|sync.sent|] == sync.sent
      && (res.1.Pass? ==> res.0[|sync.sent|] == call)
      // the call succeeds exactly when the flush did not escape and the store accepted it
      && (res.1.Pass? <==> sync.outcome.Pass? && !storeFails)
      // a flush failure is reported as it is; otherwise the failure is the store's
      && (res.1.Fail? ==> res.1 == (if sync.outcome.Fail? then sync.outcome else Fail(StoreError)))
  {
  }

  /** The call reaches the store only after a batch that was pending went out, and never after a failed flush. */
  lemma AfterForceRunOrdersCalls(pending: seq<Quad>, lastAccess: int, now: int, flush: FlushOutcome,
                                 call: Call, storeFails: bool)
    requires !call.BulkAdd?
    ensures var res := AfterSync(ForceRunStep(pending, lastAccess, now, flush), call, storeFails);
      && (call in res.0 <==> !storeFails && !(pending != [] && flush == FailsUncaught))
      && (call in res.0 && pending != [] && flush == Delivered ==> res.0 == [BulkAdd(pending), call])
      && (call in res.0 && (pending == [] || flush != Delivered) ==> res.0 == [call])
  {
  }

  /** The client's state after a transaction operation, and what it sent and returned. */
  datatype TxStep = TxStep(tx: Option<Handle>, pending: seq<Quad>, lastAccess: int, sent: seq<Call>, outcome: Outcome<Error>)

  /** `openTransaction`: only one transaction may be open at a time. */
  function OpenStep(tx: Option<Handle>, pending: seq<Quad>, lastAccess: int, next: Handle, storeFails: bool): (r: TxStep)
    ensures r.pending == pending && r.lastAccess == lastAccess
    ensures tx.Some? ==> r == TxStep(tx, pending, lastAccess, [], Fail(TransactionError("Only one active transaction allowed.")))
    ensures tx.None? && storeFails ==> r.tx == None && r.sent == [] && r.outcome == Fail(StoreError)
    ensures tx.None? && !storeFails ==> r.tx == Some(next) && r.sent == [Open(next)] && r.outcome == Pass
  {
    if tx.Some? then TxStep(tx, pending, lastAccess, [], Fail(TransactionError("Only one active transaction allowed.")))
    else if storeFails then TxStep(None, pending, lastAccess, [], Fail(StoreError))
    else TxStep(Some(next), pending, lastAccess, [Open(next)], Pass)
  }

  /** The store call that ends transaction `h`, and the error when there is none to end. */
  function EndCall(commit: bool, h: Handle): Call
  {
    if commit then Commit(h) else Rollback(h)
  }

  function NoTransactionMessage(commit: bool): string
  {
    if commit then "No active transaction to commit." else "No active transaction to rollback."
  }

  /**
   * Ending the open transaction `tx` with a commit or a rollback: sync, then end
   * it, then forget the handle. A failed sync is wrapped as a transaction exception.
   */
  function EndStep(tx: Option<Handle>, pending: seq<Quad>, lastAccess: int, now: int, flush: FlushOutcome,
                   storeFails: bool, commit: bool): (r: TxStep)
    // without a transaction nothing happens but the error
    ensures tx.None? ==> r == TxStep(None, pending, lastAccess, [], Fail(TransactionError(NoTransactionMessage(commit))))
    // the handle is forgotten exactly when the operation succeeds; otherwise it stays
    ensures tx.Some? ==> (r.tx == None <==> r.outcome.Pass?) && (r.tx != None ==> r.tx == tx)
    // the sync precedes the store call: a pending batch goes out first, if at all
    ensures tx.Some? && r.outcome.Pass? ==>
      r.sent == (if pending != [] && flush == Delivered then [BulkAdd(pending)] else []) + [EndCall(commit, tx.value)]
    // a sync that escapes is wrapped, the store is not asked to end the transaction, and it stays open
    ensures tx.Some? && pending != [] && flush == FailsUncaught ==>
      r.outcome == Fail(TransactionFailure(SesameError)) && r.tx == tx && r.sent == []
    // a failing store call is reported as is and leaves the transaction open
    ensures tx.Some? && !(pending != [] && flush == FailsUncaught) && storeFails ==>
      r.outcome == Fail(StoreError) && r.tx == tx
    // a flush failure the cache swallows does not stop the commit: the batch stays pending
    ensures tx.Some? && pending != [] && flush == FailsCaught && !storeFails ==>
      r.outcome == Pass && r.pending == pending && r.sent == [EndCall(commit, tx.value)]
  {
    if tx.None? then TxStep(None, pending, lastAccess, [], Fail(TransactionError(NoTransactionMessage(commit))))
    else
      var st := ForceRunStep(pending, lastAccess, now, flush);
      var res := AfterSync(st, EndCall(commit, tx.value), storeFails);
      var outcome := if res.1 == Fail(SesameError) then Fail(TransactionFailure(SesameError)) else res.1;
      TxStep(if outcome.Pass? then None else tx, st.pending, st.lastAccess, res.0, outcome)
  }

  function CommitStep(tx: Option<Handle>, pending: seq<Quad>, lastAccess: int, now: int, flush: FlushOutcome,
                      storeFails: bool): (r: TxStep)
    ensures tx.None? ==> r.outcome == Fail(TransactionError("No active transaction to commit."))
    ensures tx.Some? && r.outcome.Pass? ==> r.tx == None && |r.sent| > 0 && r.sent[|r.sent| - 1] == Commit(tx.value)
    ensures tx.Some? && r.outcome.Fail? ==> r.tx == tx && Commit(tx.value) !in r.sent
  {
    EndStep(tx, pending, lastAccess, now, flush, storeFails, true)
  }

  function RollbackStep(tx: Option<Handle>, pending: seq<Quad>, lastAccess: int, now: int, flush: FlushOutcome,
                        storeFails: bool): (r: TxStep)
    ensures tx.None? ==> r.outcome == Fail(TransactionError("No active transaction to rollback."))
    ensures tx.Some? && r.outcome.Pass? ==> r.tx == None && |r.sent| > 0 && r.sent[|r.sent| - 1] == Rollback(tx.value)
    ensures tx.Some? && r.outcome.Fail? ==> r.tx == tx && Rollback(tx.value) !in r.sent
  {
    EndStep(tx, pending, lastAccess, now, flush, storeFails, false)
  }

  /** An empty commit with no transaction open is refused, and so is a dangling rollback. */
  lemma NoTransactionToEnd(pending: seq<Quad>, lastAccess: int, now: int, flush: FlushOutcome, storeFails: bool)
    ensures CommitStep(None, pending, lastAccess, now, flush, storeFails).outcome
      == Fail(TransactionError("No active transaction to commit."))
    ensures RollbackStep(None, pending, lastAccess, now, flush, storeFails).outcome
      == Fail(TransactionError("No active transaction to rollback."))
  {
  }

  /** Open, then commit with a cache that delivers: the log reads open, batch, commit, and no transaction is left. */
  lemma OpenWriteCommit(pending: seq<Quad>, lastAccess: int, next: Handle, now: int)
    requires pending != []
    ensures var o := OpenStep(None, pending, lastAccess, next, false);
      var c := CommitStep(o.tx, o.pending, o.lastAccess, now, Delivered, false);
      && o.sent + c.sent == [Open(next), BulkAdd(pending), Commit(next)]
      && c.tx == None && c.pending == [] && c.outcome == Pass
  {
  }

  /**
   * The life of a transaction: an open succeeds only when none is active and leaves one
   * active; while it is active a second open is refused; a successful commit or rollback
   * leaves none active, after which another commit is refused.
   */
  lemma TransactionLifecycle(pending: seq<Quad>, lastAccess: int, next: Handle, now: int, flush: FlushOutcome,
                             storeFails: bool, commit: bool)
    ensures var o := OpenStep(None, pending, lastAccess, next, false);
      var again := OpenStep(o.tx, o.pending, o.lastAccess, next + 1, false);
      var e := EndStep(o.tx, o.pending, o.lastAccess, now, flush, storeFails, commit);
      var late := CommitStep(e.tx, e.pending, e.lastAccess, now, flush, storeFails);
      && o.tx.Some? && o.outcome.Pass?
      && again.tx == o.tx && again.outcome == Fail(TransactionError("Only one active transaction allowed."))
      && (e.outcome.Pass? ==> e.tx.None? && late.outcome == Fail(TransactionError("No active transaction to commit.")))
      && (e.outcome.Fail? ==> e.tx == o.tx)
  {
  }

  class MarkLogicClient {
    const store: Store
    /** WRITE_CACHE_ENABLED, a static flag of the client that is true unless changed. */
    const writeCacheEnabled: bool
    /** The write cache; null when caching is disabled. */
    const timerCache: TripleCache?
    /** The open transaction, if any. */
    var tx: Option<Handle>

    ghost predicate Valid()
      reads this, timerCache
    {
      && (writeCacheEnabled <==> timerCache != null)
      && (timerCache != null ==> timerCache.store == store && timerCache.Valid())
    }

    /** The quads waiting in the write cache. */
    ghost function Pending(): seq<Quad>
      reads this, timerCache
    {
      if timerCache == null then [] else timerCache.cache
    }

    ghost function LastAccess(): int
      reads this, timerCache
    {
      if timerCache == null then 0 else timerCache.lastCacheAccess
    }

    /** What `sync` does from the current state. */
    ghost function SyncStep(now: int, flush: FlushOutcome): CacheStep
      reads this, timerCache
    {
      ForceRunStep(Pending(), LastAccess(), now, flush)
    }

    /** What single-triple `sendAdd` does from the current state, with caching on or off. */
    ghost function AddCall(baseUri: Option<string>, s: Value, p: Value, o: Value, contexts: seq<Context>,
                           now: int, flush: FlushOutcome, storeFails: bool): CacheStep
      reads this, timerCache
    {
      if timerCache != null then
        AddStep(timerCache.cache, timerCache.lastCacheAccess, timerCache.cacheSize, QuadsOf(s, p, o, contexts), now, flush)
      else if storeFails then CacheStep([], 0, [], Fail(StoreError))
      else CacheStep([], 0, [AddTriple(baseUri, Skolemize(s), Skolemize(p), Skolemize(o), contexts, tx)], Pass)
    }

    /** The constructor with `initTimer()`: with caching on, a fresh cache with the default thresholds. */
    constructor (store: Store, writeCacheEnabled: bool, now: int)
      ensures Valid() && this.store == store && this.writeCacheEnabled == writeCacheEnabled
      ensures tx == None && Pending() == [] && (timerCache != null ==> fresh(timerCache))
      ensures timerCache != null ==> timerCache.cacheSize == DefaultCacheSize && timerCache.cacheMillis == DefaultCacheMillis
    {
      this.store := store;
      this.writeCacheEnabled := writeCacheEnabled;
      if writeCacheEnabled {
        timerCache := new TripleCache(store, now);
      } else {
        timerCache := null;
      }
      tx := None;
    }

    /** `isActiveTransaction`. */
    predicate IsActiveTransaction(): (b: bool)
      reads this
      ensures b <==> tx != None
    {
      tx.Some?
    }

    /** `sync`: force the write cache to flush when caching is on. */
    method Sync(now: int, flush: FlushOutcome) returns (r: Outcome<Error>)
      requires Valid()
      modifies store, timerCache
      ensures Valid() && store.nextHandle == old(store.nextHandle)
      ensures var st := old(SyncStep(now, flush));
        Pending() == st.pending && LastAccess() == st.lastAccess && store.Log == old(store.Log) + st.sent && r == st.outcome
    {
      r := Pass;
      if writeCacheEnabled && timerCache != null {
        r := timerCache.ForceRun(now, flush);
      }
    }

    /** `sync` followed by one store call, the shape of every read, remove and clear. */
    method SyncThen(call: Call, now: int, flush: FlushOutcome, storeFails: bool) returns (r: Outcome<Error>)
      requires Valid()
      modifies store, timerCache
      ensures Valid() && store.nextHandle == old(store.nextHandle)
      ensures var st := old(SyncStep(now, flush));
        var res := AfterSync(st, call, storeFails);
        Pending() == st.pending && LastAccess() == st.lastAccess && store.Log == old(store.Log) + res.0 && r == res.1
    {
      ghost var st := SyncStep(now, flush);
      r := Sync(now, flush);
      ghost var log := store.Log;
      if r.Pass? {
        var ok := store.Perform(call, storeFails);
        if !ok {
          r := Fail(StoreError);
        }
        assert store.Log == log + (if storeFails then [] else [call]);
      }
      assert Pending() == st.pending && LastAccess() == st.lastAccess;
    }

    /** `sendTupleQuery`, `sendGraphQuery`, `sendBooleanQuery`, `sendUpdateQuery`: sync, then evaluate in the open transaction. */
    method SendQuery(kind: QueryKind, text: string, bindings: map<string, Value>, includeInferred: bool,
                     baseUri: Option<string>, now: int, flush: FlushOutcome, storeFails: bool)
      returns (r: Outcome<Error>)
      requires Valid()
      modifies store, timerCache
      ensures Valid() && tx == old(tx) && store.nextHandle == old(store.nextHandle)
      ensures var st := old(SyncStep(now, flush));
        var res := AfterSync(st, Evaluate(kind, text, bindings, includeInferred, baseUri, tx), storeFails);
        Pending() == st.pending && LastAccess() == st.lastAccess && store.Log == old(store.Log) + res.0 && r == res.1
      ensures r.Pass? && flush == Delivered ==> Pending() == []
    {
      r := SyncThen(Evaluate(kind, text, bindings, includeInferred, baseUri, tx), now, flush, storeFails);
    }

    /** `sendAdd` of a file, stream or reader: straight to the store, without a sync. */
    method SendAddDocument(document: string, baseUri: Option<string>, contexts: seq<Context>, storeFails: bool)
      returns (r: Outcome<Error>)
      requires Valid()
      modifies store
      ensures Valid() && tx == old(tx) && store.nextHandle == old(store.nextHandle)
      ensures store.Log == old(store.Log) + (if storeFails then [] else [AddDocument(document, baseUri, contexts, tx)])
      ensures r == if storeFails then Fail(StoreError) else Pass
    {
      var ok := store.Perform(AddDocument(document, baseUri, contexts, tx), storeFails);
      r := if ok then Pass else Fail(StoreError);
    }

    /**
     * Single-triple `sendAdd`: with caching on the triple only goes into the cache, as it is
     * (a flush may follow); otherwise it is skolemized and added directly.
     */
    method SendAdd(baseUri: Option<string>, s: Value, p: Value, o: Value, contexts: seq<Context>,
                   now: int, flush: FlushOutcome, storeFails: bool) returns (r: Outcome<Error>)
      requires Valid()
      modifies store, timerCache
      ensures Valid() && tx == old(tx) && store.nextHandle == old(store.nextHandle)
      ensures var st := old(AddCall(baseUri, s, p, o, contexts, now, flush, storeFails));
        Pending() == st.pending && LastAccess() == st.lastAccess && store.Log == old(store.Log) + st.sent && r == st.outcome
    {
      if writeCacheEnabled {
        r := timerCache.Add(s, p, o, contexts, now, flush);
      } else {
        var ok := store.Perform(AddTriple(baseUri, Skolemize(s), Skolemize(p), Skolemize(o), contexts, tx), storeFails);
        r := if ok then Pass else Fail(StoreError);
      }
    }

    /** `sendRemove`: sync, then remove the skolemized pattern. */
    method SendRemove(baseUri: Option<string>, s: Option<Value>, p: Option<Value>, o: Option<Value>,
                      contexts: seq<Context>, now: int, flush: FlushOutcome, storeFails: bool)
      returns (r: Outcome<Error>)
      requires Valid()
      modifies store, timerCache
      ensures Valid() && tx == old(tx) && store.nextHandle == old(store.nextHandle)
      ensures var st := old(SyncStep(now, flush));
        var res := AfterSync(st, Remove(baseUri, SkolemizeOpt(s), SkolemizeOpt(p), SkolemizeOpt(o), contexts, tx), storeFails);
        Pending() == st.pending && LastAccess() == st.lastAccess && store.Log == old(store.Log) + res.0 && r == res.1
    {
      r := SyncThen(Remove(baseUri, SkolemizeOpt(s), SkolemizeOpt(p), SkolemizeOpt(o), contexts, tx), now, flush, storeFails);
    }

    /** `sendClear`: sync, then clear the contexts. */
    method SendClear(contexts: seq<Context>, now: int, flush: FlushOutcome, storeFails: bool)
      returns (r: Outcome<Error>)
      requires Valid()
      modifies store, timerCache
      ensures Valid() && tx == old(tx) && store.nextHandle == old(store.nextHandle)
      ensures var st := old(SyncStep(now, flush));
        var res := AfterSync(st, Clear(contexts, tx), storeFails);
        Pending() == st.pending && LastAccess() == st.lastAccess && store.Log == old(store.Log) + res.0 && r == res.1
    {
      r := SyncThen(Clear(contexts, tx), now, flush, storeFails);
    }

    /** `sendClearAll`: sync, then clear everything. */
    method SendClearAll(now: int, flush: FlushOutcome, storeFails: bool) returns (r: Outcome<Error>)
      requires Valid()
      modifies store, timerCache
      ensures Valid() && tx == old(tx) && store.nextHandle == old(store.nextHandle)
      ensures var st := old(SyncStep(now, flush));
        var res := AfterSync(st, ClearAll(tx), storeFails);
        Pending() == st.pending && LastAccess() == st.lastAccess && store.Log == old(store.Log) + res.0 && r == res.1
    {
      r := SyncThen(ClearAll(tx), now, flush, storeFails);
    }

    /** `openTransaction`. */
    method OpenTransaction(storeFails: bool) returns (r: Outcome<Error>)
      requires Valid()
      modifies this, store
      ensures Valid() && Pending() == old(Pending()) && LastAccess() == old(LastAccess())
      ensures var st := OpenStep(old(tx), old(Pending()), old(LastAccess()), old(store.nextHandle), storeFails);
        tx == st.tx && store.Log == old(store.Log) + st.sent && r == st.outcome
      ensures IsActiveTransaction() <==> old(IsActiveTransaction()) || r.Pass?
    {
      if !IsActiveTransaction() {
        var h := store.OpenTransaction(storeFails);
        if h.Some? {
          tx := h;
          r := Pass;
        } else {
          r := Fail(StoreError);
        }
      } else {
        r := Fail(TransactionError("Only one active transaction allowed."));
      }
    }

    /** `commitTransaction` (when `commit`) and `rollbackTransaction`, which differ only in the store call. */
    method EndTransaction(commit: bool, now: int, flush: FlushOutcome, storeFails: bool) returns (r: Outcome<Error>)
      requires Valid()
      modifies this, store, timerCache
      ensures Valid() && store.nextHandle == old(store.nextHandle)
      ensures var st := EndStep(old(tx), old(Pending()), old(LastAccess()), now, flush, storeFails, commit);
        tx == st.tx && Pending() == st.pending && LastAccess() == st.lastAccess
        && store.Log == old(store.Log) + st.sent && r == st.outcome
      ensures IsActiveTransaction() <==> old(IsActiveTransaction()) && r.Fail?
    {
      if IsActiveTransaction() {
        r := SyncThen(EndCall(commit, tx.value), now, flush, storeFails);
        if r.Pass? {
          tx := None;
        } else if r == Fail(SesameError) {
          r := Fail(TransactionFailure(r.error));
        }
      } else {
        r := Fail(TransactionError(NoTransactionMessage(commit)));
      }
    }

    /** `commitTransaction`. */
    method CommitTransaction(now: int, flush: FlushOutcome, storeFails: bool) returns (r: Outcome<Error>)
      requires Valid()
      modifies this, store, timerCache
      ensures Valid() && store.nextHandle == old(store.nextHandle)
      ensures var st := CommitStep(old(tx), old(Pending()), old(LastAccess()), now, flush, storeFails);
        tx == st.tx && Pending() == st.pending && LastAccess() == st.lastAccess
        && store.Log == old(store.Log) + st.sent && r == st.outcome
    {
      r := EndTransaction(true, now, flush, storeFails);
    }

    /** `rollbackTransaction`. */
    method RollbackTransaction(now: int, flush: FlushOutcome, storeFails: bool) returns (r: Outcome<Error>)
      requires Valid()
      modifies this, store, timerCache
      ensures Valid() && store.nextHandle == old(store.nextHandle)
      ensures var st := RollbackStep(old(tx), old(Pending()), old(LastAccess()), now, flush, storeFails);
        tx == st.tx && Pending() == st.pending && LastAccess() == st.lastAccess
        && store.Log == old(store.Log) + st.sent && r == st.outcome
    {
      r := EndTransaction(false, now, flush, storeFails);
    }

    /** `setAutoCommit`: refused while a transaction is open. */
    method SetAutoCommit() returns (r: Outcome<Error>)
      requires Valid()
      modifies this
      ensures Valid() && tx == old(tx)
      ensures r == if old(tx).Some? then Fail(TransactionError("Active transaction.")) else Pass
    {
      if IsActiveTransaction() {
        r := Fail(TransactionError("Active transaction."));
      } else {
        tx := None;
        r := Pass;
      }
    }
  }
}
