/**
 * The write cache (TripleCache): single-triple adds are collected in an insertion-ordered
 * set of quads and sent to the store as one batch when the cache reaches its size
 * threshold, when a timer tick finds it too old, or when a caller forces it.
 *
 * The step functions give the reference behaviour of each operation on the cache's
 * state; the class TripleCache implements the operations on fields and is proved to
 * follow them. Time is the explicit integer `now` (milliseconds), and what the abstract
 * `flush` meets at the store is the input `flush`.
 */
module TripleCaches {
  import opened Wrappers
  import opened Rdf
  import opened Errors
  import opened OrderedSets
  import opened RemoteStore

  const DefaultCacheSize: int := 750
  const DefaultCacheMillis: int := 800
  /** Delay before the first timer tick; the timer itself is not part of this model. */
  const DefaultInitialDelay: int := 50

  /** What one call of the abstract `flush` meets. */
  datatype FlushOutcome =
    /** The batch reaches the store. */
    | Delivered
    /** `flush` throws one of its declared exceptions, which `run` and `forceRun` catch. */
    | FailsCaught
    /** `flush` throws an exception that `run` and `forceRun` let through. */
    | FailsUncaught

  /** The cache's state after an operation, the store calls it made, and how it completed. */
  datatype CacheStep = CacheStep(pending: seq<Quad>, lastAccess: int, sent: seq<Call>, outcome: Outcome<Error>)

  /** The statements `Model.add(s, p, o, contexts...)` creates: one per context, or one in the default graph. */
  function QuadsOf(s: Value, p: Value, o: Value, contexts: seq<Context>): (r: seq<Quad>)
    ensures |r| == (if contexts == [] then 1 else |contexts|)
    ensures contexts == [] ==> r[0] == Quad(s, p, o, None)
    ensures forall i :: 0 <= i < |contexts| ==> r[i] == Quad(s, p, o, contexts[i])
  {
    if contexts == [] then [Quad(s, p, o, None)]
    else seq(|contexts|, i requires 0 <= i < |contexts| => Quad(s, p, o, contexts[i]))
  }

  /** `flush`, in the order of the reference implementation: send the batch, then record the time, then clear. */
  function Flushed(batch: seq<Quad>, lastAccess: int, now: int, flush: FlushOutcome): (st: CacheStep)
    ensures st.outcome.Pass? <==> st.sent != []
    ensures st.sent != [] ==> st == CacheStep([], now, [BulkAdd(batch)], Pass)
    ensures st.sent == [] ==> st.pending == batch && st.lastAccess == lastAccess
  {
    match flush
    case Delivered => CacheStep([], now, [BulkAdd(batch)], Pass)
    case FailsCaught => CacheStep(batch, lastAccess, [], Fail(RepositoryFailure))
    case FailsUncaught => CacheStep(batch, lastAccess, [], Fail(SesameError))
  }

  /** The catch blocks of `run` and `forceRun`: the declared exceptions are logged and dropped. */
  function CatchDeclared(st: CacheStep): (r: CacheStep)
    ensures r.pending == st.pending && r.lastAccess == st.lastAccess && r.sent == st.sent
    ensures r.outcome.Pass? <==> st.outcome.Pass? || st.outcome == Fail(RepositoryFailure)
    ensures r.outcome.Fail? ==> r.outcome == st.outcome
  {
    if st.outcome == Fail(RepositoryFailure) then st.(outcome := Pass) else st
  }

  /** The test `run` makes before flushing. */
  predicate TickDue(pending: seq<Quad>, lastAccess: int, cacheSize: int, cacheMillis: int, now: int)
  {
    |pending| > 0 && (|pending| > cacheSize - 1 || now - lastAccess > cacheMillis)
  }

  /** `run`, the timer tick. */
  function RunStep(pending: seq<Quad>, lastAccess: int, cacheSize: int, cacheMillis: int, now: int,
                   flush: FlushOutcome): (st: CacheStep)
    ensures st.sent != [] <==> TickDue(pending, lastAccess, cacheSize, cacheMillis, now) && flush == Delivered
    ensures st.sent != [] ==> st == CacheStep([], now, [BulkAdd(pending)], Pass)
    ensures st.sent == [] ==> st.pending == pending && st.lastAccess == lastAccess
    ensures st.outcome.Fail? <==> TickDue(pending, lastAccess, cacheSize, cacheMillis, now) && flush == FailsUncaught
  {
    if TickDue(pending, lastAccess, cacheSize, cacheMillis, now) then
      CatchDeclared(Flushed(pending, lastAccess, now, flush))
    else
      CacheStep(pending, lastAccess, [], Pass)
  }

  /** `forceRun`: a flush whenever the cache holds anything. */
  function ForceRunStep(pending: seq<Quad>, lastAccess: int, now: int, flush: FlushOutcome): (st: CacheStep)
    ensures st.sent != [] <==> pending != [] && flush == Delivered
    ensures st.sent != [] ==> st == CacheStep([], now, [BulkAdd(pending)], Pass)
    ensures st.sent == [] ==> st.pending == pending && st.lastAccess == lastAccess
    ensures st.outcome.Fail? <==> pending != [] && flush == FailsUncaught
    ensures st.outcome.Fail? ==> st.outcome == Fail(SesameError)
  {
    if pending != [] then CatchDeclared(Flushed(pending, lastAccess, now, flush))
    else CacheStep(pending, lastAccess, [], Pass)
  }

  /** `add`: insert the quads, then force a flush once the size exceeds `cacheSize - 1`. */
  function AddStep(pending: seq<Quad>, lastAccess: int, cacheSize: int, quads: seq<Quad>, now: int,
                   flush: FlushOutcome): (st: CacheStep)
    ensures var grown := InsertAll(pending, quads);
      && (st.sent != [] <==> |grown| > cacheSize - 1 && grown != [] && flush == Delivered)
      && (st.sent != [] ==> st == CacheStep([], now, [BulkAdd(grown)], Pass))
      && (st.sent == [] ==> st.pending == grown && st.lastAccess == lastAccess)
      && (st.outcome.Fail? <==> |grown| > cacheSize - 1 && grown != [] && flush == FailsUncaught)
    ensures flush == Delivered ==> st.pending == [] || |st.pending| < cacheSize
  {
    var grown := InsertAll(pending, quads);
    if |grown| > cacheSize - 1 then ForceRunStep(grown, lastAccess, now, flush)
    else CacheStep(grown, lastAccess, [], Pass)
  }

  /** Single-triple adds of `qs`, one after another, every flush being delivered. */
  function AddAllDelivered(pending: seq<Quad>, lastAccess: int, cacheSize: int, qs: seq<Quad>, now: int): CacheStep
    decreases |qs|
  {
    if qs == [] then CacheStep(pending, lastAccess, [], Pass)
    else
      var st := AddStep(pending, lastAccess, cacheSize, [qs[0]], now, Delivered);
      var rest := AddAllDelivered(st.pending, st.lastAccess, cacheSize, qs[1..], now);
      CacheStep(rest.pending, rest.lastAccess, st.sent + rest.sent, Pass)
  }

  /** While every flush is delivered, the cache never holds `cacheSize` quads between operations. */
  lemma {:induction false} DeliveredAddsStayBelowThreshold(pending: seq<Quad>, lastAccess: int, cacheSize: int,
                                                          qs: seq<Quad>, now: int)
    requires |pending| < cacheSize
    ensures |AddAllDelivered(pending, lastAccess, cacheSize, qs, now).pending| < cacheSize
    decreases |qs|
  {
    if qs != [] {
      var st := AddStep(pending, lastAccess, cacheSize, [qs[0]], now, Delivered);
      DeliveredAddsStayBelowThreshold(st.pending, st.lastAccess, cacheSize, qs[1..], now);
    }
  }

  /** Adding `cacheSize` or more distinct quads to an empty cache sends at least one batch. */
  lemma FlushThresholdReached(cacheSize: int, qs: seq<Quad>, lastAccess: int, now: int)
    requires 1 <= cacheSize <= |qs|
    requires NoDuplicates(qs)
    ensures AddAllDelivered([], lastAccess, cacheSize, qs, now).sent != []
  {
    FlushThresholdFrom([], lastAccess, cacheSize, qs, now);
  }

  lemma {:induction false} FlushThresholdFrom(pending: seq<Quad>, lastAccess: int, cacheSize: int,
                                              qs: seq<Quad>, now: int)
    requires NoDuplicates(pending) && NoDuplicates(qs)
    requires forall q :: q in qs ==> q !in pending
    requires |pending| < cacheSize <= |pending| + |qs|
    ensures AddAllDelivered(pending, lastAccess, cacheSize, qs, now).sent != []
    decreases |qs|
  {
    var st := AddStep(pending, lastAccess, cacheSize, [qs[0]], now, Delivered);
    assert qs[0] in qs;
    assert InsertAll(pending, [qs[0]]) == pending + [qs[0]];
    if st.sent == [] {
      var grown := pending + [qs[0]];
      assert st.pending == grown;
      forall i, j | 0 <= i < j < |grown| ensures grown[i] != grown[j] {
        if j == |pending| {
          assert grown[i] in pending;
        }
      }
      forall q | q in qs[1..] ensures q !in grown {
        assert q in qs;
        var k :| 1 <= k < |qs| && qs[k] == q;
        assert qs[0] != qs[k];
      }
      FlushThresholdFrom(grown, st.lastAccess, cacheSize, qs[1..], now);
    }
  }

  /** A quad added to an empty cache, with the age limit 100 ms, goes out alone at the first tick more than 100 ms later. */
  lemma AgeFlushSendsTheQuad(q: Quad, cacheSize: int, added: int, now: int)
    requires cacheSize >= 2 && now > added + 100
    ensures var st := AddStep([], added, cacheSize, [q], added, Delivered);
      && st.pending == [q] && st.sent == []
      && RunStep(st.pending, st.lastAccess, cacheSize, 100, now, Delivered).sent == [BulkAdd([q])]
  {
    assert InsertAll([], [q]) == [q];
  }

  /**
   * The age test of `run`: while the cache holds fewer than `cacheSize` quads, a tick sends
   * them exactly when more than `cacheMillis` have passed since the last flush, so no
   * earlier tick sends anything.
   */
  lemma AgeFlushExactly(pending: seq<Quad>, lastAccess: int, cacheSize: int, cacheMillis: int, now: int)
    requires 0 < |pending| < cacheSize
    ensures var st := RunStep(pending, lastAccess, cacheSize, cacheMillis, now, Delivered);
      && (st.sent != [] <==> now - lastAccess > cacheMillis)
      && (st.sent != [] ==> st == CacheStep([], now, [BulkAdd(pending)], Pass))
      && (st.sent == [] ==> st.pending == pending && st.lastAccess == lastAccess)
  {
  }

  /**
   * TripleCache: `cache` is the LinkedHashModel of pending quads, `lastCacheAccess` the time of
   * the last successful flush. Each method follows the step function of the same name.
   */
  class TripleCache {
    /** Where `flush` sends the batch. */
    const store: Store
    var cache: seq<Quad>
    var cacheSize: int
    var cacheMillis: int
    var lastCacheAccess: int

    ghost predicate Valid()
      reads this
    {
      NoDuplicates(cache)
    }

    /** The one-argument constructor: an empty cache with the default thresholds. */
    constructor (store: Store, now: int)
      ensures Valid() && this.store == store && cache == []
      ensures cacheSize == DefaultCacheSize && cacheMillis == DefaultCacheMillis && lastCacheAccess == now
    {
      this.store := store;
      cache := [];
      cacheSize := DefaultCacheSize;
      cacheMillis := DefaultCacheMillis;
      lastCacheAccess := now;
    }

    /** The two-argument constructor sets only the size; the age limit keeps Java's field default 0. */
    constructor WithCacheSize(store: Store, size: int, now: int)
      ensures Valid() && this.store == store && cache == []
      ensures cacheSize == size && cacheMillis == 0 && lastCacheAccess == now
    {
      this.store := store;
      cache := [];
      cacheMillis := 0;
      lastCacheAccess := now;
      new;
      SetCacheSize(size);
    }

    method SetCacheSize(size: int)
      modifies this`cacheSize
      ensures cacheSize == size
    {
      cacheSize := size;
    }

    method SetCacheMillis(millis: int)
      modifies this`cacheMillis
      ensures cacheMillis == millis
    {
      cacheMillis := millis;
    }

    /** The abstract `flush`: send the batch, then record the time, then clear the cache. */
    method Flush(now: int, flush: FlushOutcome) returns (r: Outcome<Error>)
      requires Valid()
      modifies this`cache, this`lastCacheAccess, store
      ensures Valid() && store.nextHandle == old(store.nextHandle)
      ensures var st := Flushed(old(cache), old(lastCacheAccess), now, flush);
        cache == st.pending && lastCacheAccess == st.lastAccess && store.Log == old(store.Log) + st.sent && r == st.outcome
    {
      var ok := store.Perform(BulkAdd(cache), flush != Delivered);
      if ok {
        lastCacheAccess := now;
        cache := [];
        r := Pass;
      } else {
        r := Fail(if flush == FailsCaught then RepositoryFailure else SesameError);
      }
    }

    /** `forceRun`: flush if the cache holds anything, dropping the declared flush exceptions. */
    method ForceRun(now: int, flush: FlushOutcome) returns (r: Outcome<Error>)
      requires Valid()
      modifies this`cache, this`lastCacheAccess, store
      ensures Valid() && store.nextHandle == old(store.nextHandle)
      ensures var st := ForceRunStep(old(cache), old(lastCacheAccess), now, flush);
        cache == st.pending && lastCacheAccess == st.lastAccess && store.Log == old(store.Log) + st.sent && r == st.outcome
    {
      r := Pass;
      if cache != [] {
        var e := Flush(now, flush);
        if e != Fail(RepositoryFailure) {
          r := e;
        }
      }
    }

    /** `run`, the timer tick: flush when the cache is non-empty and too large or too old. */
    method Run(now: int, flush: FlushOutcome) returns (r: Outcome<Error>)
      requires Valid()
      modifies this`cache, this`lastCacheAccess, store
      ensures Valid() && store.nextHandle == old(store.nextHandle)
      ensures var st := RunStep(old(cache), old(lastCacheAccess), cacheSize, cacheMillis, now, flush);
        cache == st.pending && lastCacheAccess == st.lastAccess && store.Log == old(store.Log) + st.sent && r == st.outcome
    {
      r := Pass;
      if cache != [] && (|cache| > cacheSize - 1 || now - lastCacheAccess > cacheMillis) {
        var e := Flush(now, flush);
        if e != Fail(RepositoryFailure) {
          r := e;
        }
      }
    }

    /** `add`: insert the statement for each context, forcing a flush past the size threshold. */
    method Add(s: Value, p: Value, o: Value, contexts: seq<Context>, now: int, flush: FlushOutcome)
      returns (r: Outcome<Error>)
      requires Valid()
      modifies this`cache, this`lastCacheAccess, store
      ensures Valid() && store.nextHandle == old(store.nextHandle)
      ensures var st := AddStep(old(cache), old(lastCacheAccess), cacheSize, QuadsOf(s, p, o, contexts), now, flush);
        cache == st.pending && lastCacheAccess == st.lastAccess && store.Log == old(store.Log) + st.sent && r == st.outcome
    {
      InsertAllFacts(cache, QuadsOf(s, p, o, contexts));
      cache := InsertAll(cache, QuadsOf(s, p, o, contexts));
      r := Pass;
      if |cache| > cacheSize - 1 {
        r := ForceRun(now, flush);
      }
    }
  }
}
