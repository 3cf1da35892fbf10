/**
 * The remote MarkLogic store as the driver sees it: a collaborator that either accepts a
 * call or raises an exception. The model keeps the calls it accepted, in order, in a
 * ghost log; whether a call fails is an input to each operation.
 */
module RemoteStore {
  import opened Wrappers
  import opened Rdf

  /** An open transaction on the store (the Java client's Transaction object). */
  type Handle = nat

  /** The four result shapes of a SPARQL request. */
  datatype QueryKind = TupleQuery | GraphQuery | BooleanQuery | UpdateQuery

  /** One call the store accepted. */
  datatype Call =
    /** The write cache's batch of quads, sent as one bulk add. */
    | BulkAdd(batch: seq<Quad>)
    /** A SPARQL query or update with its bindings, run inside `tx` when there is one. */
    | Evaluate(kind: QueryKind, text: string, bindings: map<string, Value>, includeInferred: bool,
               baseUri: Option<string>, tx: Option<Handle>)
    /** A single triple added directly, once per context. */
    | AddTriple(baseUri: Option<string>, s: Value, p: Value, o: Value, contexts: seq<Context>, tx: Option<Handle>)
    /** An RDF document (file, stream or reader) loaded directly. */
    | AddDocument(document: string, baseUri: Option<string>, contexts: seq<Context>, tx: Option<Handle>)
    /** A triple pattern removed; None matches anything. */
    | Remove(baseUri: Option<string>, sPattern: Option<Value>, pPattern: Option<Value>, oPattern: Option<Value>,
             contexts: seq<Context>, tx: Option<Handle>)
    | Clear(contexts: seq<Context>, tx: Option<Handle>)
    | ClearAll(tx: Option<Handle>)
    | Open(handle: Handle)
    | Commit(handle: Handle)
    | Rollback(handle: Handle)

  class Store {
    /** Every call the store accepted, oldest first. */
    ghost var Log: seq<Call>
    /** The handle the next transaction will get. */
    var nextHandle: Handle

    constructor ()
      ensures Log == [] && nextHandle == 0
    {
      Log := [];
      nextHandle := 0;
    }

    /** Performs `call` unless the store raises an exception instead. */
    method Perform(call: Call, fails: bool) returns (ok: bool)
      modifies this
      ensures ok == !fails
      ensures Log == old(Log) + (if ok then [call] else [])
      ensures nextHandle == old(nextHandle)
    {
      ok := !fails;
      if ok {
        Log := Log + [call];
      }
    }

    /** Opens a transaction with a fresh handle unless the store raises an exception instead. */
    method OpenTransaction(fails: bool) returns (h: Option<Handle>)
      modifies this
      ensures fails ==> h == None && Log == old(Log) && nextHandle == old(nextHandle)
      ensures !fails ==> h == Some(old(nextHandle)) && Log == old(Log) + [Open(old(nextHandle))]
      ensures !fails ==> nextHandle == old(nextHandle) + 1
    {
      if fails {
        h := None;
      } else {
        h := Some(nextHandle);
        Log := Log + [Open(nextHandle)];
        nextHandle := nextHandle + 1;
      }
    }
  }
}
