/** The exceptions the modelled code throws, one constructor per kind the callers can tell apart. */
module Errors {

  datatype Error =
    /** MarkLogicTransactionException raised with a message. */
    | TransactionError(message: string)
    /** MarkLogicTransactionException wrapping the cause it was built from. */
    | TransactionFailure(cause: Error)
    /** One of the exceptions `flush` declares (repository, malformed query, update execution, I/O). */
    | RepositoryFailure
    /** MarkLogicSesameException: a flush failure that `run` and `forceRun` do not catch. */
    | SesameError
    /** An exception raised by the remote store itself (network, server side). */
    | StoreError
    /** UnsupportedQueryLanguageException for the named language. */
    | UnsupportedQueryLanguage(language: string)
    /** IllegalStateException. */
    | IllegalState
    /** ClassCastException from a cast of a query value. */
    | ClassCast
    /** NullPointerException from dereferencing a missing binding. */
    | NullPointer
}
