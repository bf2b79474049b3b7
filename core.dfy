/**
 * The collaborators the handlers call into (the `@pagedao/core` package), as
 * oracles: every call either answers with a value or throws. Nothing here
 * models how a tracker reaches a chain; only what it answered.
 */
module Core {
  import opened Json

  /** A thrown error `{code, message, statusCode}`. An empty `code` and a zero
      `statusCode` stand for absent properties: both are falsy, and the error
      handler only tests them for truthiness. */
  datatype Thrown = Thrown(code: string, message: string, statusCode: int)

  /** `throw { code, message }` as the handlers write it. */
  function Throw(code: string, message: string): Thrown
  {
    Thrown(code, message, 0)
  }

  /** The message of the TypeError the engine raises when a property of
      `null` or `undefined` is read; its wording is not modelled. */
  const TypeErrorMessage: string := "TypeError"

  /** That TypeError: it has neither a `code` nor a `statusCode`. */
  function TypeError(): Thrown
  {
    Thrown("", TypeErrorMessage, 0)
  }

  /** The outcome of a call that may throw. */
  datatype Result<+T> = Ok(value: T) | Fail(error: Thrown)

  /** The `maxTokens` option of `getAllTokens`; `None` is NaN. */
  type MaxTokens = Option<nat>

  /** A content tracker as returned by `ContentTrackerFactory.getTracker`,
      given by what each of its calls answers. The two optional capabilities
      are the methods the sweeps test for before calling. */
  datatype Tracker = Tracker(
    contentType: string,
    collectionInfo: Result<Value>,
    allTokens: MaxTokens -> Result<seq<Value>>,
    metadata: Value -> Result<Value>,
    ownership: Value -> Result<Value>,
    rights: Value -> Result<Value>,
    tokensByOwner: Value -> Result<Value>,
    collections: Option<Result<seq<Value>>>,
    authors: Option<Result<seq<Value>>>)

  /** `ContentTrackerFactory.getTracker(address, type, chain)`. */
  type Factory = (string, string, string) -> Result<Tracker>

  /** A per-chain content adapter, as listed by `getAllContentTrackers`. */
  datatype Adapter = Adapter(
    authorByAddress: string -> Result<Value>,
    contentByAuthor: string -> Result<seq<Value>>,
    collectionByAddress: string -> Result<Value>,
    collectionItems: (string, nat, nat) -> Result<seq<Value>>)

  /** The adapter registry of a `ContentTrackerFactory` instance:
      `getAllContentTrackers()` and `getContentTrackerForChain(chain)`. */
  datatype Adapters = Adapters(
    all: Result<seq<Adapter>>,
    forChain: Value -> Result<Option<Adapter>>)
}
