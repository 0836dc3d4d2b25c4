/** Option, Result and Outcome values standing in for `undefined`, thrown errors and rejected promises. */
module Wrappers {

  datatype Option<+T> = None | Some(value: T)

  /** The value of a call that either returns or throws. */
  datatype Result<+R, +E> = Ok(value: R) | Err(error: E)

  /** The value of a `Promise<void>` call that either completes or throws. */
  datatype Outcome<+E> = Pass | Fail(error: E)
}

/** The failures the core can raise, one constructor per distinct thrown error. */
module Errors {

  datatype Error =
    /** `load` met an `apiProvider` that no adapter is registered for ("不支持的提供商"). */
    | UnsupportedProvider(name: string)
    /** `chat` was called while no adapter is active. */
    | NotLoaded
    /** `load` was called before `initialize` assigned `getConfig` (calling `undefined`). */
    | NotInitialized
    /** `chat` dereferenced an adapter client that `unload` had set to null. */
    | NullClient
    /** The upstream chat-completion call rejected. */
    | UpstreamFailure
    /** `choices[0].message` was read on an empty choice list. */
    | MissingChoice
    /** `JSON.parse` rejected the reply text. */
    | InvalidJson
    /** A property was assigned on a parsed JSON primitive or null (a strict-mode TypeError). */
    | PropertyOnPrimitive
    /** The request body did not match the search schema (a validation error). */
    | InvalidRequest
}
