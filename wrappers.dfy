/** Option and Result values used in place of the C# program's nullable references and
    exceptions. */
module Wrappers {

  datatype Option<+T> = None | Some(value: T)

  datatype Result<+R, +E> = Success(value: R) | Failure(error: E)

  /** The outcome of an operation that returns nothing (a `Task` or `void` in the C# program) or throws. */
  datatype Outcome<+E> = Pass | Fail(error: E)
}

/** The exceptions the modelled operations can end with. */
module Errors {

  datatype Error =
    | PlayingRequestFailed // the currently-playing request threw (an HTTP or network failure)
    | NotPlaying          // "Not currently playing anything"
    | NoContext           // the currently-playing result has no context (null dereference)
    | UnsupportedItem     // a playable item that is neither a track nor an episode
    | NotAuthenticated    // no client has been created yet (null dereference)
    | NoLoginFlow         // CompleteLogin before TryLogin started a flow (awaiting a null task)
    | TokenExchangeFailed // the identity provider refused the code / verifier pair
    | SaveTokenFailed     // writing the credentials file failed
    | AddItemsFailed
    | ReplaceItemsFailed
    | SkipFailed          // the player refused to skip (no active device, for one)
    | PlaylistFetchFailed // loading the current playlist failed
}
