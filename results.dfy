/** Optional values and the errors the account layer reports. */
module Results {

  /** `undefined` in the wallet's lookups becomes `None`. */
  datatype Option<+T> = None | Some(value: T)

  /** The failures an account or chain operation can report. */
  datatype Error =
    | InvalidChainIndex          // an index-based accessor was given an index outside the chains
    | EmptyChain                 // `get` on a chain that holds no address yet
    | DiscoveryFailed(reason: string)  // the gap-limit scan reported an error, forwarded verbatim

  datatype Result<+T> = Ok(value: T) | Err(error: Error)
}
