module Common {
  datatype Option<+T> = None | Some(value: T) {
    predicate IsFailure() { None? }
    function PropagateFailure<U>(): Option<U>
      requires None?
    {
      None
    }
    function Extract(): T
      requires Some?
    {
      value
    }
  }

  datatype Result<+T> = Ok(value: T) | Err(error: BrokerError)

  /** The broker's errors, without their message texts. */
  datatype BrokerError =
    | InvalidPubKey
    | InvalidSignature
    | SignatureVerifyFailed
    | StaleMessage(drift: int)
    | FutureMessage(drift: int)
    | Malformed
    | HandleTaken
    | HandleAlreadyOwned
    | PeerNotFound
    | PeerOffline
    | PayloadTooLarge(size: nat, max: nat)
    | RateLimited
    | RelayQuotaExceeded
    | RelayNotConsented
    | RelaySessionNotFound
    | Database
    | Internal

  predicate StartsWith(s: string, c: char) {
    s != "" && s[0] == c
  }
}
