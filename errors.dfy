/** The errors the watcher raises or receives from its collaborators. */
module Errors {

  datatype Error =
    /** A call to the node (transaction fetch, account fetch, snapshot query) failed. */
    | Rpc(reason: string)
    /** Opening or writing one of the output files failed. */
    | Io(reason: string)
    /** A log notification carried no string `signature` field. */
    | NoSignatureInLogs
    /** The `signature` field does not parse as a transaction signature; `reason` is the parser's message. */
    | InvalidSignature(reason: string)
    /** The transaction has no account keys, so it has no creator. */
    | NoSignerFound
    /** No post-execution balance record fits the side being extracted. */
    | TokenInfoNotFound

  /** The text an error displays as, as written into the error log. */
  function Message(e: Error): string {
    match e
    case Rpc(reason) => reason
    case Io(reason) => reason
    case NoSignatureInLogs => "No signature in logs"
    case InvalidSignature(reason) => reason
    case NoSignerFound => "No signer found"
    case TokenInfoNotFound => "Token info not found"
  }
}
