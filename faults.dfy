/** The ways a write call of the service ends abnormally (each is an exception in the source). */
module Faults {

  datatype Fault =
    /** The node status could not be read before polling. */
    | NodeStatusUnavailable
    /** A pending-transaction query came back unsuccessful ("the transaction has been rejected"). */
    | TransactionRejected
    /** Waiting for the next block came back unsuccessful. */
    | WaitForBlockFailed
    /** The round budget ran out with no confirmed round; carries the budget. */
    | NotConfirmed(rounds: int)
    /** The suggested transaction parameters could not be fetched. */
    | ParamsUnavailable
    /** The node did not accept the raw signed transaction. */
    | TransactionNotAccepted
    /** A client call threw instead of returning a response (network or protocol error). */
    | ClientError
}
