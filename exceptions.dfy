/**
 * The exceptions the service raises (app/repositories/exceptions.py) together with the
 * library and runtime errors the core lets through, and the two wrappers that carry them.
 */
module Exceptions {

  datatype Option<+T> = None | Some(value: T)

  /** The remote calls of the ledger gateway; an RpcFailure names the one that raised. */
  datatype RpcCall =
    | GetTransactionCount
    | SendRawTransaction
    | WaitForTransactionReceipt
    | BalanceOf

  datatype Exception =
    /** a remote call raised: connection error, node rejection, receipt timeout */
    | RpcFailure(call: RpcCall)
    /** Account.from_key refused the key material */
    | InvalidKey
    /** to_checksum_address refused the text */
    | InvalidAddress(text: string)
    /** the receipt's status was not 1 */
    | TransactionFailed(txHash: string)
    /** `raise None` after zero attempts: Python raises a TypeError */
    | NoneRaised
    /** a pydantic model refused its fields */
    | ValidationError
    /** the database refused a commit (unique address) */
    | IntegrityError
    /** an attribute the object does not have was read */
    | AttributeError(attribute: string)
    | AccountAlreadyExists(name: string)
    | AccountNotFound(name: string)
    | InsufficientBalance(available: nat, required: nat)
    | Blockchain(cause: Exception)

  /** What a call returns, or the exception it raises. */
  datatype Result<+T> = Ok(value: T) | Err(error: Exception)
}
