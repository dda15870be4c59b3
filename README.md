# blockchain_banking in Dafny

A model of the decision logic of blockchain_banking, a custodial account service. The service
creates key pairs for named users, stores them, funds new accounts from a faucet, and relays
token transfers to a ledger node. The model covers five parts:

- **The bounded retry policy** `async_retry` (`retry.dfy`, module `RetryPolicy`). The wrapped
  function is a script: `attempt(k)` is what its k-th call returns or raises, and the effects
  that call had. `Retry` describes one wrapper call as a value. `AsyncRetry` is the loop
  itself, proved equal to it.
- **The ledger client** (`web3_client.dfy`, module `Web3Client`). This covers `estimate_gas`,
  `send_native_token`, `transfer_erc20` and `get_balance` over a scripted node, and
  `create_account`. One call of a transfer is `TransferAttempt`. It fetches the nonce, builds
  the transaction, overwrites its gas with the estimate, signs, broadcasts, waits for the
  receipt and checks that the status is 1. It records every remote call it makes, in order.
  The decorated operations are the retry policy applied to these attempts.
- **The account repository** (`repository.dfy`, class `Repository.AccountRepository`). Its
  users table is a `map` from name to user, updated in place by `CreateAccount`. Every method
  except `GetUserByName` also returns the steps it took: database selects and commits, and calls into the client.
- **The request and account schemas** (`user_schemas.dfy`, `blockchain_schemas.dfy`). These are
  the pydantic field bounds and validators.
- **The HTTP routes** (`api.dfy`, module `Api`). Each route has a request check, calls into the
  repository and an exception-to-status table. Exceptions a route does not catch reach the
  global handler of `app/main.py`, which answers 500.

Common types are in `exceptions.dfy`: `Option`, `Result` and the exceptions the service raises.

The node, the key library and the database are replaced by parameters. `net(k)` gives the
node's replies to the k-th attempt. A `Library` holds key-to-address derivation and address
checksumming. A generated `KeyPair` stands for what `Account.create()` produced.

## Model

| member | source | states |
|---|---|---|
| RetryPolicy.FirstSuccess | app/utils/web3_client.py:32-34 | The first attempt that returns is indeed a success, and every attempt before it failed. |
| RetryPolicy.Retry | app/utils/web3_client.py:19-56 | The wrapped function is called at most `max_retries` times. The result is a success iff some attempt below `max_retries` succeeds, and then it is that first success, with no calls after it and one sleep fewer than calls. When all attempts fail, the wrapper makes exactly `max_retries` calls and `max_retries`-1 sleeps, then re-raises the last attempt's exception. With `max_retries` 0 it makes no call and raises `None` (a TypeError). The time slept is the number of sleeps times `delay`. The effects are those of the calls made, in order. |
| RetryPolicy.AsyncRetry | app/utils/web3_client.py:28-52 | The loop over `range(max_retries)` returns exactly what `Retry` describes: the same result, call count, sleeps, time slept and effects. |
| Web3Client.WithMargin | app/utils/web3_client.py:127-128 | The 20% margin never lowers the estimate, and adds at most a fifth of it. |
| Web3Client.EstimateGas | app/utils/web3_client.py:123-133 | When the node fails, the result is the configured gas limit. Otherwise it is at least the node's estimate and at most 6/5 of it. |
| Web3Client.EstimateGasCalledOnce | app/utils/web3_client.py:123-133 | `estimate_gas` never raises, so its retry decorator calls it once, never sleeps and asks the node once. |
| Web3Client.Resolve | app/utils/web3_client.py:189-191 | Checksumming succeeds iff every address of the order checksums. The recipient is checked for a native transfer; the token contract and then the recipient for a token transfer. The result carries the checksummed addresses, and a failure is an invalid-address error. |
| Web3Client.Draft | app/utils/web3_client.py:195-206 | The built transaction carries the fetched nonce and the chain id. A native transfer goes to the recipient and carries the value, the gas limit, the gas price and no call data. A token transfer goes to the token contract, carries the recipient and amount as call data, and holds the gas price in its "gas" entry. |
| Web3Client.TransferAttempt | app/utils/web3_client.py:135-179 | One attempt returns a hash iff the local checks pass, the nonce and broadcast are answered and the receipt status is 1. The hash is the broadcast's hash. The node is contacted iff the key and addresses are valid. |
| Web3Client.AttemptFollowsProtocol | app/utils/web3_client.py:189-229 | Within one attempt the node sees the nonce request for the sender, then the estimate for the built draft, the broadcast and the receipt wait, in that order. Each step is reached only when the one before it answered. |
| Web3Client.AttemptSignsFreshNonce | app/utils/web3_client.py:193-214 | What an attempt signs and broadcasts is exactly the draft it built, with only the "gas" entry replaced by the estimate. So it carries that attempt's own nonce and the recipient and value, or the token contract and the `transfer` call data. It is signed with the sender's key. |
| Web3Client.AttemptRaisesOnFailedStatus | app/utils/web3_client.py:229-234 | A receipt whose status is not 1 makes the attempt raise "Transaction failed" for that hash. |
| Web3Client.AttemptTraffic | app/utils/web3_client.py:189-216 | One attempt fetches the nonce exactly once when the local checks pass, and broadcasts at most once. |
| Web3Client.TransferErrorsAreClientErrors | app/utils/web3_client.py:181-234 | A decorated transfer that gives up raises one of the client's own exceptions: a failed node call, a bad key or address, or a failed status. |
| Web3Client.TransferTraffic | app/utils/web3_client.py:135-163 | A decorated transfer makes at most 3 calls and at most one broadcast per call. It fetches the nonce once per call when the local checks pass, and never otherwise. |
| Web3Client.LocalFailureRetriedSilently | app/utils/web3_client.py:139-142 | A malformed key or address is retried anyway: 3 calls and 2 sleeps, the node is never contacted, and the local error (InvalidKey for a bad key) is re-raised. |
| Web3Client.RevertedTransferIsRebroadcast | app/utils/web3_client.py:229-234 | When every attempt's transaction is included but reverted, the wrapper broadcasts 3 times and raises "Transaction failed" for the third hash. |
| Web3Client.SendNativeToken | app/utils/web3_client.py:135-179 | The decorated native transfer makes at most 3 calls, with at most one broadcast per call. A returned hash is the last call's broadcast hash, and that call's receipt had status 1. |
| Web3Client.TransferErc20 | app/utils/web3_client.py:181-234 | The same guarantees as the native transfer, for a token transfer. |
| Web3Client.BalanceAttempt | app/utils/web3_client.py:111-115 | One balance query checksums the token and then the owner. It asks the node once iff both checksum, and returns exactly the node's answer. |
| Web3Client.GetBalance | app/utils/web3_client.py:110-115 | The decorated query succeeds iff both addresses checksum and one of the 3 attempts is answered. The balance returned is the answer to the last call made. |
| Web3Client.CreateAccount | app/utils/web3_client.py:99-105 | A generated account is accepted iff its checksummed address has the address shape and its key has the "0x" prefix. The result holds exactly the checksummed address and the key. |
| BlockchainSchemas.ValidateAddress | app/schemas/blockchain.py:12-18 | An address is accepted iff it is 42 characters starting with "0x". An accepted address is returned unchanged. |
| BlockchainSchemas.ValidatePrivateKey | app/schemas/blockchain.py:20-28 | A key is accepted iff it starts with "0x". An accepted key is returned unchanged. |
| BlockchainSchemas.NewBlockchainAccount | app/schemas/blockchain.py:6-28 | The account model is built iff both validators accept, and holds the given values. |
| BlockchainSchemas.ValidationIsIdempotent | app/schemas/blockchain.py:14-28 | Validating an accepted value again accepts it unchanged. |
| BlockchainSchemas.AddressNeedNotBeHex | app/schemas/blockchain.py:16-18 | No hex-digit check is made: "0x" followed by forty 'z' is accepted. |
| BlockchainSchemas.PrivateKeyLengthUnchecked | app/schemas/blockchain.py:24-28 | No length check is made on a key: "0x" alone is accepted, and "ab" is refused. |
| UserSchemas.Delete | app/schemas/user.py:17 | `str.replace(c, "")` keeps exactly the characters other than `c` and never lengthens the string. |
| UserSchemas.ValidateName | app/schemas/user.py:13-22 | An accepted name is returned unchanged, and a refusal is a validation error. |
| UserSchemas.ValidateNameAccepts | app/schemas/user.py:15-21 | The name validator accepts exactly the names that consist of letters, digits, '_' and '-' and contain at least one letter or digit. |
| UserSchemas.ParseUserCreate | app/schemas/user.py:6-22 | A body that passes keeps its name, and a refusal is a validation error. |
| UserSchemas.ParseUserCreateAccepts | app/schemas/user.py:9-21 | A create-account body is accepted iff the name has 1 to 100 characters, all of them name characters, and not all of them separators. |
| UserSchemas.SeparatorsOnlyRefused | app/schemas/user.py:17-21 | A name made only of '_' and '-' is refused. |
| UserSchemas.ParseUserCreateIdempotent | app/schemas/user.py:22 | Parsing the name of an accepted body accepts it again with the same result. |
| UserSchemas.ValidateTokenAddress | app/schemas/user.py:42-48 | A token address is accepted iff it starts with "0x" and has 42 characters. It is returned unchanged. |
| UserSchemas.ParseBalanceRequest | app/schemas/user.py:36-48 | A balance request is accepted iff the name is non-empty and the token address is shaped. It keeps its fields. |
| UserSchemas.ParseTransferRequest | app/schemas/user.py:62-76 | A transfer request is accepted iff both names are non-empty, the amount is strictly positive and the token address is shaped. It keeps its fields. |
| Repository.AccountRepository.constructor | app/models/user.py:14-19 | The table starts from stored rows that respect the primary key on name and the unique address, and whose addresses have the validated shape. |
| Repository.AccountRepository.GetUserByName | app/repositories/account.py:58-67 | Returns the stored user, or raises not-found iff the name is absent. |
| Repository.AccountRepository.GetBalance | app/repositories/account.py:69-75 | Looks the user up first; not-found passes through. Any client failure becomes a BlockchainError, and a success is the client's balance. |
| Repository.AccountRepository.TransferFromTo | app/repositories/account.py:77-102 | The sender is looked up, then the recipient, before any balance query, and a missing user is not-found with no client call. Once both are found, the result is the transfer outcome (cases in `Api.TransferStatuses`). The token transfer is called iff the balance query succeeded and the balance is at least the amount, so a balance equal to the amount proceeds. |
| Repository.AccountRepository.GetInitialFund | app/repositories/account.py:104-122 | Looks the user up only when none is given. It sends the configured grant from the faucet key to the user's address. A send failure becomes a BlockchainError, and a lookup failure does not. |
| Repository.AccountRepository.CreateAccount | app/repositories/account.py:27-56 | A taken name raises AccountAlreadyExists and leaves the table unchanged. So does a generated account that fails validation, with its own error. An address already stored fails the commit with an IntegrityError and stores nothing. Otherwise exactly one user is added under the name, with the generated address and key, and nothing else changes. The user is committed before funding and stays stored when funding fails, which raises a BlockchainError. The table's constraints are kept, including that every stored address is shaped. |
| Repository.CreatedAddressIsShaped | app/repositories/account.py:37-44 | The account `create_account` stores has an address of the "0x" + 40 shape and a key with the "0x" prefix. |
| Api.CreateAccountFailure | app/routers/api.py:38-44 | Only AccountAlreadyExists is caught, as 409. Every other exception is a 500. |
| Api.GetBalanceFailure | app/routers/api.py:63-76 | Not-found maps to 404, BlockchainError to 503 and everything else to 500, so the mapping is total. |
| Api.TransferFailure | app/routers/api.py:105-112 | Not-found maps to 404 and InsufficientBalance to 400. Everything else, BlockchainError included, reaches the global 500 handler. |
| Api.CreateAccount | app/routers/api.py:29-44 | An invalid body is a 422 and changes nothing. A taken name is a 409 and changes nothing. Otherwise the answer is 201 iff the generated account validates, its address is new and funding succeeds, and any other outcome is a 500. A refused account or a taken address leaves the table unchanged. Otherwise exactly the new user, with the generated address and key, is added under the name and nothing else changes, whether or not funding succeeds. A 201 body is that user, with its shaped address, its key and the faucet hash. |
| Api.GetBalance | app/routers/api.py:47-76 | The user is looked up before the balance is queried, so not-found is a 404 and no query is made. A failed query is a 503. Otherwise the answer is 200 with the user's address and the balance reported. |
| Api.TransferAsWritten | app/routers/api.py:79-112 | As written, every valid request naming two existing users ends in a 500 (AttributeError on `token`) after the two lookups, with no balance query and no transfer. |
| Api.Transfer | app/routers/api.py:79-112 | With the token address passed on: an invalid body is a 422. Missing users are a 404 in lookup order. Once both are found, the steps are the lookups, the repository's lookups, the balance query and, iff the balance suffices, the transfer. The answer is 200 with the hash, the looked-up addresses and the amount on success, and the transfer failure's status otherwise. |
| Api.TransferStatuses | app/routers/api.py:105-112 | Once both users are found: a failed balance query is a 500, a short balance is a 400, and a failed transfer is a 500. A successful transfer's hash is what the route returns. |
| Api.CreateTwice | app/routers/api.py:34-44 | Creating the same name twice: when the first request stored the user (201, or a funding failure), the second is a 409. |

## Left out

- The ledger node, key derivation (`Account.from_key`, `Account.create`) and address checksumming are parameters, and their algorithms are not modelled. Each remote call either answers or raises.
- Signing (`sign_transaction`, app/utils/web3_client.py:157 and :210) is the pair `Signed(tx, key)`. It never raises in the model, and the signature algorithm and raw encoding are not modelled.
- The retry sleeps are counted and their total time summed; `asyncio.sleep`, logging and real time are not modelled. The 2.0-second delay is the whole number 2.
- Web3Client.WithMargin: `int(gas * 1.2)` is floating point in the source. The model uses the exact `gas * 6 / 5`, and its contract claims only the bounds, since the float product can differ by one for very large estimates.
- Web3Client.EstimateGas: the estimate request is modelled once per attempt. `EstimateGasCalledOnce` shows that its own decorator never retries it.
- `build_transaction`'s own node calls (fee filling) are not modelled and never fail in the model; its fee fields are left unspecified.
- Every operation takes the chain settings as a parameter. `DefaultSettings` records the defaults of app/settings.py:27-30, with the gwei amounts converted to wei. Loading settings from the environment is not modelled.
- `get_native_balance`, `connect` and `get_contract`'s contract object are not modelled beyond the checksum of the token address. Nothing in the core calls `get_native_balance`.
- `app/utils/crypto.py` (key encryption), the rate limiter, the request-logging middleware, the lifespan hook and the health route of `app/main.py` are not modelled.
- `Tokens` and `token_address_mapping`, imported by `app/routers/api.py:21`, are not part of this model, because `app/schemas/blockchain.py` does not define them. The routes take the token's address as given, so the model assumes the import succeeds.
- Api.GetBalance: the token is taken as an address, not as a `Tokens` name, because the mapping from names to addresses is missing.
- The database is a map with the primary key on name and a unique address. Sessions, transactions, `refresh` and concurrent writers are not modelled. An IntegrityError on commit stores nothing.
- Repository.AccountRepository.TransferFromTo: the amount is a natural number. The route's validator guarantees a positive amount before the repository is reached.
- UserSchemas.IsAlnumChar: `str.isalnum` is modelled on ASCII letters and digits. Python also accepts other Unicode letters and digits.
- Concurrency is not modelled. That includes two in-flight transfers from one sender racing for the same nonce, which the service leaves to its callers.
- Every exception is retried, as the code does. The decorator has no notion of a non-retryable error, so rejected and reverted transactions and malformed keys are retried too. `RevertedTransferIsRebroadcast` and `LocalFailureRetriedSilently` state this behaviour.
- Web3Client.TransferAttempt: amounts and balances are unbounded naturals, not uint256. web3 refuses a token amount of 2^256 or more when it encodes the `transfer` call, after the nonce fetch and before the estimate. It refuses a native value that large when it signs. The model estimates and broadcasts such transactions. Through the routes such a token amount cannot pass the balance check only because a real balance is a uint256, and the modelled balance replies are not bounded either.
- The receipt wait has no timeout in the model: a wait that raises is a failed call like any other.

## Findings

| source | as written | input that shows it | evidently intended | confidence | as-written member | corrected member |
|---|---|---|---|---|---|---|
| app/routers/api.py:93 | The route passes `token_address_mapping(transfer_data.token)`, but `TransferRequest` declares only `token_address` (app/schemas/user.py:68). Reading `token` raises AttributeError, which the route does not catch, so the answer is a 500. | Any valid transfer request whose two users exist, for example from "alice" to "bob", amount 1, token "0x" followed by 40 hex digits. | Pass the request's `token_address` on, so that the balance check and the transfer happen. | not executed; high | Api.TransferAsWritten | Api.Transfer |
