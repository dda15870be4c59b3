/**
 * The ledger client of app/utils/web3_client.py over a scripted gateway.
 *
 * The remote node is a script: `net(k)` says what the node answers to each remote call
 * made by the k-th attempt of one wrapper call. Key-to-address derivation and EIP-55
 * checksumming are deterministic library calls whose algorithms are not modelled; they
 * are the functions of a `Library`. Signing is the pair of transaction and key.
 */
module Web3Client {
  import opened Exceptions
  import opened RetryPolicy
  import BlockchainSchemas

  type Address = string
  type TxHash = string

  /** The chain configuration the client reads (app/settings.py:27-30). */
  datatype Settings = Settings(chainId: nat, gasLimit: nat, gasPriceWei: nat, initialFaucetWei: nat, faucetKey: string)

  /** The defaults: chain 1000, gas limit 100000, 0.1 gwei gas price, 10 gwei faucet grant. */
  function DefaultSettings(faucetKey: string): Settings
  {
    Settings(1000, 100000, 100_000_000, 10_000_000_000, faucetKey)
  }

  /** Every remote operation of the client is wrapped with these (`max_retries=3, delay=2.0`). */
  const MaxRetries: nat := 3
  const RetryDelay: nat := 2

  /** What one remote call does when it is made: answer, or raise. */
  datatype Reply<+T> = Answers(value: T) | Raises

  /** The node's answers to the calls of one transfer attempt. */
  datatype TransferScript = TransferScript(nonce: Reply<nat>, estimate: Reply<nat>, broadcast: Reply<TxHash>, receipt: Reply<nat>)

  /** `Account.from_key(k).address` and `to_checksum_address(s)`; None where the library raises. */
  datatype Library = Library(fromKey: string -> Option<Address>, checksum: string -> Option<Address>)

  datatype CallData = NoData | TokenTransfer(recipient: Address, amount: nat)

  /** The transaction dictionary; `gasPrice` is None where the library fills in the fee fields. */
  datatype Transaction = Transaction(
    sender: Option<Address>, nonce: nat, to: Address, value: nat, gas: nat,
    gasPrice: Option<nat>, chainId: nat, data: CallData)

  datatype SignedTransaction = Signed(tx: Transaction, key: string)

  /** The remote calls the client makes, with what it sends. */
  datatype GatewayCall =
    | AskNonce(account: Address)
    | AskEstimate(tx: Transaction)
    | SendRaw(signed: SignedTransaction)
    | AwaitReceipt(txHash: TxHash)
    | AskBalance(owner: Address, token: Address)

  predicate IsNonceFetch(c: GatewayCall) { c.AskNonce? }
  predicate IsBroadcast(c: GatewayCall) { c.SendRaw? }

  datatype CallKind = NonceKind | EstimateKind | SendKind | ReceiptKind | BalanceKind

  function Kind(c: GatewayCall): CallKind
  {
    match c
    case AskNonce(_) => NonceKind
    case AskEstimate(_) => EstimateKind
    case SendRaw(_) => SendKind
    case AwaitReceipt(_) => ReceiptKind
    case AskBalance(_, _) => BalanceKind
  }

  function Kinds(log: seq<GatewayCall>): (ks: seq<CallKind>)
    ensures |ks| == |log|
  {
    seq(|log|, i requires 0 <= i < |log| => Kind(log[i]))
  }

  /** The order in which one transfer attempt talks to the node. */
  const TransferProtocol: seq<CallKind> := [NonceKind, EstimateKind, SendKind, ReceiptKind]

  /** `int(gas * 1.2)`, modelled on exact rationals. */
  function WithMargin(gas: nat): (g: nat)
    ensures gas <= g && 5 * g <= 6 * gas
  {
    gas * 6 / 5
  }

  /** `estimate_gas`: the node's estimate plus 20%, or the configured gas limit when the node raises. */
  function EstimateGas(reply: Reply<nat>, gasLimit: nat): (gas: nat)
    ensures reply.Raises? ==> gas == gasLimit
    ensures reply.Answers? ==> reply.value <= gas && 5 * gas <= 6 * reply.value
  {
    match reply
    case Answers(g) => WithMargin(g)
    case Raises => gasLimit
  }

  /** One call of the undecorated `estimate_gas`; it never raises. */
  function EstimateAttempt(reply: Reply<nat>, gasLimit: nat, tx: Transaction): nat -> Attempt<nat, GatewayCall>
  {
    _ => Attempt(Ok(EstimateGas(reply, gasLimit)), [AskEstimate(tx)])
  }

  /** Because `estimate_gas` never raises, its retry decorator calls it exactly once and never sleeps. */
  lemma EstimateGasCalledOnce(reply: Reply<nat>, gasLimit: nat, tx: Transaction)
    ensures var run := Retry(MaxRetries, RetryDelay, EstimateAttempt(reply, gasLimit, tx));
      && run.result == Ok(EstimateGas(reply, gasLimit))
      && run.calls == 1 && run.sleeps == 0
      && run.log == [AskEstimate(tx)]
  {
    var run := Retry(MaxRetries, RetryDelay, EstimateAttempt(reply, gasLimit, tx));
    assert EstimateAttempt(reply, gasLimit, tx)(0).outcome.Ok?;
    assert run.calls == 1;
    assert CallLog(EstimateAttempt(reply, gasLimit, tx), 1) == [AskEstimate(tx)];
  }

  /** What is being transferred: native value, or a token amount via the token contract. */
  datatype Order = NativeOrder(to: Address, amountWei: nat) | TokenOrder(to: Address, amount: nat, token: Address)

  /**
   * Checksumming the order's addresses, in the order the source does it: the recipient
   * (line 140) for a native transfer; the token contract (line 190, `get_contract`), then
   * the recipient (line 191) for a token transfer.
   */
  function Resolve(lib: Library, order: Order): (r: Result<Order>)
    ensures r.Ok? <==> lib.checksum(order.to).Some? && (order.TokenOrder? ==> lib.checksum(order.token).Some?)
    ensures r.Err? ==> r.error.InvalidAddress?
    ensures r.Ok? ==> r.value.NativeOrder? == order.NativeOrder?
    ensures r.Ok? && order.NativeOrder? ==> r.value == NativeOrder(lib.checksum(order.to).value, order.amountWei)
    ensures r.Ok? && order.TokenOrder? ==>
      r.value == TokenOrder(lib.checksum(order.to).value, order.amount, lib.checksum(order.token).value)
  {
    match order
    case NativeOrder(to, amountWei) =>
      (match lib.checksum(to)
       case None => Err(InvalidAddress(to))
       case Some(t) => Ok(NativeOrder(t, amountWei)))
    case TokenOrder(to, amount, token) =>
      match lib.checksum(token)
      case None => Err(InvalidAddress(token))
      case Some(c) =>
        match lib.checksum(to)
        case None => Err(InvalidAddress(to))
        case Some(t) => Ok(TokenOrder(t, amount, c))
  }

  /**
   * The transaction built before gas estimation: the dictionary of lines 146-153, or what
   * `build_transaction` returns for lines 197-206, whose "gas" entry holds the gas price.
   */
  function Draft(cfg: Settings, sender: Address, nonce: nat, resolved: Order): (tx: Transaction)
    ensures tx.nonce == nonce && tx.chainId == cfg.chainId
    ensures resolved.NativeOrder? ==>
      && tx.gas == cfg.gasLimit && tx.gasPrice == Some(cfg.gasPriceWei)
      && tx.value == resolved.amountWei && tx.to == resolved.to && tx.data == NoData
    ensures resolved.TokenOrder? ==>
      tx.gas == cfg.gasPriceWei && tx.value == 0 && tx.to == resolved.token
      && tx.data == TokenTransfer(resolved.to, resolved.amount)
  {
    match resolved
    case NativeOrder(to, amountWei) =>
      Transaction(None, nonce, to, amountWei, cfg.gasLimit, Some(cfg.gasPriceWei), cfg.chainId, NoData)
    case TokenOrder(to, amount, token) =>
      Transaction(Some(sender), nonce, token, 0, cfg.gasPriceWei, None, cfg.chainId, TokenTransfer(to, amount))
  }

  /** The key parses and every address of the order checksums: nothing local fails. */
  predicate LocalChecksPass(lib: Library, key: string, order: Order)
  {
    lib.fromKey(key).Some? && Resolve(lib, order).Ok?
  }

  /**
   * One call of the undecorated `send_native_token` or `transfer_erc20`: derive the sender,
   * checksum the addresses, fetch the nonce, build, replace "gas" by the estimate, sign,
   * broadcast, wait for the receipt and raise unless its status is 1.
   */
  function TransferAttempt(lib: Library, cfg: Settings, script: TransferScript, key: string, order: Order)
    : (a: Attempt<TxHash, GatewayCall>)
    // a hash is returned only after a receipt with status 1, and it is the broadcast's hash
    ensures a.outcome.Ok? <==>
      LocalChecksPass(lib, key, order) && script.nonce.Answers? && script.broadcast.Answers? && script.receipt == Answers(1)
    ensures a.outcome.Ok? ==> a.outcome.value == script.broadcast.value
    // the node is contacted only once the local checks pass
    ensures a.effects == [] <==> !LocalChecksPass(lib, key, order)
  {
    match lib.fromKey(key)
    case None => Attempt(Err(InvalidKey), [])
    case Some(sender) =>
      match Resolve(lib, order)
      case Err(e) => Attempt(Err(e), [])
      case Ok(resolved) =>
        match script.nonce
        case Raises => Attempt(Err(RpcFailure(GetTransactionCount)), [AskNonce(sender)])
        case Answers(nonce) =>
          var draft := Draft(cfg, sender, nonce, resolved);
          var signed := Signed(draft.(gas := EstimateGas(script.estimate, cfg.gasLimit)), key);
          var sent := [AskNonce(sender), AskEstimate(draft), SendRaw(signed)];
          match script.broadcast
          case Raises => Attempt(Err(RpcFailure(SendRawTransaction)), sent)
          case Answers(hash) =>
            var calls := sent + [AwaitReceipt(hash)];
            match script.receipt
            case Raises => Attempt(Err(RpcFailure(WaitForTransactionReceipt)), calls)
            case Answers(status) =>
              if status != 1 then Attempt(Err(TransactionFailed(hash)), calls) else Attempt(Ok(hash), calls)
  }

  /**
   * Within one attempt the node is contacted in protocol order: the nonce for the sender,
   * the estimate for the built draft, the broadcast, the receipt wait; each step is
   * reached only when the one before it answered.
   */
  lemma AttemptFollowsProtocol(lib: Library, cfg: Settings, script: TransferScript, key: string, order: Order)
    ensures var a := TransferAttempt(lib, cfg, script, key, order);
      && Kinds(a.effects) <= TransferProtocol
      && |a.effects| ==
           (if !LocalChecksPass(lib, key, order) then 0
            else if script.nonce.Raises? then 1
            else if script.broadcast.Raises? then 3
            else 4)
      && (a.effects != [] ==> a.effects[0] == AskNonce(lib.fromKey(key).value))
      && (|a.effects| > 1 ==>
            a.effects[1] == AskEstimate(Draft(cfg, lib.fromKey(key).value, script.nonce.value, Resolve(lib, order).value)))
      && (|a.effects| == 4 ==> a.effects[3] == AwaitReceipt(script.broadcast.value))
  {
  }

  /**
   * What an attempt signs and broadcasts is the draft it built, with only the "gas" entry
   * replaced by the estimate: the nonce fetched by that same attempt, the recipient and
   * value or the token call, signed with the sender's key.
   */
  lemma AttemptSignsFreshNonce(lib: Library, cfg: Settings, script: TransferScript, key: string, order: Order)
    ensures var a := TransferAttempt(lib, cfg, script, key, order);
      forall c :: c in a.effects && c.SendRaw? ==>
        && c.signed == Signed(Draft(cfg, lib.fromKey(key).value, script.nonce.value, Resolve(lib, order).value)
                                .(gas := EstimateGas(script.estimate, cfg.gasLimit)), key)
        && c.signed.key == key
        && script.nonce == Answers(c.signed.tx.nonce)
        && c.signed.tx.gas == EstimateGas(script.estimate, cfg.gasLimit)
  {
  }

  /** A receipt whose status is not 1 makes the attempt raise "Transaction failed" for that hash. */
  lemma AttemptRaisesOnFailedStatus(lib: Library, cfg: Settings, script: TransferScript, key: string, order: Order)
    requires LocalChecksPass(lib, key, order) && script.nonce.Answers? && script.broadcast.Answers?
    requires script.receipt.Answers? && script.receipt.value != 1
    ensures TransferAttempt(lib, cfg, script, key, order).outcome == Err(TransactionFailed(script.broadcast.value))
  {
  }

  /** One attempt fetches the nonce exactly once when the local checks pass, and broadcasts at most once. */
  lemma {:induction false} AttemptTraffic(lib: Library, cfg: Settings, script: TransferScript, key: string, order: Order)
    ensures var a := TransferAttempt(lib, cfg, script, key, order);
      && Count(a.effects, IsNonceFetch) == (if LocalChecksPass(lib, key, order) then 1 else 0)
      && Count(a.effects, IsBroadcast) == (if LocalChecksPass(lib, key, order) && script.nonce.Answers? then 1 else 0)
  {
    var a := TransferAttempt(lib, cfg, script, key, order);
    if LocalChecksPass(lib, key, order) {
      var sender := lib.fromKey(key).value;
      if script.nonce.Raises? {
        assert a.effects == [AskNonce(sender)];
        assert a.effects[1..] == [];
      } else {
        var draft := Draft(cfg, sender, script.nonce.value, Resolve(lib, order).value);
        var signed := Signed(draft.(gas := EstimateGas(script.estimate, cfg.gasLimit)), key);
        var sent := [AskNonce(sender), AskEstimate(draft), SendRaw(signed)];
        assert sent[1..] == [AskEstimate(draft), SendRaw(signed)] && sent[1..][1..] == [SendRaw(signed)];
        assert Count([SendRaw(signed)], IsBroadcast) == 1 && Count([SendRaw(signed)], IsNonceFetch) == 0;
        assert Count(sent, IsBroadcast) == 1 && Count(sent, IsNonceFetch) == 1;
        if script.broadcast.Answers? {
          var hash := script.broadcast.value;
          assert a.effects == sent + [AwaitReceipt(hash)];
          CountAppend(sent, [AwaitReceipt(hash)], IsBroadcast);
          CountAppend(sent, [AwaitReceipt(hash)], IsNonceFetch);
          assert Count([AwaitReceipt(hash)], IsBroadcast) == 0 && Count([AwaitReceipt(hash)], IsNonceFetch) == 0;
        } else {
          assert a.effects == sent;
        }
      }
    }
  }

  /** The k-th call of a decorated transfer meets the k-th script. */
  function TransferAttempts(lib: Library, cfg: Settings, net: nat -> TransferScript, key: string, order: Order)
    : nat -> Attempt<TxHash, GatewayCall>
  {
    (k: nat) => TransferAttempt(lib, cfg, net(k), key, order)
  }

  /** What one call of a decorated transfer does, as a value. */
  function TransferRun(lib: Library, cfg: Settings, net: nat -> TransferScript, key: string, order: Order)
    : RetryRun<TxHash, GatewayCall>
  {
    Retry(MaxRetries, RetryDelay, TransferAttempts(lib, cfg, net, key, order))
  }

  /** The exceptions the ledger client's transfers raise: its own, never the repository's. */
  predicate ClientError(e: Exception)
  {
    e.RpcFailure? || e.InvalidKey? || e.InvalidAddress? || e.TransactionFailed?
  }

  /**
   * A decorated transfer that gives up re-raises the last attempt's exception, which is
   * one of the client's own: a failed node call, a bad key or address, or a failed status.
   */
  lemma TransferErrorsAreClientErrors(lib: Library, cfg: Settings, net: nat -> TransferScript, key: string, order: Order)
    ensures var r := TransferRun(lib, cfg, net, key, order).result;
      r.Err? ==> ClientError(r.error)
  {
    var attempts := TransferAttempts(lib, cfg, net, key, order);
    assert attempts(MaxRetries - 1) == TransferAttempt(lib, cfg, net(MaxRetries - 1), key, order);
  }

  /**
   * Every attempt re-fetches the nonce, and each makes at most one broadcast: so a decorated
   * transfer broadcasts at most three times, and fetches the nonce once per attempt.
   */
  lemma TransferTraffic(lib: Library, cfg: Settings, net: nat -> TransferScript, key: string, order: Order)
    ensures var run := TransferRun(lib, cfg, net, key, order);
      && Count(run.log, IsBroadcast) <= run.calls <= MaxRetries
      && Count(run.log, IsNonceFetch) == (if LocalChecksPass(lib, key, order) then run.calls else 0)
  {
    var attempts := TransferAttempts(lib, cfg, net, key, order);
    var run := TransferRun(lib, cfg, net, key, order);
    forall k: nat | k < run.calls ensures Count(attempts(k).effects, IsBroadcast) <= 1 {
      assert attempts(k) == TransferAttempt(lib, cfg, net(k), key, order);
      AttemptTraffic(lib, cfg, net(k), key, order);
    }
    CallLogCountAtMost(attempts, run.calls, IsBroadcast);
    if LocalChecksPass(lib, key, order) {
      forall k: nat | k < run.calls ensures Count(attempts(k).effects, IsNonceFetch) == 1 {
        assert attempts(k) == TransferAttempt(lib, cfg, net(k), key, order);
        AttemptTraffic(lib, cfg, net(k), key, order);
      }
      CallLogCountExactly(attempts, run.calls, IsNonceFetch);
    } else {
      forall k: nat | k < run.calls ensures attempts(k).effects == [] {
        assert attempts(k) == TransferAttempt(lib, cfg, net(k), key, order);
      }
      CallLogSilent(attempts, run.calls);
    }
  }

  /**
   * A malformed key or address fails every attempt the same way: the wrapper tries three
   * times, sleeps twice, never contacts the node, and re-raises the local error.
   */
  lemma LocalFailureRetriedSilently(lib: Library, cfg: Settings, net: nat -> TransferScript, key: string, order: Order)
    requires !LocalChecksPass(lib, key, order)
    ensures var run := TransferRun(lib, cfg, net, key, order);
      && run.calls == MaxRetries && run.sleeps == 2 && run.log == []
      && run.result == TransferAttempt(lib, cfg, net(0), key, order).outcome
      && (lib.fromKey(key).None? ==> run.result == Err(InvalidKey))
  {
    var attempts := TransferAttempts(lib, cfg, net, key, order);
    var run := TransferRun(lib, cfg, net, key, order);
    forall k: nat | k < MaxRetries ensures attempts(k).outcome.Err? && attempts(k).effects == [] {
      assert attempts(k) == TransferAttempt(lib, cfg, net(k), key, order);
    }
    assert run.result.Err?;
    assert attempts(2) == TransferAttempt(lib, cfg, net(2), key, order);
    CallLogSilent(attempts, run.calls);
  }

  /**
   * The status check's own exception is retried like any other: when the transaction is
   * included but reverted on every attempt, the wrapper broadcasts three times (three
   * fresh nonces) and raises "Transaction failed" for the third hash.
   */
  lemma RevertedTransferIsRebroadcast(lib: Library, cfg: Settings, net: nat -> TransferScript, key: string, order: Order)
    requires LocalChecksPass(lib, key, order)
    requires forall k: nat :: k < MaxRetries ==>
      net(k).nonce.Answers? && net(k).broadcast.Answers? && net(k).receipt == Answers(0)
    ensures var run := TransferRun(lib, cfg, net, key, order);
      && run.calls == 3 && run.sleeps == 2
      && Count(run.log, IsBroadcast) == 3
      && run.result == Err(TransactionFailed(net(2).broadcast.value))
  {
    var attempts := TransferAttempts(lib, cfg, net, key, order);
    var run := TransferRun(lib, cfg, net, key, order);
    forall k: nat | k < MaxRetries ensures attempts(k).outcome.Err? && Count(attempts(k).effects, IsBroadcast) == 1 {
      assert attempts(k) == TransferAttempt(lib, cfg, net(k), key, order);
      AttemptTraffic(lib, cfg, net(k), key, order);
    }
    AttemptRaisesOnFailedStatus(lib, cfg, net(2), key, order);
    assert run.result.Err?;
    assert attempts(2) == TransferAttempt(lib, cfg, net(2), key, order);
    CallLogCountExactly(attempts, run.calls, IsBroadcast);
  }

  /** `send_native_token`, decorated. */
  method SendNativeToken(lib: Library, cfg: Settings, net: nat -> TransferScript, fromKey: string, to: string, amountWei: nat)
    returns (run: RetryRun<TxHash, GatewayCall>)
    ensures run == TransferRun(lib, cfg, net, fromKey, NativeOrder(to, amountWei))
    ensures Count(run.log, IsBroadcast) <= run.calls <= MaxRetries
    ensures run.result.Ok? ==>
      && net(run.calls - 1).receipt == Answers(1)
      && run.result == Ok(net(run.calls - 1).broadcast.value)
  {
    run := AsyncRetry(MaxRetries, RetryDelay, TransferAttempts(lib, cfg, net, fromKey, NativeOrder(to, amountWei)));
    TransferTraffic(lib, cfg, net, fromKey, NativeOrder(to, amountWei));
  }

  /** `transfer_erc20`, decorated. */
  method TransferErc20(lib: Library, cfg: Settings, net: nat -> TransferScript, fromKey: string, to: string, amount: nat, token: string)
    returns (run: RetryRun<TxHash, GatewayCall>)
    ensures run == TransferRun(lib, cfg, net, fromKey, TokenOrder(to, amount, token))
    ensures Count(run.log, IsBroadcast) <= run.calls <= MaxRetries
    ensures run.result.Ok? ==>
      && net(run.calls - 1).receipt == Answers(1)
      && run.result == Ok(net(run.calls - 1).broadcast.value)
  {
    run := AsyncRetry(MaxRetries, RetryDelay, TransferAttempts(lib, cfg, net, fromKey, TokenOrder(to, amount, token)));
    TransferTraffic(lib, cfg, net, fromKey, TokenOrder(to, amount, token));
  }

  /** One call of the undecorated `get_balance`: checksum the token and the owner, then `balanceOf`. */
  function BalanceAttempt(lib: Library, reply: Reply<nat>, owner: string, token: string): (a: Attempt<nat, GatewayCall>)
    ensures |a.effects| <= 1
    ensures a.effects != [] <==> lib.checksum(token).Some? && lib.checksum(owner).Some?
    ensures a.effects != [] ==> a.effects == [AskBalance(lib.checksum(owner).value, lib.checksum(token).value)]
    ensures a.outcome.Ok? <==> a.effects != [] && reply.Answers?
    ensures a.outcome.Ok? ==> a.outcome.value == reply.value
  {
    match lib.checksum(token)
    case None => Attempt(Err(InvalidAddress(token)), [])
    case Some(t) =>
      match lib.checksum(owner)
      case None => Attempt(Err(InvalidAddress(owner)), [])
      case Some(o) =>
        match reply
        case Raises => Attempt(Err(RpcFailure(BalanceOf)), [AskBalance(o, t)])
        case Answers(b) => Attempt(Ok(b), [AskBalance(o, t)])
  }

  function BalanceAttempts(lib: Library, net: nat -> Reply<nat>, owner: string, token: string): nat -> Attempt<nat, GatewayCall>
  {
    (k: nat) => BalanceAttempt(lib, net(k), owner, token)
  }

  function BalanceRun(lib: Library, net: nat -> Reply<nat>, owner: string, token: string): RetryRun<nat, GatewayCall>
  {
    Retry(MaxRetries, RetryDelay, BalanceAttempts(lib, net, owner, token))
  }

  /** `get_balance`, decorated: the balance the node reports on the first attempt that gets an answer. */
  method GetBalance(lib: Library, net: nat -> Reply<nat>, owner: string, token: string)
    returns (run: RetryRun<nat, GatewayCall>)
    ensures run == BalanceRun(lib, net, owner, token)
    ensures run.result.Ok? ==> net(run.calls - 1) == Answers(run.result.value)
    ensures run.result.Ok? <==>
      lib.checksum(token).Some? && lib.checksum(owner).Some? && exists k: nat :: k < MaxRetries && net(k).Answers?
  {
    run := AsyncRetry(MaxRetries, RetryDelay, BalanceAttempts(lib, net, owner, token));
    assert run.result.Ok? ==> BalanceAttempts(lib, net, owner, token)(run.calls - 1).outcome.Ok?;
    if lib.checksum(token).Some? && lib.checksum(owner).Some? && exists k: nat :: k < MaxRetries && net(k).Answers? {
      var k: nat :| k < MaxRetries && net(k).Answers?;
      assert BalanceAttempts(lib, net, owner, token)(k).outcome.Ok?;
    }
  }

  /** What `Account.create()` produced: an address and the key's hex text. */
  datatype KeyPair = KeyPair(address: string, key: string)

  /** `create_account`: checksum the generated address and validate both fields as a BlockchainAccount. */
  function CreateAccount(lib: Library, generated: KeyPair): (r: Result<BlockchainSchemas.BlockchainAccount>)
    ensures r.Ok? <==>
      && lib.checksum(generated.address).Some?
      && BlockchainSchemas.AddressShaped(lib.checksum(generated.address).value)
      && BlockchainSchemas.HasHexPrefix(generated.key)
    ensures r.Ok? ==> r.value == BlockchainSchemas.BlockchainAccount(lib.checksum(generated.address).value, generated.key)
  {
    match lib.checksum(generated.address)
    case None => Err(InvalidAddress(generated.address))
    case Some(a) => BlockchainSchemas.NewBlockchainAccount(a, generated.key)
  }
}
