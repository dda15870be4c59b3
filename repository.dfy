/**
 * The account repository of app/repositories/account.py. The users table is a map from
 * name to user (name is the primary key, address is unique: app/models/user.py:14-19);
 * the ledger client is reached through the scripted world of a `Client`. Each method also
 * returns the steps it took, database queries and client calls, in order.
 */
module Repository {
  import opened Exceptions
  import opened RetryPolicy
  import opened Web3Client
  import BlockchainSchemas
  import UserSchemas

  datatype User = User(name: string, address: string, privateKey: string)

  /** What the ledger client meets on each of the calls a repository method can make. */
  datatype Client = Client(
    lib: Library,
    cfg: Settings,
    balanceNet: nat -> Reply<nat>,
    transferNet: nat -> TransferScript,
    faucetNet: nat -> TransferScript)

  /** A database query or a call into the ledger client. */
  datatype Step =
    | Select(name: string)
    | Commit(user: User)
    | CallGetBalance(owner: string, token: string)
    | CallTransferErc20(fromKey: string, to: string, amount: nat, token: string)
    | CallSendNative(fromKey: string, to: string, amountWei: nat)

  /** The addresses already stored. */
  function Addresses(users: map<string, User>): set<string>
  {
    set n | n in users :: users[n].address
  }

  /** The faucet grant a new user gets: the faucet's key, the user's address, the configured amount. */
  function FaucetRun(client: Client, to: string): RetryRun<TxHash, GatewayCall>
  {
    TransferRun(client.lib, client.cfg, client.faucetNet, client.cfg.faucetKey, NativeOrder(to, client.cfg.initialFaucetWei))
  }

  /**
   * What `transfer_from_to` returns once both users are found: the balance query's
   * failure as a BlockchainError, a refusal when the balance is below the amount,
   * otherwise the outcome of the retried token transfer.
   */
  function TransferOutcome(client: Client, sender: User, recipient: User, amount: nat, tokenAddress: string): Result<TxHash>
  {
    var b := BalanceRun(client.lib, client.balanceNet, sender.address, tokenAddress).result;
    if b.Err? then Err(Blockchain(b.error))
    else if b.value < amount then Err(InsufficientBalance(b.value, amount))
    else TransferRun(client.lib, client.cfg, client.transferNet, sender.privateKey,
                     TokenOrder(recipient.address, amount, tokenAddress)).result
  }

  class AccountRepository {
    var users: map<string, User>

    /**
     * The table's constraints: each user is stored under its name, and no two share an
     * address; and every stored address has the "0x" + 40 shape its account was validated with.
     */
    ghost predicate Valid()
      reads this
    {
      && (forall n :: n in users ==> users[n].name == n)
      && (forall n, m :: n in users && m in users && n != m ==> users[n].address != users[m].address)
      && (forall n :: n in users ==> BlockchainSchemas.AddressShaped(users[n].address))
    }

    constructor (db: map<string, User>)
      requires forall n :: n in db ==> db[n].name == n
      requires forall n, m :: n in db && m in db && n != m ==> db[n].address != db[m].address
      requires forall n :: n in db ==> BlockchainSchemas.AddressShaped(db[n].address)
      ensures Valid() && users == db
    {
      users := db;
    }

    /** `get_user_by_name` */
    method GetUserByName(name: string) returns (r: Result<User>)
      ensures name in users ==> r == Ok(users[name])
      ensures name !in users ==> r == Err(AccountNotFound(name))
    {
      if name in users {
        r := Ok(users[name]);
      } else {
        r := Err(AccountNotFound(name));
      }
    }

    /** `get_balance`: look the user up, then ask the client; a client error becomes a BlockchainError. */
    method GetBalance(name: string, tokenAddress: string, client: Client) returns (r: Result<nat>, steps: seq<Step>)
      ensures name !in users ==> r == Err(AccountNotFound(name)) && steps == [Select(name)]
      ensures name in users ==>
        var b := BalanceRun(client.lib, client.balanceNet, users[name].address, tokenAddress).result;
        && steps == [Select(name), CallGetBalance(users[name].address, tokenAddress)]
        && (b.Ok? ==> r == b)
        && (b.Err? ==> r == Err(Blockchain(b.error)))
    {
      var user := GetUserByName(name);
      steps := [Select(name)];
      match user {
        case Err(e) =>
          r := Err(e);
        case Ok(u) =>
          steps := steps + [CallGetBalance(u.address, tokenAddress)];
          var run := Web3Client.GetBalance(client.lib, client.balanceNet, u.address, tokenAddress);
          match run.result {
            case Ok(b) => r := Ok(b);
            case Err(e) => r := Err(Blockchain(e));
          }
      }
    }

    /**
     * `transfer_from_to`: look up the sender, then the recipient; query the sender's
     * balance (a failure there becomes a BlockchainError); refuse when it is below the
     * amount; otherwise delegate to `transfer_erc20`, whose errors pass through unwrapped.
     */
    method TransferFromTo(fromName: string, toName: string, amount: nat, tokenAddress: string, client: Client)
      returns (r: Result<TxHash>, steps: seq<Step>)
      ensures fromName !in users ==> r == Err(AccountNotFound(fromName)) && steps == [Select(fromName)]
      ensures fromName in users && toName !in users ==>
        r == Err(AccountNotFound(toName)) && steps == [Select(fromName), Select(toName)]
      ensures fromName in users && toName in users ==>
        var sender, recipient := users[fromName], users[toName];
        var b := BalanceRun(client.lib, client.balanceNet, sender.address, tokenAddress).result;
        var checked := [Select(fromName), Select(toName), CallGetBalance(sender.address, tokenAddress)];
        && r == TransferOutcome(client, sender, recipient, amount, tokenAddress)
        && steps == checked + (if b.Ok? && b.value >= amount
                               then [CallTransferErc20(sender.privateKey, recipient.address, amount, tokenAddress)]
                               else [])
    {
      var from := GetUserByName(fromName);
      if from.Err? {
        return Err(from.error), [Select(fromName)];
      }
      var to := GetUserByName(toName);
      if to.Err? {
        return Err(to.error), [Select(fromName), Select(toName)];
      }
      var sender, recipient := from.value, to.value;
      steps := [Select(fromName), Select(toName), CallGetBalance(sender.address, tokenAddress)];
      var balance := Web3Client.GetBalance(client.lib, client.balanceNet, sender.address, tokenAddress);
      if balance.result.Err? {
        return Err(Blockchain(balance.result.error)), steps;
      }
      if balance.result.value < amount {
        return Err(InsufficientBalance(balance.result.value, amount)), steps;
      }
      steps := steps + [CallTransferErc20(sender.privateKey, recipient.address, amount, tokenAddress)];
      var run := Web3Client.TransferErc20(client.lib, client.cfg, client.transferNet, sender.privateKey,
                                          recipient.address, amount, tokenAddress);
      r := run.result;
    }

    /**
     * `get_initial_fund`: look the user up only when none is given, then send the faucet
     * grant; a failure of the send becomes a BlockchainError, a failed lookup does not.
     */
    method GetInitialFund(name: string, user: Option<User>, client: Client) returns (r: Result<TxHash>, steps: seq<Step>)
      ensures user.None? && name !in users ==> r == Err(AccountNotFound(name)) && steps == [Select(name)]
      ensures user.Some? || name in users ==>
        var u := if user.Some? then user.value else users[name];
        var f := FaucetRun(client, u.address).result;
        && steps == (if user.None? then [Select(name)] else []) + [CallSendNative(client.cfg.faucetKey, u.address, client.cfg.initialFaucetWei)]
        && (f.Ok? ==> r == f)
        && (f.Err? ==> r == Err(Blockchain(f.error)))
    {
      var u: User;
      steps := [];
      match user {
        case Some(given) =>
          u := given;
        case None =>
          var found := GetUserByName(name);
          steps := [Select(name)];
          if found.Err? {
            return Err(found.error), steps;
          }
          u := found.value;
      }
      steps := steps + [CallSendNative(client.cfg.faucetKey, u.address, client.cfg.initialFaucetWei)];
      var run := Web3Client.SendNativeToken(client.lib, client.cfg, client.faucetNet, client.cfg.faucetKey,
                                            u.address, client.cfg.initialFaucetWei);
      match run.result {
        case Ok(h) => r := Ok(h);
        case Err(e) => r := Err(Blockchain(e));
      }
    }

    /**
     * `create_account`: refuse a taken name; generate and validate a key pair; store and
     * commit the user; then fund it from the faucet. The user stays stored when funding
     * fails. A commit that breaks the unique address constraint stores nothing.
     */
    method CreateAccount(name: string, generated: KeyPair, client: Client)
      returns (r: Result<UserSchemas.UserResponse>, steps: seq<Step>)
      requires Valid()
      modifies this
      ensures Valid()
      ensures name in old(users) ==>
        r == Err(AccountAlreadyExists(name)) && users == old(users) && steps == [Select(name)]
      ensures name !in old(users) ==>
        var account := Web3Client.CreateAccount(client.lib, generated);
        && (account.Err? ==> r == Err(account.error) && users == old(users) && steps == [Select(name)])
        && (account.Ok? ==>
              var user := User(name, account.value.address, account.value.privateKey);
              && (user.address in Addresses(old(users)) ==>
                    r == Err(IntegrityError) && users == old(users) && steps == [Select(name), Commit(user)])
              && (user.address !in Addresses(old(users)) ==>
                    var f := FaucetRun(client, user.address).result;
                    && users == old(users)[name := user]
                    && steps == [Select(name), Commit(user), CallSendNative(client.cfg.faucetKey, user.address, client.cfg.initialFaucetWei)]
                    && (f.Ok? ==> r == Ok(UserSchemas.UserResponse(name, user.address, user.privateKey, Some(f.value))))
                    && (f.Err? ==> r == Err(Blockchain(f.error)))))
    {
      steps := [Select(name)];
      if name in users {
        return Err(AccountAlreadyExists(name)), steps;
      }
      var account := Web3Client.CreateAccount(client.lib, generated);
      if account.Err? {
        return Err(account.error), steps;
      }
      var user := User(name, account.value.address, account.value.privateKey);
      steps := steps + [Commit(user)];
      if user.address in Addresses(users) {
        return Err(IntegrityError), steps;
      }
      users := users[name := user];
      var funded, funding := GetInitialFund(name, Some(user), client);
      steps := steps + funding;
      match funded {
        case Ok(h) => r := Ok(UserSchemas.UserResponse(name, user.address, user.privateKey, Some(h)));
        case Err(e) => r := Err(e);
      }
    }
  }

  /** The account `create_account` stores has a shaped address and a "0x" key. */
  lemma CreatedAddressIsShaped(lib: Library, generated: KeyPair)
    requires Web3Client.CreateAccount(lib, generated).Ok?
    ensures BlockchainSchemas.AddressShaped(Web3Client.CreateAccount(lib, generated).value.address)
    ensures BlockchainSchemas.HasHexPrefix(Web3Client.CreateAccount(lib, generated).value.privateKey)
  {
  }
}
