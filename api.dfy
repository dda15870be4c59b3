/**
 * The HTTP routes of app/routers/api.py: request validation, the calls into the
 * repository, and the classification of what they raise into status codes. Exceptions a
 * route does not catch reach the global handler of app/main.py, which answers 500.
 */
module Api {
  import opened Exceptions
  import opened Web3Client
  import opened Repository
  import BlockchainSchemas
  import UserSchemas

  const StatusOk: nat := 200
  const StatusCreated: nat := 201
  const StatusBadRequest: nat := 400
  const StatusNotFound: nat := 404
  const StatusConflict: nat := 409
  const StatusUnprocessable: nat := 422
  const StatusInternalError: nat := 500
  const StatusUnavailable: nat := 503

  datatype Body =
    | Created(user: UserSchemas.UserResponse)
    | BalanceBody(balance: UserSchemas.BalanceResponse)
    | TransferBody(transfer: UserSchemas.TransferResponse)
    | Detail(cause: Exception)
    /** the request did not validate */
    | Unprocessable

  datatype Response = Response(status: nat, body: Body)

  /** The global exception handler: whatever a route lets through is an internal error. */
  function Unhandled(e: Exception): Response
  {
    Response(StatusInternalError, Detail(e))
  }

  /** What `create_account` answers for an exception: only a taken name is caught. */
  function CreateAccountFailure(e: Exception): (resp: Response)
    ensures resp.status == StatusConflict <==> e.AccountAlreadyExists?
    ensures resp.status == StatusConflict || resp.status == StatusInternalError
    ensures resp.body == Detail(e)
  {
    if e.AccountAlreadyExists? then Response(StatusConflict, Detail(e)) else Unhandled(e)
  }

  /** What `get_balance` answers for an exception: every exception is caught, so the table is total. */
  function GetBalanceFailure(e: Exception): (resp: Response)
    ensures resp.status == StatusNotFound <==> e.AccountNotFound?
    ensures resp.status == StatusUnavailable <==> e.Blockchain?
    ensures resp.status == StatusInternalError <==> !e.AccountNotFound? && !e.Blockchain?
    ensures resp.body == Detail(e)
  {
    if e.AccountNotFound? then Response(StatusNotFound, Detail(e))
    else if e.Blockchain? then Response(StatusUnavailable, Detail(e))
    else Response(StatusInternalError, Detail(e))
  }

  /** What `transfer` answers for an exception: not-found and insufficient balance are caught, the rest reach the global handler. */
  function TransferFailure(e: Exception): (resp: Response)
    ensures resp.status == StatusNotFound <==> e.AccountNotFound?
    ensures resp.status == StatusBadRequest <==> e.InsufficientBalance?
    ensures resp.status == StatusInternalError <==> !e.AccountNotFound? && !e.InsufficientBalance?
    ensures resp.body == Detail(e)
  {
    if e.AccountNotFound? then Response(StatusNotFound, Detail(e))
    else if e.InsufficientBalance? then Response(StatusBadRequest, Detail(e))
    else Unhandled(e)
  }

  /** POST /create_account */
  method CreateAccount(repo: AccountRepository, name: string, generated: KeyPair, client: Client)
    returns (resp: Response, steps: seq<Step>)
    requires repo.Valid()
    modifies repo
    ensures repo.Valid()
    ensures UserSchemas.ParseUserCreate(name).Err? ==>
      resp == Response(StatusUnprocessable, Unprocessable) && steps == [] && repo.users == old(repo.users)
    ensures UserSchemas.ParseUserCreate(name).Ok? && name in old(repo.users) ==>
      resp == Response(StatusConflict, Detail(AccountAlreadyExists(name))) && repo.users == old(repo.users)
    ensures UserSchemas.ParseUserCreate(name).Ok? && name !in old(repo.users) ==>
      var account := Web3Client.CreateAccount(client.lib, generated);
      && (resp.status == StatusCreated <==>
            account.Ok? && account.value.address !in Addresses(old(repo.users))
            && FaucetRun(client, account.value.address).result.Ok?)
      && (resp.status != StatusCreated ==> resp.status == StatusInternalError)
      // a refused account or a taken address stores nothing
      && (account.Err? || account.value.address in Addresses(old(repo.users)) ==> repo.users == old(repo.users))
      // otherwise exactly the new user is added, and stays whether or not funding succeeds
      && (account.Ok? && account.value.address !in Addresses(old(repo.users)) ==>
            var user := User(name, account.value.address, account.value.privateKey);
            var f := FaucetRun(client, user.address).result;
            && repo.users == old(repo.users)[name := user]
            && (f.Ok? ==> resp == Response(StatusCreated, Created(
                  UserSchemas.UserResponse(name, user.address, user.privateKey, Some(f.value))))))
    ensures resp.status == StatusCreated ==>
      && resp.body.Created?
      && resp.body.user.name == name
      && BlockchainSchemas.AddressShaped(resp.body.user.address)
      && resp.body.user.faucetTxHash.Some?
      && name in repo.users && repo.users[name].address == resp.body.user.address
    ensures resp.body.Detail? && resp.body.cause.Blockchain? ==> name in repo.users
  {
    var body := UserSchemas.ParseUserCreate(name);
    if body.Err? {
      return Response(StatusUnprocessable, Unprocessable), [];
    }
    var r;
    r, steps := repo.CreateAccount(body.value.name, generated, client);
    match r {
      case Ok(user) => resp := Response(StatusCreated, Created(user));
      case Err(e) => resp := CreateAccountFailure(e);
    }
  }

  /** GET /get_balance; `tokenAddress` is what the token name maps to. */
  method GetBalance(repo: AccountRepository, name: string, tokenAddress: string, client: Client)
    returns (resp: Response, steps: seq<Step>)
    ensures name !in repo.users ==>
      resp == Response(StatusNotFound, Detail(AccountNotFound(name))) && steps == [Select(name)]
    ensures name in repo.users ==>
      var address := repo.users[name].address;
      var b := BalanceRun(client.lib, client.balanceNet, address, tokenAddress).result;
      && steps == [Select(name), Select(name), CallGetBalance(address, tokenAddress)]
      && (b.Ok? ==> resp == Response(StatusOk, BalanceBody(UserSchemas.BalanceResponse(name, address, tokenAddress, b.value))))
      && (b.Err? ==> resp == Response(StatusUnavailable, Detail(Blockchain(b.error))))
  {
    var user := repo.GetUserByName(name);
    if user.Err? {
      return GetBalanceFailure(user.error), [Select(name)];
    }
    var balance, queried := repo.GetBalance(name, tokenAddress, client);
    steps := [Select(name)] + queried;
    match balance {
      case Ok(b) =>
        resp := Response(StatusOk, BalanceBody(UserSchemas.BalanceResponse(name, user.value.address, tokenAddress, b)));
      case Err(e) =>
        resp := GetBalanceFailure(e);
    }
  }

  /**
   * POST /transfer as written: after both lookups it reads `transfer_data.token`, a field
   * the request model does not declare, so every request naming two existing users ends
   * in an AttributeError and a 500, and no balance is queried and nothing is transferred.
   */
  method TransferAsWritten(repo: AccountRepository, fromName: string, toName: string, amount: int, tokenAddress: string)
    returns (resp: Response, steps: seq<Step>)
    ensures UserSchemas.ParseTransferRequest(fromName, toName, amount, tokenAddress).Err? ==>
      resp == Response(StatusUnprocessable, Unprocessable) && steps == []
    ensures UserSchemas.ParseTransferRequest(fromName, toName, amount, tokenAddress).Ok? ==>
      && (fromName !in repo.users ==> resp.status == StatusNotFound && steps == [Select(fromName)])
      && (fromName in repo.users && toName !in repo.users ==>
            resp.status == StatusNotFound && steps == [Select(fromName), Select(toName)])
      && (fromName in repo.users && toName in repo.users ==>
            resp == Response(StatusInternalError, Detail(AttributeError("token")))
            && steps == [Select(fromName), Select(toName)])
  {
    var request := UserSchemas.ParseTransferRequest(fromName, toName, amount, tokenAddress);
    if request.Err? {
      return Response(StatusUnprocessable, Unprocessable), [];
    }
    var from := repo.GetUserByName(request.value.fromName);
    if from.Err? {
      return TransferFailure(from.error), [Select(fromName)];
    }
    var to := repo.GetUserByName(request.value.toName);
    steps := [Select(fromName), Select(toName)];
    if to.Err? {
      return TransferFailure(to.error), steps;
    }
    resp := TransferFailure(AttributeError("token"));
  }

  /**
   * POST /transfer with the request's own token address passed on: look both users up,
   * transfer, and report the looked-up addresses and the requested amount.
   */
  method Transfer(repo: AccountRepository, fromName: string, toName: string, amount: int, tokenAddress: string, client: Client)
    returns (resp: Response, steps: seq<Step>)
    ensures UserSchemas.ParseTransferRequest(fromName, toName, amount, tokenAddress).Err? ==>
      resp == Response(StatusUnprocessable, Unprocessable) && steps == []
    ensures UserSchemas.ParseTransferRequest(fromName, toName, amount, tokenAddress).Ok? ==>
      && (fromName !in repo.users ==>
            resp == Response(StatusNotFound, Detail(AccountNotFound(fromName))) && steps == [Select(fromName)])
      && (fromName in repo.users && toName !in repo.users ==>
            resp == Response(StatusNotFound, Detail(AccountNotFound(toName))) && steps == [Select(fromName), Select(toName)])
    ensures UserSchemas.ParseTransferRequest(fromName, toName, amount, tokenAddress).Ok? &&
            fromName in repo.users && toName in repo.users ==>
      var sender, recipient := repo.users[fromName], repo.users[toName];
      var b := BalanceRun(client.lib, client.balanceNet, sender.address, tokenAddress).result;
      var sent := TransferOutcome(client, sender, recipient, amount, tokenAddress);
      && steps == [Select(fromName), Select(toName), Select(fromName), Select(toName),
                   CallGetBalance(sender.address, tokenAddress)]
                  + (if b.Ok? && b.value >= amount
                     then [CallTransferErc20(sender.privateKey, recipient.address, amount, tokenAddress)]
                     else [])
      && (sent.Ok? ==>
            resp == Response(StatusOk, TransferBody(UserSchemas.TransferResponse(
              true, Some(sent.value), sender.address, recipient.address, amount, Some("Transfer successful")))))
      && (sent.Err? ==> resp == TransferFailure(sent.error))
  {
    var request := UserSchemas.ParseTransferRequest(fromName, toName, amount, tokenAddress);
    if request.Err? {
      return Response(StatusUnprocessable, Unprocessable), [];
    }
    var from := repo.GetUserByName(request.value.fromName);
    if from.Err? {
      return TransferFailure(from.error), [Select(fromName)];
    }
    var to := repo.GetUserByName(request.value.toName);
    if to.Err? {
      return TransferFailure(to.error), [Select(fromName), Select(toName)];
    }
    var sender, recipient := from.value, to.value;
    var sent, transferSteps := repo.TransferFromTo(fromName, toName, request.value.amount, tokenAddress, client);
    ghost var b := BalanceRun(client.lib, client.balanceNet, sender.address, tokenAddress).result;
    ghost var tail := if b.Ok? && b.value >= amount
                      then [CallTransferErc20(sender.privateKey, recipient.address, amount, tokenAddress)]
                      else [];
    assert transferSteps == [Select(fromName), Select(toName), CallGetBalance(sender.address, tokenAddress)] + tail;
    steps := [Select(fromName), Select(toName)] + transferSteps;
    LookupsRepeated(Select(fromName), Select(toName), CallGetBalance(sender.address, tokenAddress), tail);
    if sent.Ok? {
      resp := Response(StatusOk, TransferBody(UserSchemas.TransferResponse(
        true, Some(sent.value), sender.address, recipient.address, request.value.amount, Some("Transfer successful"))));
    } else {
      resp := TransferFailure(sent.error);
    }
  }

  /**
   * The statuses POST /transfer answers with once both users are found: 500 when the
   * balance query fails, 400 when the balance is short, 200 with the transaction hash
   * when the retried transfer succeeds, and the transfer's own failure status otherwise.
   */
  lemma TransferStatuses(client: Client, sender: User, recipient: User, amount: nat, tokenAddress: string)
    ensures var b := BalanceRun(client.lib, client.balanceNet, sender.address, tokenAddress).result;
      var t := TransferRun(client.lib, client.cfg, client.transferNet, sender.privateKey,
                           TokenOrder(recipient.address, amount, tokenAddress)).result;
      var sent := TransferOutcome(client, sender, recipient, amount, tokenAddress);
      && (b.Err? ==> sent.Err? && TransferFailure(sent.error) == Response(StatusInternalError, Detail(Blockchain(b.error))))
      && (b.Ok? && b.value < amount ==>
            sent.Err? && TransferFailure(sent.error) == Response(StatusBadRequest, Detail(InsufficientBalance(b.value, amount))))
      && (b.Ok? && b.value >= amount ==> sent == t)
      && (b.Ok? && b.value >= amount && t.Err? ==> TransferFailure(sent.error) == Unhandled(t.error))
  {
    TransferErrorsAreClientErrors(client.lib, client.cfg, client.transferNet, sender.privateKey,
                                  TokenOrder(recipient.address, amount, tokenAddress));
  }

  /**
   * A sequence identity, not a property of the service: the router's own two lookups come
   * before the repository's steps, which repeat them. It only keeps `Transfer`'s proof cheap.
   */
  lemma LookupsRepeated<T>(x: T, y: T, z: T, tail: seq<T>)
    ensures [x, y] + ([x, y, z] + tail) == [x, y, x, y, z] + tail
  {
  }

  /**
   * Creating the same account twice: the second request conflicts whenever the first one
   * stored the user, including when the first failed only at faucet funding.
   */
  method CreateTwice(repo: AccountRepository, name: string, generated: KeyPair, client: Client)
    returns (first: Response, second: Response)
    requires repo.Valid()
    modifies repo
    ensures first.status == StatusCreated ==> second.status == StatusConflict
    ensures first.body.Detail? && first.body.cause.Blockchain? ==> second.status == StatusConflict
  {
    var steps;
    first, steps := CreateAccount(repo, name, generated, client);
    second, steps := CreateAccount(repo, name, generated, client);
  }
}
