/**
 * Request and response schemas of app/schemas/user.py. A user name is 1 to 100
 * characters of letters, digits, '_' and '-', with at least one letter or digit;
 * a token address has the "0x" + 40 shape; a transfer amount is strictly positive.
 */
module UserSchemas {
  import opened Exceptions
  import BlockchainSchemas

  const NameMinLength: nat := 1
  const NameMaxLength: nat := 100

  /** A letter or digit (ASCII; see README for Python's Unicode `isalnum`). */
  predicate IsAlnumChar(c: char)
  {
    ('a' <= c <= 'z') || ('A' <= c <= 'Z') || ('0' <= c <= '9')
  }

  /** `s.isalnum()`: non-empty and made only of letters and digits. */
  predicate IsAlnum(s: string)
  {
    |s| > 0 && forall i :: 0 <= i < |s| ==> IsAlnumChar(s[i])
  }

  /** `s.replace(c, "")` */
  function Delete(s: string, c: char): (r: string)
    ensures |r| <= |s|
    ensures forall x :: x in r <==> x in s && x != c
  {
    if s == [] then []
    else if s[0] == c then Delete(s[1..], c)
    else [s[0]] + Delete(s[1..], c)
  }

  /** A character a user name may contain. */
  predicate NameChar(c: char)
  {
    IsAlnumChar(c) || c == '_' || c == '-'
  }

  datatype UserCreate = UserCreate(name: string)

  /** `UserCreate.validate_name` */
  function ValidateName(v: string): (r: Result<string>)
    ensures r.Ok? ==> r.value == v
    ensures r.Err? ==> r.error == ValidationError
  {
    if !IsAlnum(Delete(Delete(v, '_'), '-')) then Err(ValidationError) else Ok(v)
  }

  /** Validating a UserCreate body: the length bounds of the field, then the validator. */
  function ParseUserCreate(name: string): (r: Result<UserCreate>)
    ensures r.Ok? ==> r.value.name == name
    ensures r.Err? ==> r.error == ValidationError
  {
    if |name| < NameMinLength || |name| > NameMaxLength then Err(ValidationError)
    else match ValidateName(name)
      case Err(e) => Err(e)
      case Ok(n) => Ok(UserCreate(n))
  }

  /** The name validator accepts exactly the names made of name characters with a letter or digit among them. */
  lemma {:induction false} ValidateNameAccepts(v: string)
    ensures ValidateName(v).Ok? <==>
      (forall i :: 0 <= i < |v| ==> NameChar(v[i])) && (exists i :: 0 <= i < |v| && IsAlnumChar(v[i]))
  {
    var r := Delete(Delete(v, '_'), '-');
    if IsAlnum(r) {
      forall i | 0 <= i < |v| ensures NameChar(v[i]) {
        var x := v[i];
        if x != '_' && x != '-' {
          assert x in r;
          var j :| 0 <= j < |r| && r[j] == x;
          assert IsAlnumChar(r[j]);
        }
      }
      assert r[0] in r;
      var j :| 0 <= j < |v| && v[j] == r[0];
      assert IsAlnumChar(v[j]);
    }
    if (forall i :: 0 <= i < |v| ==> NameChar(v[i])) && (exists i :: 0 <= i < |v| && IsAlnumChar(v[i])) {
      var i :| 0 <= i < |v| && IsAlnumChar(v[i]);
      assert v[i] in r;
      forall j | 0 <= j < |r| ensures IsAlnumChar(r[j]) {
        assert r[j] in v;
      }
    }
  }

  /** A UserCreate body is accepted exactly when its name is 1..100 name characters, not all of them separators. */
  lemma ParseUserCreateAccepts(name: string)
    ensures ParseUserCreate(name).Ok? <==>
      && 1 <= |name| <= 100
      && (forall i :: 0 <= i < |name| ==> NameChar(name[i]))
      && (exists i :: 0 <= i < |name| && IsAlnumChar(name[i]))
  {
    ValidateNameAccepts(name);
  }

  /** A name made only of '_' and '-' is refused, whatever its length. */
  lemma {:induction false} SeparatorsOnlyRefused(name: string)
    requires forall i :: 0 <= i < |name| ==> name[i] == '_' || name[i] == '-'
    ensures ParseUserCreate(name).Err?
  {
    ValidateNameAccepts(name);
  }

  /** An accepted name validates to itself, so validation is idempotent. */
  lemma ParseUserCreateIdempotent(name: string)
    requires ParseUserCreate(name).Ok?
    ensures ParseUserCreate(ParseUserCreate(name).value.name) == ParseUserCreate(name)
  {
  }

  /** `validate_address` of BalanceRequest and TransferRequest: the same shape check as a generated address. */
  function ValidateTokenAddress(v: string): (r: Result<string>)
    ensures r.Ok? <==> BlockchainSchemas.AddressShaped(v)
    ensures r.Ok? ==> r.value == v
    ensures r.Err? ==> r.error == ValidationError
  {
    if !BlockchainSchemas.HasHexPrefix(v) || |v| != BlockchainSchemas.AddressLength then Err(ValidationError)
    else Ok(v)
  }

  datatype BalanceRequest = BalanceRequest(name: string, tokenAddress: string)

  function ParseBalanceRequest(name: string, tokenAddress: string): (r: Result<BalanceRequest>)
    ensures r.Ok? <==> |name| >= 1 && BlockchainSchemas.AddressShaped(tokenAddress)
    ensures r.Ok? ==> r.value == BalanceRequest(name, tokenAddress)
    ensures r.Err? ==> r.error == ValidationError
  {
    if |name| < 1 then Err(ValidationError)
    else match ValidateTokenAddress(tokenAddress)
      case Err(e) => Err(e)
      case Ok(t) => Ok(BalanceRequest(name, t))
  }

  datatype TransferRequest = TransferRequest(fromName: string, toName: string, amount: nat, tokenAddress: string)

  function ParseTransferRequest(fromName: string, toName: string, amount: int, tokenAddress: string): (r: Result<TransferRequest>)
    ensures r.Ok? <==> |fromName| >= 1 && |toName| >= 1 && amount > 0 && BlockchainSchemas.AddressShaped(tokenAddress)
    ensures r.Ok? ==> r.value == TransferRequest(fromName, toName, amount, tokenAddress)
    ensures r.Err? ==> r.error == ValidationError
  {
    if |fromName| < 1 || |toName| < 1 || amount <= 0 then Err(ValidationError)
    else match ValidateTokenAddress(tokenAddress)
      case Err(e) => Err(e)
      case Ok(t) => Ok(TransferRequest(fromName, toName, amount, t))
  }

  /** The account returned by a successful creation. */
  datatype UserResponse = UserResponse(name: string, address: string, privateKey: string, faucetTxHash: Option<string>)

  datatype BalanceResponse = BalanceResponse(name: string, address: string, tokenAddress: string, balance: nat)

  datatype TransferResponse = TransferResponse(
    success: bool, txHash: Option<string>, fromAddress: string, toAddress: string, amount: nat, message: Option<string>)
}
