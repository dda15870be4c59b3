/**
 * The generated-account schema of app/schemas/blockchain.py: the address must look like
 * "0x" followed by 40 more characters, the private key must start with "0x".
 */
module BlockchainSchemas {
  import opened Exceptions

  /** Total length of an address in text form: "0x" and 40 characters. */
  const AddressLength: nat := 42

  /** `s.startswith("0x")` */
  predicate HasHexPrefix(s: string)
  {
    |s| >= 2 && s[..2] == "0x"
  }

  /** The only shape check the service makes on an address. */
  predicate AddressShaped(s: string)
  {
    HasHexPrefix(s) && |s| == AddressLength
  }

  datatype BlockchainAccount = BlockchainAccount(address: string, privateKey: string)

  /** `BlockchainAccount.validate_address` */
  function ValidateAddress(value: string): (r: Result<string>)
    ensures r.Ok? <==> |value| == 42 && value[0] == '0' && value[1] == 'x'
    ensures r.Ok? ==> r.value == value
    ensures r.Err? ==> r.error == ValidationError
  {
    if !HasHexPrefix(value) || |value| != AddressLength then Err(ValidationError) else Ok(value)
  }

  /** `BlockchainAccount.validate_private_key` */
  function ValidatePrivateKey(value: string): (r: Result<string>)
    ensures r.Ok? <==> |value| >= 2 && value[0] == '0' && value[1] == 'x'
    ensures r.Ok? ==> r.value == value
    ensures r.Err? ==> r.error == ValidationError
  {
    if !HasHexPrefix(value) then Err(ValidationError) else Ok(value)
  }

  /** Building a BlockchainAccount runs both validators; either failing refuses the model. */
  function NewBlockchainAccount(address: string, privateKey: string): (r: Result<BlockchainAccount>)
    ensures r.Ok? <==> ValidateAddress(address).Ok? && ValidatePrivateKey(privateKey).Ok?
    ensures r.Ok? ==> r.value.address == address && r.value.privateKey == privateKey
    ensures r.Err? ==> r.error == ValidationError
  {
    match ValidateAddress(address)
    case Err(e) => Err(e)
    case Ok(a) =>
      match ValidatePrivateKey(privateKey)
      case Err(e) => Err(e)
      case Ok(k) => Ok(BlockchainAccount(a, k))
  }

  /** Validation returns its input, so validating an accepted value again accepts it unchanged. */
  lemma ValidationIsIdempotent(address: string, privateKey: string)
    ensures ValidateAddress(address).Ok? ==> ValidateAddress(ValidateAddress(address).value) == ValidateAddress(address)
    ensures ValidatePrivateKey(privateKey).Ok? ==>
      ValidatePrivateKey(ValidatePrivateKey(privateKey).value) == ValidatePrivateKey(privateKey)
  {
  }

  /** No hex-digit or checksum check is made: "0x" and forty 'z' characters is accepted. */
  lemma AddressNeedNotBeHex()
    ensures ValidateAddress("0x" + seq(40, _ => 'z')).Ok?
  {
    var s := "0x" + seq(40, _ => 'z');
    assert s[..2] == "0x";
  }

  /** No length check is made on a private key: "0x" alone is accepted, "ab" is not. */
  lemma PrivateKeyLengthUnchecked()
    ensures ValidatePrivateKey("0x") == Ok("0x")
    ensures ValidatePrivateKey("ab") == Err(ValidationError)
  {
  }
}
