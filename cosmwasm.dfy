/**
 * Outbound transfers from the CosmWasm chains, Terra (`transferFromTerra`)
 * and Injective (`transferFromInjective`). Each returns two execute
 * messages: one that hands the tokens to the bridge (a deposit for a
 * native denomination, an allowance for a CW20 token), then the message
 * that initiates the transfer. Whether a token is a native denomination is
 * decided by `isNativeDenom` / `isNativeDenomInjective`, which are not
 * part of this model: their answer is a parameter, as is the nonce the
 * source draws from `Math.random`.
 */
module CosmWasmTransfer {
  import opened Common

  /** The `info` of an asset: a native denomination or a CW20 contract. */
  datatype AssetInfo = NativeToken(denom: string) | Token(contractAddr: Address)

  /** `asset: { amount, info }`. */
  datatype Asset = Asset(amount: nat, info: AssetInfo)

  /** CW20 allowance expiry; the builders only ever grant allowances that never expire. */
  datatype Expiration = Never

  /** The fields both initiate messages share. */
  datatype TransferInfo = TransferInfo(
    asset: Asset, recipientChain: ChainId, recipient: Bytes, fee: nat, nonce: nat)

  // ---------------------------------------------------------------- Terra

  /** The JSON body of a Terra execute message, by its single top-level key. */
  datatype TerraExecute =
    | DepositTokens
    | IncreaseAllowance(spender: Address, amount: nat, expires: Expiration)
    | InitiateTransfer(info: TransferInfo)
    | InitiateTransferWithPayload(info: TransferInfo, payload: Bytes)

  /** `new MsgExecuteContract(sender, contract, execute_msg, coins)`. */
  datatype TerraMsg = TerraMsg(
    sender: Address, contract: Address, execute: TerraExecute, coins: map<string, nat>)

  /** The top-level key of a Terra execute message. */
  function TerraKey(e: TerraExecute): string {
    match e
    case DepositTokens => "deposit_tokens"
    case IncreaseAllowance(_, _, _) => "increase_allowance"
    case InitiateTransfer(_) => "initiate_transfer"
    case InitiateTransferWithPayload(_, _) => "initiate_transfer_with_payload"
  }

  /** The initiate message for a given asset info (`mk_initiate_transfer`). */
  function TerraInitiate(
    info: AssetInfo, amount: nat, recipientChain: ChainId, recipient: Bytes,
    relayerFee: nat, nonce: nat, payload: Option<Bytes>): TerraExecute
  {
    var t := TransferInfo(Asset(amount, info), recipientChain, recipient, relayerFee, nonce);
    if payload.Some? then InitiateTransferWithPayload(t, payload.value) else InitiateTransfer(t)
  }

  /** The messages `transferFromTerra` returns. */
  function TransferFromTerra(
    wallet: Address, tokenBridge: Address, token: Address, amount: nat,
    recipientChain: ChainId, recipient: Bytes, relayerFee: nat, payload: Option<Bytes>,
    nonce: nat, isNativeAsset: bool): (msgs: seq<TerraMsg>)
    ensures |msgs| == 2
    ensures forall m :: m in msgs ==> m.sender == wallet
  {
    if isNativeAsset then
      [ TerraMsg(wallet, tokenBridge, DepositTokens, map[token := amount]),
        TerraMsg(wallet, tokenBridge,
                 TerraInitiate(NativeToken(token), amount, recipientChain, recipient,
                               relayerFee, nonce, payload), map[]) ]
    else
      [ TerraMsg(wallet, token, IncreaseAllowance(tokenBridge, amount, Never), map[]),
        TerraMsg(wallet, tokenBridge,
                 TerraInitiate(Token(token), amount, recipientChain, recipient,
                               relayerFee, nonce, payload), map[]) ]
  }

  /** True for the two initiate variants. */
  predicate IsTerraInitiate(m: TerraMsg) {
    m.execute.InitiateTransfer? || m.execute.InitiateTransferWithPayload?
  }

  /** True for the with-payload initiate variant. */
  predicate IsTerraPayloadInitiate(m: TerraMsg) {
    m.execute.InitiateTransferWithPayload?
  }

  /**
   * A native denomination is first deposited with the bridge, funded with
   * exactly `amount` of that denomination; any other token is first
   * approved to the bridge for `amount`, never expiring, on the token's
   * own contract. The second message always goes to the bridge and names
   * the asset as `native_token{denom}` or `token{contract_addr}`.
   */
  lemma TerraFundingStep(
    wallet: Address, tokenBridge: Address, token: Address, amount: nat,
    recipientChain: ChainId, recipient: Bytes, relayerFee: nat, payload: Option<Bytes>,
    nonce: nat, isNativeAsset: bool)
    ensures var msgs := TransferFromTerra(wallet, tokenBridge, token, amount, recipientChain,
                                          recipient, relayerFee, payload, nonce, isNativeAsset);
      && (isNativeAsset <==> msgs[0].execute.DepositTokens?)
      && (isNativeAsset ==>
            msgs[0].contract == tokenBridge && msgs[0].coins == map[token := amount])
      && (!isNativeAsset ==>
            msgs[0]
            == TerraMsg(wallet, token, IncreaseAllowance(tokenBridge, amount, Never), map[]))
      && msgs[1].contract == tokenBridge && msgs[1].coins == map[]
      && IsTerraInitiate(msgs[1])
      && msgs[1].execute.info.asset
         == Asset(amount, if isNativeAsset then NativeToken(token) else Token(token))
  {
  }

  /**
   * Exactly one initiate message is returned; its key is
   * `initiate_transfer_with_payload` if and only if a payload is present.
   * Unlike the EVM and Solana entry points, both variants keep the relayer
   * fee, and the payload variant carries the payload unchanged.
   */
  lemma TerraInitiateVariant(
    wallet: Address, tokenBridge: Address, token: Address, amount: nat,
    recipientChain: ChainId, recipient: Bytes, relayerFee: nat, payload: Option<Bytes>,
    nonce: nat, isNativeAsset: bool)
    ensures var msgs := TransferFromTerra(wallet, tokenBridge, token, amount, recipientChain,
                                          recipient, relayerFee, payload, nonce, isNativeAsset);
      && CountWhere(msgs, IsTerraInitiate) == 1
      && CountWhere(msgs, IsTerraPayloadInitiate) == (if payload.Some? then 1 else 0)
      && (TerraKey(msgs[1].execute) == "initiate_transfer_with_payload" <==> payload.Some?)
      && msgs[1].execute.info
         == TransferInfo(msgs[1].execute.info.asset, recipientChain, recipient, relayerFee, nonce)
      && (payload.Some? ==> msgs[1].execute.payload == payload.value)
  {
    var msgs := TransferFromTerra(wallet, tokenBridge, token, amount, recipientChain,
                                  recipient, relayerFee, payload, nonce, isNativeAsset);
    CountWhereOne(msgs, IsTerraInitiate, 1);
    assert msgs == [msgs[0]] + [msgs[1]];
    CountWhereConcat([msgs[0]], [msgs[1]], IsTerraPayloadInitiate);
  }

  // ------------------------------------------------------------ Injective

  /** The JSON `msg` of an Injective execute message. */
  datatype InjectiveBody =
    | EmptyBody
    | AllowanceBody(spender: Address, amount: nat, expires: Expiration)
    | TransferBody(info: TransferInfo, payload: Option<Bytes>)

  /** Funds attached to an Injective execute message. */
  datatype Coin = Coin(denom: string, amount: nat)

  /** `MsgExecuteContract.fromJSON({contractAddress, sender, msg, action, amount?})`. */
  datatype InjectiveMsg = InjectiveMsg(
    contract: Address, sender: Address, action: string, msg: InjectiveBody, funds: Option<Coin>)

  /** `mk_action`: the action name of the initiate message. */
  function InjectiveAction(payload: Option<Bytes>): string {
    if payload.Some? then "initiate_transfer_with_payload" else "initiate_transfer"
  }

  /** The initiate message for a given asset info. */
  function InjectiveInitiate(
    wallet: Address, tokenBridge: Address, info: AssetInfo, amount: nat,
    recipientChain: ChainId, recipient: Bytes, relayerFee: nat, payload: Option<Bytes>,
    nonce: nat): InjectiveMsg
  {
    InjectiveMsg(tokenBridge, wallet, InjectiveAction(payload),
                 TransferBody(TransferInfo(Asset(amount, info), recipientChain, recipient,
                                           relayerFee, nonce), payload),
                 None)
  }

  /**
   * The messages `transferFromInjective` returns, AS WRITTEN: for a CW20
   * token the `increase_allowance` message is addressed to the token
   * bridge instead of the token contract.
   */
  function TransferFromInjectiveAsWritten(
    wallet: Address, tokenBridge: Address, token: Address, amount: nat,
    recipientChain: ChainId, recipient: Bytes, relayerFee: nat, payload: Option<Bytes>,
    nonce: nat, isNativeAsset: bool): (msgs: seq<InjectiveMsg>)
    ensures |msgs| == 2
    ensures forall m :: m in msgs ==> m.sender == wallet && m.contract == tokenBridge
  {
    if isNativeAsset then
      [ InjectiveMsg(tokenBridge, wallet, "deposit_tokens", EmptyBody, Some(Coin(token, amount))),
        InjectiveInitiate(wallet, tokenBridge, NativeToken(token), amount, recipientChain,
                          recipient, relayerFee, payload, nonce) ]
    else
      [ InjectiveMsg(tokenBridge, wallet, "increase_allowance",
                     AllowanceBody(tokenBridge, amount, Never), None),
        InjectiveInitiate(wallet, tokenBridge, Token(token), amount, recipientChain,
                          recipient, relayerFee, payload, nonce) ]
  }

  /**
   * The allowance message as written grants the bridge an allowance on
   * the bridge contract itself: whenever the token is not the bridge, the
   * CW20 token contract never receives it.
   */
  lemma InjectiveAllowanceMisaddressed(
    wallet: Address, tokenBridge: Address, token: Address, amount: nat,
    recipientChain: ChainId, recipient: Bytes, relayerFee: nat, payload: Option<Bytes>, nonce: nat)
    requires token != tokenBridge
    ensures var msgs := TransferFromInjectiveAsWritten(wallet, tokenBridge, token, amount,
                                                       recipientChain, recipient, relayerFee,
                                                       payload, nonce, false);
      msgs[0].action == "increase_allowance" && msgs[0].contract != token
      && forall m :: m in msgs ==> m.contract != token
  {
  }

  /**
   * The messages `transferFromInjective` is meant to return: identical to
   * the code except that the allowance is executed on the CW20 token's own
   * contract, as `transferFromTerra` does.
   */
  function TransferFromInjective(
    wallet: Address, tokenBridge: Address, token: Address, amount: nat,
    recipientChain: ChainId, recipient: Bytes, relayerFee: nat, payload: Option<Bytes>,
    nonce: nat, isNativeAsset: bool): (msgs: seq<InjectiveMsg>)
    ensures |msgs| == 2
    ensures forall m :: m in msgs ==> m.sender == wallet
  {
    if isNativeAsset then
      [ InjectiveMsg(tokenBridge, wallet, "deposit_tokens", EmptyBody, Some(Coin(token, amount))),
        InjectiveInitiate(wallet, tokenBridge, NativeToken(token), amount, recipientChain,
                          recipient, relayerFee, payload, nonce) ]
    else
      [ InjectiveMsg(token, wallet, "increase_allowance",
                     AllowanceBody(tokenBridge, amount, Never), None),
        InjectiveInitiate(wallet, tokenBridge, Token(token), amount, recipientChain,
                          recipient, relayerFee, payload, nonce) ]
  }

  /** True for an initiate message (either action). */
  predicate IsInjectiveInitiate(m: InjectiveMsg) {
    m.action == "initiate_transfer" || m.action == "initiate_transfer_with_payload"
  }

  /**
   * The corrected builder's funding step: a native denomination is
   * deposited with the bridge with `amount` of it attached; a CW20 token is
   * approved to the bridge for `amount`, never expiring, on the token's
   * own contract. It differs from the code only in that contract address.
   */
  lemma InjectiveFundingStep(
    wallet: Address, tokenBridge: Address, token: Address, amount: nat,
    recipientChain: ChainId, recipient: Bytes, relayerFee: nat, payload: Option<Bytes>,
    nonce: nat, isNativeAsset: bool)
    ensures var msgs := TransferFromInjective(wallet, tokenBridge, token, amount, recipientChain,
                                              recipient, relayerFee, payload, nonce, isNativeAsset);
            var written := TransferFromInjectiveAsWritten(wallet, tokenBridge, token, amount,
                                                          recipientChain, recipient, relayerFee,
                                                          payload, nonce, isNativeAsset);
      && (isNativeAsset <==> msgs[0].action == "deposit_tokens")
      && (isNativeAsset ==>
            msgs[0].contract == tokenBridge && msgs[0].funds == Some(Coin(token, amount)))
      && (!isNativeAsset ==> msgs[0].contract == token && msgs[0].funds.None?
                             && msgs[0].msg == AllowanceBody(tokenBridge, amount, Never))
      && msgs[1] == written[1]
      && msgs[0] == written[0].(contract := msgs[0].contract)
  {
  }

  /**
   * Exactly one initiate message is returned, addressed to the bridge; its
   * action is `initiate_transfer_with_payload` if and only if a payload is
   * present; the relayer fee is kept in both variants and the payload field
   * is exactly the given payload.
   */
  lemma InjectiveInitiateVariant(
    wallet: Address, tokenBridge: Address, token: Address, amount: nat,
    recipientChain: ChainId, recipient: Bytes, relayerFee: nat, payload: Option<Bytes>,
    nonce: nat, isNativeAsset: bool)
    ensures var msgs := TransferFromInjective(wallet, tokenBridge, token, amount, recipientChain,
                                              recipient, relayerFee, payload, nonce, isNativeAsset);
      && CountWhere(msgs, IsInjectiveInitiate) == 1
      && msgs[1].contract == tokenBridge && msgs[1].funds.None?
      && (msgs[1].action == "initiate_transfer_with_payload" <==> payload.Some?)
      && msgs[1].msg.TransferBody?
      && msgs[1].msg.info
         == TransferInfo(Asset(amount, if isNativeAsset then NativeToken(token) else Token(token)),
                         recipientChain, recipient, relayerFee, nonce)
      && msgs[1].msg.payload == payload
  {
    var msgs := TransferFromInjective(wallet, tokenBridge, token, amount, recipientChain,
                                      recipient, relayerFee, payload, nonce, isNativeAsset);
    CountWhereOne(msgs, IsInjectiveInitiate, 1);
  }
}
