/**
 * Outbound transfers from EVM chains: `transferFromEth` (an ERC-20 token)
 * and `transferFromEthNative` (the chain's gas currency, wrapped by the
 * bridge). Each sends exactly one call to the token-bridge contract; the
 * payload decides which entry point is called. The contract binding, the
 * signer and the receipt wait are outside the model; the nonce that
 * `createNonce()` draws is a parameter.
 */
module EvmTransfer {
  import opened Common

  /**
   * Transaction overrides a caller may pass to ethers. Only `value` is
   * touched by the code; the other fields are carried through.
   */
  datatype Overrides = Overrides(
    value: Option<nat>,
    gasLimit: Option<nat>,
    gasPrice: Option<nat>,
    from: Option<Address>)

  /** The four token-bridge entry points the builders call. */
  datatype BridgeMethod =
    | TransferTokens(token: Address, amount: nat, recipientChain: ChainId,
                     recipient: Bytes, relayerFee: nat, nonce: nat)
    | TransferTokensWithPayload(token: Address, amount: nat, recipientChain: ChainId,
                                recipient: Bytes, nonce: nat, payload: Bytes)
    | WrapAndTransferEth(recipientChain: ChainId, recipient: Bytes,
                         relayerFee: nat, nonce: nat)
    | WrapAndTransferEthWithPayload(recipientChain: ChainId, recipient: Bytes,
                                    nonce: nat, payload: Bytes)

  /** One contract call: the bridge it goes to, the entry point, the overrides. */
  datatype BridgeCall = BridgeCall(bridge: Address, entry: BridgeMethod, overrides: Overrides)

  /** True for the entry points that carry a relayer fee. */
  predicate CarriesRelayerFee(m: BridgeMethod) {
    m.TransferTokens? || m.WrapAndTransferEth?
  }

  /** True for the entry points that carry a payload. */
  predicate CarriesPayload(m: BridgeMethod) {
    m.TransferTokensWithPayload? || m.WrapAndTransferEthWithPayload?
  }

  /** The call `transferFromEth` sends for an ERC-20 token. */
  function TransferFromEth(
    tokenBridge: Address, token: Address, amount: nat, recipientChain: ChainId,
    recipient: Bytes, relayerFee: nat, overrides: Overrides, payload: Option<Bytes>,
    nonce: nat): (call: BridgeCall)
    ensures call.bridge == tokenBridge && call.overrides == overrides
    ensures call.entry.TransferTokens? <==> payload.None?
    ensures call.entry.TransferTokensWithPayload? <==> payload.Some?
    ensures call.entry.token == token && call.entry.amount == amount
    ensures call.entry.recipientChain == recipientChain && call.entry.recipient == recipient
    ensures call.entry.nonce == nonce
    ensures CarriesRelayerFee(call.entry) ==> call.entry.relayerFee == relayerFee
    ensures CarriesPayload(call.entry) ==> payload == Some(call.entry.payload)
  {
    var m := if payload.None?
      then TransferTokens(token, amount, recipientChain, recipient, relayerFee, nonce)
      else TransferTokensWithPayload(token, amount, recipientChain, recipient, nonce,
                                     payload.value);
    BridgeCall(tokenBridge, m, overrides)
  }

  /**
   * The call `transferFromEthNative` sends: the amount travels as the
   * call's value, replacing any value the caller put in the overrides.
   */
  function TransferFromEthNative(
    tokenBridge: Address, amount: nat, recipientChain: ChainId, recipient: Bytes,
    relayerFee: nat, overrides: Overrides, payload: Option<Bytes>, nonce: nat): (call: BridgeCall)
    ensures call.bridge == tokenBridge
    ensures call.overrides == overrides.(value := Some(amount))
    ensures call.entry.WrapAndTransferEth? <==> payload.None?
    ensures call.entry.WrapAndTransferEthWithPayload? <==> payload.Some?
    ensures call.entry.recipientChain == recipientChain && call.entry.recipient == recipient
    ensures call.entry.nonce == nonce
    ensures CarriesRelayerFee(call.entry) ==> call.entry.relayerFee == relayerFee
    ensures CarriesPayload(call.entry) ==> payload == Some(call.entry.payload)
  {
    var m := if payload.None?
      then WrapAndTransferEth(recipientChain, recipient, relayerFee, nonce)
      else WrapAndTransferEthWithPayload(recipientChain, recipient, nonce, payload.value);
    BridgeCall(tokenBridge, m, overrides.(value := Some(amount)))
  }

  /**
   * Relayer fee and payload are mutually exclusive on the wire: every call
   * either builder emits carries exactly one of the two, and carries the
   * payload exactly when one was given.
   */
  lemma EvmFeeXorPayload(
    tokenBridge: Address, token: Address, amount: nat, recipientChain: ChainId,
    recipient: Bytes, relayerFee: nat, overrides: Overrides, payload: Option<Bytes>, nonce: nat)
    ensures var c := TransferFromEth(tokenBridge, token, amount, recipientChain, recipient,
                                     relayerFee, overrides, payload, nonce).entry;
            (CarriesRelayerFee(c) != CarriesPayload(c)) && (CarriesPayload(c) <==> payload.Some?)
    ensures var c := TransferFromEthNative(tokenBridge, amount, recipientChain, recipient,
                                           relayerFee, overrides, payload, nonce).entry;
            (CarriesRelayerFee(c) != CarriesPayload(c)) && (CarriesPayload(c) <==> payload.Some?)
  {
  }
}
