/**
 * Outbound transfers from Algorand (`transferFromAlgorand`). The builder
 * pushes transactions onto a group one conditional step at a time:
 * emitter opt-in, message fee, the "native" creator opt-in, the creator's
 * asset opt-in, a `nop` call, the transfer itself, and the `sendTransfer`
 * call. The method below does the same on a local sequence; the function
 * `AlgorandTransferTxs` states the group as a whole, and the lemmas state
 * what the source promises about it.
 *
 * The Algorand client reads and the `optin` helper (whose body is not part
 * of this model) become the `ChainReads` record. Only the fee multiplier of
 * a transaction is modelled: the suggested fee is the SDK's.
 */
module AlgorandTransfer {
  import opened Common

  type AppId = nat
  type AssetId = nat

  /** An application-call argument, by how the code encodes it. */
  datatype AppArg =
    | Text(text: string)      // textToUint8Array
    | Uint64(n: nat)          // bigIntToBytes(n, 8)
    | HexBytes(hex: string)   // hexToUint8Array
    | Raw(bytes: Bytes)       // a payload as given

  /** The kinds of transaction the builder constructs, with the fields it sets. */
  datatype TxnBody =
    | Payment(from: Address, to: Address, amount: nat)
    | AssetTransfer(from: Address, to: Address, amount: nat, assetIndex: AssetId)
    | AppCall(from: Address, appIndex: AppId, appArgs: seq<AppArg>, foreignApps: seq<AppId>,
              foreignAssets: seq<AssetId>, accounts: seq<Address>)

  /**
   * A transaction and its fee, as a multiple of the fee the suggested
   * parameters give it (1, or 2 after `txn.fee *= 2`).
   */
  datatype AlgoTxn = AlgoTxn(body: TxnBody, feeMultiplier: nat)

  /** A transaction at the suggested fee. */
  function Txn(body: TxnBody): AlgoTxn {
    AlgoTxn(body, 1)
  }

  /** A signer other than the sender (a logic signature), kept opaque. */
  type Signer = string

  datatype TxSignerPair = TxSignerPair(tx: AlgoTxn, signer: Option<Signer>)

  /** What `optin` returns: the storage account's address and the transactions it needs. */
  datatype OptinResult = OptinResult(addr: Address, txs: seq<TxSignerPair>)

  /** The fields of an account-information record the code reads. */
  datatype AccountInfo = AccountInfo(address: Address, authAddr: Option<Address>)

  /** Everything the builder reads from the chain. */
  datatype ChainReads = ChainReads(
    tokenBridgeAddr: Address,    // getApplicationAddress(tokenBridgeId)
    emitterOptin: OptinResult,   // optin(sender, bridgeId, 0, emitter address)
    assetCreator: Address,       // getAssetByID(assetId).params.creator
    creatorAccount: AccountInfo, // accountInformation(assetCreator)
    msgFee: nat,                 // getMessageFee(bridgeId)
    nativeOptin: OptinResult,    // optin(sender, tokenBridgeId, assetId, "native")
    creatorOptedIn: bool)        // assetOptinCheck(assetId, creator)

  /** The minimum balance, in microAlgos, sent to the creator before its asset opt-in. */
  const OPTIN_FUNDING: nat := 100000

  function Unsigned(tx: AlgoTxn): TxSignerPair {
    TxSignerPair(tx, None)
  }

  /** The asset was minted by the token bridge: its creator is rekeyed to the bridge. */
  predicate IsBridgeWrapped(assetId: AssetId, state: ChainReads) {
    assetId != 0 && state.creatorAccount.authAddr == Some(state.tokenBridgeAddr)
  }

  /**
   * The account the tokens are sent to: the wrapped asset's creator, else
   * the "native" storage account.
   */
  function Creator(assetId: AssetId, state: ChainReads): Address {
    if IsBridgeWrapped(assetId, state) then state.assetCreator else state.nativeOptin.addr
  }

  /** The creator account still has to opt in to the asset. */
  predicate NeedsAssetOptin(assetId: AssetId, state: ChainReads) {
    assetId != 0 && !state.creatorOptedIn
  }

  /** The arguments of the `sendTransfer` call. */
  function SendTransferArgs(
    assetId: AssetId, qty: nat, receiver: string, chain: ChainId, fee: nat, payload: Option<Bytes>)
    : seq<AppArg>
  {
    [Text("sendTransfer"), Uint64(assetId), Uint64(qty), HexBytes(receiver), Uint64(chain),
     Uint64(fee)]
    + (if payload.Some? then [Raw(payload.value)] else [])
  }

  /** The accounts the `sendTransfer` call names. */
  function SendTransferAccounts(assetId: AssetId, state: ChainReads): seq<Address> {
    var creator := Creator(assetId, state);
    [state.emitterOptin.addr, creator,
     if assetId == 0 then creator else state.creatorAccount.address]
  }

  /** The transaction moving `qty` to the creator: ALGO for asset 0, else an asset transfer. */
  function TransferTxn(sender: Address, assetId: AssetId, qty: nat, state: ChainReads): AlgoTxn {
    var creator := Creator(assetId, state);
    if assetId == 0 then Txn(Payment(sender, creator, qty))
    else Txn(AssetTransfer(sender, creator, qty, assetId))
  }

  /** The steps the message fee adds. */
  function FeeSteps(sender: Address, state: ChainReads): seq<TxSignerPair> {
    if state.msgFee > 0 then [Unsigned(Txn(Payment(sender, state.tokenBridgeAddr, state.msgFee)))]
    else []
  }

  /** The steps the "native" creator opt-in adds. */
  function NativeOptinSteps(assetId: AssetId, state: ChainReads): seq<TxSignerPair> {
    if IsBridgeWrapped(assetId, state) then [] else state.nativeOptin.txs
  }

  /** The steps the creator's asset opt-in adds: funding, then the doubled-fee `optin` call. */
  function AssetOptinSteps(
    tokenBridgeId: AppId, sender: Address, assetId: AssetId, state: ChainReads)
    : seq<TxSignerPair>
  {
    var creator := Creator(assetId, state);
    if NeedsAssetOptin(assetId, state) then
      [ Unsigned(Txn(Payment(sender, creator, OPTIN_FUNDING))),
        Unsigned(AlgoTxn(AppCall(sender, tokenBridgeId, [Text("optin"), Uint64(assetId)], [],
                                 [assetId], [creator]), 2)) ]
    else []
  }

  /** The closing steps: `nop`, the transfer, and the doubled-fee `sendTransfer` call. */
  function FinalSteps(
    tokenBridgeId: AppId, bridgeId: AppId, sender: Address, assetId: AssetId, qty: nat,
    receiver: string, chain: ChainId, fee: nat, payload: Option<Bytes>, state: ChainReads)
    : seq<TxSignerPair>
  {
    [ Unsigned(Txn(AppCall(sender, tokenBridgeId, [Text("nop")], [], [], []))),
      Unsigned(TransferTxn(sender, assetId, qty, state)),
      Unsigned(AlgoTxn(AppCall(sender, tokenBridgeId,
                               SendTransferArgs(assetId, qty, receiver, chain, fee, payload),
                               [bridgeId], [assetId], SendTransferAccounts(assetId, state)), 2)) ]
  }

  /** The whole transaction group, segment by segment. */
  function AlgorandTransferTxs(
    tokenBridgeId: AppId, bridgeId: AppId, sender: Address, assetId: AssetId, qty: nat,
    receiver: string, chain: ChainId, fee: nat, payload: Option<Bytes>, state: ChainReads)
    : seq<TxSignerPair>
  {
    state.emitterOptin.txs
    + FeeSteps(sender, state)
    + NativeOptinSteps(assetId, state)
    + AssetOptinSteps(tokenBridgeId, sender, assetId, state)
    + FinalSteps(tokenBridgeId, bridgeId, sender, assetId, qty, receiver, chain, fee, payload,
                 state)
  }

  /**
   * `transferFromAlgorand`: pushes the group's transactions one step at a
   * time, tracking `creator`, `wormhole` and `accounts` as the code does.
   */
  method TransferFromAlgorand(
    tokenBridgeId: AppId, bridgeId: AppId, sender: Address, assetId: AssetId, qty: nat,
    receiver: string, chain: ChainId, fee: nat, payload: Option<Bytes>, state: ChainReads)
    returns (txs: seq<TxSignerPair>)
    ensures txs == AlgorandTransferTxs(tokenBridgeId, bridgeId, sender, assetId, qty, receiver,
                                       chain, fee, payload, state)
  {
    txs := [];
    var emitterAddr := state.emitterOptin.addr;
    txs := txs + state.emitterOptin.txs;
    var creator: Option<Address> := None;
    var creatorAcctInfo: Option<AccountInfo> := None;
    var wormhole := false;
    if assetId != 0 {
      creator := Some(state.assetCreator);
      creatorAcctInfo := Some(state.creatorAccount);
      if creatorAcctInfo.value.authAddr == Some(state.tokenBridgeAddr) {
        wormhole := true;
      }
    }
    if state.msgFee > 0 {
      txs := txs + [Unsigned(Txn(Payment(sender, state.tokenBridgeAddr, state.msgFee)))];
    }
    if !wormhole {
      creator := Some(state.nativeOptin.addr);
      txs := txs + state.nativeOptin.txs;
    }
    assert wormhole == IsBridgeWrapped(assetId, state);
    assert creator == Some(Creator(assetId, state));
    assert txs == state.emitterOptin.txs + FeeSteps(sender, state)
                  + NativeOptinSteps(assetId, state);
    if assetId != 0 && !state.creatorOptedIn {
      txs := txs + [Unsigned(Txn(Payment(sender, creator.value, OPTIN_FUNDING)))];
      var txn := Txn(AppCall(sender, tokenBridgeId, [Text("optin"), Uint64(assetId)], [], [assetId],
                         [creator.value]));
      txn := txn.(feeMultiplier := txn.feeMultiplier * 2);
      txs := txs + [Unsigned(txn)];
    }
    ghost var prefix := txs;
    assert prefix == state.emitterOptin.txs + FeeSteps(sender, state)
                     + NativeOptinSteps(assetId, state)
                     + AssetOptinSteps(tokenBridgeId, sender, assetId, state);
    txs := txs + [Unsigned(Txn(AppCall(sender, tokenBridgeId, [Text("nop")], [], [], [])))];

    var accounts: seq<Address> := [];
    if assetId == 0 {
      txs := txs + [Unsigned(Txn(Payment(sender, creator.value, qty)))];
      accounts := [emitterAddr, creator.value, creator.value];
    } else {
      txs := txs + [Unsigned(Txn(AssetTransfer(sender, creator.value, qty, assetId)))];
      accounts := [emitterAddr, creator.value, creatorAcctInfo.value.address];
    }
    var args := [Text("sendTransfer"), Uint64(assetId), Uint64(qty), HexBytes(receiver),
                 Uint64(chain), Uint64(fee)];
    if payload.Some? {
      args := args + [Raw(payload.value)];
    }
    var acTxn := Txn(AppCall(sender, tokenBridgeId, args, [bridgeId], [assetId], accounts));
    acTxn := acTxn.(feeMultiplier := acTxn.feeMultiplier * 2);
    txs := txs + [Unsigned(acTxn)];
    assert args == SendTransferArgs(assetId, qty, receiver, chain, fee, payload);
    assert accounts == SendTransferAccounts(assetId, state);
    assert txs == prefix + FinalSteps(tokenBridgeId, bridgeId, sender, assetId, qty, receiver,
                                      chain, fee, payload, state);
  }

  /**
   * The conditional steps and their order. With `e`, `n`, `o`, `k` the
   * positions where the fee payment, the native opt-in, the asset opt-in
   * and the `nop` call would start: the emitter opt-in transactions come
   * first; the message-fee payment to the token bridge's address is present
   * if and only if the fee is positive; the native opt-in transactions if
   * and only if the asset is not bridge-wrapped; the 100000 funding payment
   * and the doubled-fee `optin` call if and only if the asset is not ALGO
   * and the creator has not opted in; and the group always ends with `nop`,
   * the transfer and `sendTransfer`.
   */
  lemma AlgorandStepOrder(
    tokenBridgeId: AppId, bridgeId: AppId, sender: Address, assetId: AssetId, qty: nat,
    receiver: string, chain: ChainId, fee: nat, payload: Option<Bytes>, state: ChainReads)
    ensures var txs := AlgorandTransferTxs(tokenBridgeId, bridgeId, sender, assetId, qty,
                                           receiver, chain, fee, payload, state);
            var creator := Creator(assetId, state);
            var e := |state.emitterOptin.txs|;
            var n := e + (if state.msgFee > 0 then 1 else 0);
            var o := n + (if IsBridgeWrapped(assetId, state) then 0 else |state.nativeOptin.txs|);
            var k := o + (if NeedsAssetOptin(assetId, state) then 2 else 0);
      && |txs| == k + 3
      && txs[..e] == state.emitterOptin.txs
      && (state.msgFee > 0 ==>
            txs[e] == Unsigned(Txn(Payment(sender, state.tokenBridgeAddr, state.msgFee))))
      && (!IsBridgeWrapped(assetId, state) ==> txs[n..o] == state.nativeOptin.txs)
      && (NeedsAssetOptin(assetId, state) ==>
            && txs[o] == Unsigned(Txn(Payment(sender, creator, OPTIN_FUNDING)))
            && txs[o + 1] == Unsigned(AlgoTxn(AppCall(sender, tokenBridgeId,
                                                      [Text("optin"), Uint64(assetId)],
                                                      [], [assetId], [creator]), 2)))
      && txs[k] == Unsigned(Txn(AppCall(sender, tokenBridgeId, [Text("nop")], [], [], [])))
      && txs[k + 1] == Unsigned(TransferTxn(sender, assetId, qty, state))
      && txs[k + 2].tx.body.AppCall? && txs[k + 2].tx.body.appArgs[0] == Text("sendTransfer")
  {
    var pre := state.emitterOptin.txs + FeeSteps(sender, state)
               + NativeOptinSteps(assetId, state);
    var txs := AlgorandTransferTxs(tokenBridgeId, bridgeId, sender, assetId, qty, receiver,
                                   chain, fee, payload, state);
    var e := |state.emitterOptin.txs|;
    var n := e + |FeeSteps(sender, state)|;
    assert txs[..e] == state.emitterOptin.txs;
    assert txs[e..n] == FeeSteps(sender, state);
    assert txs[n..|pre|] == NativeOptinSteps(assetId, state);
  }

  /**
   * Where the tokens go. When the asset is not ALGO and its creator's
   * `auth-addr` is the token bridge's address (a bridge-wrapped asset),
   * the transfer is to that creator, `sendTransfer` names it as its second
   * account, and no "native" opt-in transaction is in the group. Otherwise
   * (always for ALGO) the group holds the "native" opt-in transactions and
   * both the transfer and `sendTransfer` name the storage account that
   * opt-in returned.
   */
  lemma AlgorandCreatorChoice(
    tokenBridgeId: AppId, bridgeId: AppId, sender: Address, assetId: AssetId, qty: nat,
    receiver: string, chain: ChainId, fee: nat, payload: Option<Bytes>, state: ChainReads)
    ensures var txs := AlgorandTransferTxs(tokenBridgeId, bridgeId, sender, assetId, qty,
                                           receiver, chain, fee, payload, state);
            var wrapped := assetId != 0
                           && state.creatorAccount.authAddr == Some(state.tokenBridgeAddr);
            var who := if wrapped then state.assetCreator else state.nativeOptin.addr;
            var e := |state.emitterOptin.txs| + (if state.msgFee > 0 then 1 else 0);
            var a := if NeedsAssetOptin(assetId, state) then 2 else 0;
      && |txs| >= 3
      && txs[|txs| - 2].tx.body.to == who
      && txs[|txs| - 1].tx.body.AppCall? && |txs[|txs| - 1].tx.body.accounts| == 3
      && txs[|txs| - 1].tx.body.accounts[1] == who
      && (wrapped ==> |txs| == e + a + 3)
      && (!wrapped ==> |txs| == e + |state.nativeOptin.txs| + a + 3
                       && txs[e..e + |state.nativeOptin.txs|] == state.nativeOptin.txs)
  {
    AlgorandStepOrder(tokenBridgeId, bridgeId, sender, assetId, qty, receiver, chain, fee,
                      payload, state);
    AlgorandTransferAndFinalCall(tokenBridgeId, bridgeId, sender, assetId, qty, receiver, chain,
                                 fee, payload, state);
  }

  /**
   * The transfer and the final call. For ALGO (asset 0) a payment of `qty`
   * to the creator, with accounts [emitter, creator, creator]; otherwise an
   * asset transfer of `qty` with accounts [emitter, creator, the asset
   * creator's account address]. The last transaction is the `sendTransfer`
   * call to the token bridge with doubled fee, naming the core bridge and
   * the asset; its arguments are the six fixed fields, followed by the
   * payload exactly when one is given.
   */
  lemma AlgorandTransferAndFinalCall(
    tokenBridgeId: AppId, bridgeId: AppId, sender: Address, assetId: AssetId, qty: nat,
    receiver: string, chain: ChainId, fee: nat, payload: Option<Bytes>, state: ChainReads)
    ensures var txs := AlgorandTransferTxs(tokenBridgeId, bridgeId, sender, assetId, qty,
                                           receiver, chain, fee, payload, state);
            var creator := Creator(assetId, state);
            var t := txs[|txs| - 2];
            var last := txs[|txs| - 1];
      && |txs| >= 3 && t.signer.None? && last.signer.None?
      && (assetId == 0 ==> t.tx == Txn(Payment(sender, creator, qty))
                           && last.tx.body.accounts == [state.emitterOptin.addr, creator, creator])
      && (assetId != 0 ==> t.tx == Txn(AssetTransfer(sender, creator, qty, assetId))
                           && last.tx.body.accounts == [state.emitterOptin.addr, creator,
                                                   state.creatorAccount.address])
      && last.tx.body.AppCall? && last.tx.body.from == sender
      && last.tx.body.appIndex == tokenBridgeId
      && last.tx.feeMultiplier == 2
      && last.tx.body.foreignApps == [bridgeId] && last.tx.body.foreignAssets == [assetId]
      && |last.tx.body.appArgs| == (if payload.Some? then 7 else 6)
      && last.tx.body.appArgs[..6] == [Text("sendTransfer"), Uint64(assetId), Uint64(qty),
                                  HexBytes(receiver), Uint64(chain), Uint64(fee)]
      && (payload.Some? ==> last.tx.body.appArgs[6] == Raw(payload.value))
  {
    var txs := AlgorandTransferTxs(tokenBridgeId, bridgeId, sender, assetId, qty, receiver,
                                   chain, fee, payload, state);
    var fin := FinalSteps(tokenBridgeId, bridgeId, sender, assetId, qty, receiver, chain, fee,
                          payload, state);
    assert txs[|txs| - 3..] == fin;
    assert txs[|txs| - 2] == fin[1] && txs[|txs| - 1] == fin[2];
  }
}
