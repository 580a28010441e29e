/**
 * Outbound transfers from Solana: `transferNativeSol` (SOL itself, wrapped
 * into a temporary wSOL account for the duration of the transaction) and
 * `transferFromSolana` (an SPL token, native to Solana or bridge-wrapped).
 * Both return one transaction whose instructions are built by SDK
 * constructors; each constructor is an `Instruction` constructor here,
 * carrying the arguments the code passes. The rent-exempt balance, the
 * recent blockhash, the nonce and the generated keypairs are parameters;
 * the bridge-fee instruction reads the fee from the chain and is kept opaque.
 */
module SolanaTransfer {
  import opened Common

  type Pubkey = Address

  /** The nonce is the first little-endian 32-bit word of a random buffer. */
  type U32 = n: nat | n < 0x1_0000_0000

  /** The wrapped-SOL mint. */
  const NATIVE_MINT: Pubkey := "So11111111111111111111111111111111111111112"

  /** The SPL token program. */
  const TOKEN_PROGRAM_ID: Pubkey := "TokenkegQfeZyiNwAJbNbGKPFXCWuBvf9Ss623VQ5DA"

  /** `AccountLayout.span`: the size in bytes of an SPL token account. */
  const TOKEN_ACCOUNT_SPAN: nat := 165

  /** Accounts every bridge-transfer instruction names. */
  datatype BridgeAccounts = BridgeAccounts(
    tokenBridge: Pubkey, bridge: Pubkey, payer: Pubkey, message: Pubkey)

  /** Where the tokens go. */
  datatype Target = Target(address: Bytes, chain: ChainId)

  datatype Instruction =
    | CreateAccount(from: Pubkey, newAccount: Pubkey, lamports: nat, space: nat, programId: Pubkey)
    | SystemTransfer(from: Pubkey, to: Pubkey, lamports: nat)
    | InitializeAccount(account: Pubkey, mint: Pubkey, owner: Pubkey)
    | BridgeFeeTransfer(bridge: Pubkey, payer: Pubkey)
    | ApproveAuthoritySigner(tokenBridge: Pubkey, account: Pubkey, owner: Pubkey, amount: nat)
    | TransferNative(accounts: BridgeAccounts, from: Pubkey, mint: Pubkey, nonce: U32,
                     amount: nat, relayerFee: nat, target: Target)
    | TransferNativeWithPayload(accounts: BridgeAccounts, from: Pubkey, mint: Pubkey, nonce: U32,
                                amount: nat, target: Target, payload: Bytes)
    | TransferWrapped(accounts: BridgeAccounts, from: Pubkey, fromOwner: Pubkey,
                      originChain: ChainId, originAddress: Bytes, nonce: U32,
                      amount: nat, relayerFee: nat, target: Target)
    | TransferWrappedWithPayload(accounts: BridgeAccounts, from: Pubkey, fromOwner: Pubkey,
                                 originChain: ChainId, originAddress: Bytes, nonce: U32,
                                 amount: nat, target: Target, payload: Bytes)
    | CloseAccount(account: Pubkey, destination: Pubkey, authority: Pubkey)

  /** A transaction: fee payer, blockhash, instructions in order, partial signers. */
  datatype Transaction = Transaction(
    feePayer: Pubkey, recentBlockhash: string, instructions: seq<Instruction>,
    partialSigners: seq<Pubkey>)

  /** One of the four token-bridge transfer instructions. */
  predicate IsBridgeTransfer(ix: Instruction) {
    ix.TransferNative? || ix.TransferNativeWithPayload?
    || ix.TransferWrapped? || ix.TransferWrappedWithPayload?
  }

  /** A bridge transfer of the with-payload kind. */
  predicate IsPayloadTransfer(ix: Instruction) {
    ix.TransferNativeWithPayload? || ix.TransferWrappedWithPayload?
  }

  /** A bridge transfer of the plain kind, which carries a relayer fee. */
  predicate IsPlainTransfer(ix: Instruction) {
    ix.TransferNative? || ix.TransferWrapped?
  }

  /**
   * The bridge-transfer instruction for a token held in `from`: native or
   * wrapped as `origin` says, with or without payload as `payload` says.
   */
  function BridgeTransfer(
    accounts: BridgeAccounts, from: Pubkey, fromOwner: Pubkey, mint: Pubkey,
    origin: Option<(ChainId, Bytes)>, nonce: U32, amount: nat, relayerFee: nat,
    target: Target, payload: Option<Bytes>): (ix: Instruction)
    ensures IsBridgeTransfer(ix)
    ensures IsPayloadTransfer(ix) <==> payload.Some?
    ensures ix.TransferNative? || ix.TransferNativeWithPayload? <==> origin.None?
  {
    match origin
    case None =>
      if payload.Some?
      then TransferNativeWithPayload(accounts, from, mint, nonce, amount, target, payload.value)
      else TransferNative(accounts, from, mint, nonce, amount, relayerFee, target)
    case Some((chain, address)) =>
      if payload.Some?
      then TransferWrappedWithPayload(accounts, from, fromOwner, chain, address, nonce, amount,
                                      target, payload.value)
      else TransferWrapped(accounts, from, fromOwner, chain, address, nonce, amount,
                           relayerFee, target)
  }

  /**
   * What the bridge-transfer instruction carries: the amount, nonce and
   * target always; the relayer fee only in the plain kind and the payload
   * only in the with-payload kind; origin chain and address only in the
   * wrapped kinds.
   */
  lemma BridgeTransferFields(
    accounts: BridgeAccounts, from: Pubkey, fromOwner: Pubkey, mint: Pubkey,
    origin: Option<(ChainId, Bytes)>, nonce: U32, amount: nat, relayerFee: nat,
    target: Target, payload: Option<Bytes>)
    ensures var ix := BridgeTransfer(accounts, from, fromOwner, mint, origin, nonce, amount,
                                     relayerFee, target, payload);
      && ix.accounts == accounts && ix.from == from && ix.nonce == nonce
      && ix.amount == amount && ix.target == target
      && (IsPlainTransfer(ix) ==> ix.relayerFee == relayerFee)
      && (IsPayloadTransfer(ix) ==> payload == Some(ix.payload))
      && (origin.None? ==> ix.mint == mint)
      && (origin.Some? ==> origin == Some((ix.originChain, ix.originAddress))
                           && ix.fromOwner == fromOwner)
  {
  }

  // ------------------------------------------------------- transferNativeSol

  /**
   * The transaction `transferNativeSol` returns. `rentBalance` is the
   * rent-exempt minimum read from the chain, `ancillary` and `message` the
   * public keys of the two generated keypairs, which also partially sign.
   */
  function TransferNativeSol(
    bridge: Pubkey, tokenBridge: Pubkey, payer: Pubkey, amount: nat, targetAddress: Bytes,
    targetChain: ChainId, relayerFee: nat, payload: Option<Bytes>,
    rentBalance: nat, ancillary: Pubkey, message: Pubkey, nonce: U32, blockhash: string)
    : (tx: Transaction)
    ensures tx.feePayer == payer && tx.recentBlockhash == blockhash
    ensures tx.partialSigners == [message, ancillary]
  {
    var accounts := BridgeAccounts(tokenBridge, bridge, payer, message);
    Transaction(payer, blockhash,
      [ CreateAccount(payer, ancillary, rentBalance, TOKEN_ACCOUNT_SPAN, TOKEN_PROGRAM_ID),
        SystemTransfer(payer, ancillary, amount),
        InitializeAccount(ancillary, NATIVE_MINT, payer),
        BridgeFeeTransfer(bridge, payer),
        ApproveAuthoritySigner(tokenBridge, ancillary, payer, amount),
        BridgeTransfer(accounts, ancillary, payer, NATIVE_MINT, None, nonce, amount, relayerFee,
                       Target(targetAddress, targetChain), payload),
        CloseAccount(ancillary, payer, payer) ],
      [message, ancillary])
  }

  /**
   * The native-SOL lifecycle: exactly seven instructions, in the order
   * create the ancillary account, fund it with `amount`, initialise it as a
   * wSOL account owned by the payer, pay the bridge fee, approve `amount`,
   * transfer from the ancillary account as a native wSOL transfer, close it
   * with the remainder returned to the payer. The funded and the approved
   * amount are both `amount`; the transfer goes to the given target with
   * the given nonce and carries the payload when one is given.
   */
  lemma NativeSolLifecycle(
    bridge: Pubkey, tokenBridge: Pubkey, payer: Pubkey, amount: nat, targetAddress: Bytes,
    targetChain: ChainId, relayerFee: nat, payload: Option<Bytes>,
    rentBalance: nat, ancillary: Pubkey, message: Pubkey, nonce: U32, blockhash: string)
    ensures var ixs := TransferNativeSol(bridge, tokenBridge, payer, amount, targetAddress,
                                         targetChain, relayerFee, payload, rentBalance,
                                         ancillary, message, nonce, blockhash).instructions;
      && |ixs| == 7
      && ixs[0]
         == CreateAccount(payer, ancillary, rentBalance, TOKEN_ACCOUNT_SPAN, TOKEN_PROGRAM_ID)
      && ixs[1] == SystemTransfer(payer, ancillary, amount)
      && ixs[2] == InitializeAccount(ancillary, NATIVE_MINT, payer)
      && ixs[3] == BridgeFeeTransfer(bridge, payer)
      && ixs[4] == ApproveAuthoritySigner(tokenBridge, ancillary, payer, amount)
      && (ixs[5].TransferNative? || ixs[5].TransferNativeWithPayload?)
      && ixs[5].from == ancillary && ixs[5].mint == NATIVE_MINT && ixs[5].amount == amount
      && ixs[5].accounts == BridgeAccounts(tokenBridge, bridge, payer, message)
      && ixs[5].target == Target(targetAddress, targetChain) && ixs[5].nonce == nonce
      && (IsPayloadTransfer(ixs[5]) ==> payload == Some(ixs[5].payload))
      && ixs[6] == CloseAccount(ancillary, payer, payer)
      && ixs[1].lamports == ixs[4].amount == ixs[5].amount
  {
    BridgeTransferFields(BridgeAccounts(tokenBridge, bridge, payer, message), ancillary, payer,
                         NATIVE_MINT, None, nonce, amount, relayerFee,
                         Target(targetAddress, targetChain), payload);
  }

  /**
   * The native-SOL transaction holds exactly one bridge transfer; it is the
   * with-payload kind exactly when a payload is given, and otherwise the
   * plain kind carrying `relayerFee`.
   */
  lemma NativeSolPayloadVariant(
    bridge: Pubkey, tokenBridge: Pubkey, payer: Pubkey, amount: nat, targetAddress: Bytes,
    targetChain: ChainId, relayerFee: nat, payload: Option<Bytes>,
    rentBalance: nat, ancillary: Pubkey, message: Pubkey, nonce: U32, blockhash: string)
    ensures var ixs := TransferNativeSol(bridge, tokenBridge, payer, amount, targetAddress,
                                         targetChain, relayerFee, payload, rentBalance,
                                         ancillary, message, nonce, blockhash).instructions;
      && CountWhere(ixs, IsBridgeTransfer) == 1
      && CountWhere(ixs, IsPayloadTransfer) == (if payload.Some? then 1 else 0)
      && CountWhere(ixs, IsPlainTransfer) == (if payload.Some? then 0 else 1)
      && forall i :: 0 <= i < |ixs| && IsPlainTransfer(ixs[i]) ==> ixs[i].relayerFee == relayerFee
  {
    var ixs := TransferNativeSol(bridge, tokenBridge, payer, amount, targetAddress,
                                 targetChain, relayerFee, payload, rentBalance,
                                 ancillary, message, nonce, blockhash).instructions;
    NativeSolLifecycle(bridge, tokenBridge, payer, amount, targetAddress, targetChain,
                       relayerFee, payload, rentBalance, ancillary, message, nonce, blockhash);
    CountWhereOne(ixs, IsBridgeTransfer, 5);
    if payload.Some? {
      CountWhereOne(ixs, IsPayloadTransfer, 5);
    } else {
      CountWhereOne(ixs, IsPlainTransfer, 5);
    }
  }

  // ------------------------------------------------------ transferFromSolana

  /**
   * The origin chain id as the code computes it: a falsy `originChain`
   * (absent, or the id 0) becomes `undefined`.
   */
  function OriginChainId(originChain: Option<ChainId>): (id: Option<ChainId>)
    ensures id.Some? ==> id == originChain && id.value != 0
    ensures originChain.Some? && originChain.value != 0 ==> id == originChain
  {
    if originChain.Some? && originChain.value != 0 then originChain else None
  }

  /** A token counts as Solana-native when no origin chain other than Solana is named. */
  predicate IsSolanaNative(originChain: Option<ChainId>) {
    var id := OriginChainId(originChain);
    id.None? || id.value == CHAIN_ID_SOLANA
  }

  /** The error `transferFromSolana` rejects with. */
  const ORIGIN_ADDRESS_REQUIRED := "originAddress is required when specifying originChain"

  /**
   * The transaction `transferFromSolana` returns, or its rejection. `message`
   * is the generated message keypair's public key, `nonce` the drawn nonce.
   */
  function TransferFromSolana(
    bridge: Pubkey, tokenBridge: Pubkey, payer: Pubkey, from: Pubkey, mint: Pubkey,
    amount: nat, targetAddress: Bytes, targetChain: ChainId,
    originAddress: Option<Bytes>, originChain: Option<ChainId>, fromOwnerAddress: Option<Pubkey>,
    relayerFee: nat, payload: Option<Bytes>, message: Pubkey, nonce: U32, blockhash: string)
    : (r: Result<Transaction>)
    ensures r.Ok? ==> r.value.feePayer == payer && r.value.recentBlockhash == blockhash
                      && r.value.partialSigners == [message]
  {
    var fromOwner := if fromOwnerAddress.Some? then fromOwnerAddress.value else payer;
    var native := IsSolanaNative(originChain);
    if !native && originAddress.None? then
      Err(ORIGIN_ADDRESS_REQUIRED)
    else
      var origin := if native then None
                    else Some((OriginChainId(originChain).value, originAddress.value));
      Ok(Transaction(payer, blockhash,
        [ BridgeFeeTransfer(bridge, payer),
          ApproveAuthoritySigner(tokenBridge, from, fromOwner, amount),
          BridgeTransfer(BridgeAccounts(tokenBridge, bridge, payer, message), from, fromOwner,
                         mint, origin, nonce, amount, relayerFee,
                         Target(targetAddress, targetChain), payload) ],
        [message]))
  }

  /**
   * Nativeness: a token is Solana-native if and only if the origin chain is
   * absent, 0, or Solana's id. A non-native transfer without an origin
   * address is rejected, and it is the only rejection.
   */
  lemma SolanaNativenessAndOriginError(
    bridge: Pubkey, tokenBridge: Pubkey, payer: Pubkey, from: Pubkey, mint: Pubkey,
    amount: nat, targetAddress: Bytes, targetChain: ChainId,
    originAddress: Option<Bytes>, originChain: Option<ChainId>, fromOwnerAddress: Option<Pubkey>,
    relayerFee: nat, payload: Option<Bytes>, message: Pubkey, nonce: U32, blockhash: string)
    ensures IsSolanaNative(originChain)
            <==> originChain.None? || originChain.value == 0 || originChain.value == CHAIN_ID_SOLANA
    ensures var r := TransferFromSolana(bridge, tokenBridge, payer, from, mint, amount,
                                        targetAddress, targetChain, originAddress, originChain,
                                        fromOwnerAddress, relayerFee, payload, message, nonce,
                                        blockhash);
      && (r.Err? <==> !IsSolanaNative(originChain) && originAddress.None?)
      && (r.Err? ==> r.message == ORIGIN_ADDRESS_REQUIRED)
  {
  }

  /**
   * The SPL transaction: exactly three instructions, bridge fee, approval,
   * bridge transfer. The approval is over `from` by its owner (the payer
   * when no owner is given) for exactly the transferred amount. The
   * transfer is wrapped exactly when the token is not Solana-native, and
   * then it carries the origin chain and origin address given; it carries
   * the given target, nonce and, in the payload kind, the given payload,
   * and names the token bridge, the core bridge, the payer and the message
   * account, whose key is the transaction's only partial signer.
   */
  lemma SolanaSplShape(
    bridge: Pubkey, tokenBridge: Pubkey, payer: Pubkey, from: Pubkey, mint: Pubkey,
    amount: nat, targetAddress: Bytes, targetChain: ChainId,
    originAddress: Option<Bytes>, originChain: Option<ChainId>, fromOwnerAddress: Option<Pubkey>,
    relayerFee: nat, payload: Option<Bytes>, message: Pubkey, nonce: U32, blockhash: string)
    requires TransferFromSolana(bridge, tokenBridge, payer, from, mint, amount, targetAddress,
                                targetChain, originAddress, originChain, fromOwnerAddress,
                                relayerFee, payload, message, nonce, blockhash).Ok?
    ensures var ixs := TransferFromSolana(bridge, tokenBridge, payer, from, mint, amount,
                                          targetAddress, targetChain, originAddress, originChain,
                                          fromOwnerAddress, relayerFee, payload, message, nonce,
                                          blockhash).value.instructions;
            var owner := if fromOwnerAddress.None? then payer else fromOwnerAddress.value;
      && |ixs| == 3
      && ixs[0] == BridgeFeeTransfer(bridge, payer)
      && ixs[1] == ApproveAuthoritySigner(tokenBridge, from, owner, amount)
      && IsBridgeTransfer(ixs[2]) && ixs[2].from == from && ixs[2].amount == ixs[1].amount
      && ixs[2].accounts == BridgeAccounts(tokenBridge, bridge, payer, message)
      && ixs[2].target == Target(targetAddress, targetChain) && ixs[2].nonce == nonce
      && (IsPayloadTransfer(ixs[2]) ==> payload == Some(ixs[2].payload))
      && ((ixs[2].TransferWrapped? || ixs[2].TransferWrappedWithPayload?)
          <==> !IsSolanaNative(originChain))
      && (!IsSolanaNative(originChain) ==>
            Some(ixs[2].originChain) == originChain && Some(ixs[2].originAddress) == originAddress
            && ixs[2].fromOwner == owner)
      && (IsSolanaNative(originChain) ==> ixs[2].mint == mint)
  {
    var owner := if fromOwnerAddress.None? then payer else fromOwnerAddress.value;
    var native := IsSolanaNative(originChain);
    var origin := if native then None
                    else Some((OriginChainId(originChain).value, originAddress.value));
    BridgeTransferFields(BridgeAccounts(tokenBridge, bridge, payer, message), from, owner, mint,
                         origin, nonce, amount, relayerFee, Target(targetAddress, targetChain),
                         payload);
  }

  /**
   * The SPL transaction holds exactly one bridge transfer: the with-payload
   * kind exactly when a payload is given, otherwise the plain kind carrying
   * `relayerFee`.
   */
  lemma SolanaPayloadVariant(
    bridge: Pubkey, tokenBridge: Pubkey, payer: Pubkey, from: Pubkey, mint: Pubkey,
    amount: nat, targetAddress: Bytes, targetChain: ChainId,
    originAddress: Option<Bytes>, originChain: Option<ChainId>, fromOwnerAddress: Option<Pubkey>,
    relayerFee: nat, payload: Option<Bytes>, message: Pubkey, nonce: U32, blockhash: string)
    requires TransferFromSolana(bridge, tokenBridge, payer, from, mint, amount, targetAddress,
                                targetChain, originAddress, originChain, fromOwnerAddress,
                                relayerFee, payload, message, nonce, blockhash).Ok?
    ensures var ixs := TransferFromSolana(bridge, tokenBridge, payer, from, mint, amount,
                                          targetAddress, targetChain, originAddress, originChain,
                                          fromOwnerAddress, relayerFee, payload, message, nonce,
                                          blockhash).value.instructions;
      && CountWhere(ixs, IsBridgeTransfer) == 1
      && CountWhere(ixs, IsPayloadTransfer) == (if payload.Some? then 1 else 0)
      && CountWhere(ixs, IsPlainTransfer) == (if payload.Some? then 0 else 1)
      && forall i :: 0 <= i < |ixs| && IsPlainTransfer(ixs[i]) ==> ixs[i].relayerFee == relayerFee
  {
    var ixs := TransferFromSolana(bridge, tokenBridge, payer, from, mint, amount,
                                  targetAddress, targetChain, originAddress, originChain,
                                  fromOwnerAddress, relayerFee, payload, message, nonce,
                                  blockhash).value.instructions;
    SolanaSplShape(bridge, tokenBridge, payer, from, mint, amount, targetAddress, targetChain,
                   originAddress, originChain, fromOwnerAddress, relayerFee, payload, message,
                   nonce, blockhash);
    var owner := if fromOwnerAddress.None? then payer else fromOwnerAddress.value;
    var origin := if IsSolanaNative(originChain) then None
                  else Some((OriginChainId(originChain).value, originAddress.value));
    BridgeTransferFields(BridgeAccounts(tokenBridge, bridge, payer, message), from, owner, mint,
                         origin, nonce, amount, relayerFee, Target(targetAddress, targetChain),
                         payload);
    CountWhereOne(ixs, IsBridgeTransfer, 2);
    if payload.Some? {
      CountWhereOne(ixs, IsPayloadTransfer, 2);
    } else {
      CountWhereOne(ixs, IsPlainTransfer, 2);
    }
  }
}
