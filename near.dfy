/**
 * Outbound transfers from NEAR: `transferTokenFromNear` (a fungible token,
 * bridge-wrapped or not) and `transferNearFromNear` (the NEAR currency).
 * Unlike the other builders these do not return a transaction: they issue
 * contract calls one after another through the caller's account, and which
 * calls are issued depends on values read from the chain beforehand. The
 * account is a class whose call log records every `functionCall`; the
 * view-function reads (`message_fee`, `storage_balance_of`,
 * `bank_balance`) are parameters. Gas and deposits are in the units the
 * code writes them (gas units, yoctoNEAR).
 */
module NearTransfer {
  import opened Common

  /** Gas attached to every call. */
  const CALL_GAS: nat := 100000000000000

  /** 0.002 NEAR in yoctoNEAR: the storage and bank registration deposit. */
  const REGISTRATION_DEPOSIT: nat := 2000000000000000000000

  /** The `msg` an `ft_transfer_call` forwards to the token bridge. */
  datatype TransferMsg = TransferMsg(
    receiver: Bytes, chain: ChainId, fee: nat, payload: string, messageFee: nat)

  /** The arguments of each call the builders make, by method. */
  datatype CallArgs =
    | SendTransferWormholeToken(token: string, amount: nat, msg: TransferMsg)
    | StorageDeposit(accountId: string, registrationOnly: bool)
    | RegisterBank
    | FillBank
    | FtTransferCall(receiverId: string, amount: nat, msg: TransferMsg)
    | SendTransferNear(msg: TransferMsg)

  /** One `functionCall`: contract, arguments (which fix the method name), deposit, gas. */
  datatype Call = Call(contractId: string, args: CallArgs, attachedDeposit: nat, gas: nat)

  /** The method name each kind of call invokes. */
  function MethodName(args: CallArgs): string {
    match args
    case SendTransferWormholeToken(_, _, _) => "send_transfer_wormhole_token"
    case StorageDeposit(_, _) => "storage_deposit"
    case RegisterBank => "register_bank"
    case FillBank => "fill_bank"
    case FtTransferCall(_, _, _) => "ft_transfer_call"
    case SendTransferNear(_) => "send_transfer_near"
  }

  /** What `bank_balance` returns: whether the account is registered, and its balance. */
  datatype BankBalance = BankBalance(registered: bool, balance: nat)

  /** A NEAR account and the calls it has issued so far. */
  class NearAccount {
    const accountId: string
    var calls: seq<Call>

    constructor (accountId: string)
      ensures this.accountId == accountId && calls == []
    {
      this.accountId := accountId;
      calls := [];
    }

    /** `functionCall`: issue one call. */
    method FunctionCall(call: Call)
      modifies this
      ensures calls == old(calls) + [call]
    {
      calls := calls + [call];
    }
  }

  /** `s.endsWith(suffix)`. */
  predicate EndsWith(s: string, suffix: string) {
    |suffix| <= |s| && s[|s| - |suffix|..] == suffix
  }

  /** A token account is bridge-wrapped when it is a sub-account of the token bridge. */
  predicate IsWrappedAsset(assetId: string, tokenBridge: string) {
    EndsWith(assetId, "." + tokenBridge)
  }

  /** `endsWith` holds exactly when the string is some prefix followed by the suffix. */
  lemma EndsWithSplit(s: string, suffix: string)
    ensures EndsWith(s, suffix) <==> exists p :: s == p + suffix
  {
    if EndsWith(s, suffix) {
      var p := s[..|s| - |suffix|];
      assert s == p + suffix;
    }
    if exists p :: s == p + suffix {
      var p :| s == p + suffix;
      assert s[|s| - |suffix|..] == suffix;
    }
  }

  /**
   * A token is bridge-wrapped if and only if its account id is some name
   * followed by "." and the token bridge's account id.
   */
  lemma WrappedAssetIff(assetId: string, tokenBridge: string)
    ensures IsWrappedAsset(assetId, tokenBridge)
            <==> exists p :: assetId == p + "." + tokenBridge
  {
    EndsWithSplit(assetId, "." + tokenBridge);
    forall p
      ensures (assetId == p + "." + tokenBridge) == (assetId == p + ("." + tokenBridge))
    {
      assert p + "." + tokenBridge == p + ("." + tokenBridge);
    }
  }

  /** The calls `transferTokenFromNear` issues, in order. */
  function TokenTransferCalls(
    tokenBridge: string, assetId: string, qty: nat, receiver: Bytes, chain: ChainId, fee: nat,
    payload: string, messageFee: nat, storageBalance: Option<nat>, bank: BankBalance)
    : seq<Call>
  {
    var msg := TransferMsg(receiver, chain, fee, payload, messageFee);
    if IsWrappedAsset(assetId, tokenBridge) then
      [Call(tokenBridge, SendTransferWormholeToken(assetId, qty, msg), messageFee + 1, CALL_GAS)]
    else
      (if storageBalance.None?
       then [Call(assetId, StorageDeposit(tokenBridge, true), REGISTRATION_DEPOSIT, CALL_GAS)]
       else [])
      + (if messageFee > 0 && !bank.registered
         then [Call(tokenBridge, RegisterBank, REGISTRATION_DEPOSIT, CALL_GAS)]
         else [])
      + (if messageFee > 0 && bank.balance < messageFee
         then [Call(tokenBridge, FillBank, messageFee, CALL_GAS)]
         else [])
      + [Call(assetId, FtTransferCall(tokenBridge, qty, msg), 1, CALL_GAS)]
  }

  /**
   * `transferTokenFromNear`: issues, through `client`, the calls the asset
   * and the chain reads call for. `messageFee` is the core bridge's
   * `message_fee`, `storageBalance` the token's `storage_balance_of` for
   * the token bridge (None for null), `bank` the token bridge's
   * `bank_balance` read for `client.accountId`.
   */
  method TransferTokenFromNear(
    client: NearAccount, tokenBridge: string, assetId: string, qty: nat, receiver: Bytes,
    chain: ChainId, fee: nat, payload: string,
    messageFee: nat, storageBalance: Option<nat>, bank: BankBalance)
    modifies client
    ensures client.calls
            == old(client.calls)
               + TokenTransferCalls(tokenBridge, assetId, qty, receiver, chain, fee, payload,
                                    messageFee, storageBalance, bank)
  {
    var wormhole := EndsWith(assetId, "." + tokenBridge);
    var msg := TransferMsg(receiver, chain, fee, payload, messageFee);
    if wormhole {
      client.FunctionCall(Call(tokenBridge, SendTransferWormholeToken(assetId, qty, msg),
                               messageFee + 1, CALL_GAS));
    } else {
      if storageBalance.None? {
        client.FunctionCall(Call(assetId, StorageDeposit(tokenBridge, true),
                                 REGISTRATION_DEPOSIT, CALL_GAS));
      }
      if messageFee > 0 {
        if !bank.registered {
          client.FunctionCall(Call(tokenBridge, RegisterBank, REGISTRATION_DEPOSIT, CALL_GAS));
        }
        if bank.balance < messageFee {
          client.FunctionCall(Call(tokenBridge, FillBank, messageFee, CALL_GAS));
        }
      }
      client.FunctionCall(Call(assetId, FtTransferCall(tokenBridge, qty, msg), 1, CALL_GAS));
    }
  }

  /** The position of each preparatory call in the required order. */
  function StepRank(args: CallArgs): nat {
    match args
    case StorageDeposit(_, _) => 0
    case RegisterBank => 1
    case FillBank => 2
    case _ => 3
  }

  /**
   * The call rules for a token transfer. A wrapped token is sent with the
   * single `send_transfer_wormhole_token` call on the bridge, attaching the
   * message fee plus one. Otherwise: `storage_deposit` on the token is
   * issued if and only if its storage balance for the bridge is null;
   * `register_bank` if and only if the message fee is positive and the bank
   * is unregistered; `fill_bank`, with the message fee attached, if and
   * only if the fee is positive and the bank balance is below it; and the
   * transfer is the `ft_transfer_call` to the bridge for `qty`, attaching
   * one yoctoNEAR, issued last. No other call is issued, and every call of
   * a preparatory kind has exactly the arguments, deposit and gas above.
   */
  lemma TokenTransferCallRules(
    tokenBridge: string, assetId: string, qty: nat, receiver: Bytes, chain: ChainId, fee: nat,
    payload: string, messageFee: nat, storageBalance: Option<nat>, bank: BankBalance)
    ensures var calls := TokenTransferCalls(tokenBridge, assetId, qty, receiver, chain, fee,
                                            payload, messageFee, storageBalance, bank);
            var msg := TransferMsg(receiver, chain, fee, payload, messageFee);
      && |calls| >= 1
      && (IsWrappedAsset(assetId, tokenBridge) ==>
            calls == [Call(tokenBridge, SendTransferWormholeToken(assetId, qty, msg),
                           messageFee + 1, CALL_GAS)])
      && (!IsWrappedAsset(assetId, tokenBridge) ==>
            && calls[|calls| - 1]
               == Call(assetId, FtTransferCall(tokenBridge, qty, msg), 1, CALL_GAS)
            && ((Call(assetId, StorageDeposit(tokenBridge, true), REGISTRATION_DEPOSIT, CALL_GAS)
                 in calls)
                <==> storageBalance.None?)
            && (Call(tokenBridge, RegisterBank, REGISTRATION_DEPOSIT, CALL_GAS) in calls
                <==> messageFee > 0 && !bank.registered)
            && (Call(tokenBridge, FillBank, messageFee, CALL_GAS) in calls
                <==> messageFee > 0 && bank.balance < messageFee)
            && |calls| == (if storageBalance.None? then 1 else 0)
                          + (if messageFee > 0 && !bank.registered then 1 else 0)
                          + (if messageFee > 0 && bank.balance < messageFee then 1 else 0) + 1
            && forall i :: 0 <= i < |calls| ==>
                 && (calls[i].args.StorageDeposit? ==>
                       calls[i]
                       == Call(assetId, StorageDeposit(tokenBridge, true), REGISTRATION_DEPOSIT,
                               CALL_GAS))
                 && (calls[i].args.RegisterBank? ==>
                       calls[i] == Call(tokenBridge, RegisterBank, REGISTRATION_DEPOSIT, CALL_GAS))
                 && (calls[i].args.FillBank? ==>
                       calls[i] == Call(tokenBridge, FillBank, messageFee, CALL_GAS)))
  {
  }

  /**
   * Ordering: the calls of a token transfer are issued storage registration
   * first, then bank registration, then bank top-up, then the transfer, and
   * no kind of call is issued twice.
   */
  lemma TokenTransferCallOrder(
    tokenBridge: string, assetId: string, qty: nat, receiver: Bytes, chain: ChainId, fee: nat,
    payload: string, messageFee: nat, storageBalance: Option<nat>, bank: BankBalance)
    ensures var calls := TokenTransferCalls(tokenBridge, assetId, qty, receiver, chain, fee,
                                            payload, messageFee, storageBalance, bank);
      forall i, j :: 0 <= i < j < |calls| ==> StepRank(calls[i].args) < StepRank(calls[j].args)
  {
    var calls := TokenTransferCalls(tokenBridge, assetId, qty, receiver, chain, fee,
                                    payload, messageFee, storageBalance, bank);
    if !IsWrappedAsset(assetId, tokenBridge) {
      var a := if storageBalance.None? then [0] else [];
      var b := if messageFee > 0 && !bank.registered then [1] else [];
      var c := if messageFee > 0 && bank.balance < messageFee then [2] else [];
      var ranks := a + b + c + [3];
      assert |ranks| == |calls|;
      assert forall i :: 0 <= i < |calls| ==> StepRank(calls[i].args) == ranks[i];
      assert forall i, j :: 0 <= i < j < |ranks| ==> ranks[i] < ranks[j];
    }
  }

  /** The call `transferNearFromNear` issues. */
  function NearTransferCall(
    tokenBridge: string, qty: nat, receiver: Bytes, chain: ChainId, fee: nat, payload: string,
    messageFee: nat): Call
  {
    Call(tokenBridge, SendTransferNear(TransferMsg(receiver, chain, fee, payload, messageFee)),
         qty + messageFee, CALL_GAS)
  }

  /**
   * `transferNearFromNear`: one `send_transfer_near` call on the token
   * bridge, attaching the quantity plus the message fee.
   */
  method TransferNearFromNear(
    client: NearAccount, tokenBridge: string, qty: nat, receiver: Bytes, chain: ChainId,
    fee: nat, payload: string, messageFee: nat)
    modifies client
    ensures client.calls
            == old(client.calls) + [NearTransferCall(tokenBridge, qty, receiver, chain, fee,
                                                     payload, messageFee)]
  {
    client.FunctionCall(NearTransferCall(tokenBridge, qty, receiver, chain, fee, payload,
                                         messageFee));
  }

  /**
   * The NEAR-currency transfer attaches exactly `qty` plus the message fee,
   * forwards the receiver, the target chain, the relayer fee, the payload
   * and that message fee to the bridge in its arguments, and carries the
   * standard gas.
   */
  lemma NearTransferDeposit(
    tokenBridge: string, qty: nat, receiver: Bytes, chain: ChainId, fee: nat, payload: string,
    messageFee: nat)
    ensures var c := NearTransferCall(tokenBridge, qty, receiver, chain, fee, payload, messageFee);
      && c.contractId == tokenBridge && MethodName(c.args) == "send_transfer_near"
      && c.attachedDeposit == qty + messageFee
      && c.args.msg == TransferMsg(receiver, chain, fee, payload, messageFee) && c.gas == CALL_GAS
  {
  }
}
