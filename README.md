# Wormhole token bridge: outbound transfer builders

This project models the outbound transfer builders of the Wormhole JavaScript SDK's token bridge,
found in `sdk/js/src/token_bridge/transfer.ts`. For each source chain, a builder turns "send `amount` of this
token to `recipient` on chain `recipientChain`" into what that chain's token bridge expects:
- the contract call, which the EVM builders also send, returning its receipt;
- the messages (Terra, Injective);
- the transaction or transaction group (Solana, Algorand);
- the contract calls, which the NEAR builders issue themselves.

The model keeps what each builder hands to its chain: the call, the messages, the transaction or the calls issued.

The model covers nine builders, in five modules:

| module | file | builders | what they produce |
|---|---|---|---|
| `EvmTransfer` | `evm.dfy` | `transferFromEth`, `transferFromEthNative` | one call to the token-bridge contract |
| `CosmWasmTransfer` | `cosmwasm.dfy` | `transferFromTerra`, `transferFromInjective` | two execute messages: deposit or allowance, then initiate |
| `SolanaTransfer` | `solana.dfy` | `transferNativeSol`, `transferFromSolana` | one transaction of SDK instructions |
| `AlgorandTransfer` | `algorand.dfy` | `transferFromAlgorand` | a transaction group |
| `NearTransfer` | `near.dfy` | `transferTokenFromNear`, `transferNearFromNear` | contract calls issued through an account |

`Common` (`common.dfy`) holds what they share:
- `Option` and `Result`.
- Addresses, byte strings and chain ids.
- `CountWhere`, which counts the operations of a transaction that satisfy a predicate. It is used to state "exactly one bridge transfer".

## How the code is modelled

Each SDK constructor the code calls becomes a datatype constructor that carries the arguments the code passes:
- a contract method call;
- a `MsgExecuteContract`;
- a Solana instruction;
- an algosdk transaction.

Anything the code reads from a chain or draws at random is a parameter of the model:
- RPC reads: rent balance, blockhash, opt-in results, message fee, storage balance, bank balance;
- nonces;
- generated keypairs.

The form of each builder follows the code:
- The CosmWasm and Solana builders only compute a value. They are functions, and lemmas state their properties.
- The EVM builders build one contract call, send it and wait for its receipt. The model keeps only the call they send, as a function. Sending and the receipt are left out.
- `transferFromAlgorand` pushes transactions onto a local array, step by step. It is a method over a local sequence, `AlgorandTransfer.TransferFromAlgorand`. Its postcondition ties the result to the specification function `AlgorandTransferTxs`.
- The NEAR builders issue calls one after another through the caller's account. That account is the class `NearTransfer.NearAccount`, which holds a call log that each call appends to. Each method's postcondition states the new log in terms of a specification function.

Behaviour of the code that is easy to misread:
- **Terra and Injective:** both initiate variants keep the relayer fee. Only the EVM and Solana entry points drop it in their payload variants.
- **Origin chain:** `transferFromSolana` tests `originChain` for truthiness, so an origin chain id of 0 counts as "no origin chain", and the token counts as Solana-native.
- **Solana approval:** an SPL transfer always approves the token bridge's authority signer for `amount`, whether the token is native or wrapped.
- **NEAR `fill_bank`:** the top-up attaches the whole message fee, not the shortfall.
- **Payload presence:** a payload that is an empty `Uint8Array` still counts as present. JavaScript treats every array as truthy, so "payload given" means "not null".

## Model

| member | source | states |
|---|---|---|
| EvmTransfer.TransferFromEth | sdk/js/src/token_bridge/transfer.ts:96-131 | one call to the given bridge with the caller's overrides unchanged; `transferTokens` if and only if there is no payload, `transferTokensWithPayload` if and only if there is one; token, amount, recipient chain and address, and nonce are passed through; the relayer fee only in the plain variant, the payload only in the payload variant |
| EvmTransfer.TransferFromEthNative | sdk/js/src/token_bridge/transfer.ts:133-169 | one call to the bridge whose overrides are the caller's, with `value` replaced by the amount; `wrapAndTransferETH` if and only if there is no payload, the with-payload variant if and only if there is one; fields as for the ERC-20 call |
| EvmTransfer.EvmFeeXorPayload | sdk/js/src/token_bridge/transfer.ts:109-128 | every call either builder emits carries exactly one of the relayer fee and the payload, and carries the payload if and only if one was given |
| CosmWasmTransfer.TransferFromTerra | sdk/js/src/token_bridge/transfer.ts:171-258 | exactly two messages, all sent by the wallet |
| CosmWasmTransfer.TerraFundingStep | sdk/js/src/token_bridge/transfer.ts:211-257 | a native denomination is deposited with the bridge, with `amount` of it attached as coins; otherwise the token contract gets a never-expiring `increase_allowance` of `amount` for the bridge; the second message goes to the bridge, has no coins, and names the asset as `native_token` or `token` |
| CosmWasmTransfer.TerraInitiateVariant | sdk/js/src/token_bridge/transfer.ts:184-210 | exactly one initiate message; the key is `initiate_transfer_with_payload` if and only if a payload is given; the relayer fee, recipient chain and address, and nonce are kept in both variants; the payload is carried unchanged |
| CosmWasmTransfer.TransferFromInjectiveAsWritten | sdk/js/src/token_bridge/transfer.ts:311-346 | the code as written: two messages from the wallet, both addressed to the token bridge, including the CW20 `increase_allowance` |
| CosmWasmTransfer.InjectiveAllowanceMisaddressed | sdk/js/src/token_bridge/transfer.ts:327-339 | as written, when the token is not the bridge, the allowance message, and in fact every message, misses the token contract |
| CosmWasmTransfer.TransferFromInjective | sdk/js/src/token_bridge/transfer.ts:272-347 | the corrected builder: exactly two messages, all sent by the wallet |
| CosmWasmTransfer.InjectiveFundingStep | sdk/js/src/token_bridge/transfer.ts:311-346 | a native denomination is deposited with the bridge with `amount` attached as funds; otherwise the token's own contract gets a never-expiring allowance of `amount` for the bridge; the only difference from the code as written is the allowance message's contract |
| CosmWasmTransfer.InjectiveInitiateVariant | sdk/js/src/token_bridge/transfer.ts:285-310 | exactly one initiate message, sent to the bridge with no funds; the action is `initiate_transfer_with_payload` if and only if a payload is given; the asset, fee, recipient and nonce are kept, and the payload field equals the given payload |
| SolanaTransfer.BridgeTransfer | sdk/js/src/token_bridge/transfer.ts:403-430 | the instruction is always a bridge transfer; it is the payload kind if and only if a payload is given, and the native kind if and only if no origin is given |
| SolanaTransfer.BridgeTransferFields | sdk/js/src/token_bridge/transfer.ts:499-557 | accounts, source, nonce, amount and target are passed through; the relayer fee appears only in the plain kinds and the payload only in the payload kinds; the origin chain, origin address and owner appear only in the wrapped kinds |
| SolanaTransfer.TransferNativeSol | sdk/js/src/token_bridge/transfer.ts:349-454 | the fee payer is the payer, the blockhash is passed through, and the message and ancillary keypairs partially sign |
| SolanaTransfer.NativeSolLifecycle | sdk/js/src/token_bridge/transfer.ts:366-451 | exactly seven instructions, in order: create the ancillary account, fund it with `amount`, initialise it as wSOL owned by the payer, pay the bridge fee, approve `amount`, send a native wSOL transfer from the ancillary account to the given target with the given nonce, carrying the given payload in the payload kind, and close the account back to the payer; the funded, approved and transferred amounts are equal |
| SolanaTransfer.NativeSolPayloadVariant | sdk/js/src/token_bridge/transfer.ts:403-430 | exactly one bridge transfer, of the payload kind if and only if a payload is given, otherwise of the plain kind carrying the relayer fee |
| SolanaTransfer.OriginChainId | sdk/js/src/token_bridge/transfer.ts:473-475 | an origin chain id is defined if and only if one is given and it is non-zero, and it is then the given id |
| SolanaTransfer.TransferFromSolana | sdk/js/src/token_bridge/transfer.ts:456-568 | a built transaction has the payer as fee payer, the given blockhash, and the message keypair as its only partial signer |
| SolanaTransfer.SolanaNativenessAndOriginError | sdk/js/src/token_bridge/transfer.ts:492-498 | a token is Solana-native if and only if the origin chain is absent, 0 or Solana; the builder fails if and only if the token is not native and no origin address is given, and the error is "originAddress is required when specifying originChain" |
| SolanaTransfer.SolanaSplShape | sdk/js/src/token_bridge/transfer.ts:476-562 | exactly three instructions: bridge fee, approval of `amount` over `from` by its owner (the payer when no owner is given), then the bridge transfer of the same amount, naming the token bridge, the core bridge, the payer and the message account (the only partial signer), to the given target with the given nonce, carrying the given payload in the payload kind; the transfer is wrapped if and only if the token is not native, and then carries the given origin chain and address |
| SolanaTransfer.SolanaPayloadVariant | sdk/js/src/token_bridge/transfer.ts:499-557 | exactly one bridge transfer, of the payload kind if and only if a payload is given, otherwise of the plain kind carrying the relayer fee |
| AlgorandTransfer.TransferFromAlgorand | sdk/js/src/token_bridge/transfer.ts:584-730 | the group the method builds step by step equals the specification `AlgorandTransferTxs`: the emitter opt-in, then the message-fee payment, the native opt-in, the asset opt-in, `nop`, the transfer, and `sendTransfer` |
| AlgorandTransfer.AlgorandStepOrder | sdk/js/src/token_bridge/transfer.ts:601-683 | the emitter opt-in transactions come first; the fee payment to the bridge address is present if and only if the message fee is positive; the native opt-in transactions if and only if the asset is not bridge-wrapped; the 100000 funding payment and the doubled-fee `optin` call if and only if the asset is not ALGO and the creator has not opted in; the group ends with `nop`, the transfer and `sendTransfer`; the exact length follows |
| AlgorandTransfer.AlgorandCreatorChoice | sdk/js/src/token_bridge/transfer.ts:609-705 | when the asset is not ALGO and its creator's auth address is the token bridge's, the transfer goes to that creator, `sendTransfer` names it as its second account, and the group holds no "native" opt-in transactions; otherwise (always for ALGO) the group holds the "native" opt-in transactions and both the transfer and `sendTransfer` name the storage account that opt-in returned |
| AlgorandTransfer.AlgorandTransferAndFinalCall | sdk/js/src/token_bridge/transfer.ts:685-729 | ALGO moves by a payment, and any other asset by an asset transfer of `qty` to the creator; the last transaction is the token bridge's `sendTransfer` with doubled fee, the core bridge and the asset as foreign references, the accounts as the code picks them, and six fixed arguments plus the payload exactly when one is given |
| NearTransfer.NearAccount.FunctionCall | sdk/js/src/token_bridge/transfer.ts:762-777 | issuing a call appends exactly that call to the account's log |
| NearTransfer.EndsWithSplit | sdk/js/src/token_bridge/transfer.ts:756 | `endsWith(suffix)` holds if and only if the string is some prefix followed by the suffix |
| NearTransfer.WrappedAssetIff | sdk/js/src/token_bridge/transfer.ts:756 | a token is bridge-wrapped if and only if its account id is some name, then ".", then the token bridge's account id |
| NearTransfer.TransferTokenFromNear | sdk/js/src/token_bridge/transfer.ts:745-842 | the account's log grows by exactly the calls `TokenTransferCalls` prescribes for the asset and the chain reads; nothing else changes |
| NearTransfer.TokenTransferCallRules | sdk/js/src/token_bridge/transfer.ts:762-838 | a wrapped token is sent with the single `send_transfer_wormhole_token` call to the bridge, with the message fee plus 1 attached; otherwise the last call is `ft_transfer_call` with 1 attached; `storage_deposit` happens if and only if the storage balance is null; `register_bank` if and only if the fee is positive and the bank is unregistered; `fill_bank` if and only if the fee is positive and the balance is below it; the number of calls is exactly one per rule that fires plus the transfer, and every call of a preparatory kind has exactly the stated arguments, deposit and gas |
| NearTransfer.TokenTransferCallOrder | sdk/js/src/token_bridge/transfer.ts:779-838 | the calls come in the order storage registration, bank registration, bank top-up, transfer, and no kind of call repeats |
| NearTransfer.TransferNearFromNear | sdk/js/src/token_bridge/transfer.ts:856-883 | the account's log grows by exactly the one `send_transfer_near` call |
| NearTransfer.NearTransferDeposit | sdk/js/src/token_bridge/transfer.ts:868-880 | the call goes to the bridge as `send_transfer_near`, with `qty` plus the message fee attached; its arguments carry exactly the given receiver, target chain, relayer fee, payload and message fee; it carries the standard gas |

## Left out

- Network and signing: sending transactions, waiting for receipts, signing, and keypair generation. The generated public keys are parameters, and so are the nonces `createNonce` draws.
- Chain reads are parameters with no model of their own:
  - Solana's rent-exempt minimum and recent blockhash;
  - Algorand's `optin`, `assetOptinCheck`, `getMessageFee`, asset and account lookups;
  - NEAR's `message_fee`, `storage_balance_of` and `bank_balance`.
  
  The model does not check that these values are consistent with any chain state.
- `isNativeDenom` and `isNativeDenomInjective` are not part of this model. Their answer is the parameter `isNativeAsset`.
- `createBridgeFeeTransferInstruction` reads the fee from the chain. It is the opaque instruction `BridgeFeeTransfer(bridge, payer)`.
- Chain names: `coalesceChainId` and the chain-name arguments are not modelled. Every chain is a numeric id.
- Encodings: hex, base58, bech32 and the `Uint8Array`/`Buffer` conversions; `safeBigIntToNumber`, `BN` and `bigint` arithmetic. Amounts are unbounded naturals, so the model does not capture values beyond 64 bits being rejected or truncated.
- EVM: `getAllowanceEth` and `approveEth` are separate helpers that the builders do not call. The overrides are reduced to `value`, `gasLimit`, `gasPrice` and `from`.
- AlgorandTransfer.TransferFromAlgorand: only the fee multiplier (1 or 2) of each transaction is modelled. The absolute fee comes from algosdk's suggested parameters, and the group id algosdk assigns is not modelled either.
- NEAR: the calls are issued one after another with no atomicity. The model does not capture failure or abort partway through. `parseSequenceFromLogNear`, which reads the sequence number from the final outcome, is not modelled either.
- SolanaTransfer.NativeSolLifecycle: the code funds the ancillary account with `Number(amount)`, which rounds amounts above 2^53 lamports. The approval and the transfer use the exact `bigint`. The model funds it with the exact `amount`, so it does not capture that rounding.
- NearTransfer.TokenTransferCallOrder: it states the order by call kind only. The exact arguments are stated by `TokenTransferCallRules`.

## Findings

| source | as written | input that shows it | evidently intended | confidence | as-written member | corrected member |
|---|---|---|---|---|---|---|
| sdk/js/src/token_bridge/transfer.ts:327-339 | the CW20 branch of `transferFromInjective` sends `increase_allowance` with `contractAddress: tokenBridgeAddress`, so the bridge is asked to grant an allowance on itself | any non-native asset whose token address differs from the token bridge address (`isNativeAsset = false`, `token != tokenBridge`) | the allowance is executed on the token's own contract, as `transferFromTerra` does (lines 232-244), so that the bridge can pull the tokens | medium, not executed | CosmWasmTransfer.InjectiveAllowanceMisaddressed | CosmWasmTransfer.InjectiveFundingStep |
