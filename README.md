# XcmPlayground in Dafny

A verified model of the `XcmPlayground` ink! smart contract (`lib.rs`). The contract
stores one unused boolean. Its one message, `send_message(account)`, builds a
fixed XCM version 3 reserve-transfer program for a 32-byte beneficiary account.
It then hands the program to the host through the chain extension:
`prepare_execute(program)` first, then `execute()`. Both calls are declared
with `handle_status = false`, so their status is ignored and `send_message`
never decodes one. Only `take_response` is declared with
`handle_status = true`; its `u32` status goes through
`Error::from_status_code`. There, 0 is success, 1 is `NoResponse`, and any
other code aborts the call. The decoder is modelled on its own, because the
contract never calls `take_response`.

Files:

- `primitives.dfy`, module `Primitives`: the fixed-width unsigned integer types.
- `status.dfy`, module `Status`: the `Error` enum with its discriminant, and
  status-code decoding. The abort is a separate `Fatal` outcome, so it is never
  mistaken for success or for `NoResponse`. An inverse, `StatusCodeOf`, makes
  the round trip explicit.
- `xcm_types.dfy`, module `XcmTypes`: junctions, locations, fungible assets,
  asset filters, weight limits and the instruction tree. Two instructions nest a
  program. Functions that walk any program tree: `Flatten` (pre-order),
  `Depth`, `Locations`, `AccountIds`, plus the `WellFormed` check (at most
  eight junctions per location). `Beneficiaries` lists the beneficiaries of
  a flat instruction sequence; it is applied to `Flatten(x)` to cover a tree.
- `extension.dfy`, module `Extension`: the chain extension as a port class,
  `XcmExtension`, which records every call made on it. Two functions over that
  trace describe the staging protocol the contract relies on: `Staged` (the
  program waiting to run) and `Executed` (the programs run so far).
- `playground.dfy`, module `Playground`: the program builder
  `SendMessageProgram`, the lemmas that fix its exact shape, and the contract
  class `XcmPlayground` with its two constructors and `SendMessage`.

The program `send_message` builds has two top-level instructions
(`TopLevel`). The nested programs add three more, so walking the tree yields
five instructions in pre-order, three levels deep (`Shape`).

The extension port is an explicit object held by the contract (`extension`),
and the constructors take it as a parameter. In ink! it is reached through the
ambient environment.

## Model

| member | source | states |
|---|---|---|
| Status.Discriminant | lib.rs:8-10 | `NoResponse` is declared with discriminant 1, and that is the status code that decodes to `Err(NoResponse)`. |
| Status.FromStatusCode | lib.rs:12-20 | Code 0 gives `Ok` and only 0 does. Code 1 gives `Err(NoResponse)` and only 1 does. Every other code gives `Fatal("Unknown status code")`, never `Ok` or a typed error. |
| Status.DecodeEncoded | lib.rs:8-17 | Every non-fatal outcome decodes back from the code that reports it. `NoResponse` is reported by its discriminant, 1. |
| Status.EncodeDecoded | lib.rs:14-17 | Every code that does not abort equals the code of the outcome it decodes to. |
| Status.NonFatalCodesDistinct | lib.rs:14-17 | Two codes that do not abort and decode to the same outcome are equal. |
| Extension.XcmExtension.PrepareExecute | lib.rs:26-27 | `prepare_execute(xcm)` appends exactly that call, with that program, to the trace. |
| Extension.XcmExtension.Execute | lib.rs:29-30 | `execute()` appends exactly that call to the trace. |
| Extension.PrepareThenExecuteRuns | lib.rs:153-157 | After any trace, `prepare_execute(x)` then `execute()` runs exactly `x`, after whatever ran before, and leaves nothing staged. |
| Extension.ExecuteUnstagedRunsNothing | lib.rs:29-30 | In this model's own abstraction of the host (`Staged`, `Executed`; lib.rs does not say), an `execute()` with no program staged runs nothing. |
| Playground.SendMessageProgram | lib.rs:95-151 | The program `send_message` builds: a `WithdrawAsset` followed by an `InitiateReserveWithdraw`. `TopLevel`, `Withdrawal`, `AtReserve` and `AtDestination` fix its meaning completely; the tree-walking lemmas below relate it to the account. |
| Playground.TopLevel | lib.rs:129-150 | The program has exactly two instructions: `WithdrawAsset`, then `InitiateReserveWithdraw`. The second has filter `Wild(All)` and reserve `{parents: 1, X1(Parachain(1000))}`. |
| Playground.Withdrawal | lib.rs:113-136 | `WithdrawAsset` carries exactly one asset: 5_000_000_000_000 fungible units at `{parents: 1, X3(Parachain(1000), PalletInstance(50), GeneralIndex(1))}`. |
| Playground.AtReserve | lib.rs:118-149 | The program nested at the reserve has two instructions. First, `BuyExecution` with fees of 1_000_000_000_000 at `{parents: 0, X2(PalletInstance(50), GeneralIndex(1))}` and weight limit `Unlimited`. Then `DepositReserveAsset` of `Wild(All)` to `{parents: 1, X1(Parachain(3000))}`. |
| Playground.AtDestination | lib.rs:142-148 | The innermost program is a single `DepositAsset` of `Wild(All)`. Its beneficiary is `{parents: 0, X1(AccountId32 {network: None, id: account})}`. |
| Playground.Flattened | lib.rs:137-150 | In pre-order the tree is: the two outer instructions, the two at the reserve, the one at the destination. |
| Playground.Shape | lib.rs:137-150 | Walked as a tree, the program has five instructions: withdraw, initiate reserve withdrawal, buy execution, deposit reserve asset, deposit asset. Its nesting depth is three. |
| Playground.ProgramLocations | lib.rs:95-121 | The program names exactly five locations, in this order: the withdrawn asset, the reserve, the fee asset, the destination, the beneficiary. |
| Playground.BeneficiaryRoundTrip | lib.rs:94-112 | The program has exactly one deposit beneficiary. It is a local account, and its id is the input account byte for byte. |
| Playground.OnlyAccount | lib.rs:95-121 | The input account is the only account id named anywhere in the program. |
| Playground.Injective | lib.rs:94-150 | Different accounts give different programs. |
| Playground.ProgramWellFormed | lib.rs:95-99 | Every location in the program has at most eight junctions, so it fits a version 3 location. |
| Playground.FeesFromWithdrawnAsset | lib.rs:95-136 | Resolved against the reserve, the fee asset's location is the withdrawn asset's location. The fee is less than the amount withdrawn. Resolved against the reserve, the destination is the sibling parachain 3000. |
| Playground.ZeroAccount | lib.rs:94-97 | For the all-zero account, the single beneficiary decodes to 32 zero bytes. |
| Playground.XcmPlayground.constructor | lib.rs:80-83 | `new(b)` stores `b`. |
| Playground.XcmPlayground.Default | lib.rs:88-91 | `default()` stores `false`, the default boolean. |
| Playground.XcmPlayground.SendMessage | lib.rs:93-157 | `value` is unchanged. The extension receives exactly `prepare_execute(V3(SendMessageProgram(account)))` and then `execute()`, in that order. Those calls run exactly that program and leave nothing staged. |

## Left out

- `prepare_send`, `send`, `new_query` and `take_response` (lib.rs:32-42) are declared on the extension but never called by the contract. No remote `Transact` path exists in this contract.
- The `#[ink::chain_extension]` plumbing is left out: extension ids, the `returns_result` flags and `type ErrorCode`. The `handle_status` flags decide whether a call's status is decoded. They are `false` for `prepare_execute` and `execute` (lib.rs:26, lib.rs:29), so the port records those calls without any status. Only `take_response` (lib.rs:41) has `handle_status = true`, and it is not modelled.
- The `CustomEnvironment` type aliases (lib.rs:45-57) are type plumbing.
- The `u64` handle that `prepare_execute` returns is a host-chosen value that the contract discards, so `XcmExtension.PrepareExecute` returns nothing.
- `VersionedXcm::from` is modelled as an opaque `V3` tag. The version-conversion logic belongs to the external `xcm` crate.
- `MultiAssets::new` and `push` are modelled by their result, a one-element sequence. The crate's sorting and merging of asset collections is not visible here.
- Host-side semantics are foreign runtime behaviour: execution, weight metering, asset custody and cross-chain delivery. `Staged` and `Executed` describe only the order of staging and running.
- `Resolve` is this model's own reading of a location relative to another. It is not the `xcm` crate's reanchoring code.
- Only the XCM types the contract builds are modelled. Other `Junction`, `NetworkId`, `AssetId`, `Fungibility` and `WildMultiAsset` variants are left out, as is every other instruction. The four `NetworkId` variants that are modelled are never built (the contract passes `network: None`); they only give `AccountId32.network` a type.
- The SCALE `Decode` derivation on `Error` and the empty test module are left out.
- Contract storage persistence and the ink! dispatch of constructors and messages are left out.
