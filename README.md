# Owned: a two-step ownership guard with owner-only sweeps

This project models the `StubOwned` contract of solidity-shared-lib. The model follows the
behaviour that `test/owned.js` asserts. The contract has one administrator, `contractOwner`.
It also has a nominee, `pendingContractOwner`, which is the zero address when no transfer is
pending. Its five operations are:

- `changeContractOwnership(candidate)`: the owner nominates a non-zero candidate.
- `claimContractOwnership()`: the nominee accepts and becomes the owner.
- `transferOwnership(newOwner)`: the owner hands over in one step. Any nomination is cancelled.
- `withdrawTokens(tokens)`: for each listed token, the contract's entire balance goes to the owner.
- `withdrawEther()`: the contract's entire native balance goes to the owner.

The caller is always an explicit parameter. An unauthorised or invalid call returns `false`
and changes nothing. It does not abort.

Files:

- `ledgers.dfy` (module `Ledgers`): 160-bit addresses with the zero address `Zero`; ledgers as
  maps from holder to `nat`, where a missing holder holds 0; `Move`, the transfer of an amount
  between two holders.
- `owned_spec.dfy` (module `OwnedSpec`): the guard as a pure state machine. A `World` holds the
  guard, the contract's own address, every token's ledger and the native balances. Each
  operation is a function from a `World` and a caller to an `Outcome`: a success flag, the new
  world and the events logged. `Step` and `Run` replay sequences of calls. The lemmas state
  what the tests assert, plus the invariants that hold over any sequence of calls.
- `owned.dfy` (module `Owned`): the same contract in imperative form.
  - `OwnedContract` is a class with the fields `contractOwner` and `pendingContractOwner`.
  - `Chain` is the host. It holds the token ledgers, the native balances and a ghost event log.
  - Each method's `ensures` makes its result, its new state and the events it appends equal to
    what the matching `OwnedSpec` function computes from the old state.
  - `withdrawTokens` is a loop over the token list.
  - Four client methods replay the test file's four contexts against these objects.

How the model makes the tests' checks precise:

- A `.call(...)` expected to return `false`, followed by a re-read of state, becomes one
  method or function that returns the flag together with the new state.
- The receipt searches done by `findEvent` become the event log.
- Hex-string and BigNumber comparisons become `nat` equality.

## Model

| member | source | states |
|---|---|---|
| `Ledgers.Move` | test/owned.js:257-266 | the sender loses exactly the amount and the recipient gains exactly it; every other holder is unchanged; the two balances' sum is kept; moving to oneself or moving 0 changes nothing |
| `OwnedSpec.Deploy` | test/owned.js:71-73 | right after deployment the owner is the deployer and nobody is pending |
| `OwnedSpec.ChangeContractOwnershipCases` | test/owned.js:75-94 | nomination succeeds iff the caller is the owner and the candidate is non-zero; on success pending = candidate; the owner never changes and no event is logged; a refused call changes nothing |
| `OwnedSpec.ClaimContractOwnershipCases` | test/owned.js:96-115 | a claim succeeds iff a nomination is pending and the caller is the nominee; then the owner is the former nominee, pending is zero, exactly one `OwnershipTransferred(old owner, claimer)` is logged, and no balance moves; otherwise nothing changes |
| `OwnedSpec.TransferOwnershipCases` | test/owned.js:128-161 | a direct transfer succeeds iff the caller is the owner and the target is non-zero; then owner = target, pending = zero, and exactly one `OwnershipTransferred(old, new)` is logged; otherwise nothing changes |
| `OwnedSpec.StepOkIffAuthorised` | test/owned.js:75-140 | for every kind of call, success is exactly the condition in `Authorised`, the five calls' success conditions gathered in one table |
| `OwnedSpec.FailedStepIsNoOp` | test/owned.js:222-242 | a refused call of any kind leaves the whole world unchanged and logs nothing |
| `OwnedSpec.StepFrame` | test/owned.js:173-352 | the contract's address never changes; only `withdrawTokens` changes token ledgers; only `withdrawEther` changes native balances; the sweeps never change the owner or the nominee |
| `OwnedSpec.StepKeepsOwnerNonZero` | test/owned.js:82-87 | no call makes the owner the zero address |
| `OwnedSpec.OwnerChangesOnlyWithEvent` | test/owned.js:103-161 | the owner changes only through a successful claim or direct transfer; each of those logs exactly one `OwnershipTransferred(pre-call owner, post-call owner)` and leaves pending zero; no other call logs an ownership event |
| `OwnedSpec.GuardChangesOnlyByOwnerOrClaim` | test/owned.js:75-101 | the owner and nominee fields change only on a call by the owner, or on a claim by the non-zero nominee |
| `OwnedSpec.NewNominationSupersedes` | test/owned.js:96-101 | after nominating A and then B, pending is B; A's claim fails and B's succeeds |
| `OwnedSpec.TransferCancelsNomination` | test/owned.js:142-169 | a nomination followed by a direct transfer leaves pending zero, and the former nominee's claim fails |
| `OwnedSpec.WithdrawEtherEffect` | test/owned.js:281-349 | succeeds iff the caller is the owner; a stranger moves nothing; an empty balance is swept without failing and without change; when the contract is not its own owner, the contract ends with 0 and the owner gains the whole former balance; when it is, nothing changes; nobody else's balance changes and no event is logged |
| `OwnedSpec.SweepTokenEffect` | test/owned.js:244-267 | one token: for a non-zero balance exactly one `Transfer(contract, owner, balance)` is logged and, when the contract is not its own owner, the contract ends with 0 and the owner gains the whole balance; for a zero balance nothing changes and nothing is logged; no other token or holder is affected |
| `OwnedSpec.SweepTokensBalances` | test/owned.js:244-267 | when the contract is not its own owner: after the owner's sweep of a list, for each listed token the contract holds 0 and the owner holds its old balance plus the contract's; unlisted tokens and other holders are untouched, even when a token is listed twice |
| `OwnedSpec.SweepTokensTransfers` | test/owned.js:182-267 | when the contract is not its own owner: for token t, the sweep logs exactly one `Transfer(t, contract, owner, N)` when t is listed and the contract held N > 0; otherwise it logs none |
| `OwnedSpec.SweepTokensEventsAreTransfers` | test/owned.js:248-255 | every event a sweep logs is a non-zero `Transfer` of a listed token from the contract to the owner |
| `OwnedSpec.RunKeepsOwnerNonZero` | test/owned.js:71-87 | over any sequence of calls from a valid start, the owner never becomes the zero address |
| `OwnedSpec.SweepTokensSelfOwned` | test/owned.js:244-267 | when the contract is its own owner, a sweep of any list leaves every balance of every token unchanged |
| `OwnedSpec.DeployedRunKeepsOwnerNonZero` | test/owned.js:53 | after deployment by a non-zero account, no sequence of calls makes the owner the zero address |
| `OwnedSpec.StepAuditTrail` | test/owned.js:103-161 | one call's ownership events lead from the owner before the call to the owner after it |
| `OwnedSpec.RunAuditTrail` | test/owned.js:103-161 | over any run of calls, the logged `OwnershipTransferred` events form an unbroken chain from the first owner to the current one |
| `Owned.Chain.TokenTransfer` | test/owned.js:208 | `token.transfer` moves exactly the amount and logs one `Transfer`; a transfer beyond the balance is refused and changes nothing |
| `Owned.Chain.SendEther` | test/owned.js:296-298 | a native send moves exactly the amount; a send beyond the balance is refused |
| `Owned.OwnedContract.constructor` | test/owned.js:53 | the deployer becomes `contractOwner` and `pendingContractOwner` is zero |
| `Owned.OwnedContract.ChangeContractOwnership` | test/owned.js:75-94 | result and new guard equal `OwnedSpec.ChangeContractOwnership` of the old state; balances and log unchanged; the owner stays non-zero |
| `Owned.OwnedContract.ClaimContractOwnership` | test/owned.js:96-115 | result, new guard and appended events equal `OwnedSpec.ClaimContractOwnership` of the old state |
| `Owned.OwnedContract.TransferOwnership` | test/owned.js:128-169 | result, new guard and appended events equal `OwnedSpec.TransferOwnership` of the old state |
| `Owned.OwnedContract.WithdrawTokens` | test/owned.js:182-267 | the loop over the list leaves the token ledgers and log exactly as `OwnedSpec.SweepTokens` gives them for an owner call; a stranger's call changes nothing |
| `Owned.OwnedContract.WithdrawEther` | test/owned.js:281-349 | result and native balances equal `OwnedSpec.WithdrawEther` of the old state; no event |
| `Owned.ChangeClaimScenario` | test/owned.js:71-115 | the change/claim context: the five calls return false, false, true, false, true; the final owner is user1, pending is zero, and the log holds the single `OwnershipTransferred(deployer, user1)` |
| `Owned.TransferScenario` | test/owned.js:124-169 | the transferOwnership context: the calls return false, false, true, true, false; the final owner is user1, pending is zero, and the log holds one `OwnershipTransferred(deployer, user1)` |
| `Owned.TokenScenario` | test/owned.js:175-267 | the tokens context: a sweep of a zero balance and a stranger's sweep log nothing; the owner's sweep returns all 1444 tokens; the only events are the deposit and the sweep's `Transfer(contract, owner, 1444)` |
| `Owned.EtherScenario` | test/owned.js:274-349 | the ethers context: the three sweeps return true, false, true; right after the empty sweep the owner's balance is unchanged; right after the stranger's refused sweep the contract still holds the 10000 gwei deposit and the stranger's balance is unchanged; at the end the owner has recovered the whole deposit and the contract holds 0 |

## Left out

- Web3 plumbing is not modelled. This covers the promise wrappers, the transaction and receipt lookups, and `sendEth` as an RPC call (test/owned.js:24-47). Funding the contract with ether is modelled instead as the host send `Chain.SendEther`.
- Gas is not modelled: `getTxExpences` and the `sub(txExpences)` adjustments. Native balances carry no fees.
- Chain snapshots and reverts (`Reverter`) are not modelled. Each scenario method starts from a fresh `Chain`.
- `eventHelpers.findEvent` is not modelled. The ghost event log `Chain.log` replaces it.
- The dry-run `.call` is not modelled separately from the sent transaction. Each operation is one member that returns the flag `.call` would return, together with the new state.
- The zero-balance token test at test/owned.js:184 and 193 reads the token contract's own balance, not the owned contract's. No property is derived from that read. `Owned.TokenScenario` checks the owned contract's balance.
- The Solidity sources of `StubOwned` and `StubToken` are not part of this model. Behaviour comes only from the test assertions.
- Owned.Chain.TokenTransfer: the token is an abstract balance map. Its refusal of a transfer beyond the balance is an assumption, since no test exercises that case. The sweep never asks for more than the balance.
- `withdrawTokens` and `withdrawEther` return `true` for the owner and `false` for anyone else. No test reads these values; they only re-read balances.
- A listed address that is not a token contract is treated as a token with an empty ledger, so it is skipped. On the host, calling such an address would revert the transaction.
- Balances are unbounded `nat`s. The 256-bit width of token and native balances is not modelled. No modelled transfer creates tokens, so no sum can exceed a token's supply.
- Deployment requires a non-zero deployer (`Owned.OwnedContract.constructor`). The host never sends from the zero address, but this is a precondition on the model, not a check the contract makes.
- Events do not record which contract emitted them. `OwnershipTransferred` comes from the guard. `Transfer` carries the token's address.
- `SweepTokenEffect`, `SweepTokensBalances`, `SweepTokensTransfers` and `WithdrawEtherEffect` state the balance movement only for a contract that is not its own owner. `transferOwnership` to the contract's own address is accepted. In that case `SweepTokensSelfOwned` and `WithdrawEtherEffect` prove that no balance changes, but a token listed twice then logs one `Transfer(contract, contract, N)` per listing.
- Concurrency is not modelled: the host runs each call to completion before the next.
