# Starlay lending-pool and token-sale vesting transaction builders

This project models, in Dafny, the two hooks of the Starlay web client that turn a
user's intent into a contract call:

- `useLendingPool` (module `LendingPool`). Five actions: `deposit`, `withdraw`,
  `borrow`, `repay` and `setUsageAsCollateral`. Each one checks that the pool
  binding, the account and the signer are present, or throws `Unexpected state`.
  It then builds exactly one pool call and hands it to the transaction handler,
  together with the signer and an optional analytics record. `withdraw` and
  `repay` send the sentinel `-1` ("the whole balance") when `all` is set.
  `borrow` and `repay` always use the variable interest rate.
  `setUsageAsCollateral` replaces the dummy base-asset address with the chain's
  wrapper-token address.
- `useTokenSaleVesting` (module `TokenSaleVesting`). `lock` moves tokens of one
  sale plan (`ido` or `tokenSale`) into the voting escrow. With no locker (id
  absent or zero) it issues `lock` with a fixed duration of 3600. Otherwise it
  issues `deposit`. A confirmed transaction invalidates the vesting user-data
  cache and the voting-escrow cache. The user-data read divides each plan's
  on-chain amounts by 10^18.

Every action is a pure function from the session state and the caller's
arguments to `Result<tx, Error>`. The `tx` value is what the hook hands to
the transaction handler. The two invalidated caches are a class
(`TokenSaleVesting.VestingCaches`) with two stale flags. Only the completion
callback of a confirmed transaction sets them. Amounts are exact `real`
values (bignumber.js decimals), and the 10^18 normalization is exact rational
division. JavaScript truthiness is kept where the source relies on it: an
empty account string or asset symbol counts as missing, like an absent one.

## Model

| member | source | states |
|---|---|---|
| `LendingPool.ToWire` | src/hooks/useLendingPool/index.ts:66 | the "all" amount is sent as -1; an exact amount is sent as itself, unscaled |
| `LendingPool.FromWire` | src/hooks/useLendingPool/index.ts:101 | the contract gateway's reading of the sentinel, which the hook only emits: -1, and only -1, is read as "all" |
| `LendingPool.WireRoundTrip` | src/hooks/useLendingPool/index.ts:66 | reading back a sent amount recovers it, except an exact amount of -1, which is indistinguishable from the sentinel |
| `LendingPool.CreateTrackedData` | src/hooks/useLendingPool/index.ts:28-38 | a record exists iff the symbol is non-empty and the price is known; it then carries the event type, the symbol and price × amount |
| `LendingPool.Deposit` | src/hooks/useLendingPool/index.ts:40-54 | fails with UnexpectedState iff the pool, account or signer is missing; otherwise one deposit call for the account on the given reserve, with the caller's amount unscaled, the signer, and the deposit analytics record |
| `LendingPool.Withdraw` | src/hooks/useLendingPool/index.ts:55-72 | same guard; with `all` the amount is the "all" sentinel (sent as -1), without it exactly the caller's amount; lToken and reserve passed through; the analytics record is priced on the caller's amount |
| `LendingPool.Borrow` | src/hooks/useLendingPool/index.ts:73-90 | same guard; one borrow call with the caller's amount, the variable rate mode and the debt-token address |
| `LendingPool.Repay` | src/hooks/useLendingPool/index.ts:91-107 | same guard; sentinel when `all`, exact amount otherwise; always the variable rate mode; analytics priced on the caller's amount |
| `LendingPool.ReserveAddress` | src/hooks/useLendingPool/index.ts:127-133 | an address that is not the dummy base asset is returned unchanged; the dummy becomes the chain's wrapper address |
| `LendingPool.ReserveAddressIdempotent` | src/hooks/useLendingPool/index.ts:127-133 | when the wrapper is not the dummy, resolving twice equals resolving once and the result is never the dummy |
| `LendingPool.SetUsageAsCollateral` | src/hooks/useLendingPool/index.ts:108-122 | fails with UnexpectedState iff the pool, account, signer or provider is missing; otherwise one toggle call on the resolved reserve with the caller's flag, and no analytics record |
| `LendingPool.CollateralNeverSendsDummy` | src/hooks/useLendingPool/index.ts:112-119 | with a ready session and a wrapper that is not the dummy, the toggle succeeds and its reserve is never the dummy marker |
| `LendingPool.SharedGuard` | src/hooks/useLendingPool/index.ts:40-122 | deposit, withdraw, borrow and repay fail on exactly the same sessions, and the collateral toggle fails whenever they do |
| `LendingPool.AllIgnoresAmount` | src/hooks/useLendingPool/index.ts:55-107 | with `all` set, the withdraw and repay calls do not depend on the amount, and their analytics records are the ones the caller's amount gives without `all` |
| `TokenSaleVesting.LockTx` | src/hooks/contracts/useTokenSaleVesting.ts:48-65 | fails with UnexpectedState iff account, signer or contracts is missing, else with InvalidBigNumber iff the amount is not an integer; otherwise one call to the chosen plan's contract for the account with the unscaled amount: `lock` with duration 3600 iff there is no locker (id absent or zero), `deposit` otherwise |
| `TokenSaleVesting.DurationIgnored` | src/hooks/contracts/useTokenSaleVesting.ts:48-60 | the caller's duration has no effect on what `lock` submits |
| `TokenSaleVesting.LockOrDeposit` | src/hooks/contracts/useTokenSaleVesting.ts:54-64 | exactly one of lock and deposit is issued, on the chosen plan's contract; lock carries the fixed duration, deposit has none |
| `TokenSaleVesting.Pow10` | src/hooks/contracts/useTokenSaleVesting.ts:95-96 | the scale 10^k of a k-decimal amount is at least 1, so dividing by it is defined |
| `TokenSaleVesting.NormalizeBN` | src/hooks/contracts/useTokenSaleVesting.ts:95-96 | the normalized value times 10^decimals is exactly the on-chain integer |
| `TokenSaleVesting.NormalizeRoundTrip` | src/hooks/contracts/useTokenSaleVesting.ts:95-96 | scaling a normalized amount back to on-chain units gives the original integer |
| `TokenSaleVesting.NormalizeStrictlyMonotone` | src/hooks/contracts/useTokenSaleVesting.ts:95-96 | normalization preserves the strict order of amounts |
| `TokenSaleVesting.NormalizePlan` | src/hooks/contracts/useTokenSaleVesting.ts:94-98 | claimable is releasable normalized by 18 decimals and lockable is lockableAmount normalized the same way; scaling either back by 10^18 gives the on-chain integer; the vesting end stays in Unix seconds |
| `TokenSaleVesting.FetchUserData` | src/hooks/contracts/useTokenSaleVesting.ts:85-108 | the `ido` figures come from the ido read and the `tokenSale` figures from the tokenSale read, each normalized |
| `TokenSaleVesting.UserDataDeterminesRaw` | src/hooks/contracts/useTokenSaleVesting.ts:93-106 | equal user data implies equal raw reads: the normalization loses nothing |
| `TokenSaleVesting.UserDataKey` | src/hooks/contracts/useTokenSaleVesting.ts:31-35 | there is a key iff account (non-empty), provider and contracts are present; the key is ("votingescrow-userdata", chain id, account) |
| `TokenSaleVesting.LoadUserData` | src/hooks/contracts/useTokenSaleVesting.ts:31-36 | user data exists iff the key does; each plan's figures are the normalized read of that plan's own contract for the account |
| `TokenSaleVesting.VestingCaches.constructor` | src/hooks/contracts/useTokenSaleVesting.ts:25-36 | both caches start valid |
| `TokenSaleVesting.VestingCaches.OnTxSuccess` | src/hooks/contracts/useTokenSaleVesting.ts:43-46 | the completion callback invalidates both the user-data and the voting-escrow cache |
| `TokenSaleVesting.VestingCaches.HandleTx` | src/hooks/contracts/useTokenSaleVesting.ts:39-46 | a cache becomes stale exactly when the transaction is confirmed; an unconfirmed one changes nothing |
| `TokenSaleVesting.VestingCaches.Lock` | src/hooks/contracts/useTokenSaleVesting.ts:48-65 | submits exactly `LockTx`'s transaction; a rejected call touches no cache; a confirmed one invalidates both |

## Left out

- The contract bindings (`lendingPoolContract`, `tokenSaleVestingContract`) and the transaction handler are outside the model. A pool or vesting call is a recorded value. The sender's confirmation is a boolean parameter of `VestingCaches.HandleTx`.
- The lending-pool hook's own completion callback lives in `txHandler`, which is not part of this model. So the lending-pool actions stop at the value handed to it.
- `equals`, the wrapper address from `getNetworkConfig(chainId).baseAsset` and the value of `BASE_ASSET_DUMMY_ADDRESS` are parameters (`LendingPool.Externals`). Their definitions are not part of this model, for example whether `equals` ignores case.
- `init` and the loading of the pool and plan bindings through the SWR cache are not modelled. The session simply holds them or not. SWR's deduplication of concurrent reads is not modelled either. After invalidation, re-fetching (which would clear a stale flag) is not modelled.
- `Promise.all` in `fetchUserData` is not modelled. `FetchUserData` starts from both plans' completed reads, so a failed read is not represented.
- `dayjs.unix` and the overflow failure of `BigNumber.toNumber` on very large end times are not modelled. `vestingEnd` stays an integer number of seconds.
- String formatting is not modelled. This covers `toString` on amounts, including bignumber.js exponential notation, and the decimal strings the gateway receives. `LockTx` rejects a non-integer amount as `BigNumber.from` does, but not other strings that `BigNumber.from` refuses.
- `setUsageAsCollateral` hands the gateway's pending call to the transaction handler without awaiting it, while the other four actions await the gateway first. So a gateway failure in a collateral toggle reaches the handler instead of being thrown by the hook. The model treats all five actions alike.
- Neither hook scales an amount by 10^18 on the way out; the wire amount is the caller's value.
- Before a collateral toggle only the `provider` is checked; no unsupported-chain error is raised by these hooks.
- Any nonzero locker id, including a negative one, selects `deposit`.

